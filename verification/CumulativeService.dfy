/**
 The cumulative-sum node on top of the context service: any number of concurrent executions of one node instance,
 in any number of processes.  Whatever the interleaving, the losses and the timeouts, the stored context is a
 sequential fold of the saved events, in the order of their write locks.
 */
module CumulativeService {
  import opened Options
  import S = ContextService
  import opened ContextSafety
  import opened ClientCluster
  import C = ContextClient
  import E = EndToEnd
  import D = DottedPath
  import Executor
  import Flows
  import Sum = CumulativeSum

  /** The JSON text of a context; the empty text of a new znode is read as the empty context. */
  datatype Codec = Codec(encode: Sum.Context -> string, decode: string -> Sum.Context)

  ghost predicate Faithful(codec: Codec)
  {
    codec.decode("") == Sum.EMPTY && forall c :: codec.decode(codec.encode(c)) == c
  }

  /** A node instance: its context path and period, and the event that each lock request is for. */
  datatype Instance = Instance(path: string, period: int, codec: Codec, eventOf: string -> Sum.Entry)

  /** What the execution for `id` releases its lock with, once it has been given `got`: the accumulated context to
      save, or nothing for "messy time". */
  function Verdict(n: Instance, id: string, got: string): Option<string>
  {
    match Sum.Accumulated(n.codec.decode(got), n.eventOf(id), n.period)
    case Some(updated) => Some(n.codec.encode(updated))
    case None => None
  }

  /** The lock of a request on the node's context is released as the node does. */
  predicate ByTheNode(n: Instance, id: string, life: E.Life, text: Option<string>)
    requires life.Given? || life.Released?
  {
    life.path == n.path && (life.mode == C.WLock || text.Some?) ==> text == Verdict(n, id, life.got)
  }

  /** Only the executions of the node release write locks on its context, at whatever client they run. */
  predicate NodeStep(n: Instance, cl: Cluster, step: Step)
    requires Enabled(cl, step)
  {
    step.By? && step.step.Release? && step.step.id in cl.sides[step.k].lives
    && cl.sides[step.k].lives[step.step.id].Given?
    ==> ByTheNode(n, step.step.id, cl.sides[step.k].lives[step.step.id], step.step.text)
  }

  ghost predicate NodeRun(n: Instance, cl: Cluster, run: seq<Step>, parses: string -> bool)
    requires Legal(cl, run, parses)
    decreases |run|
  {
    run == [] || (NodeStep(n, cl, run[0]) && NodeRun(n, Next(cl, run[0], parses), run[1..], parses))
  }

  /** The states that the clients and the service reach while the node runs. */
  ghost predicate Reaches(n: Instance, base: nat, clients: nat, cl: Cluster)
  {
    exists run, parses :: ReachesBy(n, base, clients, run, parses, cl)
  }

  ghost predicate ReachesBy(n: Instance, base: nat, clients: nat, run: seq<Step>, parses: string -> bool, cl: Cluster)
  {
    && Legal(Start(base, clients), run, parses) && NodeRun(n, Start(base, clients), run, parses)
    && After(Start(base, clients), run, parses) == cl
  }

  // ---------- what is released is what the node computes from what it was given ----------

  ghost predicate AllByTheNode(n: Instance, lives: map<string, E.Life>)
  {
    forall id :: id in lives && lives[id].Released? ==> ByTheNode(n, id, lives[id], lives[id].text)
  }

  ghost predicate NodeInv(n: Instance, cl: Cluster)
  {
    forall k :: 0 <= k < |cl.sides| ==> AllByTheNode(n, cl.sides[k].lives)
  }

  lemma OwnStepKeepsNode(n: Instance, w: E.World, step: E.Step, parses: string -> bool)
    requires E.Enabled(w, step) && AllByTheNode(n, w.lives)
    requires step.Release? && step.id in w.lives && w.lives[step.id].Given?
             ==> ByTheNode(n, step.id, w.lives[step.id], step.text)
    ensures AllByTheNode(n, E.Next(w, step, parses).lives)
  {
    var lives' := E.Next(w, step, parses).lives;
    forall id | id in lives' && lives'[id].Released?
      ensures ByTheNode(n, id, lives'[id], lives'[id].text)
    {
      assert (step.Release? && step.id == id) || (id in w.lives && lives'[id] == w.lives[id]);
    }
  }

  lemma {:induction false} RunKeepsNode(n: Instance, cl: Cluster, run: seq<Step>, parses: string -> bool)
    requires NodeInv(n, cl) && Legal(cl, run, parses) && NodeRun(n, cl, run, parses)
    ensures NodeInv(n, After(cl, run, parses))
    decreases |run|
  {
    if run != [] {
      match run[0] {
        case By(k, own) => OwnStepKeepsNode(n, View(cl, k), own, parses);
        case Serve(_) =>
      }
      RunKeepsNode(n, Next(cl, run[0], parses), run[1..], parses);
    }
  }

  lemma ReachedInv(n: Instance, base: nat, clients: nat, cl: Cluster)
    requires Reaches(n, base, clients, cl)
    ensures ClusterInv(cl) && NodeInv(n, cl) && cl.service.base == base && |cl.sides| == clients
  {
    var run, parses :| ReachesBy(n, base, clients, run, parses, cl);
    StartInv(base, clients);
    RunKeepsCluster(Start(base, clients), run, parses);
    RunKeepsNode(n, Start(base, clients), run, parses);
  }

  // ---------- the history of the context ----------

  /** The commit saves what the execution for its request computes from the content that the commit read. */
  ghost predicate CommittedSum(n: Instance, s: S.State, c: S.Commit)
  {
    c.handle in s.requests && Verdict(n, s.requests[c.handle].key, c.got.text) == Some(c.text)
  }

  ghost predicate AllSums(n: Instance, s: S.State, history: seq<S.Commit>)
  {
    forall c :: c in history ==> CommittedSum(n, s, c)
  }

  lemma ServiceIsInOrder(cl: Cluster, path: string)
    requires ClusterInv(cl) && cl.sides != [] && path in cl.service.store
    ensures Inv(cl.service) && PathData(cl.service, path)
    ensures forall c :: c in cl.service.store[path].history ==> CommitInv(cl.service, path, c)
  {
    assert E.WorldInv(View(cl, 0));
  }

  lemma HistoryIsSums(n: Instance, cl: Cluster)
    requires ClusterInv(cl) && NodeInv(n, cl) && cl.sides != [] && n.path in cl.service.store
    ensures AllSums(n, cl.service, cl.service.store[n.path].history)
  {
    var history := cl.service.store[n.path].history;
    ServiceIsInOrder(cl, n.path);
    forall c | c in history
      ensures CommittedSum(n, cl.service, c)
    {
      var i :| 0 <= i < |history| && c == history[i];
      assert CommitInv(cl.service, n.path, c);
      CommitIsSum(n, cl, i);
    }
  }

  lemma CommitIsSum(n: Instance, cl: Cluster, i: nat)
    requires ClusterInv(cl) && NodeInv(n, cl) && cl.sides != [] && n.path in cl.service.store
    requires i < |cl.service.store[n.path].history|
    requires cl.service.store[n.path].history[i].handle in cl.service.requests
    ensures CommittedSum(n, cl.service, cl.service.store[n.path].history[i])
  {
    var c := cl.service.store[n.path].history[i];
    var k := AttemptHasOwner(cl, c.handle);
    var id := cl.service.requests[c.handle].key;
    E.WrittenIsAsked(View(cl, k), id, n.path, i);
    assert ByTheNode(n, id, cl.sides[k].lives[id], Some(c.text));
  }

  /** The events of the executions that saved, in the order in which they saved. */
  ghost function SavedEvents(n: Instance, s: S.State, history: seq<S.Commit>): seq<Sum.Entry>
    requires forall c :: c in history ==> c.handle in s.requests
  {
    seq(|history|, i requires 0 <= i < |history| => n.eventOf(s.requests[history[i].handle].key))
  }

  /** The sequential execution of a stretch of the events, unless one of them is refused. */
  function Fold<A, B>(step: (A, B) -> Option<A>, start: A, events: seq<B>, i: nat, j: nat): Option<A>
    requires i <= j <= |events|
    decreases j
  {
    if i == j then Some(start)
    else
      match Fold(step, start, events, i, j - 1)
      case None => None
      case Some(before) => step(before, events[j - 1])
  }

  lemma {:induction false} StepsFold<A, B>(step: (A, B) -> Option<A>, states: seq<A>, events: seq<B>, i: nat, j: nat)
    requires |states| == |events| + 1 && i <= j <= |events|
    requires forall k :: i <= k < j ==> step(states[k], events[k]) == Some(states[k + 1])
    ensures Fold(step, states[i], events, i, j) == Some(states[j])
    decreases j
  {
    if i < j {
      StepsFold(step, states, events, i, j - 1);
    }
  }

  /** One execution of the node. */
  function Execution(period: int): (Sum.Context, Sum.Entry) -> Option<Sum.Context>
  {
    (context, event) => Sum.Accumulated(context, event, period)
  }

  /** From the empty context, that is the sequential execution in which no event is refused. */
  lemma {:induction false} FoldIsExecution(events: seq<Sum.Entry>, period: int, j: nat)
    requires j <= |events| && Fold(Execution(period), Sum.EMPTY, events, 0, j).Some?
    ensures Sum.Executed(events[..j], period)
         == (Fold(Execution(period), Sum.EMPTY, events, 0, j).value, events[..j])
  {
    if j > 0 {
      var before := Fold(Execution(period), Sum.EMPTY, events, 0, j - 1).value;
      FoldIsExecution(events, period, j - 1);
      AcceptedIsExecuted(events, period, j, before, Fold(Execution(period), Sum.EMPTY, events, 0, j).value);
    }
  }

  lemma AcceptedIsExecuted(events: seq<Sum.Entry>, period: int, j: nat, before: Sum.Context, after: Sum.Context)
    requires 0 < j <= |events| && Sum.Executed(events[..j - 1], period) == (before, events[..j - 1])
    requires Execution(period)(before, events[j - 1]) == Some(after)
    ensures Sum.Executed(events[..j], period) == (after, events[..j])
  {
    assert events[..j][..j - 1] == events[..j - 1] && events[..j - 1] + [events[j - 1]] == events[..j];
  }

  /** No content of the stretch was read beside a live node with number 0. */
  predicate Warm(history: seq<S.Commit>, i: nat, j: nat)
    requires i <= j <= |history|
  {
    forall k :: i <= k < j ==> !history[k].got.cold
  }

  /** The contexts before and after each write. */
  ghost function Contexts(n: Instance, history: seq<S.Commit>): seq<Sum.Context>
  {
    seq(|history| + 1, k requires 0 <= k <= |history| => n.codec.decode(LastText(history[..k])))
  }

  lemma CommitIsExecution(n: Instance, s: S.State, history: seq<S.Commit>, k: nat)
    requires Faithful(n.codec) && IsChain(history) && k < |history| && !history[k].got.cold
    requires CommittedSum(n, s, history[k]) && forall c :: c in history ==> c.handle in s.requests
    ensures Execution(n.period)(Contexts(n, history)[k], SavedEvents(n, s, history)[k])
         == Some(Contexts(n, history)[k + 1])
  {
    assert LastText(history[..k + 1]) == history[k].text;
  }

  /** A stretch of a chain of sums is the sequential execution of its events, none of them refused. */
  lemma StretchIsFold(n: Instance, s: S.State, history: seq<S.Commit>, i: nat, j: nat)
    requires Faithful(n.codec) && AllSums(n, s, history) && IsChain(history)
    requires forall c :: c in history ==> c.handle in s.requests
    requires i <= j <= |history| && Warm(history, i, j)
    ensures var contexts := Contexts(n, history);
            Fold(Execution(n.period), contexts[i], SavedEvents(n, s, history), i, j) == Some(contexts[j])
  {
    forall k | i <= k < j
      ensures Execution(n.period)(Contexts(n, history)[k], SavedEvents(n, s, history)[k])
           == Some(Contexts(n, history)[k + 1])
    {
      CommitIsExecution(n, s, history, k);
    }
    StepsFold(Execution(n.period), Contexts(n, history), SavedEvents(n, s, history), i, j);
  }

  // ---------- the theorems ----------

  /** Serialisability, for every first sequence number: over any stretch of writes that were not read beside a
      live node with number 0, the stored context goes on as a sequential execution of the saved events, none of
      them refused, in the order of the write locks. */
  lemma StretchIsSerialisable(n: Instance, base: nat, clients: nat, cl: Cluster, i: nat, j: nat)
    requires Faithful(n.codec) && clients > 0 && Reaches(n, base, clients, cl) && n.path in cl.service.store
    requires i <= j <= |cl.service.store[n.path].history| && Warm(cl.service.store[n.path].history, i, j)
    ensures var s, history := cl.service, cl.service.store[n.path].history;
            && (forall c :: c in history ==> c.handle in s.requests)
            && (forall k, m :: i <= k < m < j ==> history[k].number < history[m].number)
            && Fold(Execution(n.period), Contexts(n, history)[i], SavedEvents(n, s, history), i, j)
               == Some(Contexts(n, history)[j])
  {
    ReachedInv(n, base, clients, cl);
    ServiceIsInOrder(cl, n.path);
    HistoryIsSums(n, cl);
    assert forall c :: c in cl.service.store[n.path].history ==> CommittedSum(n, cl.service, c);
    StretchIsFold(n, cl.service, cl.service.store[n.path].history, i, j);
    var history := cl.service.store[n.path].history;
    forall k, m | i <= k < m < j
      ensures history[k].number < history[m].number
    {
      assert CommitInv(cl.service, n.path, history[m]);
    }
  }

  /** With sequence numbers from 1 nothing is read beside a node with number 0. */
  lemma FromOneIsWarm(n: Instance, base: nat, clients: nat, cl: Cluster)
    requires clients > 0 && Reaches(n, base, clients, cl) && n.path in cl.service.store && base >= 1
    ensures Warm(cl.service.store[n.path].history, 0, |cl.service.store[n.path].history|)
  {
    ReachedInv(n, base, clients, cl);
    ServiceIsInOrder(cl, n.path);
  }

  /** The whole history: the stored context is what a sequential execution of the saved events leaves. */
  lemma WindowedSumIsSerialisable(n: Instance, base: nat, clients: nat, cl: Cluster)
    requires Faithful(n.codec) && clients > 0 && Reaches(n, base, clients, cl) && n.path in cl.service.store
    requires base >= 1 || Warm(cl.service.store[n.path].history, 0, |cl.service.store[n.path].history|)
    ensures var s, history := cl.service, cl.service.store[n.path].history;
            && (forall c :: c in history ==> c.handle in s.requests)
            && (forall i, j :: 0 <= i < j < |history| ==> history[i].number < history[j].number)
            && Sum.Executed(SavedEvents(n, s, history), n.period)
               == (n.codec.decode(s.store[n.path].content), SavedEvents(n, s, history))
  {
    var s, history := cl.service, cl.service.store[n.path].history;
    if base >= 1 {
      FromOneIsWarm(n, base, clients, cl);
    }
    ReachedInv(n, base, clients, cl);
    ServiceIsInOrder(cl, n.path);
    StretchIsSerialisable(n, base, clients, cl, 0, |history|);
    var events := SavedEvents(n, s, history);
    assert events[..|history|] == events && history[..|history|] == history && LastText(history[..0]) == "";
    FoldIsExecution(events, n.period, |history|);
  }

  /** With positive values, the stored context is the exact window of the saved events. */
  lemma StoredWindowIsExact(n: Instance, base: nat, clients: nat, cl: Cluster)
    requires Faithful(n.codec) && n.period > 0 && forall key :: n.eventOf(key).value > 0
    requires clients > 0 && Reaches(n, base, clients, cl) && n.path in cl.service.store
    requires base >= 1 || Warm(cl.service.store[n.path].history, 0, |cl.service.store[n.path].history|)
    ensures var s, history := cl.service, cl.service.store[n.path].history;
            && (forall c :: c in history ==> c.handle in s.requests)
            && Sum.TimeSorted(SavedEvents(n, s, history))
            && n.codec.decode(s.store[n.path].content) == Sum.Ideal(SavedEvents(n, s, history), n.period)
  {
    WindowedSumIsSerialisable(n, base, clients, cl);
    var s := cl.service;
    var events := SavedEvents(n, s, s.store[n.path].history);
    SavedEventsArePositive(n, s, s.store[n.path].history);
    Sum.WindowIsExact(events, n.period);
  }

  lemma SavedEventsArePositive(n: Instance, s: S.State, history: seq<S.Commit>)
    requires forall c :: c in history ==> c.handle in s.requests
    requires forall key :: n.eventOf(key).value > 0
    ensures Sum.AllPositive(SavedEvents(n, s, history))
  {
    var events := SavedEvents(n, s, history);
    forall e | e in events
      ensures e.value > 0
    {
      var i :| 0 <= i < |events| && e == events[i];
      assert e == n.eventOf(s.requests[history[i].handle].key);
    }
  }

  /** An execution that has reported its sum is in that order once, with the content that it was granted. */
  lemma ReportedSumIsSavedOnce(n: Instance, base: nat, clients: nat, cl: Cluster, k: nat, p: nat)
    requires clients > 0 && Reaches(n, base, clients, cl) && k < |cl.sides| && p in cl.sides[k].client.promises
    requires var q := cl.sides[k].client.promises[p];
             && q.purpose.ForSave? && q.settlement == C.Resolved
             && q.id in cl.sides[k].lives && cl.sides[k].lives[q.id].path == n.path
    ensures var s, q := cl.service, cl.sides[k].client.promises[p];
            exists i :: E.WrittenFor(s, q.id, n.path, i) && E.NothingElseFor(s, q.id, n.path, i)
              && Some(q.purpose.text) == Verdict(n, q.id, s.store[n.path].history[i].got.text)
  {
    ReachedInv(n, base, clients, cl);
    var s, q, w := cl.service, cl.sides[k].client.promises[p], View(cl, k);
    E.ResolvedMeansWritten(w, p);
    var path, i :| E.WrittenFor(s, q.id, path, i) && s.store[path].history[i].text == q.purpose.text
      && E.NothingElseFor(s, q.id, path, i) && E.UnderWriteLock(s, s.store[path].history[i]);
    E.WrittenIsAsked(w, q.id, path, i);
    assert ByTheNode(n, q.id, w.lives[q.id], Some(q.purpose.text));
  }

  /** An execution that "messy time" has stopped never writes, neither the context nor anything else. */
  lemma MessyTimeNeverWrites(n: Instance, base: nat, clients: nat, cl: Cluster, k: nat, id: string)
    requires clients > 0 && Reaches(n, base, clients, cl) && k < |cl.sides| && id in cl.sides[k].lives
    requires var life := cl.sides[k].lives[id];
             && (life.Given? || life.Released?) && life.path == n.path && life.mode == C.WLock
             && Sum.Accumulated(n.codec.decode(life.got), n.eventOf(id), n.period) == None
    ensures forall path, i :: !E.WrittenFor(cl.service, id, path, i)
  {
    ReachedInv(n, base, clients, cl);
    forall path, i | E.WrittenFor(cl.service, id, path, i)
      ensures false
    {
      E.WrittenIsAsked(View(cl, k), id, path, i);
    }
  }

  // ---------- what the node sends on ----------

  /** What `handleMessage` resolves with once its save has ended: the message with the sum at the output path, or
      the text of the failure; a path that cannot be written throws, and is answered like a failure. */
  function Resolution(saved: bool, message: D.Json, output: string, sum: int): seq<Option<D.Json>>
  {
    var updated := if D.Keys(output) == [] then None else D.Update(D.Keys(output), D.Number(sum), message);
    if saved && updated.Some? then [updated] else Executor.Characters("Failed to unlock context.")
  }

  predicate CanBeWritten(output: string, message: D.Json)
  {
    D.Keys(output) != [] && D.Writable(D.Keys(output), message)
  }

  /** After a save that succeeded, the one message sent on has the sum at the output path, and is the old one at
      every path apart from it. */
  lemma SavedSumIsSentOn(message: D.Json, output: string, sum: int, other: seq<string>)
    requires CanBeWritten(output, message)
    ensures var outputs := Resolution(true, message, output, sum);
            && |outputs| == 1 && outputs[0].Some?
            && D.Lookup(D.Keys(output), outputs[0].value) == Some(D.Number(sum))
            && (D.Apart(D.Keys(output), other) ==> D.Lookup(other, outputs[0].value) == D.Lookup(other, message))
  {
    D.GetAfterSet(D.Keys(output), D.Number(sum), message);
    if D.Apart(D.Keys(output), other) {
      D.SetPreservesOthers(D.Keys(output), other, D.Number(sum), message);
    }
  }

  /** After a save that failed, or when the output path cannot be written, the nodes behind the one output of the
      node get the first letter of the failure text, and nothing else of it. */
  lemma FailedSaveSendsOneLetter(saved: bool, task: Flows.Task, wires: seq<seq<string>>, message: D.Json,
                                 output: string, sum: int)
    requires |wires| == 1 && (!saved || !CanBeWritten(output, message))
    ensures var tasks := Executor.Fanned(task, Resolution(saved, message, output, sum), wires, 0);
            && |tasks| == |wires[0]|
            && forall k :: 0 <= k < |tasks| ==>
                 tasks[k] == Flows.Task(wires[0][k], D.Text("F"), task.flow, task.metadata)
  {
    if D.Keys(output) != [] {
      D.UpdateSucceedsExactly(D.Keys(output), D.Number(sum), message);
    }
    assert Resolution(saved, message, output, sum)[0] == Some(D.Text("F"));
    assert Executor.Fanned(task, Resolution(saved, message, output, sum), wires, 1) == [];
  }
}
