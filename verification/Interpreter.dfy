/**
 Running a queue of tasks is evaluating the flow: the executions that the executors perform, in any order of
 delivery, are those of a recursive evaluator that follows every wire.
 */
module Interpreter {
  import opened Bags
  import opened Options
  import opened DottedPath
  import opened Flows
  import opened Executor
  import opened TaskQueue

  // ---------- flows that can be evaluated ----------

  /** A numbering that every wire lowers; wires only lead to nodes of the flow. */
  ghost predicate Ranks(flow: Wiring, rank: map<string, nat>)
  {
    && (forall id :: id in flow.nodeMap ==> id in rank)
    && forall id, output, wire :: id in flow.nodeMap && output in Wires(flow.nodeMap[id]) && wire in output ==>
         wire in flow.nodeMap && rank[wire] < rank[id]
  }

  /** Closed and acyclic wiring. */
  ghost predicate Acyclic(flow: Wiring) { exists rank: map<string, nat> :: Ranks(flow, rank) }

  ghost function RankOf(flow: Wiring): (rank: map<string, nat>)
    requires Acyclic(flow)
    ensures Ranks(flow, rank)
  {
    var rank: map<string, nat> :| Ranks(flow, rank);
    rank
  }

  ghost predicate Sound(task: Task) { Acyclic(task.flow) && task.hop in task.flow.nodeMap }

  ghost predicate AllSound(tasks: seq<Task>) { forall t :: t in tasks ==> Sound(t) }

  ghost function Rank(task: Task): nat
    requires Sound(task)
  {
    RankOf(task.flow)[task.hop]
  }

  /** One more than the greatest rank. */
  ghost function Height(tasks: seq<Task>): nat
    requires AllSound(tasks)
  {
    if tasks == [] then 0
    else
      var rest := Height(tasks[1..]);
      if Rank(tasks[0]) + 1 > rest then Rank(tasks[0]) + 1 else rest
  }

  lemma {:induction false} FannedFollowsWires(task: Task, outputs: seq<Option<Json>>, wires: seq<seq<string>>,
                                              from: nat)
    requires from <= |wires|
    ensures forall c :: c in Fanned(task, outputs, wires, from) ==>
              c.flow == task.flow && exists output :: output in wires && c.hop in output
    decreases |wires| - from
  {
    if from < |wires| {
      FannedFollowsWires(task, outputs, wires, from + 1);
      forall c | c in FromOutput(task, outputs, wires, from)
        ensures c.flow == task.flow && exists output :: output in wires && c.hop in output
      {
        assert wires[from] in wires && c.hop in wires[from];
      }
    }
  }

  lemma ChildrenAreBelow(task: Task, lib: Library)
    requires Sound(task)
    ensures forall c :: c in Children(task, lib) ==> c.flow == task.flow && Sound(c) && Rank(c) < Rank(task)
  {
    if NodeOf(task).kind.Some? && OutcomeOf(task, lib).Results? {
      FannedFollowsWires(task, OutcomeOf(task, lib).outputs, Wires(NodeOf(task)), 0);
    }
  }

  lemma {:induction false} HeightIsBound(tasks: seq<Task>, bound: nat)
    requires AllSound(tasks) && forall t :: t in tasks ==> Rank(t) < bound
    ensures Height(tasks) <= bound
  {
    if tasks != [] {
      HeightIsBound(tasks[1..], bound);
    }
  }

  ghost function Follow(task: Task, lib: Library): (r: seq<Task>)
    requires Sound(task)
    ensures r == Children(task, lib) && AllSound(r) && Height(r) <= Rank(task)
  {
    ChildrenAreBelow(task, lib);
    HeightIsBound(Children(task, lib), Rank(task));
    Children(task, lib)
  }

  // ---------- the recursive evaluator ----------

  /** A message given to a node. */
  datatype Execution = Execution(flowId: string, node: string, message: Json)

  function ExecutionOf(task: Task): Execution { Execution(task.flow.flowId, task.hop, task.message) }

  /** Evaluates a node, then whatever it is wired to, depth first. */
  ghost function Evaluate(task: Task, lib: Library): seq<Execution>
    requires Sound(task)
    decreases Rank(task), 1, 0
  {
    [ExecutionOf(task)] + EvaluateAll(Follow(task, lib), lib)
  }

  ghost function EvaluateAll(tasks: seq<Task>, lib: Library): seq<Execution>
    requires AllSound(tasks)
    decreases Height(tasks), 0, |tasks|
  {
    if tasks == [] then [] else Evaluate(tasks[0], lib) + EvaluateAll(tasks[1..], lib)
  }

  lemma {:induction false} EvaluateTwo(a: seq<Task>, b: seq<Task>, lib: Library)
    requires AllSound(a) && AllSound(b)
    ensures EvaluateAll(a + b, lib) == EvaluateAll(a, lib) + EvaluateAll(b, lib)
    decreases |a|
  {
    if a == [] {
      assert a + b == b;
    } else {
      EvaluateTwo(a[1..], b, lib);
      assert (a + b)[1..] == a[1..] + b && (a + b)[0] == a[0];
      var first, tail, rest := Evaluate(a[0], lib), EvaluateAll(a[1..], lib), EvaluateAll(b, lib);
      assert first + (tail + rest) == first + tail + rest;
    }
  }

  // ---------- the queue ----------

  /** The tasks waiting in all queues, and the executions so far. */
  datatype Pool = Pool(pending: seq<Task>, log: seq<Execution>)

  /** One delivery: the number of the task in the pool, which of the children are not sent (all of them after
      a timeout), and where in the pool the others go. */
  datatype Delivery = Delivery(index: nat, lost: set<nat>, place: nat)

  ghost predicate Possible(pool: Pool, d: Delivery)
  {
    d.index < |pool.pending| && d.place < |pool.pending|
    && pool.pending[d.index].hop in pool.pending[d.index].flow.nodeMap
  }

  ghost function Rest(pool: Pool, index: nat): seq<Task>
    requires index < |pool.pending|
  {
    Without(pool.pending, index)
  }

  ghost function Served(pool: Pool, d: Delivery, lib: Library): Pool
    requires Possible(pool, d)
  {
    var task, rest := pool.pending[d.index], Rest(pool, d.index);
    Pool(rest[..d.place] + Kept(Children(task, lib), d.lost, 0) + rest[d.place..], pool.log + [ExecutionOf(task)])
  }

  ghost predicate Run(pool: Pool, run: seq<Delivery>, lib: Library)
    decreases |run|
  {
    run == [] || (Possible(pool, run[0]) && Run(Served(pool, run[0], lib), run[1..], lib))
  }

  ghost function After(pool: Pool, run: seq<Delivery>, lib: Library): Pool
    requires Run(pool, run, lib)
    decreases |run|
  {
    if run == [] then pool else After(Served(pool, run[0], lib), run[1..], lib)
  }

  ghost predicate Lossless(run: seq<Delivery>) { forall d :: d in run ==> d.lost == {} }

  /** The executions that tasks are worth, as a multiset. */
  ghost function Bag(tasks: seq<Task>, lib: Library): multiset<Execution>
    requires AllSound(tasks)
  {
    multiset(EvaluateAll(tasks, lib))
  }

  lemma {:induction false} BagOfTwo(a: seq<Task>, b: seq<Task>, lib: Library)
    requires AllSound(a) && AllSound(b)
    ensures Bag(a + b, lib) == Bag(a, lib) + Bag(b, lib)
  {
    EvaluateTwo(a, b, lib);
  }

  lemma {:induction false} BagOfThree(a: seq<Task>, b: seq<Task>, c: seq<Task>, lib: Library)
    requires AllSound(a) && AllSound(b) && AllSound(c)
    ensures Bag(a + b + c, lib) == Bag(a, lib) + Bag(b, lib) + Bag(c, lib)
  {
    BagOfTwo(a, b, lib);
    BagOfTwo(a + b, c, lib);
  }

  lemma {:induction false} BagOfOne(task: Task, lib: Library)
    requires Sound(task)
    ensures Bag([task], lib) == multiset{ExecutionOf(task)} + Bag(Follow(task, lib), lib)
  {
    assert [task][1..] == [];
    assert EvaluateAll([task], lib) == Evaluate(task, lib) + [];
  }

  lemma {:induction false} KeptAreAmong(tasks: seq<Task>, lost: set<nat>, from: nat)
    ensures forall t :: t in Kept(tasks, lost, from) ==> t in tasks
    ensures lost == {} ==> Kept(tasks, lost, from) == tasks
    decreases |tasks|
  {
    if tasks != [] {
      KeptAreAmong(tasks[1..], lost, from + 1);
      var kept := Kept(tasks[1..], lost, from + 1);
      assert Kept(tasks, lost, from) == (if from in lost then [] else [tasks[0]]) + kept;
      assert tasks == [tasks[0]] + tasks[1..];
    }
  }

  lemma {:induction false} KeptIsPart(tasks: seq<Task>, lost: set<nat>, from: nat, lib: Library)
    requires AllSound(tasks) && AllSound(Kept(tasks, lost, from))
    ensures Bag(Kept(tasks, lost, from), lib) <= Bag(tasks, lib)
    decreases |tasks|
  {
    if tasks != [] {
      var first, rest := [tasks[0]], tasks[1..];
      var kept := Kept(rest, lost, from + 1);
      KeptAreAmong(rest, lost, from + 1);
      assert AllSound(first) && AllSound(rest) && AllSound(kept);
      KeptIsPart(rest, lost, from + 1, lib);
      assert Bag(tasks, lib) == Bag(first, lib) + Bag(rest, lib) by {
        BagOfTwo(first, rest, lib);
        assert tasks == first + rest;
      }
      if from in lost {
        assert Kept(tasks, lost, from) == kept;
      } else {
        assert Kept(tasks, lost, from) == first + kept;
        BagOfTwo(first, kept, lib);
      }
    }
  }

  /** What has been executed and what the waiting tasks are worth. */
  ghost function Worth(pool: Pool, lib: Library): multiset<Execution>
    requires AllSound(pool.pending)
  {
    multiset(pool.log) + Bag(pool.pending, lib)
  }

  lemma {:induction false} TakeOut(tasks: seq<Task>, i: nat, lib: Library)
    requires AllSound(tasks) && i < |tasks|
    ensures AllSound(Without(tasks, i)) && Sound(tasks[i])
    ensures Bag(tasks, lib) == Bag(Without(tasks, i), lib) + Bag([tasks[i]], lib)
  {
    var a, b := tasks[..i], tasks[i + 1..];
    assert tasks == a + [tasks[i]] + b;
    assert AllSound(a) && AllSound(b) && tasks[i] in tasks;
    BagOfThree(a, [tasks[i]], b, lib);
    BagOfTwo(a, b, lib);
  }

  lemma {:induction false} PutIn(tasks: seq<Task>, i: nat, more: seq<Task>, lib: Library)
    requires AllSound(tasks) && AllSound(more) && i <= |tasks|
    ensures AllSound(tasks[..i] + more + tasks[i..])
    ensures Bag(tasks[..i] + more + tasks[i..], lib) == Bag(tasks, lib) + Bag(more, lib)
  {
    var a, b := tasks[..i], tasks[i..];
    assert tasks == a + b;
    assert AllSound(a) && AllSound(b);
    BagOfThree(a, more, b, lib);
    BagOfTwo(a, b, lib);
  }

  lemma {:induction false} DeliveryKeepsWorth(pool: Pool, d: Delivery, lib: Library)
    requires AllSound(pool.pending) && Possible(pool, d)
    ensures AllSound(Served(pool, d, lib).pending)
    ensures Worth(Served(pool, d, lib), lib) <= Worth(pool, lib)
    ensures d.lost == {} ==> Worth(Served(pool, d, lib), lib) == Worth(pool, lib)
  {
    var task, rest := pool.pending[d.index], Rest(pool, d.index);
    var kept := Kept(Follow(task, lib), d.lost, 0);
    KeptAreAmong(Follow(task, lib), d.lost, 0);
    KeptIsPart(Follow(task, lib), d.lost, 0, lib);
    TakeOut(pool.pending, d.index, lib);
    PutIn(rest, d.place, kept, lib);
    BagOfOne(task, lib);
    assert multiset(pool.log + [ExecutionOf(task)]) == multiset(pool.log) + multiset{ExecutionOf(task)};
  }

  lemma {:induction false} RunKeepsWorth(pool: Pool, run: seq<Delivery>, lib: Library)
    requires AllSound(pool.pending) && Run(pool, run, lib)
    ensures AllSound(After(pool, run, lib).pending)
    ensures Worth(After(pool, run, lib), lib) <= Worth(pool, lib)
    ensures Lossless(run) ==> Worth(After(pool, run, lib), lib) == Worth(pool, lib)
    ensures |After(pool, run, lib).log| == |pool.log| + |run|
    decreases |run|
  {
    if run != [] {
      DeliveryKeepsWorth(pool, run[0], lib);
      RunKeepsWorth(Served(pool, run[0], lib), run[1..], lib);
      assert Lossless(run) ==> Lossless(run[1..]);
    }
  }

  // ---------- the theorems ----------

  /** Interpreter correctness.  Whatever the order of delivery, an emptied queue has executed exactly what the
      evaluator does.  If children are lost to failures or timeouts, it is a part of that. */
  lemma QueueEvaluatesFlows(tasks: seq<Task>, run: seq<Delivery>, lib: Library)
    requires AllSound(tasks) && Run(Pool(tasks, []), run, lib)
    ensures multiset(After(Pool(tasks, []), run, lib).log) <= multiset(EvaluateAll(tasks, lib))
    ensures Lossless(run) && After(Pool(tasks, []), run, lib).pending == [] ==>
              multiset(After(Pool(tasks, []), run, lib).log) == multiset(EvaluateAll(tasks, lib))
  {
    RunKeepsWorth(Pool(tasks, []), run, lib);
    assert Worth(Pool(tasks, []), lib) == Bag(tasks, lib);
  }

  /** What tasks are worth does not depend on their order. */
  lemma {:induction false} BagPermutes(a: seq<Task>, b: seq<Task>, lib: Library)
    requires AllSound(a) && AllSound(b) && multiset(a) == multiset(b)
    ensures Bag(a, lib) == Bag(b, lib)
    decreases |a|
  {
    if a == [] {
      assert |multiset(b)| == 0;
    } else {
      var i := FindSame(a, 0, b);
      TakeSame(a, 0, b, i);
      TakeOut(a, 0, lib);
      TakeOut(b, i, lib);
      BagPermutes(Without(a, 0), Without(b, i), lib);
    }
  }

  /** Every run drains: it has at most as many deliveries as there are executions to perform, and a run
      without losses can be continued exactly while it has fewer. */
  lemma EveryRunDrains(tasks: seq<Task>, run: seq<Delivery>, lib: Library)
    requires AllSound(tasks) && Run(Pool(tasks, []), run, lib)
    ensures |run| <= |EvaluateAll(tasks, lib)|
    ensures Lossless(run) ==>
              (|run| < |EvaluateAll(tasks, lib)| <==> exists d :: Possible(After(Pool(tasks, []), run, lib), d))
  {
    DeliveriesAreCounted(tasks, run, lib);
    CanContinue(After(Pool(tasks, []), run, lib), lib);
  }

  lemma {:induction false} CanContinue(pool: Pool, lib: Library)
    requires AllSound(pool.pending)
    ensures |EvaluateAll(pool.pending, lib)| > 0 <==> exists d :: Possible(pool, d)
  {
    if pool.pending != [] {
      assert pool.pending[0] in pool.pending;
      assert Possible(pool, Delivery(0, {}, 0));
      assert |Evaluate(pool.pending[0], lib)| > 0;
    }
  }

  lemma {:induction false} DeliveriesAreCounted(tasks: seq<Task>, run: seq<Delivery>, lib: Library)
    requires AllSound(tasks) && Run(Pool(tasks, []), run, lib)
    ensures AllSound(After(Pool(tasks, []), run, lib).pending)
    ensures |run| + |EvaluateAll(After(Pool(tasks, []), run, lib).pending, lib)| <= |EvaluateAll(tasks, lib)|
    ensures Lossless(run) ==>
              |run| + |EvaluateAll(After(Pool(tasks, []), run, lib).pending, lib)| == |EvaluateAll(tasks, lib)|
  {
    var start := Pool(tasks, []);
    var end := After(start, run, lib);
    RunKeepsWorth(start, run, lib);
    WorthIsCounted(start, lib);
    WorthIsCounted(end, lib);
    SmallerBag(Worth(end, lib), Worth(start, lib));
  }

  lemma {:induction false} WorthIsCounted(pool: Pool, lib: Library)
    requires AllSound(pool.pending)
    ensures |Worth(pool, lib)| == |pool.log| + |EvaluateAll(pool.pending, lib)|
  {
  }

  lemma SmallerBag<T>(a: multiset<T>, b: multiset<T>)
    requires a <= b
    ensures |a| <= |b|
  {
    assert b == a + (b - a);
  }

  /** The evaluator does not depend on the numbering that shows the wiring acyclic: it meets this equation. */
  lemma EvaluatorUnfolds(task: Task, lib: Library)
    requires Sound(task)
    ensures AllSound(Children(task, lib))
    ensures Evaluate(task, lib)
         == [Execution(task.flow.flowId, task.hop, task.message)] + EvaluateAll(Children(task, lib), lib)
  {
    ChildrenAreBelow(task, lib);
  }

  // ---------- how much there is to execute ----------

  /** The executions of a list, each counted with the weight of its node. */
  function Tally(log: seq<Execution>, weight: string -> nat): nat
  {
    if log == [] then 0 else weight(log[0].node) + Tally(log[1..], weight)
  }

  /** The weights of all wire paths that start at a node; a path weighs what its last node does. */
  ghost function Paths(flow: Wiring, start: string, weight: string -> nat): nat
    requires Acyclic(flow) && start in flow.nodeMap
    decreases RankOf(flow)[start], 2, 0
  {
    weight(start) + PathsFromOutputs(flow, Wires(flow.nodeMap[start]), 0, RankOf(flow)[start], weight)
  }

  ghost predicate Below(flow: Wiring, hops: seq<string>, limit: nat)
    requires Acyclic(flow)
  {
    forall h :: h in hops ==> h in flow.nodeMap && RankOf(flow)[h] < limit
  }

  ghost function PathsFromOutputs(flow: Wiring, wires: seq<seq<string>>, from: nat, limit: nat,
                                  weight: string -> nat): nat
    requires Acyclic(flow) && from <= |wires| && AllBelow(flow, wires, limit)
    decreases limit, 1, |wires| - from
  {
    if from == |wires| then 0
    else PathsFromHops(flow, wires[from], limit, weight) + PathsFromOutputs(flow, wires, from + 1, limit, weight)
  }

  ghost function PathsFromHops(flow: Wiring, hops: seq<string>, limit: nat, weight: string -> nat): nat
    requires Acyclic(flow) && Below(flow, hops, limit)
    decreases limit, 0, |hops|
  {
    if hops == [] then 0 else Paths(flow, hops[0], weight) + PathsFromHops(flow, hops[1..], limit, weight)
  }

  lemma {:induction false} TallyOfTwo(a: seq<Execution>, b: seq<Execution>, weight: string -> nat)
    ensures Tally(a + b, weight) == Tally(a, weight) + Tally(b, weight)
    decreases |a|
  {
    if a == [] {
      assert a + b == b;
    } else {
      TallyOfTwo(a[1..], b, weight);
      assert (a + b)[1..] == a[1..] + b;
    }
  }

  /** Whatever the handlers do, the executions of a task follow wire paths, each at most once. */
  lemma {:induction false} ExecutionsFollowPaths(task: Task, lib: Library, weight: string -> nat)
    requires Sound(task)
    ensures Tally(Evaluate(task, lib), weight) <= Paths(task.flow, task.hop, weight)
    decreases Rank(task), 2, 0
  {
    var node, limit := NodeOf(task), Rank(task);
    TallyOfTwo([ExecutionOf(task)], EvaluateAll(Follow(task, lib), lib), weight);
    assert Tally([ExecutionOf(task)], weight) == weight(task.hop);
    if node.kind.Some? && OutcomeOf(task, lib).Results? {
      FannedFollowPaths(task, OutcomeOf(task, lib).outputs, Wires(node), 0, limit, lib, weight);
    }
  }

  ghost predicate AllBelow(flow: Wiring, wires: seq<seq<string>>, limit: nat)
    requires Acyclic(flow)
  {
    forall output :: output in wires ==> Below(flow, output, limit)
  }

  lemma {:induction false} FannedFollowPaths(task: Task, outputs: seq<Option<Json>>, wires: seq<seq<string>>, from: nat,
                                             limit: nat, lib: Library, weight: string -> nat)
    requires Sound(task) && from <= |wires| && AllBelow(task.flow, wires, limit)
    ensures AllSound(Fanned(task, outputs, wires, from))
    ensures Tally(EvaluateAll(Fanned(task, outputs, wires, from), lib), weight)
         <= PathsFromOutputs(task.flow, wires, from, limit, weight)
    decreases limit, 1, |wires| - from
  {
    if from < |wires| {
      var a, b := FromOutput(task, outputs, wires, from), Fanned(task, outputs, wires, from + 1);
      FannedFollowPaths(task, outputs, wires, from + 1, limit, lib, weight);
      OutputFollowsPaths(task, outputs, wires, from, limit, lib, weight);
      TallyOfBoth(a, b, lib, weight);
      assert Fanned(task, outputs, wires, from) == a + b;
    }
  }

  lemma {:induction false} OutputFollowsPaths(task: Task, outputs: seq<Option<Json>>, wires: seq<seq<string>>,
                                              from: nat, limit: nat, lib: Library, weight: string -> nat)
    requires Sound(task) && from < |wires| && AllBelow(task.flow, wires, limit)
    ensures Below(task.flow, wires[from], limit) && AllSound(FromOutput(task, outputs, wires, from))
    ensures Tally(EvaluateAll(FromOutput(task, outputs, wires, from), lib), weight)
         <= PathsFromHops(task.flow, wires[from], limit, weight)
    decreases limit, 1, 0
  {
    assert wires[from] in wires;
    if from < |outputs| && outputs[from].Some? {
      SendsFollowPaths(task, outputs[from].value, wires[from], limit, lib, weight);
    }
  }

  lemma {:induction false} TallyOfBoth(a: seq<Task>, b: seq<Task>, lib: Library, weight: string -> nat)
    requires AllSound(a) && AllSound(b)
    ensures Tally(EvaluateAll(a + b, lib), weight)
         == Tally(EvaluateAll(a, lib), weight) + Tally(EvaluateAll(b, lib), weight)
  {
    EvaluateTwo(a, b, lib);
    TallyOfTwo(EvaluateAll(a, lib), EvaluateAll(b, lib), weight);
  }

  lemma {:induction false} SendsFollowPaths(task: Task, message: Json, hops: seq<string>, limit: nat, lib: Library,
                                            weight: string -> nat)
    requires Sound(task) && Below(task.flow, hops, limit)
    ensures AllSound(Sends(task, message, hops))
    ensures Tally(EvaluateAll(Sends(task, message, hops), lib), weight) <= PathsFromHops(task.flow, hops, limit, weight)
    decreases limit, 0, |hops|
  {
    if hops != [] {
      var sends := Sends(task, message, hops);
      assert sends[1..] == Sends(task, message, hops[1..]);
      assert hops[0] in hops;
      ExecutionsFollowPaths(sends[0], lib, weight);
      SendsFollowPaths(task, message, hops[1..], limit, lib, weight);
      TallyOfTwo(Evaluate(sends[0], lib), EvaluateAll(sends[1..], lib), weight);
    }
  }

  ghost function PathsOfAll(tasks: seq<Task>, weight: string -> nat): nat
    requires AllSound(tasks)
  {
    if tasks == [] then 0
    else
      assert Sound(tasks[0]);
      Paths(tasks[0].flow, tasks[0].hop, weight) + PathsOfAll(tasks[1..], weight)
  }

  lemma {:induction false} AllFollowPaths(tasks: seq<Task>, lib: Library, weight: string -> nat)
    requires AllSound(tasks)
    ensures Tally(EvaluateAll(tasks, lib), weight) <= PathsOfAll(tasks, weight)
  {
    if tasks != [] {
      ExecutionsFollowPaths(tasks[0], lib, weight);
      AllFollowPaths(tasks[1..], lib, weight);
      TallyOfTwo(Evaluate(tasks[0], lib), EvaluateAll(tasks[1..], lib), weight);
    }
  }

  lemma {:induction false} TallyWithout(log: seq<Execution>, i: nat, weight: string -> nat)
    requires i < |log|
    ensures Tally(log, weight) == weight(log[i].node) + Tally(Without(log, i), weight)
  {
    assert log == log[..i] + ([log[i]] + log[i + 1..]);
    TallyOfTwo(log[..i], [log[i]] + log[i + 1..], weight);
    TallyOfTwo(log[..i], log[i + 1..], weight);
    assert ([log[i]] + log[i + 1..])[1..] == log[i + 1..];
  }

  lemma {:induction false} TallyOfPart(a: seq<Execution>, b: seq<Execution>, weight: string -> nat)
    requires multiset(a) <= multiset(b)
    ensures Tally(a, weight) <= Tally(b, weight)
    decreases |a|
  {
    if a != [] {
      var i := FindSame(a, 0, b);
      TakeSame(a, 0, b, i);
      TallyOfPart(Without(a, 0), Without(b, i), weight);
      TallyWithout(a, 0, weight);
      TallyWithout(b, i, weight);
    }
  }

  /** In every run, whatever the handlers do and whatever is lost, the executions are bounded by the wire paths
      of the first tasks.  Weight 1 for one node and 0 for the others bounds the executions at that node;
      weight 1 for all bounds the whole run. */
  lemma ExecutionsAreBoundedByPaths(tasks: seq<Task>, run: seq<Delivery>, lib: Library, weight: string -> nat)
    requires AllSound(tasks) && Run(Pool(tasks, []), run, lib)
    ensures Tally(After(Pool(tasks, []), run, lib).log, weight) <= PathsOfAll(tasks, weight)
  {
    QueueEvaluatesFlows(tasks, run, lib);
    TallyOfPart(After(Pool(tasks, []), run, lib).log, EvaluateAll(tasks, lib), weight);
    AllFollowPaths(tasks, lib, weight);
  }

  // ---------- the executor's own queue ----------

  ghost predicate NeverThrows(lib: Library)
  {
    forall node, message, flow, metadata :: !lib(node, message, flow, metadata).Throws?
  }

  /** The pool that a queue stands for. */
  ghost predicate Represents(q: Queue<Data>, pool: Pool)
  {
    q.unacked == None && q.Waiting() == Packed(pool.pending)
  }

  lemma PackedInParts(a: seq<Task>, b: seq<Task>, c: seq<Task>)
    ensures Packed(a + b + c) == Packed(a) + Packed(b) + Packed(c)
  {
  }

  /** One turn of the executor on its queue is a delivery of the pool: the first task is served, and its
      children go behind the running ones. */
  lemma {:induction false} TurnIsADelivery(q: Queue<Data>, q': Queue<Data>, pool: Pool, lost: set<nat>, lib: Library)
    requires Represents(q, pool) && q.CanDeliver() && Sound(pool.pending[0])
    requires var next := q.Delivered();
             && q'.high == next.high + Packed(Kept(Children(pool.pending[0], lib), lost, 0))
             && q'.low == next.low && q'.unacked == None
    ensures Possible(pool, Delivery(0, lost, |q.Delivered().high|))
    ensures Represents(q', Served(pool, Delivery(0, lost, |q.Delivered().high|), lib))
  {
    var next, kept := q.Delivered(), Kept(Children(pool.pending[0], lib), lost, 0);
    var rest := Rest(pool, 0);
    var h := |next.high|;
    assert next.high + next.low == Packed(rest) by {
      DeliveryIsInOrder(q);
      assert rest == pool.pending[1..];
    }
    assert next.high == Packed(rest)[..h] == Packed(rest[..h]);
    assert next.low == Packed(rest)[h..] == Packed(rest[h..]);
    PackedInParts(rest[..h], kept, rest[h..]);
  }

  /** The consumer's loop over its queue, with no losses: it ends, and has executed what the evaluator does. */
  method Consume(consumer: TaskConsumer, lib: Library, ghost tasks: seq<Task>) returns (ghost log: seq<Execution>)
    requires consumer.queue.unacked == None && consumer.queue.Waiting() == Packed(tasks)
    requires AllSound(tasks) && NeverThrows(lib)
    modifies consumer
    ensures consumer.queue == Queue([], [], None)
    ensures multiset(log) == multiset(EvaluateAll(tasks, lib))
    ensures consumer.acks == old(consumer.acks) + |log|
  {
    ghost var pool := Pool(tasks, []);
    ghost var worth := Worth(pool, lib);
    assert worth == Bag(pool.pending, lib);
    while consumer.queue.Waiting() != []
      invariant Represents(consumer.queue, pool) && AllSound(pool.pending)
      invariant Worth(pool, lib) == worth
      invariant consumer.acks == old(consumer.acks) + |pool.log|
      decreases |EvaluateAll(pool.pending, lib)|
    {
      pool := Turn(consumer, lib, pool);
    }
    log := pool.log;
    assert pool.pending == [];
    assert Worth(pool, lib) == multiset(log);
  }

  /** One turn: a delivery, and the hop for it. */
  method Turn(consumer: TaskConsumer, lib: Library, ghost pool: Pool) returns (ghost pool': Pool)
    requires Represents(consumer.queue, pool) && AllSound(pool.pending) && pool.pending != [] && NeverThrows(lib)
    modifies consumer
    ensures Represents(consumer.queue, pool') && AllSound(pool'.pending)
    ensures Worth(pool', lib) == Worth(pool, lib)
    ensures |EvaluateAll(pool'.pending, lib)| < |EvaluateAll(pool.pending, lib)|
    ensures |pool'.log| == |pool.log| + 1 && consumer.acks == old(consumer.acks) + 1
  {
    ghost var before, task := consumer.queue, pool.pending[0];
    assert task in pool.pending && before.Waiting()[0] == Work(task);
    DeliveryIsInOrder(before);
    var data := consumer.Deliver();
    var threw := consumer.Hop(data, lib, false, {});
    TurnIsADelivery(before, consumer.queue, pool, {}, lib);
    ghost var d := Delivery(0, {}, |before.Delivered().high|);
    DeliveryIsCounted(pool, d, lib);
    pool' := Served(pool, d, lib);
  }

  lemma {:induction false} DeliveryIsCounted(pool: Pool, d: Delivery, lib: Library)
    requires AllSound(pool.pending) && Possible(pool, d) && d.lost == {}
    ensures var pool' := Served(pool, d, lib);
            && AllSound(pool'.pending) && Worth(pool', lib) == Worth(pool, lib) && |pool'.log| == |pool.log| + 1
            && |EvaluateAll(pool'.pending, lib)| < |EvaluateAll(pool.pending, lib)|
  {
    DeliveryKeepsWorth(pool, d, lib);
    WorthIsCounted(pool, lib);
    WorthIsCounted(Served(pool, d, lib), lib);
  }
}
