/**
 Any number of clients of one context service.  Seen from each client, the others are the `foreign` keys of a
 world of its own, so what holds end to end for one client holds for all of them at once.
 */
module ClientCluster {
  import opened ContextService
  import opened ContextInvariant
  import opened ContextSafety
  import C = ContextClient
  import E = EndToEnd

  /** A client, and the lives of its requests. */
  datatype Side = Side(client: C.Client, lives: map<string, E.Life>)

  datatype Cluster = Cluster(service: State, sides: seq<Side>)

  datatype Step =
    | By(k: nat, step: E.Step)   // a call, a timeout, a delivery or a loss at client k
    | Serve(event: Event)        // a step inside the service

  function Start(base: nat, clients: nat): Cluster
  {
    Cluster(Init(base), seq(clients, _ => Side(C.NEW_CLIENT, map[])))
  }

  /** The requests of the other clients. */
  function Others(cl: Cluster, k: nat): set<string>
  {
    set j, id | 0 <= j < |cl.sides| && j != k && id in cl.sides[j].lives :: id
  }

  function View(cl: Cluster, k: nat): E.World
    requires k < |cl.sides|
  {
    E.World(cl.service, cl.sides[k].client, cl.sides[k].lives, Others(cl, k))
  }

  predicate Enabled(cl: Cluster, step: Step)
  {
    match step
    case By(k, own) =>
      && k < |cl.sides| && !own.Serve? && !own.Foreign? && E.Enabled(View(cl, k), own)
      && (own.Answer? ==> own.reply.key in cl.sides[k].lives)   // replies go to the connection of the request
    case Serve(e) => !E.IsMessage(e) && ContextService.Enabled(cl.service, e) && !IsTimerScanRace(cl.service, e)
  }

  function Next(cl: Cluster, step: Step, parses: string -> bool): Cluster
    requires Enabled(cl, step)
  {
    match step
    case By(k, own) =>
      var w := E.Next(View(cl, k), own, parses);
      Cluster(w.service, cl.sides[k := Side(w.client, w.lives)])
    case Serve(e) => cl.(service := ContextService.Next(cl.service, e))
  }

  ghost predicate Legal(cl: Cluster, run: seq<Step>, parses: string -> bool)
    decreases |run|
  {
    run == [] || (Enabled(cl, run[0]) && Legal(Next(cl, run[0], parses), run[1..], parses))
  }

  ghost function After(cl: Cluster, run: seq<Step>, parses: string -> bool): Cluster
    requires Legal(cl, run, parses)
    decreases |run|
  {
    if run == [] then cl else After(Next(cl, run[0], parses), run[1..], parses)
  }

  ghost predicate ClusterInv(cl: Cluster)
  {
    forall k :: 0 <= k < |cl.sides| ==> E.WorldInv(View(cl, k))
  }

  lemma StartInv(base: nat, clients: nat)
    ensures ClusterInv(Start(base, clients))
  {
    LockInvInit(base);
    assert Inv(Init(base));
  }

  /** One more key of another client. */
  lemma MoreForeign(w: E.World, id: string)
    requires E.WorldInv(w) && id !in w.lives
    ensures E.WorldInv(w.(foreign := w.foreign + {id}))
  {
  }

  lemma OwnStepView(cl: Cluster, k: nat, own: E.Step, parses: string -> bool)
    requires Enabled(cl, By(k, own))
    ensures View(Next(cl, By(k, own), parses), k) == E.Next(View(cl, k), own, parses)
  {
    SameOthers(cl, Next(cl, By(k, own), parses), k);
  }

  lemma SameOthers(cl: Cluster, cl': Cluster, k: nat)
    requires |cl'.sides| == |cl.sides|
    requires forall j :: 0 <= j < |cl.sides| && j != k ==> cl'.sides[j].lives == cl.sides[j].lives
    ensures Others(cl', k) == Others(cl, k)
  {
    forall id
      ensures id in Others(cl', k) <==> id in Others(cl, k)
    {
    }
  }

  ghost function OwnerOf(cl: Cluster, k: nat, id: string): (i: nat)
    requires id in Others(cl, k)
    ensures i < |cl.sides| && i != k && id in cl.sides[i].lives
  {
    var i :| 0 <= i < |cl.sides| && i != k && id in cl.sides[i].lives;
    i
  }

  /** The requests of the client only become more, by a lock call. */
  lemma KeysOfStep(w: E.World, step: E.Step, parses: string -> bool)
    requires E.Enabled(w, step)
    ensures E.Next(w, step, parses).lives.Keys == w.lives.Keys + if step.Lock? then {step.id} else {}
  {
  }

  lemma OthersOfStep(cl: Cluster, j: nat, own: E.Step, parses: string -> bool, k: nat)
    requires Enabled(cl, By(j, own)) && k < |cl.sides| && k != j
    ensures Others(Next(cl, By(j, own), parses), k) == Others(cl, k) + if own.Lock? then {own.id} else {}
    ensures own.Lock? ==> own.id !in cl.sides[k].lives
  {
    var cl' := Next(cl, By(j, own), parses);
    KeysOfStep(View(cl, j), own, parses);
    assert cl'.sides[j].lives.Keys == cl.sides[j].lives.Keys + if own.Lock? then {own.id} else {};
    forall id | id in Others(cl', k)
      ensures id in Others(cl, k) || (own.Lock? && id == own.id)
    {
      var i :| 0 <= i < |cl'.sides| && i != k && id in cl'.sides[i].lives;
      assert i != j ==> cl'.sides[i] == cl.sides[i];
    }
    forall id | id in Others(cl, k) || (own.Lock? && id == own.id)
      ensures id in Others(cl', k)
    {
      var i := if own.Lock? && id == own.id then j else OwnerOf(cl, k, id);
      assert id in cl'.sides[i].lives;
    }
  }

  /** What a step at a client does to the service. */
  lemma ServiceOfStep(w: E.World, step: E.Step, parses: string -> bool)
    requires E.Enabled(w, step) && !step.Serve? && !step.Foreign?
    ensures E.Next(w, step, parses).service
         == if step.Deliver? then ContextService.Next(w.service, E.EventOf(step.command, step.handle))
            else if step.Answer? || step.LoseReply?
            then w.service.(outbox := w.service.outbox - multiset{step.reply})
            else w.service
  {
  }

  lemma ReplyTaken(w: E.World, reply: Reply)
    requires E.WorldInv(w) && reply in w.service.outbox
    ensures E.WorldInv(w.(service := w.service.(outbox := w.service.outbox - multiset{reply})))
  {
    E.StepKeepsWorld(w, E.LoseReply(reply), _ => true);
  }

  lemma CommandIsOwn(w: E.World, command: C.Command)
    requires E.WorldInv(w) && command in w.client.sent
    ensures command.id in w.lives
  {
    assert E.CommandInv(w.client.sent, w.lives, command);
  }

  /** A message of another client. */
  lemma ForeignDelivery(w: E.World, command: C.Command, h: Handle)
    requires E.WorldInv(w) && command.id in w.foreign && ContextService.Enabled(w.service, E.EventOf(command, h))
    ensures E.WorldInv(w.(service := ContextService.Next(w.service, E.EventOf(command, h))))
  {
    var e := E.EventOf(command, h);
    E.StepKeepsWorld(w, E.Foreign(e), _ => true);
    assert w.foreign + {e.key} == w.foreign;
  }

  /** What a step of another client, whose world is `other`, is in the world of this one. */
  lemma OtherStep(w: E.World, other: E.World, own: E.Step, parses: string -> bool)
    requires E.WorldInv(w) && other.service == w.service && E.Enabled(other, own) && !own.Serve? && !own.Foreign?
    requires own.Deliver? ==> own.command.id in w.foreign
    requires own.Lock? ==> own.id !in w.lives
    ensures E.WorldInv(w.(service := E.Next(other, own, parses).service,
                          foreign := w.foreign + if own.Lock? then {own.id} else {}))
  {
    var w' := w.(service := E.Next(other, own, parses).service,
                 foreign := w.foreign + if own.Lock? then {own.id} else {});
    ServiceOfStep(other, own, parses);
    assert !own.Lock? ==> w'.foreign == w.foreign;
    if own.Deliver? {
      ForeignDelivery(w, own.command, own.handle);
    } else if own.Answer? || own.LoseReply? {
      ReplyTaken(w, own.reply);
    } else if own.Lock? {
      MoreForeign(w, own.id);
    }
  }

  lemma OtherStepKeepsWorld(cl: Cluster, j: nat, own: E.Step, parses: string -> bool, k: nat)
    requires ClusterInv(cl) && Enabled(cl, By(j, own)) && k < |cl.sides| && k != j
    ensures E.WorldInv(View(Next(cl, By(j, own), parses), k))
  {
    OthersOfStep(cl, j, own, parses, k);
    assert E.WorldInv(View(cl, j)) && E.WorldInv(View(cl, k));
    if own.Deliver? {
      CommandIsOwn(View(cl, j), own.command);
      assert own.command.id in Others(cl, k);
    }
    OtherStep(View(cl, k), View(cl, j), own, parses);
  }

  lemma StepKeepsCluster(cl: Cluster, step: Step, parses: string -> bool)
    requires ClusterInv(cl) && Enabled(cl, step)
    ensures ClusterInv(Next(cl, step, parses))
  {
    var cl' := Next(cl, step, parses);
    forall k | 0 <= k < |cl'.sides|
      ensures E.WorldInv(View(cl', k))
    {
      match step
      case By(j, own) =>
        if j == k {
          OwnStepView(cl, k, own, parses);
          E.StepKeepsWorld(View(cl, k), own, parses);
        } else {
          OtherStepKeepsWorld(cl, j, own, parses, k);
        }
      case Serve(e) =>
        SameOthers(cl, cl', k);
        E.StepKeepsWorld(View(cl, k), E.Serve(e), parses);
    }
  }

  lemma BaseStays(cl: Cluster, step: Step, parses: string -> bool)
    requires Enabled(cl, step)
    ensures Next(cl, step, parses).service.base == cl.service.base
    ensures |Next(cl, step, parses).sides| == |cl.sides|
  {
    match step
    case Serve(e) => EventKeepsBase(cl.service, e);
    case By(k, own) =>
      ServiceOfStep(View(cl, k), own, parses);
      if own.Deliver? {
        EventKeepsBase(cl.service, E.EventOf(own.command, own.handle));
      }
  }

  lemma EventKeepsBase(s: State, e: Event)
    requires ContextService.Enabled(s, e)
    ensures ContextService.Next(s, e).base == s.base
  {
  }

  lemma {:induction false} RunKeepsCluster(cl: Cluster, run: seq<Step>, parses: string -> bool)
    requires ClusterInv(cl) && Legal(cl, run, parses)
    ensures ClusterInv(After(cl, run, parses)) && |After(cl, run, parses).sides| == |cl.sides|
    ensures After(cl, run, parses).service.base == cl.service.base
    decreases |run|
  {
    if run != [] {
      BaseStays(cl, run[0], parses);
      StepKeepsCluster(cl, run[0], parses);
      RunKeepsCluster(Next(cl, run[0], parses), run[1..], parses);
    }
  }

  /** Every attempt belongs to a request of one of the clients. */
  lemma AttemptHasOwner(cl: Cluster, h: Handle) returns (k: nat)
    requires ClusterInv(cl) && cl.sides != [] && h in cl.service.requests
    ensures k < |cl.sides| && cl.service.requests[h].key in cl.sides[k].lives
    ensures E.WorldInv(View(cl, k))
  {
    var key := cl.service.requests[h].key;
    assert E.WorldInv(View(cl, 0));
    if key in cl.sides[0].lives {
      k := 0;
    } else {
      k := OwnerOf(cl, 0, key);
    }
  }

  /** In any number of clients at once: a resolved save has been written exactly once, under its write lock. */
  lemma ResolvedSavesAreWritten(base: nat, clients: nat, run: seq<Step>, parses: string -> bool, k: nat, p: nat)
    requires Legal(Start(base, clients), run, parses)
    requires k < |After(Start(base, clients), run, parses).sides|
    requires var c := After(Start(base, clients), run, parses).sides[k].client;
             p in c.promises && c.promises[p].purpose.ForSave? && c.promises[p].settlement == C.Resolved
    ensures var cl := After(Start(base, clients), run, parses);
            var q := cl.sides[k].client.promises[p];
            E.WrittenOnce(cl.service, q.id, q.purpose.text)
  {
    StartInv(base, clients);
    RunKeepsCluster(Start(base, clients), run, parses);
    E.ResolvedMeansWritten(View(After(Start(base, clients), run, parses), k), p);
  }
}
