/**
 Where the guarantees end: the node with number 0, and the race between the wait timer and a pending
 a_get_children.
 */
module ContextFailures {
  import opened Options
  import opened LockNames
  import opened ContextService
  import opened ContextTheorems

  /** The states that legal runs reach, races included. */
  ghost predicate Possible(base: nat, s: State)
  {
    exists run :: Legal(Init(base), run) && After(Init(base), run) == s
  }

  lemma {:induction false} RunExtends(s: State, run: seq<Event>, e: Event)
    requires Legal(s, run) && Enabled(After(s, run), e)
    ensures Legal(s, run + [e]) && After(s, run + [e]) == Next(After(s, run), e)
    ensures RaceFree(s, run) && !IsTimerScanRace(After(s, run), e) ==> RaceFree(s, run + [e])
    decreases run
  {
    if run == [] {
      assert run + [e] == [e];
      assert Legal(Next(s, e), []);
    } else {
      RunExtends(Next(s, run[0]), run[1..], e);
      assert (run + [e])[1..] == run[1..] + [e];
    }
  }

  lemma ReachableStep(base: nat, s: State, e: Event)
    requires Reachable(base, s) && Enabled(s, e) && !IsTimerScanRace(s, e)
    ensures Reachable(base, Next(s, e))
  {
    var run :| Legal(Init(base), run) && RaceFree(Init(base), run) && After(Init(base), run) == s;
    RunExtends(Init(base), run, e);
  }

  lemma PossibleStep(base: nat, s: State, e: Event)
    requires Possible(base, s) && Enabled(s, e)
    ensures Possible(base, Next(s, e))
  {
    var run :| Legal(Init(base), run) && After(Init(base), run) == s;
    RunExtends(Init(base), run, e);
  }

  lemma ReachableStart(base: nat)
    ensures Reachable(base, Init(base)) && Possible(base, Init(base))
  {
    assert Legal(Init(base), []) && RaceFree(Init(base), []);
  }

  /** The attempt of a writer that holds its lock with the given content. */
  function Holder(key: string, path: string, number: nat, got: Snapshot): Request
  {
    Request(key, path, Write, false, Some(LockNode(Write, number)), Held(got), Cleared)
  }

  /** The state in which a new writer, met by no visible node, has acquired the lock and its content. */
  function WithHolder(s: State, h: Handle, key: string, path: string): State
  {
    var z := ZnodeAt(s, path);
    var locks := z.locks + {LockNode(Write, z.counter)};
    s.(requests := s.requests[h := Holder(key, path, z.counter, Snapshot(z.content, ZeroAlive(locks)))],
       store := s.store[path := z.(counter := z.counter + 1, locks := locks)],
       controlMap := s.controlMap[key := h],
       outbox := s.outbox + multiset{Granted(key, z.content)})
  }

  /** The first half of an undisturbed acquisition: up to the first a_get_children. */
  function WithScanner(s: State, h: Handle, key: string, path: string): State
  {
    var z := ZnodeAt(s, path);
    var locks := z.locks + {LockNode(Write, z.counter)};
    s.(requests := s.requests[h := Request(key, path, Write, false, Some(LockNode(Write, z.counter)),
                                           Scanning(Some(locks), false), Armed)],
       store := s.store[path := z.(counter := z.counter + 1, locks := locks)])
  }

  lemma EquallyReachable(base: nat, s: State, s1: State, s2: State, e: Event, race: bool)
    requires Enabled(s1, e) && s2 == Next(s1, e) && (race || !IsTimerScanRace(s1, e))
    requires Possible(base, s) ==> Possible(base, s1)
    requires !race && Reachable(base, s) ==> Reachable(base, s1)
    ensures Possible(base, s) ==> Possible(base, s2)
    ensures !race && Reachable(base, s) ==> Reachable(base, s2)
  {
    if Possible(base, s) {
      PossibleStep(base, s1, e);
    }
    if !race && Reachable(base, s) {
      ReachableStep(base, s1, e);
    }
  }

  lemma ScannerReached(base: nat, s: State, h: Handle, key: string, path: string)
    requires h !in s.requests
    ensures Possible(base, s) ==> Possible(base, WithScanner(s, h, key, path))
    ensures Reachable(base, s) ==> Reachable(base, WithScanner(s, h, key, path))
  {
    var s1 := WithCreated(s, h, key, path);
    CreatedReached(base, s, h, key, path);
    var e2, e3 := Acquire(h, OnCreated), Acquire(h, ServeChildren);
    var s2 := Next(s1, e2);
    EquallyReachable(base, s, s1, s2, e2, false);
    var s3 := Next(s2, e3);
    EquallyReachable(base, s, s2, s3, e3, false);
    assert s3 == WithScanner(s, h, key, path);
  }

  function WithCreated(s: State, h: Handle, key: string, path: string): State
  {
    var z := ZnodeAt(s, path);
    var node := LockNode(Write, z.counter);
    s.(requests := s.requests[h := Request(key, path, Write, false, Some(node), Created, Unset)],
       store := s.store[path := z.(counter := z.counter + 1, locks := z.locks + {node})])
  }

  lemma CreatedReached(base: nat, s: State, h: Handle, key: string, path: string)
    requires h !in s.requests
    ensures Possible(base, s) ==> Possible(base, WithCreated(s, h, key, path))
    ensures Reachable(base, s) ==> Reachable(base, WithCreated(s, h, key, path))
  {
    var e0, e1 := LockRequest(h, key, path, Write, false), Acquire(h, ServeCreate);
    var s0 := Next(s, e0);
    EquallyReachable(base, s, s, s0, e0, false);
    var s1 := Next(s0, e1);
    EquallyReachable(base, s, s0, s1, e1, false);
    assert s1 == WithCreated(s, h, key, path);
  }

  lemma HolderReached(base: nat, s: State, h: Handle, key: string, path: string)
    requires h !in s.requests
    requires forall n :: n in ZnodeAt(s, path).locks ==> n.number == 0
    ensures Possible(base, s) ==> Possible(base, WithHolder(s, h, key, path))
    ensures Reachable(base, s) ==> Reachable(base, WithHolder(s, h, key, path))
  {
    var s3 := WithScanner(s, h, key, path);
    ScannerReached(base, s, h, key, path);
    var s4 := Granting(s3, h, Cleared);
    ScannerIsGranted(s, h, key, path);
    EquallyReachable(base, s, s3, s4, Acquire(h, OnChildren(None)), false);
    ContentDelivered(base, s4, h);
  }

  lemma ScannerIsGranted(s: State, h: Handle, key: string, path: string)
    requires h !in s.requests && forall n :: n in ZnodeAt(s, path).locks ==> n.number == 0
    ensures var s3, e := WithScanner(s, h, key, path), Acquire(h, OnChildren(None));
            && Enabled(s3, e) && Next(s3, e) == Granting(s3, h, Cleared)
            && Delivered(Granting(s3, h, Cleared), h) == WithHolder(s, h, key, path)
  {
  }

  /** The attempt h has acquired the lock and its a_get is in flight. */
  function Granting(s: State, h: Handle, wait: WaitTimer): State
    requires h in s.requests
  {
    With(s, h, s.requests[h].(phase := Reading(None), wait := wait))
  }

  /** The attempt h has its content. */
  function Delivered(s: State, h: Handle): State
    requires h in s.requests
  {
    var r := s.requests[h];
    var z := ZnodeAt(s, r.path);
    s.(requests := s.requests[h := r.(phase := Held(Snapshot(z.content, ZeroAlive(z.locks))))],
       controlMap := s.controlMap[r.key := h],
       outbox := s.outbox + multiset{Granted(r.key, z.content)})
  }

  lemma ContentDelivered(base: nat, s: State, h: Handle)
    requires h in s.requests && s.requests[h].phase == Reading(None) && !s.requests[h].singleShot
    ensures Possible(base, s) ==> Possible(base, Delivered(s, h))
    ensures Reachable(base, s) ==> Reachable(base, Delivered(s, h))
  {
    var s1 := Next(s, Hold(h, ServeGet));
    EquallyReachable(base, s, s, s1, Hold(h, ServeGet), false);
    var s2 := Next(s1, Hold(h, OnGet));
    EquallyReachable(base, s, s1, s2, Hold(h, OnGet), false);
    assert s2 == Delivered(s, h);
  }

  /** The sequence number 0 breaks both guarantees: two writers hold the lock, and one overwrites the other. */
  lemma NumberZeroBreaksExclusion() returns (s: State, t: State)
    ensures Reachable(0, s) && !Exclusive(s)
    ensures Reachable(0, t) && !NoLostUpdate(t)
  {
    var s0 := Init(0);
    ReachableStart(0);
    var s1 := WithHolder(s0, 0, "a", "p");
    HolderReached(0, s0, 0, "a", "p");
    s := WithHolder(s1, 1, "b", "p");
    HolderReached(0, s1, 1, "b", "p");
    assert GrantedAlive(s, 0) && GrantedAlive(s, 1);
    t := SecondWriteReached(0, s);
  }

  /** Two holders on path p that both read the empty content: the second write is about to erase the first. */
  lemma SecondWriteReached(base: nat, s: State) returns (t: State)
    requires s.requests.Keys == {0, 1} && s.controlMap == map["a" := 0, "b" := 1]
    requires s.requests[0].phase.Held? && s.requests[1].phase.Held? && s.requests[1].phase.held.text == ""
    requires s.requests[0].mode == Write && s.requests[1].mode == Write
    requires s.requests[0].path == "p" && s.requests[1].path == "p" && "p" in s.store
    ensures Possible(base, s) ==> Possible(base, t)
    ensures Reachable(base, s) ==> Reachable(base, t)
    ensures !NoLostUpdate(t)
  {
    var e0, e1, e2 := SaveRequest("a", "x"), Hold(0, ServeSet), SaveRequest("b", "y");
    var t0 := Next(s, e0);
    EquallyReachable(base, s, s, t0, e0, false);
    var t1 := Next(t0, e1);
    EquallyReachable(base, s, t0, t1, e1, false);
    assert t1.controlMap == map["b" := 1];
    t := Next(t1, e2);
    EquallyReachable(base, s, t1, t, e2, false);
    assert t.store["p"].content == "x" && t.requests[1].phase.base.text == "";
    assert Enabled(t, Hold(1, ServeSet));
  }

  /** Exactly when the service is safe: the first lock node of a path must not get number 0. */
  lemma SafeExactlyFromOne(base: nat)
    ensures (forall s :: Reachable(base, s) ==> Exclusive(s) && NoLostUpdate(s)) <==> base >= 1
  {
    if base >= 1 {
      forall s | Reachable(base, s)
        ensures Exclusive(s) && NoLostUpdate(s)
      {
        ServiceIsSafe(base, s);
      }
    } else {
      var s, t := NumberZeroBreaksExclusion();
    }
  }

  /** One race step is enough to lose an update, whatever the sequence numbers. */
  lemma RaceLosesUpdate() returns (t: State)
    ensures Possible(1, t) && !NoLostUpdate(t)
  {
    var s3 := OrphanHolder();
    var s4 := WithHolder(s3, 1, "b", "p");
    HolderReached(1, s3, 1, "b", "p");
    t := SecondWriteReached(1, s4);
  }

  /** After the race a writer holds the lock, and has read the content, without a node. */
  lemma OrphanHolder() returns (s: State)
    ensures Possible(1, s) && s.requests.Keys == {0} && s.controlMap == map["a" := 0]
    ensures s.requests[0].phase.Held? && s.requests[0].mode == Write && s.requests[0].path == "p"
    ensures "p" in s.store && s.store["p"].locks == {} && s.store["p"].content == ""
  {
    var s0 := Init(1);
    ReachableStart(1);
    var s1 := WithScanner(s0, 0, "a", "p");
    ScannerReached(1, s0, 0, "a", "p");
    RaceReached(1, s1, 0);
    var s2 := AfterRace(s1, 0);
    ContentDelivered(1, s2, 0);
    s := Delivered(s2, 0);
  }

  /** The timer of h fires while the answer to its a_get_children is on its way. */
  predicate RaceAhead(s: State, h: Handle)
  {
    && h in s.requests && s.requests[h].wait.Armed? && s.requests[h].node.Some?
    && s.requests[h].phase.Scanning? && s.requests[h].phase.view.Some? && !s.requests[h].phase.late
    && ScanResult(s.requests[h].phase.view.value, s.requests[h].node.value, None)
  }

  /** The answer has granted the lock all the same, and the server has deleted the node. */
  function AfterRace(s: State, h: Handle): State
    requires RaceAhead(s, h)
  {
    RemoveNode(Granting(s, h, DeleteServed), s.requests[h].path, s.requests[h].node.value)
  }

  lemma RaceReached(base: nat, s: State, h: Handle)
    requires RaceAhead(s, h) && Possible(base, s)
    ensures Possible(base, AfterRace(s, h))
    ensures var t := AfterRace(s, h); LockGranted(t.requests[h].phase) && !Live(t, t.requests[h])
  {
    RaceGranted(base, s, h);
    RaceOrphans(s, h);
    PossibleStep(base, Granting(s, h, DeleteSent), Acquire(h, ServeTimeoutDelete));
  }

  lemma RaceOrphans(s: State, h: Handle)
    requires RaceAhead(s, h)
    ensures var s2, e := Granting(s, h, DeleteSent), Acquire(h, ServeTimeoutDelete);
            Enabled(s2, e) && Next(s2, e) == AfterRace(s, h)
    ensures var t := AfterRace(s, h); LockGranted(t.requests[h].phase) && !Live(t, t.requests[h])
  {
    var r := s.requests[h];
    var s1 := Granting(s, h, DeleteServed);
    assert NotifyWatcher(s1.requests[h], r.path, r.node.value) == s1.requests[h];
  }

  lemma RaceGranted(base: nat, s: State, h: Handle)
    requires RaceAhead(s, h) && Possible(base, s)
    ensures Possible(base, Granting(s, h, DeleteSent))
  {
    var e1, e2 := Acquire(h, WaitTimerFires), Acquire(h, OnChildren(None));
    assert IsTimerScanRace(s, e1);
    var s1 := With(s, h, s.requests[h].(wait := DeleteSent));
    assert Next(s, e1) == s1;
    PossibleStep(base, s, e1);
    assert Enabled(s1, e2) && Next(s1, e2) == Granting(s, h, DeleteSent);
    PossibleStep(base, s1, e2);
  }
}
