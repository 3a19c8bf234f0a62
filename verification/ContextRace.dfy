/**
 The race between the wait timer and a pending a_get_children, exactly: when an attempt whose timer fires now can
 still be granted, and then hold its lock without a node.
 */
module ContextRace {
  import opened Options
  import opened LockNames
  import opened LockScan
  import opened ContextService
  import opened ContextInvariant
  import opened ContextSafety
  import opened ContextTheorems
  import opened ContextWrites
  import opened ContextBlocking
  import opened ContextLiveness

  /** The attempt is granted in some continuation, and its node is gone. */
  ghost predicate CanBeOrphaned(s: State, h: Handle)
  {
    exists run ::
      && Legal(s, run) && h in After(s, run).requests
      && LockGranted(After(s, run).requests[h].phase) && !Live(After(s, run), After(s, run).requests[h])
  }

  /** A scan is pending that has been answered with nothing to wait for, or that has not been answered and has no
      lost attempt ahead. */
  ghost predicate ScanCanGrant(s: State, r: Request)
  {
    && r.phase.Scanning? && r.node.Some?
    && if r.phase.view.Some? then forall n :: n in r.phase.view.value ==> !Seen(n, r.node.value) else !LostAhead(s, r)
  }

  // ---------- when it cannot be granted ----------

  /** The delete of the wait timer has been issued, and no scan is pending whose answer could still grant. */
  ghost predicate Doomed(r: Request)
  {
    && !LockGranted(r.phase) && !r.phase.Creating? && !r.phase.Created? && r.node.Some?
    && (TimeoutDeletePending(r.wait) || TimedOut(r.wait))
    && (r.phase.Scanning? ==>
          || r.phase.late || TimedOut(r.wait)
          || (r.phase.view.Some? && exists n :: n in r.phase.view.value && Seen(n, r.node.value)))
  }

  lemma DoomedAdvances(r: Request, z: Znode, step: AcquireStep)
    requires Doomed(r) && AcquireEnabled(r, step)
    ensures Doomed(Advance(r, z, step))
  {
  }

  lemma DoomedStays(s: State, e: Event, h: Handle)
    requires TableInv(s) && Enabled(s, e) && h in s.requests && Doomed(s.requests[h])
    ensures h in Next(s, e).requests && Doomed(Next(s, e).requests[h])
  {
    if Subject(s, e) != Some(h) {
      Bystander(s, e, h);
    } else {
      OnlyCallbacksOfWaiter(s, e, h);
      DoomedAdvances(s.requests[h], ZnodeAt(s, s.requests[h].path), e.acquire);
      AcquireResult(s, h, e.acquire);
    }
  }

  lemma {:induction false} DoomedForever(s: State, run: seq<Event>, h: Handle)
    requires TableInv(s) && h in s.requests && Doomed(s.requests[h]) && Legal(s, run)
    ensures h in After(s, run).requests && !LockGranted(After(s, run).requests[h].phase)
    decreases run
  {
    if run != [] {
      DoomedStays(s, run[0], h);
      TableStays(s, run[0]);
      DoomedForever(Next(s, run[0]), run[1..], h);
    }
  }

  lemma NotGrantedAfterTimer(base: nat, s: State, run: seq<Event>, h: Handle)
    requires Reachable(base, s) && Enabled(s, Acquire(h, WaitTimerFires)) && !ScanCanGrant(s, s.requests[h])
    requires Legal(Next(s, Acquire(h, WaitTimerFires)), run)
    ensures var t := After(Next(s, Acquire(h, WaitTimerFires)), run);
            h in t.requests && !LockGranted(t.requests[h].phase)
  {
    var r, e := s.requests[h], Acquire(h, WaitTimerFires);
    ReachableInv(base, s);
    assert RequestInv(s, h);
    if r.phase.Scanning? && r.phase.view.None? {
      RunStartsWith(s, e, run);
      LostAheadIsForever(base, s, [e] + run, h);
    } else {
      TableStays(s, e);
      TimerFired(s, h);
      DoomedForever(Next(s, e), run, h);
    }
  }

  lemma TimerFired(s: State, h: Handle)
    requires Enabled(s, Acquire(h, WaitTimerFires))
    ensures Next(s, Acquire(h, WaitTimerFires)) == With(s, h, s.requests[h].(wait := DeleteSent))
  {
  }

  // ---------- when it can ----------

  predicate AboutOthers(run: seq<Event>, h: Handle)
  {
    forall e | e in run :: (e.Acquire? || e.Hold?) && e.h != h
  }

  /** What the others do does not depend on the timer of an attempt that is scanning. */
  lemma StepCommutes(s: State, e: Event, h: Handle, r': Request)
    requires Enabled(s, e) && (e.Acquire? || e.Hold?) && e.h != h && h in s.requests
    requires s.requests[h].phase.Scanning? && r' == s.requests[h].(wait := r'.wait)
    ensures Enabled(With(s, h, r'), e) && Next(With(s, h, r'), e) == With(Next(s, e), h, r')
    ensures h in Next(s, e).requests && Next(s, e).requests[h] == s.requests[h]
  {
    match e
    case Acquire(k, step) => AcquireCommutes(s, k, step, h, r');
    case Hold(k, step) => HoldCommutes(s, k, step, h, r');
  }

  lemma RemovalCommutes(s: State, path: string, node: LockNode, h: Handle, r': Request)
    requires h in s.requests && s.requests[h].phase.Scanning? && r'.phase.Scanning?
    ensures RemoveNode(With(s, h, r'), path, node) == With(RemoveNode(s, path, node), h, r')
    ensures h in RemoveNode(s, path, node).requests && RemoveNode(s, path, node).requests[h] == s.requests[h]
  {
    assert RemoveNode(With(s, h, r'), path, node).requests == With(RemoveNode(s, path, node), h, r').requests;
  }

  lemma AcquireCommutes(s: State, k: Handle, step: AcquireStep, h: Handle, r': Request)
    requires k in s.requests && h in s.requests && k != h && AcquireEnabled(s.requests[k], step)
    requires s.requests[h].phase.Scanning? && r' == s.requests[h].(wait := r'.wait)
    ensures NextAcquire(With(s, h, r'), k, step) == With(NextAcquire(s, k, step), h, r')
    ensures h in NextAcquire(s, k, step).requests && NextAcquire(s, k, step).requests[h] == s.requests[h]
  {
    var r, q := s.requests[k], Advance(s.requests[k], ZnodeAt(s, s.requests[k].path), step);
    assert s.requests[h := r'][k := q] == s.requests[k := q][h := r'];
    if step.ServeTimeoutDelete? {
      RemovalCommutes(With(s, k, q).(outbox := s.outbox + AcquireReply(r, step)), r.path, r.node.value, h, r');
    }
  }

  lemma HoldCommutes(s: State, k: Handle, step: HolderStep, h: Handle, r': Request)
    requires k in s.requests && h in s.requests && k != h && HoldEnabled(s.requests[k].phase, step)
    requires s.requests[h].phase.Scanning? && r' == s.requests[h].(wait := r'.wait)
    ensures NextHold(With(s, h, r'), k, step) == With(NextHold(s, k, step), h, r')
    ensures h in NextHold(s, k, step).requests && NextHold(s, k, step).requests[h] == s.requests[h]
  {
    var r, q := s.requests[k], AdvanceHolder(s.requests[k], ZnodeAt(s, s.requests[k].path), step);
    assert s.requests[h := r'][k := q] == s.requests[k := q][h := r'];
    if step.ServeDelete? && r.node.Some? {
      RemovalCommutes(With(s, k, q).(outbox := s.outbox + HoldReply(r, step)), r.path, r.node.value, h, r');
    }
  }

  lemma {:induction false} RunCommutes(s: State, run: seq<Event>, h: Handle, r': Request)
    requires Legal(s, run) && AboutOthers(run, h) && h in s.requests
    requires s.requests[h].phase.Scanning? && r' == s.requests[h].(wait := r'.wait)
    ensures Legal(With(s, h, r'), run) && After(With(s, h, r'), run) == With(After(s, run), h, r')
    ensures h in After(s, run).requests && After(s, run).requests[h] == s.requests[h]
    decreases run
  {
    if run != [] {
      assert run[0] in run && forall e :: e in run[1..] ==> e in run;
      StepCommutes(s, run[0], h, r');
      RunCommutes(Next(s, run[0]), run[1..], h, r');
    }
  }

  /** The others leave, one after the other, until nothing is in the way of a scanning attempt. */
  lemma {:induction false} WayIsCleared(s: State, h: Handle) returns (run: seq<Event>)
    requires LockInv(s) && h in s.requests && s.requests[h].phase.Scanning? && s.requests[h].node.Some?
    requires !LostAhead(s, s.requests[h])
    ensures Legal(s, run) && AboutOthers(run, h)
    ensures h in After(s, run).requests && After(s, run).requests[h] == s.requests[h]
    ensures Unblocked(After(s, run), s.requests[h])
    decreases |Locks(s, s.requests[h].path)|
  {
    run := [];
    if !Unblocked(s, s.requests[h]) {
      var first, k := BlockerLeaves(s, h);
      forall e | e in first ensures OwnEvent(e, k) {
      }
      var rest := WayIsCleared(After(s, first), h);
      RunsConcatenate(s, first, rest);
      run := first + rest;
    }
  }

  /** The pending scan is answered and grants, and then the node is deleted. */
  lemma ScanGrants(s: State, h: Handle) returns (run: seq<Event>)
    requires h in s.requests && s.requests[h].phase.Scanning? && !s.requests[h].phase.late
    requires s.requests[h].wait.DeleteSent?
    requires s.requests[h].node.Some?
    requires var view := if s.requests[h].phase.view.Some? then s.requests[h].phase.view.value
                         else Locks(s, s.requests[h].path);
             forall n :: n in view ==> !Seen(n, s.requests[h].node.value)
    ensures Legal(s, run) && h in After(s, run).requests
    ensures LockGranted(After(s, run).requests[h].phase) && !Live(After(s, run), After(s, run).requests[h])
  {
    if s.requests[h].phase.view.None? {
      var serve := Acquire(h, ServeChildren);
      AcquireEffect(s, h, ServeChildren);
      run := AnsweredScanGrants(Next(s, serve), h);
      RunStartsWith(s, serve, run);
      run := [serve] + run;
    } else {
      run := AnsweredScanGrants(s, h);
    }
  }

  lemma AnsweredScanGrants(s: State, h: Handle) returns (run: seq<Event>)
    requires h in s.requests && s.requests[h].phase.Scanning? && !s.requests[h].phase.late
    requires s.requests[h].wait.DeleteSent?
    requires s.requests[h].node.Some? && s.requests[h].phase.view.Some?
    requires forall n :: n in s.requests[h].phase.view.value ==> !Seen(n, s.requests[h].node.value)
    ensures Legal(s, run) && h in After(s, run).requests
    ensures LockGranted(After(s, run).requests[h].phase) && !Live(After(s, run), After(s, run).requests[h])
  {
    var grant, delete := Acquire(h, OnChildren(None)), Acquire(h, ServeTimeoutDelete);
    AcquireEffect(s, h, OnChildren(None));
    var s1 := Next(s, grant);
    var s2 := Next(s1, delete);
    GrantIsOrphaned(s1, h);
    assert Legal(s2, []) && After(s2, []) == s2;
    RunStartsWith(s1, delete, []);
    RunStartsWith(s, grant, [delete] + []);
    run := [grant] + ([delete] + []);
  }

  lemma GrantIsOrphaned(s: State, h: Handle)
    requires Enabled(s, Acquire(h, ServeTimeoutDelete)) && s.requests[h].phase == Reading(None)
    ensures var t := Next(s, Acquire(h, ServeTimeoutDelete));
            h in t.requests && t.requests[h].phase == Reading(None) && !Live(t, t.requests[h])
  {
    var r := s.requests[h];
    assert NotifyWatcher(r.(wait := DeleteServed), r.path, r.node.value) == r.(wait := DeleteServed);
  }

  lemma OrphanedAfterTimer(base: nat, s: State, h: Handle)
    requires Reachable(base, s) && Enabled(s, Acquire(h, WaitTimerFires)) && ScanCanGrant(s, s.requests[h])
    ensures CanBeOrphaned(Next(s, Acquire(h, WaitTimerFires)), h)
  {
    var r := s.requests[h];
    var r' := r.(wait := DeleteSent);
    ReachableInv(base, s);
    assert RequestInv(s, h);
    TimerFired(s, h);
    var t := With(s, h, r');
    var first: seq<Event> := [];
    if r.phase.view.None? {
      first := WayIsCleared(s, h);
    }
    RunCommutes(s, first, h, r');
    var rest := ScanGrants(After(t, first), h);
    RunsConcatenate(t, first, rest);
    assert Legal(t, first + rest);
  }

  /** The race, exactly: after a wait timer has fired, some continuation still grants the lock, and then leaves the
      holder without a node, if and only if a scan was pending that can still grant. */
  lemma RaceExactly(base: nat, s: State, h: Handle)
    requires Reachable(base, s) && Enabled(s, Acquire(h, WaitTimerFires))
    ensures CanBeGranted(Next(s, Acquire(h, WaitTimerFires)), h) <==> ScanCanGrant(s, s.requests[h])
    ensures CanBeOrphaned(Next(s, Acquire(h, WaitTimerFires)), h) <==> ScanCanGrant(s, s.requests[h])
  {
    var t := Next(s, Acquire(h, WaitTimerFires));
    if ScanCanGrant(s, s.requests[h]) {
      OrphanedAfterTimer(base, s, h);
    } else {
      forall run | Legal(t, run)
        ensures h in After(t, run).requests && !LockGranted(After(t, run).requests[h].phase)
      {
        NotGrantedAfterTimer(base, s, run, h);
      }
    }
  }
}
