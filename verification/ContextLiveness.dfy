/**
 Deadlock, exactly: a waiting attempt can be granted from a reachable state, by nothing but the calls, callbacks
 and timers that are already under way, unless a lost attempt is ahead of it.
 */
module ContextLiveness {
  import opened Options
  import opened LockScan
  import opened ContextService
  import opened ContextInvariant
  import opened ContextSafety
  import opened ContextTheorems
  import opened ContextProgress
  import opened ContextBlocking

  /** A step that the service takes by itself for attempt h, with no error code. */
  predicate OwnEvent(e: Event, h: Handle)
  {
    match e
    case Acquire(k, step) =>
      k == h && !step.CreateFails? && !step.ChildrenFails? && !step.WatchFails? && !step.TimeoutDeleteFails?
    case Hold(k, step) => k == h && !step.GetFails? && !step.SetFails? && !step.DeleteFails?
    case _ => false
  }

  /** How far an attempt is from giving its node up. */
  function ExitDistance(r: Request): nat
  {
    if r.wait.DeleteSent? then 1
    else
      match r.phase
      case Created => 10
      case Scanning(view, _) => if view.None? then 9 else 8
      case Reading(got) => if got.None? then 6 else 5
      case Held(_) => 4
      case Writing(_, _, served) => if served then 3 else 4
      case Deleting(_, _) => 1
      case _ => 7
  }

  /** The next step of an attempt on its way out: through its lock if it is granted, else through its timer. */
  lemma NextExitStep(s: State, r: Request, h: Handle) returns (e: Event)
    requires h in s.requests && r == s.requests[h]
    requires AttemptInv(s, r) && Live(s, r) && !Lost(r)
    ensures OwnEvent(e, h) && Enabled(s, e) && !IsTimerScanRace(s, e) && (e.Acquire? ==> !e.acquire.ServeCreate?)
    ensures var r' := Moved(s, r, e); ShouldLive(r') ==> !Lost(r') && ExitDistance(r') < ExitDistance(r)
  {
    if r.wait.DeleteSent? {
      return Acquire(h, ServeTimeoutDelete);
    }
    match r.phase
    case Created => e := Acquire(h, OnCreated);
    case Scanning(view, _) =>
      if view.None? {
        e := Acquire(h, ServeChildren);
      } else {
        var found := ScanResultExists(view.value, r.node.value);
        e := Acquire(h, OnChildren(found));
      }
    case Reading(got) => e := Hold(h, if got.None? then ServeGet else OnGet);
    case Held(_) => e := Hold(h, HoldTimerFires);
    case Writing(_, _, served) => e := Hold(h, if served then OnSet else ServeSet);
    case Deleting(_, _) => e := Hold(h, ServeDelete);
    case _ => e := Acquire(h, WaitTimerFires);
  }

  /** The attempt after its own event. */
  function Moved(s: State, r: Request, e: Event): Request
    requires (e.Acquire? && AcquireEnabled(r, e.acquire)) || (e.Hold? && HoldEnabled(r.phase, e.hold))
  {
    if e.Acquire? then Advance(r, ZnodeAt(s, r.path), e.acquire) else AdvanceHolder(r, ZnodeAt(s, r.path), e.hold)
  }

  /** An attempt that waits for its lock, its timer still running. */
  predicate Contender(r: Request)
  {
    r.phase.Created? || (Waiting(r.phase) && r.wait.Armed?)
  }

  ghost predicate Unblocked(s: State, r: Request)
  {
    r.node.Some? && forall n :: n in Locks(s, r.path) ==> !Seen(n, r.node.value)
  }

  /** How far an attempt that nothing blocks is from its grant. */
  function GrantDistance(r: Request): nat
  {
    match r.phase
    case Created => 6
    case Scanning(None, _) => 2
    case Scanning(Some(view), _) => if r.node.Some? && exists n | n in view :: Seen(n, r.node.value) then 5 else 1
    case Checking(_) => 4
    case Missing(_) => 3
    case Notified(_) => 3
    case _ => 0
  }

  /** The next step of a contender that nothing blocks, its timer not used. */
  lemma NextGrantStep(s: State, r: Request, h: Handle) returns (e: Event)
    requires h in s.requests && r == s.requests[h] && AttemptInv(s, r) && Contender(r) && Unblocked(s, r)
    ensures OwnEvent(e, h) && Enabled(s, e) && e.Acquire? && !e.acquire.WaitTimerFires? && !e.acquire.ServeCreate?
    ensures !e.acquire.ServeTimeoutDelete?
    ensures var r' := Moved(s, r, e); LockGranted(r'.phase) || (Contender(r') && GrantDistance(r') < GrantDistance(r))
  {
    match r.phase
    case Created => e := Acquire(h, OnCreated);
    case Scanning(view, _) =>
      if view.None? {
        e := Acquire(h, ServeChildren);
      } else {
        var found := ScanResultExists(view.value, r.node.value);
        assert found.Some? ==> Seen(found.value, r.node.value);
        e := Acquire(h, OnChildren(found));
      }
    case Checking(_) => e := Acquire(h, ServeExists);
    case Missing(_) => e := Acquire(h, OnMissing);
    case Notified(_) => e := Acquire(h, OnWatchEvent);
    case _ => assert false;
  }

  ghost predicate OwnRun(run: seq<Event>, h: Handle)
  {
    forall e :: e in run ==> OwnEvent(e, h)
  }

  /** Between two states only attempt h made progress; its node went, or no node did. */
  ghost predicate OthersAlone(s: State, t: State, h: Handle)
  {
    && OwnNodeOnly(s, t, h)
    && forall k :: k in s.requests && k != h ==> Undisturbed(s.requests[k], t.requests[k])
  }

  ghost predicate OwnNodeOnly(s: State, t: State, h: Handle)
  {
    && h in s.requests && t.requests.Keys == s.requests.Keys
    && t.requests[h].path == s.requests[h].path && t.requests[h].node == s.requests[h].node
    && (forall p :: p != s.requests[h].path ==> Locks(t, p) == Locks(s, p))
    && (Locks(t, s.requests[h].path) == Locks(s, s.requests[h].path)
        || (s.requests[h].node.Some?
            && Locks(t, s.requests[h].path) == Locks(s, s.requests[h].path) - {s.requests[h].node.value}))
  }

  lemma OthersAloneIsTransitive(s: State, t: State, u: State, h: Handle)
    requires OthersAlone(s, t, h) && OthersAlone(t, u, h)
    ensures OthersAlone(s, u, h)
  {
  }

  lemma OwnEventLeavesOthersAlone(s: State, e: Event, h: Handle)
    requires h in s.requests && OwnEvent(e, h) && Enabled(s, e) && (e.Acquire? ==> !e.acquire.ServeCreate?)
    requires s.requests[h].path in s.store
    ensures OthersAlone(s, Next(s, e), h)
  {
    forall k | k in s.requests && k != h
      ensures k in Next(s, e).requests && Undisturbed(s.requests[k], Next(s, e).requests[k])
    {
      Bystander(s, e, k);
    }
    match e
    case Acquire(_, step) => OwnAcquireLocks(s, h, step);
    case Hold(_, step) => OwnHoldLocks(s, h, step);
  }

  lemma OwnAcquireLocks(s: State, h: Handle, step: AcquireStep)
    requires h in s.requests && AcquireEnabled(s.requests[h], step) && !step.ServeCreate?
    ensures OwnNodeOnly(s, NextAcquire(s, h, step), h)
  {
    if !step.ServeTimeoutDelete? || !Live(s, s.requests[h]) {
      AcquireEffect(s, h, step);
    }
  }

  lemma OwnHoldLocks(s: State, h: Handle, step: HolderStep)
    requires h in s.requests && HoldEnabled(s.requests[h].phase, step) && s.requests[h].path in s.store
    ensures OwnNodeOnly(s, NextHold(s, h, step), h)
  {
    if !step.ServeSet? && (!step.ServeDelete? || !Live(s, s.requests[h])) {
      HoldEffect(s, h, step);
    }
  }

  lemma {:induction false} RunsConcatenate(s: State, a: seq<Event>, b: seq<Event>)
    requires Legal(s, a) && Legal(After(s, a), b)
    ensures Legal(s, a + b) && After(s, a + b) == After(After(s, a), b)
    ensures RaceFree(s, a) && RaceFree(After(s, a), b) ==> RaceFree(s, a + b)
    decreases a
  {
    if a == [] {
      assert a + b == b;
    } else {
      RunsConcatenate(Next(s, a[0]), a[1..], b);
      assert (a + b)[1..] == a[1..] + b;
    }
  }

  lemma RunStartsWith(s: State, e: Event, run: seq<Event>)
    requires Enabled(s, e) && Legal(Next(s, e), run)
    ensures Legal(s, [e] + run) && After(s, [e] + run) == After(Next(s, e), run)
    ensures !IsTimerScanRace(s, e) && RaceFree(Next(s, e), run) ==> RaceFree(s, [e] + run)
  {
    assert ([e] + run)[1..] == run;
  }

  /** The attempt after its own event is the advanced attempt. */
  lemma OwnEventAdvances(s: State, e: Event, h: Handle)
    requires h in s.requests && OwnEvent(e, h) && Enabled(s, e) && AttemptInv(s, s.requests[h])
    requires e.Acquire? ==> !e.acquire.ServeCreate?
    ensures h in Next(s, e).requests && Next(s, e).requests[h] == Moved(s, s.requests[h], e)
  {
    var r := s.requests[h];
    match e
    case Acquire(_, step) =>
      if step.ServeTimeoutDelete? {
        assert NotifyWatcher(r.(wait := DeleteServed), r.path, r.node.value) == r.(wait := DeleteServed);
      } else {
        AcquireEffect(s, h, step);
      }
    case Hold(_, step) =>
  }

  /** An attempt that is not lost gives its node up after finitely many steps of its own. */
  lemma {:induction false} Drained(s: State, h: Handle) returns (run: seq<Event>)
    requires LockInv(s) && h in s.requests && Live(s, s.requests[h]) && !Lost(s.requests[h])
    ensures Legal(s, run) && RaceFree(s, run) && OwnRun(run, h)
    ensures var t := After(s, run); LockInv(t) && OthersAlone(s, t, h) && !Live(t, t.requests[h])
    decreases ExitDistance(s.requests[h])
  {
    var e := ExitStepTaken(s, h);
    var s' := Next(s, e);
    var rest: seq<Event> := [];
    if Live(s', s'.requests[h]) {
      rest := Drained(s', h);
      OthersAloneIsTransitive(s, s', After(s', rest), h);
    }
    RunStartsWith(s, e, rest);
    run := [e] + rest;
  }

  lemma ExitStepTaken(s: State, h: Handle) returns (e: Event)
    requires LockInv(s) && h in s.requests && Live(s, s.requests[h]) && !Lost(s.requests[h])
    ensures OwnEvent(e, h) && Enabled(s, e) && !IsTimerScanRace(s, e)
    ensures var s' := Next(s, e);
            && LockInv(s') && OthersAlone(s, s', h)
            && (Live(s', s'.requests[h]) ==>
                  !Lost(s'.requests[h]) && ExitDistance(s'.requests[h]) < ExitDistance(s.requests[h]))
  {
    assert RequestInv(s, h);
    e := NextExitStep(s, s.requests[h], h);
    StepKeepsLockInv(s, e);
    OwnEventLeavesOthersAlone(s, e, h);
    OwnEventAdvances(s, e, h);
    assert RequestInv(Next(s, e), h);
  }

  /** An unblocked contender is granted after finitely many steps of its own, its timer not among them. */
  lemma {:induction false} GrantedAlone(s: State, h: Handle) returns (run: seq<Event>)
    requires LockInv(s) && h in s.requests && Contender(s.requests[h]) && Unblocked(s, s.requests[h])
    ensures Legal(s, run) && RaceFree(s, run) && OwnRun(run, h) && Acquire(h, WaitTimerFires) !in run
    ensures h in After(s, run).requests && LockGranted(After(s, run).requests[h].phase)
    decreases GrantDistance(s.requests[h])
  {
    var e := GrantStepTaken(s, h);
    var s' := Next(s, e);
    var rest: seq<Event> := [];
    if !LockGranted(s'.requests[h].phase) {
      rest := GrantedAlone(s', h);
    }
    RunStartsWith(s, e, rest);
    run := [e] + rest;
  }

  lemma GrantStepTaken(s: State, h: Handle) returns (e: Event)
    requires LockInv(s) && h in s.requests && Contender(s.requests[h]) && Unblocked(s, s.requests[h])
    ensures OwnEvent(e, h) && Enabled(s, e) && !IsTimerScanRace(s, e) && e != Acquire(h, WaitTimerFires)
    ensures var s' := Next(s, e);
            && LockInv(s') && h in s'.requests && Unblocked(s', s'.requests[h])
            && (LockGranted(s'.requests[h].phase)
                || (Contender(s'.requests[h]) && GrantDistance(s'.requests[h]) < GrantDistance(s.requests[h])))
  {
    assert RequestInv(s, h);
    e := NextGrantStep(s, s.requests[h], h);
    StepKeepsLockInv(s, e);
    OwnEventAdvances(s, e, h);
    AcquireEffect(s, h, e.acquire);
  }

  predicate InternalRun(run: seq<Event>)
  {
    forall e | e in run :: (e.Acquire? || e.Hold?) && OwnEvent(e, e.h)
  }

  /** A contender that somebody blocks, but no lost attempt: one of those before it can leave, and everybody else
      keeps its place. */
  lemma BlockerLeaves(s: State, h: Handle) returns (run: seq<Event>, k: Handle)
    requires LockInv(s) && h in s.requests && s.requests[h].node.Some?
    requires !LostAhead(s, s.requests[h]) && !Unblocked(s, s.requests[h])
    ensures k != h && Legal(s, run) && RaceFree(s, run) && OwnRun(run, k)
    ensures var t := After(s, run); var path := s.requests[h].path;
            && LockInv(t) && OthersAlone(s, t, k) && h in t.requests && Undisturbed(s.requests[h], t.requests[h])
            && !LostAhead(t, t.requests[h]) && |Locks(t, path)| < |Locks(s, path)|
  {
    var r := s.requests[h];
    var blocker :| blocker in Locks(s, r.path) && Seen(blocker, r.node.value);
    assert Owned(s, r.path, blocker);
    k :| OwnedBy(s, r.path, blocker, k);
    assert !HoldsUp(s, k, r);
    run := Drained(s, k);
    FewerLocks(s, After(s, run), k);
    StillNothingLost(s, After(s, run), h, k);
  }

  lemma OwnRunIsInternal(run: seq<Event>, k: Handle, h: Handle)
    requires OwnRun(run, k) && k != h
    ensures InternalRun(run) && Acquire(h, WaitTimerFires) !in run
  {
    forall e | e in run
      ensures OwnEvent(e, k)
    {
    }
  }

  lemma FewerLocks(s: State, t: State, k: Handle)
    requires OwnNodeOnly(s, t, k) && Live(s, s.requests[k]) && !Live(t, t.requests[k])
    ensures |Locks(t, s.requests[k].path)| < |Locks(s, s.requests[k].path)|
  {
    var path := s.requests[k].path;
    assert Locks(t, path) == Locks(s, path) - {s.requests[k].node.value};
  }

  lemma StillNothingLost(s: State, t: State, h: Handle, k: Handle)
    requires h in s.requests && h != k && OthersAlone(s, t, k) && !LostAhead(s, s.requests[h])
    requires !Live(t, t.requests[k])
    ensures h in t.requests && Undisturbed(s.requests[h], t.requests[h]) && !LostAhead(t, t.requests[h])
  {
    assert Undisturbed(s.requests[h], t.requests[h]);
    forall j ensures !HoldsUp(t, j, t.requests[h]) {
      assert !HoldsUp(s, j, s.requests[h]);
      if j in s.requests && j != k {
        assert Undisturbed(s.requests[j], t.requests[j]);
      }
    }
  }

  lemma {:induction false} GrantInReach(s: State, h: Handle) returns (run: seq<Event>)
    requires LockInv(s) && h in s.requests && Contender(s.requests[h]) && !LostAhead(s, s.requests[h])
    ensures Legal(s, run) && RaceFree(s, run) && InternalRun(run) && Acquire(h, WaitTimerFires) !in run
    ensures h in After(s, run).requests && LockGranted(After(s, run).requests[h].phase)
    decreases |Locks(s, s.requests[h].path)|
  {
    assert RequestInv(s, h);
    if Unblocked(s, s.requests[h]) {
      run := GrantedAlone(s, h);
      assert forall e :: e in run ==> OwnEvent(e, h);
    } else {
      var first, k := BlockerLeaves(s, h);
      OwnRunIsInternal(first, k, h);
      var rest := GrantInReach(After(s, first), h);
      RunsConcatenate(s, first, rest);
      run := first + rest;
    }
  }

  /** The attempt is granted by the calls, callbacks and timers under way, without any further message from a
      client, without the race, and before its own wait timer fires. */
  ghost predicate GrantedByItself(s: State, h: Handle)
  {
    exists run ::
      && Legal(s, run) && RaceFree(s, run) && InternalRun(run) && Acquire(h, WaitTimerFires) !in run
      && h in After(s, run).requests && LockGranted(After(s, run).requests[h].phase)
  }

  /** The attempt is granted in some continuation, of whatever kind. */
  ghost predicate CanBeGranted(s: State, h: Handle)
  {
    exists run :: Legal(s, run) && h in After(s, run).requests && LockGranted(After(s, run).requests[h].phase)
  }

  /** Deadlock, exactly: an attempt whose wait timer is still running can be granted, and then by what is under
      way alone, if and only if no lost attempt is ahead of it that it has to wait for.  Otherwise no
      continuation at all grants it. */
  lemma WaiterCanBeGrantedExactly(base: nat, s: State, h: Handle)
    requires Reachable(base, s) && h in s.requests && Contender(s.requests[h])
    ensures GrantedByItself(s, h) <==> !LostAhead(s, s.requests[h])
    ensures CanBeGranted(s, h) <==> !LostAhead(s, s.requests[h])
  {
    if LostAhead(s, s.requests[h]) {
      forall run | Legal(s, run)
        ensures h in After(s, run).requests && !LockGranted(After(s, run).requests[h].phase)
      {
        LostAheadIsForever(base, s, run, h);
      }
    } else {
      ReachableInv(base, s);
      var run := GrantInReach(s, h);
    }
  }

  /** The waits-for relation is well-founded: an attempt whose watch is armed waits for a live node with a
      smaller number, and its owner is not waiting for it. */
  lemma ArmedWatchIsOnLiveNode(base: nat, s: State, h: Handle) returns (k: Handle)
    requires Reachable(base, s) && h in s.requests && s.requests[h].phase.Watching?
    ensures k in s.requests && s.requests[k].path == s.requests[h].path && Live(s, s.requests[k])
    ensures s.requests[k].node == Some(s.requests[h].phase.pred) && s.requests[h].node.Some?
    ensures s.requests[k].node.value.number < s.requests[h].node.value.number
  {
    ReachableInv(base, s);
    assert RequestInv(s, h);
    assert Owned(s, s.requests[h].path, s.requests[h].phase.pred);
    k :| OwnedBy(s, s.requests[h].path, s.requests[h].phase.pred, k);
  }
}
