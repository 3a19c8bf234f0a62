/**
 Inevitable grants: whatever the order in which the calls, callbacks and timers under way go on, they come to an
 end, and a waiting attempt has been granted by then unless its own timer was first or a lost attempt is ahead.
 */
module ContextInevitable {
  import opened LockNames
  import opened LockScan
  import opened ContextService
  import opened ContextInvariant
  import opened ContextSafety
  import opened ContextTheorems
  import opened ContextProgress
  import opened ContextWrites
  import opened ContextBlocking
  import opened ContextLiveness

  /** A step that the service takes by itself: no client message, no failed call that loses a lock node, and for
      attempt h no failed call at all and not its wait timer. */
  predicate UnderWay(e: Event, h: Handle)
  {
    (e.Acquire? || e.Hold?) && !LosesNode(e) && (e.h == h ==> OwnEvent(e, h) && e != Acquire(h, WaitTimerFires))
  }

  predicate CanHappen(s: State, e: Event, h: Handle)
  {
    UnderWay(e, h) && Enabled(s, e) && !IsTimerScanRace(s, e)
  }

  ghost predicate GoesOn(s: State, run: seq<Event>, h: Handle)
    decreases |run|
  {
    run == [] || (CanHappen(s, run[0], h) && GoesOn(Next(s, run[0]), run[1..], h))
  }

  ghost function Reached(s: State, run: seq<Event>, h: Handle): State
    requires GoesOn(s, run, h)
    decreases |run|
  {
    if run == [] then s else Reached(Next(s, run[0]), run[1..], h)
  }

  /** Nothing more can happen by itself. */
  ghost predicate Stopped(s: State, h: Handle) { forall e :: !CanHappen(s, e, h) }

  // ---------- everything under way comes to an end ----------

  function TimerRank(wait: WaitTimer): nat
  {
    match wait
    case Unset => 4
    case Armed => 3
    case DeleteSent => 2
    case DeleteServed => 1
    case _ => 0
  }

  function HolderRank(phase: Phase): nat
  {
    match phase
    case Reading(got) => if got.None? then 7 else 6
    case Held(_) => 5
    case Writing(_, _, served) => if served then 3 else 4
    case Deleting(_, found) => if found.None? then 2 else 1
    case Leaked => 0
    case Done => 0
    case Abandoned => 0
    case _ => 8
  }

  /** An upper bound for the steps that an attempt still takes. */
  function Work(s: State, r: Request): nat
  {
    (if r.phase.Creating? then 5 * |s.requests| + 6 else Measure(s, r)) + TimerRank(r.wait) + HolderRank(r.phase)
  }

  ghost function NodesOf(s: State, keys: set<Handle>, path: string): set<LockNode>
    requires keys <= s.requests.Keys
  {
    set k | k in keys && s.requests[k].path == path && s.requests[k].node.Some? :: s.requests[k].node.value
  }

  lemma {:induction false} NodesAreFewer(s: State, keys: set<Handle>, path: string)
    requires keys <= s.requests.Keys
    ensures |NodesOf(s, keys, path)| <= |keys|
    decreases |keys|
  {
    if keys == {} {
      assert NodesOf(s, keys, path) == {};
    } else {
      var k :| k in keys;
      var rest := keys - {k};
      NodesAreFewer(s, rest, path);
      var own := if s.requests[k].path == path && s.requests[k].node.Some? then {s.requests[k].node.value} else {};
      assert NodesOf(s, keys, path) == NodesOf(s, rest, path) + own;
    }
  }

  /** Every live node belongs to an attempt, so there are no more nodes than attempts. */
  lemma LocksAreFewer(s: State, path: string)
    requires AllOwned(s)
    ensures |Locks(s, path)| <= |s.requests|
  {
    forall n | n in Locks(s, path)
      ensures n in NodesOf(s, s.requests.Keys, path)
    {
      assert Owned(s, path, n);
    }
    SubsetSize(Locks(s, path), NodesOf(s, s.requests.Keys, path));
    NodesAreFewer(s, s.requests.Keys, path);
  }

  lemma SameAttempts(s: State, e: Event)
    requires Enabled(s, e) && (e.Acquire? || e.Hold?)
    ensures Next(s, e).requests.Keys == s.requests.Keys && |Next(s, e).requests| == |s.requests|
  {
    var s' := Next(s, e);
    match e {
      case Acquire(h, step) => AcquireKeepsAttempts(s, h, step);
      case Hold(h, step) => HoldKeepsAttempts(s, h, step);
    }
    assert |s'.requests.Keys| == |s'.requests| && |s.requests.Keys| == |s.requests|;
  }

  lemma AcquireKeepsAttempts(s: State, h: Handle, step: AcquireStep)
    requires h in s.requests && AcquireEnabled(s.requests[h], step)
    ensures NextAcquire(s, h, step).requests.Keys == s.requests.Keys
  {
  }

  lemma HoldKeepsAttempts(s: State, h: Handle, step: HolderStep)
    requires h in s.requests && HoldEnabled(s.requests[h].phase, step)
    ensures NextHold(s, h, step).requests.Keys == s.requests.Keys
  {
  }

  /** The steps of the others give an attempt no more work. */
  lemma OthersGiveNoWork(s: State, e: Event, k: Handle)
    requires LockInv(s) && Enabled(s, e) && (e.Acquire? || e.Hold?) && k in s.requests && e.h != k
    ensures k in Next(s, e).requests && Work(Next(s, e), Next(s, e).requests[k]) <= Work(s, s.requests[k])
  {
    SameAttempts(s, e);
    Bystander(s, e, k);
    OthersDoNotRaiseMeasure(s, e, k);
    var r, r' := s.requests[k], Next(s, e).requests[k];
    assert TimerRank(r'.wait) == TimerRank(r.wait) && HolderRank(r'.phase) == HolderRank(r.phase);
  }

  lemma OthersDoNotRaiseMeasure(s: State, e: Event, k: Handle)
    requires LockInv(s) && Enabled(s, e) && (e.Acquire? || e.Hold?) && k in s.requests && e.h != k
    ensures k in Next(s, e).requests && Measure(Next(s, e), Next(s, e).requests[k]) <= Measure(s, s.requests[k])
  {
    Bystander(s, e, k);
    assert RequestInv(s, k);
    if s.requests[k].node.Some? {
      OtherStepsDoNotIncrease(s, e, k);
    }
  }

  lemma CreationIsWork(s: State, h: Handle)
    requires LockInv(s) && h in s.requests && s.requests[h].phase.Creating?
    ensures var s' := NextAcquire(s, h, ServeCreate);
            h in s'.requests && Work(s', s'.requests[h]) < Work(s, s.requests[h])
  {
    var s' := NextAcquire(s, h, ServeCreate);
    assert RequestInv(s, h);
    SameAttempts(s, Acquire(h, ServeCreate));
    CreateKeepsOwners(s, h);
    LocksAreFewer(s', s.requests[h].path);
    CreatedMeasure(s, h);
  }

  lemma CreatedMeasure(s: State, h: Handle)
    requires h in s.requests && s.requests[h].phase.Creating? && PhaseInv(s.requests[h])
    ensures var s', r := NextAcquire(s, h, ServeCreate), s.requests[h];
            && h in s'.requests && s'.requests[h].phase == Created && s'.requests[h].wait == r.wait
            && Measure(s', s'.requests[h]) <= 5 * |Locks(s', r.path)| + 5
  {
    var s' := NextAcquire(s, h, ServeCreate);
    var r' := s'.requests[h];
    SubsetSize(Pending(s', r'), Locks(s', r'.path));
  }

  lemma ProtocolStepIsWork(s: State, h: Handle, step: AcquireStep)
    requires h in s.requests && AcquireEnabled(s.requests[h], step) && ProtocolStep(step) && RequestInv(s, h)
    ensures var s' := NextAcquire(s, h, step);
            h in s'.requests && Work(s', s'.requests[h]) < Work(s, s.requests[h])
  {
    var r := s.requests[h];
    ProtocolStepDecreases(s, r, step);
    AcquireEffect(s, h, step);
    var r' := Advance(r, ZnodeAt(s, r.path), step);
    assert HolderRank(r'.phase) <= HolderRank(r.phase) && TimerRank(r'.wait) <= TimerRank(r.wait);
    assert Measure(NextAcquire(s, h, step), r') == Measure(s, r');
  }

  lemma TimerRunsDown(r: Request, z: Znode, step: AcquireStep)
    requires AcquireEnabled(r, step) && (step.WaitTimerFires? || step.ServeTimeoutDelete? || step.OnTimeoutDelete?)
    ensures Advance(r, z, step).phase == r.phase && TimerRank(Advance(r, z, step).wait) < TimerRank(r.wait)
  {
  }

  lemma TimerStepIsWork(s: State, h: Handle, step: AcquireStep)
    requires LockInv(s) && h in s.requests && AcquireEnabled(s.requests[h], step)
    requires step.WaitTimerFires? || step.ServeTimeoutDelete? || step.OnTimeoutDelete?
    ensures var s' := NextAcquire(s, h, step);
            h in s'.requests && Work(s', s'.requests[h]) < Work(s, s.requests[h])
  {
    var r, s' := s.requests[h], NextAcquire(s, h, step);
    assert RequestInv(s, h);
    SameAttempts(s, Acquire(h, step));
    TimerRunsDown(r, ZnodeAt(s, r.path), step);
    AcquireResult(s, h, step);
    TimerStepMeasure(s, h, step);
    assert TimerRank(s'.requests[h].wait) < TimerRank(r.wait);
    assert HolderRank(s'.requests[h].phase) == HolderRank(r.phase);
  }

  lemma TimerStepMeasure(s: State, h: Handle, step: AcquireStep)
    requires LockInv(s) && h in s.requests && AcquireEnabled(s.requests[h], step)
    requires step.WaitTimerFires? || step.ServeTimeoutDelete? || step.OnTimeoutDelete?
    ensures var s' := NextAcquire(s, h, step);
            h in s'.requests && Measure(s', s'.requests[h]) <= Measure(s, s.requests[h])
  {
    assert RequestInv(s, h);
    OtherStepsDoNotIncrease(s, Acquire(h, step), h);
  }

  lemma HolderRunsDown(r: Request, z: Znode, step: HolderStep)
    requires HoldEnabled(r.phase, step) && PhaseInv(r)
    ensures var r' := AdvanceHolder(r, z, step);
            && !Waiting(r'.phase) && !r'.phase.Created? && !r'.phase.Creating?
            && r'.wait == r.wait && HolderRank(r'.phase) < HolderRank(r.phase)
  {
  }

  lemma HolderStepIsWork(s: State, h: Handle, step: HolderStep)
    requires h in s.requests && RequestInv(s, h) && HoldEnabled(s.requests[h].phase, step)
    ensures var s' := NextHold(s, h, step);
            h in s'.requests && Work(s', s'.requests[h]) < Work(s, s.requests[h])
  {
    HoldResult(s, h, step);
    HolderRunsDown(s.requests[h], ZnodeAt(s, s.requests[h].path), step);
    var r' := NextHold(s, h, step).requests[h];
    assert Work(NextHold(s, h, step), r') == TimerRank(r'.wait) + HolderRank(r'.phase);
  }

  lemma StepIsWork(s: State, e: Event)
    requires LockInv(s) && Enabled(s, e) && (e.Acquire? || e.Hold?) && !LosesNode(e)
    ensures e.h in Next(s, e).requests && Work(Next(s, e), Next(s, e).requests[e.h]) < Work(s, s.requests[e.h])
  {
    match e
    case Hold(h, step) =>
      assert RequestInv(s, h);
      HolderStepIsWork(s, h, step);
    case Acquire(h, step) =>
      if step.ServeCreate? {
        CreationIsWork(s, h);
      } else if ProtocolStep(step) {
        assert RequestInv(s, h);
        ProtocolStepIsWork(s, h, step);
      } else if !step.CreateFails? {
        TimerStepIsWork(s, h, step);
      }
  }

  /** The work of all attempts below a bound. */
  function Budget(s: State, bound: nat): nat
  {
    if bound == 0 then 0
    else Budget(s, bound - 1) + if bound - 1 in s.requests then Work(s, s.requests[bound - 1]) else 0
  }

  lemma {:induction false} BudgetDrops(s: State, s': State, h: Handle, bound: nat)
    requires h in s.requests && s'.requests.Keys == s.requests.Keys
    requires forall k :: k in s.requests ==> Work(s', s'.requests[k]) <= Work(s, s.requests[k])
    requires Work(s', s'.requests[h]) < Work(s, s.requests[h])
    ensures Budget(s', bound) + (if h < bound then 1 else 0) <= Budget(s, bound)
  {
    if bound > 0 {
      BudgetDrops(s, s', h, bound - 1);
    }
  }

  lemma StepSpendsBudget(s: State, e: Event, bound: nat)
    requires LockInv(s) && Enabled(s, e) && (e.Acquire? || e.Hold?) && !LosesNode(e) && e.h < bound
    ensures Budget(Next(s, e), bound) < Budget(s, bound)
  {
    SameAttempts(s, e);
    StepIsWork(s, e);
    forall k | k in s.requests
      ensures Work(Next(s, e), Next(s, e).requests[k]) <= Work(s, s.requests[k])
    {
      if k != e.h {
        OthersGiveNoWork(s, e, k);
      }
    }
    BudgetDrops(s, Next(s, e), e.h, bound);
  }

  ghost predicate AllBelow(s: State, bound: nat) { forall k :: k in s.requests ==> k < bound }

  /** What is under way comes to an end: the budget bounds the steps, in whatever order they are taken. */
  lemma {:induction false} EverythingEnds(s: State, run: seq<Event>, h: Handle, bound: nat)
    requires LockInv(s) && GoesOn(s, run, h) && AllBelow(s, bound)
    ensures |run| <= Budget(s, bound) && LockInv(Reached(s, run, h))
    decreases |run|
  {
    if run != [] {
      var s' := Next(s, run[0]);
      StepKeepsLockInv(s, run[0]);
      SameAttempts(s, run[0]);
      StepSpendsBudget(s, run[0], bound);
      EverythingEnds(s', run[1..], h, bound);
    }
  }

  // ---------- the waiter stays in play ----------

  /** The attempt still waits, its timer running and no lost attempt ahead. */
  ghost predicate InPlay(s: State, h: Handle)
  {
    h in s.requests && Contender(s.requests[h]) && !LostAhead(s, s.requests[h])
  }

  lemma OwnStepKeepsContending(s: State, h: Handle, step: AcquireStep)
    requires h in s.requests && RequestInv(s, h) && Contender(s.requests[h]) && AcquireEnabled(s.requests[h], step)
    requires OwnEvent(Acquire(h, step), h) && !step.WaitTimerFires?
    ensures var r' := Advance(s.requests[h], ZnodeAt(s, s.requests[h].path), step);
            (Contender(r') || LockGranted(r'.phase)) && r'.node == s.requests[h].node && r'.path == s.requests[h].path
    ensures ProtocolStep(step)
  {
  }

  lemma StepKeepsContending(s: State, e: Event, h: Handle)
    requires LockInv(s) && h in s.requests && Contender(s.requests[h]) && CanHappen(s, e, h)
    ensures h in Next(s, e).requests
    ensures var r, r' := s.requests[h], Next(s, e).requests[h];
            (Contender(r') || LockGranted(r'.phase)) && r'.node == r.node && r'.path == r.path
  {
    if e.h != h {
      Bystander(s, e, h);
    } else {
      assert RequestInv(s, h);
      OwnStepKeepsContending(s, h, e.acquire);
      AcquireEffect(s, h, e.acquire);
    }
  }

  /** No attempt is lost by a step that is under way. */
  lemma NobodyGetsLost(s: State, e: Event, k: Handle)
    requires Enabled(s, e) && (e.Acquire? || e.Hold?) && !LosesNode(e) && k in s.requests && !Lost(s.requests[k])
    ensures k in Next(s, e).requests && !Lost(Next(s, e).requests[k])
  {
    if e.h != k {
      Bystander(s, e, k);
    } else {
      match e
      case Acquire(_, step) => NotLostByAcquire(s, k, step);
      case Hold(_, step) => NotLostByHold(s, k, step);
    }
  }

  lemma LostStaysAlive(s: State, k: Handle)
    requires LockInv(s) && k in s.requests && Lost(s.requests[k])
    ensures Live(s, s.requests[k])
  {
    assert RequestInv(s, k);
  }

  lemma NothingNewAhead(s: State, e: Event, h: Handle)
    requires LockInv(s) && InPlay(s, h) && CanHappen(s, e, h)
    requires h in Next(s, e).requests && Next(s, e).requests[h].node == s.requests[h].node
    requires Next(s, e).requests[h].path == s.requests[h].path
    ensures !LostAhead(Next(s, e), Next(s, e).requests[h])
  {
    var s' := Next(s, e);
    SameAttempts(s, e);
    forall k
      ensures !HoldsUp(s', k, s'.requests[h])
    {
      if HoldsUp(s', k, s'.requests[h]) {
        if !Lost(s.requests[k]) {
          NobodyGetsLost(s, e, k);
        } else {
          LostStaysAlive(s, k);
          assert RequestInv(s, k);
          StepKeepsNode(s, e, k);
          PathStays(s, e, k);
          assert HoldsUp(s, k, s.requests[h]);
        }
      }
    }
  }

  lemma PathStays(s: State, e: Event, k: Handle)
    requires Enabled(s, e) && (e.Acquire? || e.Hold?) && k in s.requests
    ensures k in Next(s, e).requests && Next(s, e).requests[k].path == s.requests[k].path
  {
    if e.h != k {
      Bystander(s, e, k);
    } else {
      match e
      case Acquire(_, step) => AcquireResult(s, k, step);
      case Hold(_, step) => HoldResult(s, k, step);
    }
  }

  lemma StepKeepsInPlay(s: State, e: Event, h: Handle)
    requires LockInv(s) && InPlay(s, h) && CanHappen(s, e, h)
    ensures h in Next(s, e).requests
    ensures LockGranted(Next(s, e).requests[h].phase) || InPlay(Next(s, e), h)
  {
    StepKeepsContending(s, e, h);
    NothingNewAhead(s, e, h);
  }

  /** While the attempt is in play, something can happen. */
  lemma SomethingCanHappen(s: State, h: Handle) returns (e: Event)
    requires LockInv(s) && InPlay(s, h)
    ensures CanHappen(s, e, h)
  {
    assert RequestInv(s, h);
    var r := s.requests[h];
    if Unblocked(s, r) {
      e := GrantStepTaken(s, h);
    } else {
      var blocker :| blocker in Locks(s, r.path) && Seen(blocker, r.node.value);
      assert Owned(s, r.path, blocker);
      var k :| OwnedBy(s, r.path, blocker, k);
      assert !HoldsUp(s, k, r);
      e := ExitStepTaken(s, k);
    }
  }

  // ---------- the theorem ----------

  /** The attempt is granted somewhere along the run. */
  ghost predicate GrantedOnTheWay(s: State, run: seq<Event>, h: Handle)
    requires GoesOn(s, run, h)
    decreases |run|
  {
    || (h in s.requests && LockGranted(s.requests[h].phase))
    || (run != [] && GrantedOnTheWay(Next(s, run[0]), run[1..], h))
  }

  lemma {:induction false} StoppedMeansGranted(s: State, run: seq<Event>, h: Handle)
    requires LockInv(s) && InPlay(s, h) && GoesOn(s, run, h) && Stopped(Reached(s, run, h), h)
    ensures GrantedOnTheWay(s, run, h)
    decreases |run|
  {
    if run == [] {
      var e := SomethingCanHappen(s, h);
    } else {
      var s' := Next(s, run[0]);
      StepKeepsLockInv(s, run[0]);
      StepKeepsInPlay(s, run[0], h);
      if !LockGranted(s'.requests[h].phase) {
        StoppedMeansGranted(s', run[1..], h);
      }
    }
  }

  /** In whatever order the calls, callbacks and timers under way go on, short of the attempt's own timer and of
      calls that fail: when nothing more can happen, the attempt has been granted. */
  ghost predicate GrantIsInevitable(s: State, h: Handle)
  {
    forall run :: GoesOn(s, run, h) && Stopped(Reached(s, run, h), h) ==> GrantedOnTheWay(s, run, h)
  }

  /** A run can be prolonged until nothing more can happen. */
  lemma {:induction false} CanBeProlonged(s: State, h: Handle, bound: nat) returns (run: seq<Event>)
    requires LockInv(s) && AllBelow(s, bound)
    ensures GoesOn(s, run, h) && Stopped(Reached(s, run, h), h)
    decreases Budget(s, bound)
  {
    if e :| CanHappen(s, e, h) {
      var s' := Next(s, e);
      StepKeepsLockInv(s, e);
      SameAttempts(s, e);
      StepSpendsBudget(s, e, bound);
      var rest := CanBeProlonged(s', h, bound);
      run := [e] + rest;
      assert run[1..] == rest;
    } else {
      run := [];
    }
  }

  lemma {:induction false} GoingOnIsLegal(s: State, run: seq<Event>, h: Handle)
    requires GoesOn(s, run, h)
    ensures Legal(s, run) && After(s, run) == Reached(s, run, h)
    decreases |run|
  {
    if run != [] {
      GoingOnIsLegal(Next(s, run[0]), run[1..], h);
    }
  }

  lemma {:induction false} GrantOnTheWayIsLegal(s: State, run: seq<Event>, h: Handle) returns (part: seq<Event>)
    requires GoesOn(s, run, h) && GrantedOnTheWay(s, run, h)
    ensures Legal(s, part) && h in After(s, part).requests && LockGranted(After(s, part).requests[h].phase)
    decreases |run|
  {
    if h in s.requests && LockGranted(s.requests[h].phase) {
      part := [];
    } else {
      var rest := GrantOnTheWayIsLegal(Next(s, run[0]), run[1..], h);
      part := [run[0]] + rest;
      assert part[1..] == rest;
    }
  }

  ghost function {:induction false} Above(keys: set<Handle>): (bound: nat)
    ensures forall k :: k in keys ==> k < bound
    decreases |keys|
  {
    if keys == {} then 0
    else
      var k :| k in keys;
      var rest := Above(keys - {k});
      assert forall j :: j in keys ==> j == k || j in keys - {k};
      if k < rest then rest else k + 1
  }

  /** Nobody waits for ever, exactly: the grant of an attempt whose timer is running is inevitable if and only if no
      lost attempt is ahead of it that it has to wait for; and what is under way always comes to an end, within
      the budget of all attempts. */
  lemma GrantIsInevitableExactly(base: nat, s: State, h: Handle)
    requires Reachable(base, s) && h in s.requests && Contender(s.requests[h])
    ensures GrantIsInevitable(s, h) <==> !LostAhead(s, s.requests[h])
    ensures forall run :: GoesOn(s, run, h) ==> |run| <= Budget(s, Above(s.requests.Keys))
  {
    ReachableInv(base, s);
    forall run | GoesOn(s, run, h)
      ensures |run| <= Budget(s, Above(s.requests.Keys))
    {
      EverythingEnds(s, run, h, Above(s.requests.Keys));
    }
    if LostAhead(s, s.requests[h]) {
      var run := CanBeProlonged(s, h, Above(s.requests.Keys));
      if GrantedOnTheWay(s, run, h) {
        var part := GrantOnTheWayIsLegal(s, run, h);
        LostAheadIsForever(base, s, part, h);
      }
    } else {
      forall run | GoesOn(s, run, h) && Stopped(Reached(s, run, h), h)
        ensures GrantedOnTheWay(s, run, h)
      {
        StoppedMeansGranted(s, run, h);
      }
    }
  }
}
