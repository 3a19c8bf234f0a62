/**
 Nobody waits for ever: every live lock node is accounted for, a waiting attempt rescans a bounded number
 of times, and from every reachable state its grant is within reach.
 */
module ContextProgress {
  import opened Options
  import opened LockNames
  import opened LockScan
  import opened ContextService
  import opened ContextInvariant
  import opened ContextSafety
  import opened ContextTheorems
  import opened ContextWrites

  // ---------- accounting ----------

  /** The calls whose failure leaves a live node that no timer and no call will delete. */
  predicate LosesNode(e: Event)
  {
    (e.Hold? && (e.hold.GetFails? || e.hold.SetFails? || e.hold.DeleteFails?))
    || (e.Acquire? && e.acquire.TimeoutDeleteFails?)
  }

  predicate Lost(r: Request)
  {
    r.phase.Leaked? || r.wait.FireFailed?
  }

  /** A create, get, set or delete call of the attempt has not been answered to its callback. */
  predicate CallInFlight(r: Request)
  {
    r.phase.Created? || r.wait.DeleteSent? || r.phase.Reading? || r.phase.Writing?
    || (r.phase.Deleting? && r.phase.found.None?)
  }

  predicate InTable(s: State, h: Handle)
  {
    h in s.controlMap.Values
  }

  function Count(b: bool): nat
  {
    if b then 1 else 0
  }

  /** The node of h lives exactly as long as exactly one thing is going to delete it, or it is lost. */
  ghost predicate Accounted(s: State, h: Handle)
    requires h in s.requests
  {
    var r := s.requests[h];
    Count(r.wait.Armed?) + Count(CallInFlight(r)) + Count(InTable(s, h)) + Count(Lost(r)) == Count(Live(s, r))
  }

  /** The request id of a new request is not in use: "it must be unique during the lock process". */
  ghost predicate FreshKey(s: State, e: Event)
  {
    e.LockRequest? ==> forall h :: h in s.requests && s.requests[h].key == e.key ==> s.requests[h].phase.Done?
  }

  ghost predicate FreshKeys(s: State, run: seq<Event>)
    requires Legal(s, run)
    decreases run
  {
    run == [] || (FreshKey(s, run[0]) && FreshKeys(Next(s, run[0]), run[1..]))
  }

  /** Unfinished attempts have different keys, and each held lock has its table entry. */
  ghost predicate KeyInv(s: State)
  {
    && (forall h, k | h in s.requests && k in s.requests && h != k ::
          s.requests[h].phase.Done? || s.requests[k].phase.Done? || s.requests[h].key != s.requests[k].key)
    && (forall h :: h in s.requests && s.requests[h].phase.Held? ==>
          s.requests[h].key in s.controlMap && s.controlMap[s.requests[h].key] == h)
  }

  /** No attempt is revived or changes its key; a lock comes to be held, or stops being held, together with
      its table entry. */
  ghost predicate KeysMove(s: State, s': State, h: Handle)
  {
    && h in s.requests && s'.requests.Keys == s.requests.Keys
    && (forall k :: k in s.requests ==>
          && s'.requests[k].key == s.requests[k].key
          && (s.requests[k].phase.Done? ==> s'.requests[k].phase.Done?)
          && (k != h ==> (s'.requests[k].phase.Held? <==> s.requests[k].phase.Held?)))
    && (s'.controlMap == s.controlMap || s'.controlMap == s.controlMap[s.requests[h].key := h]
        || s'.controlMap == s.controlMap - {s.requests[h].key})
    && (s'.requests[h].phase.Held? ==> s.requests[h].key in s'.controlMap && s'.controlMap[s.requests[h].key] == h)
    && (s'.controlMap != s.controlMap ==> !s.requests[h].phase.Done?)
  }

  lemma KeysMoveKeepsKeyInv(s: State, s': State, h: Handle)
    requires KeyInv(s) && KeysMove(s, s', h) && PhaseInv(s.requests[h])
    ensures KeyInv(s')
  {
    forall k | k in s'.requests && s'.requests[k].phase.Held? && k != h
      ensures s'.requests[k].key in s'.controlMap && s'.controlMap[s'.requests[k].key] == k
    {
      assert s.requests[k].phase.Held?;
      if s'.controlMap != s.controlMap {
        assert !s.requests[h].phase.Done?;
        assert s.requests[k].key != s.requests[h].key;
      }
    }
  }

  lemma EventMovesKeys(s: State, e: Event)
    requires TableInv(s) && Enabled(s, e) && !e.LockRequest? && Subject(s, e).Some?
    requires Subject(s, e).value in s.requests && PhaseInv(s.requests[Subject(s, e).value])
    ensures KeysMove(s, Next(s, e), Subject(s, e).value)
  {
    var s' := Next(s, e);
    var h := Subject(s, e).value;
    forall k | k in s.requests && k != h
      ensures k in s'.requests && Undisturbed(s.requests[k], s'.requests[k])
    {
      Bystander(s, e, k);
    }
    SubjectMovesKey(s, e, h);
  }

  ghost predicate SubjectKeyMoves(s: State, s': State, h: Handle)
  {
    && h in s.requests && s'.requests.Keys == s.requests.Keys
    && s'.requests[h].key == s.requests[h].key
    && (s.requests[h].phase.Done? ==> s'.requests[h].phase.Done? && s'.controlMap == s.controlMap)
    && (s'.controlMap == s.controlMap || s'.controlMap == s.controlMap[s.requests[h].key := h]
        || s'.controlMap == s.controlMap - {s.requests[h].key})
    && (s'.requests[h].phase.Held? && !s.requests[h].phase.Held? ==>
          s.requests[h].key in s'.controlMap && s'.controlMap[s.requests[h].key] == h)
    && (s'.requests[h].phase.Held? && s.requests[h].phase.Held? ==> s'.controlMap == s.controlMap)
  }

  lemma SubjectMovesKey(s: State, e: Event, h: Handle)
    requires TableInv(s) && Enabled(s, e) && !e.LockRequest? && Subject(s, e) == Some(h)
    requires h in s.requests && PhaseInv(s.requests[h])
    ensures SubjectKeyMoves(s, Next(s, e), h)
  {
    match e
    case Acquire(_, step) => AcquireMovesKey(s, h, step);
    case Hold(_, step) => HoldMovesKey(s, h, step);
    case _ =>
  }

  lemma AcquireMovesKey(s: State, h: Handle, step: AcquireStep)
    requires h in s.requests && AcquireEnabled(s.requests[h], step) && PhaseInv(s.requests[h])
    ensures SubjectKeyMoves(s, NextAcquire(s, h, step), h)
  {
  }

  lemma HoldMovesKey(s: State, h: Handle, step: HolderStep)
    requires h in s.requests && HoldEnabled(s.requests[h].phase, step) && PhaseInv(s.requests[h])
    ensures SubjectKeyMoves(s, NextHold(s, h, step), h)
  {
  }

  lemma StepKeepsKeyInv(s: State, e: Event)
    requires LockInv(s) && KeyInv(s) && Enabled(s, e) && FreshKey(s, e)
    ensures KeyInv(Next(s, e))
  {
    if !e.LockRequest? && Subject(s, e).Some? {
      var h := Subject(s, e).value;
      assert h in s.requests && RequestInv(s, h);
      EventMovesKeys(s, e);
      KeysMoveKeepsKeyInv(s, Next(s, e), h);
    }
  }

  lemma {:induction false} RunKeepsKeyInv(s: State, run: seq<Event>)
    requires Inv(s) && KeyInv(s) && Legal(s, run) && RaceFree(s, run) && FreshKeys(s, run)
    ensures Inv(After(s, run)) && KeyInv(After(s, run))
    decreases run
  {
    if run != [] {
      StepKeepsInv(s, run[0]);
      StepKeepsKeyInv(s, run[0]);
      RunKeepsKeyInv(Next(s, run[0]), run[1..]);
    }
  }

  /** Lock accounting: in every race-free run with unique request ids. */
  lemma LocksAreAccounted(base: nat, run: seq<Event>, h: Handle)
    requires Legal(Init(base), run) && RaceFree(Init(base), run) && FreshKeys(Init(base), run)
    requires h in After(Init(base), run).requests
    ensures Accounted(After(Init(base), run), h)
  {
    LockInvInit(base);
    RunKeepsKeyInv(Init(base), run);
    var s := After(Init(base), run);
    assert RequestInv(s, h);
    var r := s.requests[h];
    assert InTable(s, h) <==> r.phase.Held? by {
      if r.phase.Held? {
        assert s.controlMap[r.key] == h;
      }
    }
  }

  lemma {:induction false} NothingLostWithoutFailures(s: State, run: seq<Event>)
    requires Legal(s, run) && (forall e :: e in run ==> !LosesNode(e))
    requires forall h :: h in s.requests ==> !Lost(s.requests[h])
    ensures forall h :: h in After(s, run).requests ==> !Lost(After(s, run).requests[h])
    decreases run
  {
    if run != [] {
      var s' := Next(s, run[0]);
      assert !LosesNode(run[0]);
      forall h | h in s'.requests
        ensures !Lost(s'.requests[h])
      {
        NotLostByStep(s, run[0], h);
      }
      NothingLostWithoutFailures(s', run[1..]);
    }
  }

  lemma NotLostByStep(s: State, e: Event, h: Handle)
    requires Enabled(s, e) && !LosesNode(e) && h in Next(s, e).requests
    requires forall k :: k in s.requests ==> !Lost(s.requests[k])
    ensures !Lost(Next(s, e).requests[h])
  {
    if h in s.requests && Subject(s, e) != Some(h) {
      Bystander(s, e, h);
    } else {
      match e
      case Acquire(_, step) => NotLostByAcquire(s, h, step);
      case Hold(_, step) => NotLostByHold(s, h, step);
      case _ =>
    }
  }

  lemma NotLostByAcquire(s: State, h: Handle, step: AcquireStep)
    requires h in s.requests && AcquireEnabled(s.requests[h], step) && !step.TimeoutDeleteFails?
    requires !Lost(s.requests[h])
    ensures h in NextAcquire(s, h, step).requests && !Lost(NextAcquire(s, h, step).requests[h])
  {
  }

  lemma NotLostByHold(s: State, h: Handle, step: HolderStep)
    requires h in s.requests && HoldEnabled(s.requests[h].phase, step)
    requires !step.GetFails? && !step.SetFails? && !step.DeleteFails? && !Lost(s.requests[h])
    ensures h in NextHold(s, h, step).requests && !Lost(NextHold(s, h, step).requests[h])
  {
  }

  /** A table entry goes only by a save under the write lock, an unlock, or the hold timeout of its own lock. */
  lemma EntryIsConsumedOnce(s: State, e: Event, key: string)
    requires TableInv(s) && KeyInv(s) && Enabled(s, e) && key in s.controlMap
    requires key !in Next(s, e).controlMap || Next(s, e).controlMap[key] != s.controlMap[key]
    ensures var h := s.controlMap[key];
            && key !in Next(s, e).controlMap && h in Next(s, e).requests && !Next(s, e).requests[h].phase.Held?
            && (|| (e.SaveRequest? && e.key == key && s.requests[h].mode == Write)
                || (e.UnlockRequest? && e.key == key)
                || e == Hold(h, HoldTimerFires))
  {
    assert s.requests[s.controlMap[key]].phase.Held? && s.requests[s.controlMap[key]].key == key;
    match e
    case Acquire(h, step) => AcquireSparesTable(s, h, step);
    case Hold(h, step) => HoldConsumes(s, h, step, key);
    case _ =>
  }

  lemma AcquireSparesTable(s: State, h: Handle, step: AcquireStep)
    requires h in s.requests && AcquireEnabled(s.requests[h], step)
    ensures NextAcquire(s, h, step).controlMap == s.controlMap
  {
  }

  lemma HoldConsumes(s: State, h: Handle, step: HolderStep, key: string)
    requires KeyInv(s) && TableInv(s) && h in s.requests && HoldEnabled(s.requests[h].phase, step)
    requires key in s.controlMap
    requires key !in NextHold(s, h, step).controlMap || NextHold(s, h, step).controlMap[key] != s.controlMap[key]
    ensures key !in NextHold(s, h, step).controlMap && h == s.controlMap[key] && step.HoldTimerFires?
    ensures h in NextHold(s, h, step).requests && NextHold(s, h, step).requests[h].phase.Deleting?
  {
    var holder := s.controlMap[key];
    assert s.requests[holder].phase.Held? && s.requests[holder].key == key;
  }

  // ---------- bounded retries ----------

  function SeenBy(view: set<LockNode>, mine: LockNode): set<LockNode>
  {
    set n | n in view && Seen(n, mine)
  }

  /** The nodes that h may still have to wait for. */
  function Pending(s: State, r: Request): set<LockNode>
    requires r.node.Some?
  {
    var mine := r.node.value;
    SeenBy(Locks(s, r.path), mine) +
    match r.phase
    case Scanning(view, _) => if view.Some? then SeenBy(view.value, mine) else {}
    case Checking(pred) => {pred}
    case Missing(pred) => {pred}
    case Watching(pred) => {pred}
    case Notified(pred) => {pred}
    case _ => {}
  }

  function PhaseRank(phase: Phase): nat
  {
    match phase
    case Created => 5
    case Scanning(view, _) => if view.None? then 4 else 3
    case Checking(_) => 2
    case Missing(_) => 1
    case Watching(_) => 1
    case Notified(_) => 1
    case _ => 0
  }

  /** An upper bound for the protocol steps that h has before it. */
  function Measure(s: State, r: Request): nat
  {
    if r.node.Some? && (r.phase.Created? || Waiting(r.phase)) then 5 * |Pending(s, r)| + PhaseRank(r.phase) else 0
  }

  predicate ProtocolStep(step: AcquireStep)
  {
    !step.ServeCreate? && !step.CreateFails? && !step.WaitTimerFires? && !step.ServeTimeoutDelete?
    && !step.OnTimeoutDelete? && !step.TimeoutDeleteFails?
  }

  predicate IsProtocolStepOf(e: Event, h: Handle)
  {
    e.Acquire? && e.h == h && ProtocolStep(e.acquire)
  }

  lemma SubsetSize<T>(a: set<T>, b: set<T>)
    requires a <= b
    ensures |a| <= |b|
  {
    assert b == a + (b - a);
  }

  /** A step of the attempt itself brings it closer to the end, whatever the others did in between. */
  lemma ProtocolStepDecreases(s: State, r: Request, step: AcquireStep)
    requires AttemptInv(s, r) && AcquireEnabled(r, step) && ProtocolStep(step)
    ensures Measure(s, Advance(r, ZnodeAt(s, r.path), step)) < Measure(s, r)
  {
    if step.OnMissing? || step.OnWatchEvent? {
      RescanDecreases(s, r, step);
    } else if step.OnCreated? || step.ServeChildren? || step.OnChildren? || step.ServeExists? {
      PendingShrinks(s, r, step);
      if Waiting(Advance(r, ZnodeAt(s, r.path), step).phase) {
        SubsetSize(Pending(s, Advance(r, ZnodeAt(s, r.path), step)), Pending(s, r));
      }
    }
  }

  /** The predecessor that the attempt waited for is gone, so there is one node less to wait for. */
  lemma RescanDecreases(s: State, r: Request, step: AcquireStep)
    requires AttemptInv(s, r) && AcquireEnabled(r, step) && (step.OnMissing? || step.OnWatchEvent?)
    ensures Measure(s, Advance(r, ZnodeAt(s, r.path), step)) < Measure(s, r)
  {
    var r' := Advance(r, ZnodeAt(s, r.path), step);
    assert r'.node == r.node && r'.path == r.path && r'.phase.Scanning? && r'.phase.view == None;
    assert Pending(s, r') == SeenBy(Locks(s, r.path), r.node.value);
    assert Pending(s, r) == Pending(s, r') + {r.phase.pred};
    SubsetSize(Pending(s, r'), Pending(s, r) - {r.phase.pred});
  }

  lemma PendingShrinks(s: State, r: Request, step: AcquireStep)
    requires AttemptInv(s, r) && AcquireEnabled(r, step) && ProtocolStep(step)
    requires step.OnCreated? || step.ServeChildren? || step.OnChildren? || step.ServeExists?
    ensures var r' := Advance(r, ZnodeAt(s, r.path), step);
            r'.node == r.node && r.node.Some? && (Waiting(r'.phase) ==> Pending(s, r') <= Pending(s, r))
  {
  }

  /** Still waiting as before, or not waiting any more. */
  ghost predicate WaitsOn(r: Request, r': Request)
  {
    && r'.path == r.path && r'.node == r.node
    && (r'.phase.Created? || Waiting(r'.phase) ==> r'.phase == r.phase || Undisturbed(r, r'))
  }

  /** Other steps never give a waiting attempt more to wait for. */
  lemma OtherStepsDoNotIncrease(s: State, e: Event, h: Handle)
    requires LockInv(s) && Enabled(s, e) && h in s.requests && s.requests[h].node.Some?
    requires !IsProtocolStepOf(e, h)
    ensures h in Next(s, e).requests
    ensures Measure(Next(s, e), Next(s, e).requests[h]) <= Measure(s, s.requests[h])
  {
    assert RequestInv(s, h);
    LocksOnlyGrowAtTheEnd(s, e, s.requests[h].path);
    if Subject(s, e) != Some(h) {
      Bystander(s, e, h);
    } else {
      TimerStepKeepsPhase(s, e, h);
    }
    WaitingOnIsNoWorse(s, Next(s, e), s.requests[h], Next(s, e).requests[h]);
  }

  lemma WaitingOnIsNoWorse(s: State, s': State, r: Request, r': Request)
    requires AttemptInv(s, r) && r.node.Some? && WaitsOn(r, r')
    requires forall n :: n in Locks(s', r.path) && n !in Locks(s, r.path) ==> n.number == ZnodeAt(s, r.path).counter
    ensures Measure(s', r') <= Measure(s, r)
  {
    if r'.phase.Created? || Waiting(r'.phase) {
      PendingDoesNotGrow(s, s', r, r');
      SubsetSize(Pending(s', r'), Pending(s, r));
    }
  }

  lemma PendingDoesNotGrow(s: State, s': State, r: Request, r': Request)
    requires AttemptInv(s, r) && r.node.Some? && r'.node == r.node && r'.path == r.path
    requires r'.phase == r.phase || Undisturbed(r, r')
    requires r'.phase.Created? || Waiting(r'.phase)
    requires forall n :: n in Locks(s', r.path) && n !in Locks(s, r.path) ==> n.number == ZnodeAt(s, r.path).counter
    ensures Pending(s', r') <= Pending(s, r)
  {
    assert SeenBy(Locks(s', r.path), r.node.value) <= SeenBy(Locks(s, r.path), r.node.value);
  }

  /** What an event other than a protocol step does to the attempt it is about. */
  lemma TimerStepKeepsPhase(s: State, e: Event, h: Handle)
    requires Enabled(s, e) && h in s.requests && s.requests[h].node.Some? && AttemptInv(s, s.requests[h])
    requires TableInv(s) && Subject(s, e) == Some(h) && !IsProtocolStepOf(e, h)
    ensures h in Next(s, e).requests && WaitsOn(s.requests[h], Next(s, e).requests[h])
  {
    match e
    case Acquire(_, step) => TimerStepWaitsOn(s, h, step);
    case Hold(_, step) => HoldStepWaitsOn(s, h, step);
    case _ =>
  }

  lemma TimerStepWaitsOn(s: State, h: Handle, step: AcquireStep)
    requires h in s.requests && AcquireEnabled(s.requests[h], step) && !ProtocolStep(step)
    requires s.requests[h].node.Some? && AttemptInv(s, s.requests[h])
    ensures h in NextAcquire(s, h, step).requests && WaitsOn(s.requests[h], NextAcquire(s, h, step).requests[h])
  {
    var r := s.requests[h];
    if step.ServeTimeoutDelete? {
      assert NotifyWatcher(r.(wait := DeleteServed), r.path, r.node.value) == r.(wait := DeleteServed);
    }
  }

  lemma HoldStepWaitsOn(s: State, h: Handle, step: HolderStep)
    requires h in s.requests && HoldEnabled(s.requests[h].phase, step) && s.requests[h].node.Some?
    ensures h in NextHold(s, h, step).requests && WaitsOn(s.requests[h], NextHold(s, h, step).requests[h])
  {
    HoldResult(s, h, step);
  }

  lemma LocksOnlyGrowAtTheEnd(s: State, e: Event, path: string)
    requires Enabled(s, e)
    ensures forall n :: n in Locks(Next(s, e), path) && n !in Locks(s, path) ==> n.number == ZnodeAt(s, path).counter
  {
  }

  function ProtocolSteps(run: seq<Event>, h: Handle): nat
  {
    if run == [] then 0 else Count(IsProtocolStepOf(run[0], h)) + ProtocolSteps(run[1..], h)
  }

  lemma StepKeepsNode(s: State, e: Event, h: Handle)
    requires Enabled(s, e) && h in s.requests && s.requests[h].node.Some? && PhaseInv(s.requests[h])
    ensures h in Next(s, e).requests && Next(s, e).requests[h].node == s.requests[h].node
  {
    if Subject(s, e) != Some(h) {
      Bystander(s, e, h);
    } else {
      match e
      case Acquire(_, step) => AcquireKeepsNode(s, h, step);
      case Hold(_, step) => HoldKeepsNode(s, h, step);
      case _ =>
    }
  }

  lemma AcquireKeepsNode(s: State, h: Handle, step: AcquireStep)
    requires h in s.requests && AcquireEnabled(s.requests[h], step) && !step.ServeCreate?
    ensures h in NextAcquire(s, h, step).requests && NextAcquire(s, h, step).requests[h].node == s.requests[h].node
  {
  }

  lemma HoldKeepsNode(s: State, h: Handle, step: HolderStep)
    requires h in s.requests && HoldEnabled(s.requests[h].phase, step)
    ensures h in NextHold(s, h, step).requests && NextHold(s, h, step).requests[h].node == s.requests[h].node
  {
  }

  lemma {:induction false} RetriesAreBounded(s: State, run: seq<Event>, h: Handle)
    requires Inv(s) && Legal(s, run) && RaceFree(s, run) && h in s.requests && s.requests[h].node.Some?
    ensures ProtocolSteps(run, h) <= Measure(s, s.requests[h])
    decreases run
  {
    if run != [] {
      var s' := Next(s, run[0]);
      assert RequestInv(s, h);
      StepKeepsInv(s, run[0]);
      StepKeepsNode(s, run[0], h);
      RetriesAreBounded(s', run[1..], h);
      if IsProtocolStepOf(run[0], h) {
        ProtocolStepDecreases(s, s.requests[h], run[0].acquire);
        AcquireEffect(s, h, run[0].acquire);
      } else {
        OtherStepsDoNotIncrease(s, run[0], h);
      }
    }
  }

  /** However the others behave, a new lock node is scanned for at most five steps per node before it. */
  lemma NewAttemptStepsAreBounded(base: nat, s: State, run: seq<Event>, h: Handle)
    requires Reachable(base, s) && Legal(s, run) && RaceFree(s, run)
    requires h in s.requests && s.requests[h].phase.Created? && s.requests[h].node.Some?
    ensures ProtocolSteps(run, h)
         <= 5 * |SeenBy(Locks(s, s.requests[h].path), s.requests[h].node.value)| + 5
  {
    ReachableInv(base, s);
    RetriesAreBounded(s, run, h);
    assert Pending(s, s.requests[h]) == SeenBy(Locks(s, s.requests[h].path), s.requests[h].node.value);
  }

  /** First come, first served among conflicting attempts. */
  lemma GrantsAreFifo(base: nat, s: State, h: Handle, k: Handle)
    requires Reachable(base, s) && h in s.requests && k in s.requests && s.requests[h].path == s.requests[k].path
    requires LockGranted(s.requests[h].phase)
    requires s.requests[h].node.Some? && s.requests[k].node.Some?
    requires Seen(s.requests[k].node.value, s.requests[h].node.value)
    ensures !Live(s, s.requests[k]) && !LockInForce(s.requests[k])
  {
    ReachableInv(base, s);
    assert RequestInv(s, h) && RequestInv(s, k);
  }

  /** Granted, and the release call not yet served. */
  predicate LockInForce(r: Request)
  {
    LockGranted(r.phase) && !(r.phase.Deleting? && r.phase.found.Some?)
  }
}
