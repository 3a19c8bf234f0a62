/**
 The answers of the context service: what each step answers, that every request gets the answers it is owed and
 no others, and that a grant carries the content that was read.
 */
module ContextAnswers {
  import opened Options
  import opened LockNames
  import opened LockScan
  import opened ContextService
  import opened ContextInvariant
  import opened ContextTheorems
  import opened ContextProgress
  import opened ContextWrites
  import opened ContextInevitable

  // ---------- what each step answers ----------

  /** The end of a release: the client that asked for it is told whether the lock node was deleted, a single-shot
      read gets its content with that, and after the hold timeout nobody waits. */
  lemma ReleaseAnswers(s: State, h: Handle)
    requires h in s.requests && s.requests[h].phase.Deleting?
    ensures var key, purpose, found := s.requests[h].key, s.requests[h].phase.purpose, s.requests[h].phase.found;
            && (purpose == AfterSave || purpose == AfterUnlock ==>
                  && (found == Some(true) ==> Next(s, Hold(h, OnDelete)).outbox == s.outbox + multiset{Okay(key)})
                  && (found == Some(false) ==> Next(s, Hold(h, OnDelete)).outbox == s.outbox + multiset{Refused(key)})
                  && (found == None ==> Next(s, Hold(h, DeleteFails)).outbox == s.outbox + multiset{Refused(key)}))
            && (purpose.AfterSingleShot? ==>
                  && (found == Some(true) ==>
                        Next(s, Hold(h, OnDelete)).outbox == s.outbox + multiset{Granted(key, purpose.text)})
                  && (found == Some(false) ==> Next(s, Hold(h, OnDelete)).outbox == s.outbox + multiset{Refused(key)})
                  && (found == None ==> Next(s, Hold(h, DeleteFails)).outbox == s.outbox + multiset{Refused(key)}))
            && (purpose == AfterHoldTimeout ==>
                  && (found.Some? ==> Next(s, Hold(h, OnDelete)).outbox == s.outbox)
                  && (found == None ==> Next(s, Hold(h, DeleteFails)).outbox == s.outbox))
  {
  }

  /** The other steps of a granted lock: the content, or a refusal if the get or the set fails. */
  lemma HolderAnswers(s: State, h: Handle, step: HolderStep)
    requires h in s.requests && HoldEnabled(s.requests[h].phase, step)
    ensures var r, outbox := s.requests[h], Next(s, Hold(h, step)).outbox;
            && (step == OnGet && !r.singleShot ==>
                  outbox == s.outbox + multiset{Granted(r.key, r.phase.got.value.text)})
            && (step == OnGet && r.singleShot ==> outbox == s.outbox)
            && (step == GetFails || step == SetFails ==> outbox == s.outbox + multiset{Refused(r.key)})
            && (step in {ServeGet, ServeSet, OnSet, HoldTimerFires, ServeDelete} ==> outbox == s.outbox)
  {
    var r := s.requests[h];
    if step == ServeDelete && r.node.Some? {
      var served := With(s, h, AdvanceHolder(r, ZnodeAt(s, r.path), step));
      assert RemoveNode(served, r.path, r.node.value).outbox == s.outbox;
    }
  }

  /** The steps of the lock protocol: a refusal when a call fails or the wait timer ends the wait, once. */
  lemma ProtocolAnswers(s: State, h: Handle, step: AcquireStep)
    requires h in s.requests && AcquireEnabled(s.requests[h], step)
    ensures var r, outbox := s.requests[h], Next(s, Acquire(h, step)).outbox;
            var timedOut := r.wait == Fired || r.wait == FireFailed;
            var waits := r.phase.Scanning? || r.phase.Checking? || r.phase.Missing? || r.phase.Watching?
                         || r.phase.Notified?;
            outbox == if step == CreateFails
                         || ((step == ChildrenFails || step == WatchFails) && !timedOut)
                         || ((step == OnTimeoutDelete || step == TimeoutDeleteFails) && waits)
                      then s.outbox + multiset{Refused(r.key)} else s.outbox
  {
  }

  /** The messages of clients: a save or an unlock that finds no lock, and a save under a read lock, is refused; a
      save of nothing is ignored; nothing else is answered at once. */
  lemma MessageAnswers(s: State, key: string, text: string, h: Handle, path: string, mode: Mode, singleShot: bool)
    requires TableInv(s) && h !in s.requests
    ensures Next(s, LockRequest(h, key, path, mode, singleShot)).outbox == s.outbox
    ensures Next(s, UnlockRequest(key)).outbox
         == if key in s.controlMap then s.outbox else s.outbox + multiset{Refused(key)}
    ensures Next(s, SaveRequest(key, text)).outbox
         == if text == "" || (key in s.controlMap && s.requests[s.controlMap[key]].mode == Write) then s.outbox
            else s.outbox + multiset{Refused(key)}
  {
  }

  /** What a message does to the attempt it is about, if it finds its lock. */
  lemma MessageStarts(s: State, key: string, text: string)
    requires TableInv(s) && key in s.controlMap
    ensures var h := s.controlMap[key];
            && Next(s, UnlockRequest(key)).requests
               == s.requests[h := s.requests[h].(phase := Deleting(AfterUnlock, None))]
            && Next(s, UnlockRequest(key)).controlMap == s.controlMap - {key}
            && (text != "" && s.requests[h].mode == Write ==>
                  && Next(s, SaveRequest(key, text)).requests
                     == s.requests[h := s.requests[h].(phase := Writing(s.requests[h].phase.held, text, false))]
                  && Next(s, SaveRequest(key, text)).controlMap == s.controlMap - {key})
  {
  }

  // ---------- every request gets the answers it is owed ----------

  /** The answers that an attempt still owes: to its lock request, or to the release that was asked for. */
  function Owed(r: Request): nat
  {
    match r.phase
    case Creating => 1
    case Created => 1
    case Reading(_) => 1
    case Held(_) => 0
    case Writing(_, _, _) => 1
    case Deleting(purpose, _) => if purpose.AfterHoldTimeout? then 0 else 1
    case Abandoned => 0
    case Leaked => 0
    case Done => 0
    case _ => if TimedOut(r.wait) then 0 else 1
  }

  /** A release that a client asks for reaches the attempt. */
  predicate AsksRelease(s: State, e: Event, h: Handle)
  {
    (e.SaveRequest? || e.UnlockRequest?) && e.key in s.controlMap && s.controlMap[e.key] == h
    && (e.SaveRequest? ==> e.text != "" && h in s.requests && s.requests[h].mode == Write)
  }

  predicate IsStepOf(e: Event, h: Handle) { (e.Acquire? || e.Hold?) && e.h == h }

  lemma AcquirePays(s: State, h: Handle, step: AcquireStep)
    requires h in s.requests && AcquireEnabled(s.requests[h], step) && PhaseInv(s.requests[h])
    ensures var s' := Next(s, Acquire(h, step));
            h in s'.requests && |s'.outbox| + Owed(s'.requests[h]) == |s.outbox| + Owed(s.requests[h])
  {
    ProtocolAnswers(s, h, step);
    AcquireResult(s, h, step);
    AcquireChangesDebt(s.requests[h], ZnodeAt(s, s.requests[h].path), step);
  }

  lemma AcquireChangesDebt(r: Request, z: Znode, step: AcquireStep)
    requires AcquireEnabled(r, step) && PhaseInv(r)
    ensures Owed(Advance(r, z, step)) + (if step == CreateFails
                 || ((step == ChildrenFails || step == WatchFails) && !TimedOut(r.wait))
                 || ((step == OnTimeoutDelete || step == TimeoutDeleteFails) && Waiting(r.phase)) then 1 else 0)
         == Owed(r)
  {
  }

  /** A step of a granted lock that answers. */
  predicate Answers(r: Request, step: HolderStep)
  {
    || (step == OnGet && !r.singleShot) || step == GetFails || step == SetFails
    || ((step == OnDelete || step == DeleteFails) && r.phase.Deleting? && r.phase.purpose != AfterHoldTimeout)
  }

  lemma HoldChangesDebt(r: Request, z: Znode, step: HolderStep)
    requires HoldEnabled(r.phase, step)
    ensures Owed(AdvanceHolder(r, z, step)) + (if Answers(r, step) then 1 else 0) == Owed(r)
  {
  }

  lemma HoldAnswersOnce(s: State, h: Handle, step: HolderStep)
    requires h in s.requests && HoldEnabled(s.requests[h].phase, step)
    ensures |Next(s, Hold(h, step)).outbox| == |s.outbox| + if Answers(s.requests[h], step) then 1 else 0
  {
    if step == OnDelete || step == DeleteFails {
      ReleaseAnswers(s, h);
    } else {
      HolderAnswers(s, h, step);
    }
  }

  lemma HoldPays(s: State, h: Handle, step: HolderStep)
    requires h in s.requests && HoldEnabled(s.requests[h].phase, step)
    ensures var s' := Next(s, Hold(h, step));
            h in s'.requests && |s'.outbox| + Owed(s'.requests[h]) == |s.outbox| + Owed(s.requests[h])
  {
    HoldResult(s, h, step);
    HoldChangesDebt(s.requests[h], ZnodeAt(s, s.requests[h].path), step);
    HoldAnswersOnce(s, h, step);
  }

  lemma MessageAddsDebt(s: State, e: Event, h: Handle)
    requires TableInv(s) && (e.SaveRequest? || e.UnlockRequest?) && e.key in s.controlMap && s.controlMap[e.key] == h
    ensures h in s.requests && h in Next(s, e).requests
    ensures Owed(Next(s, e).requests[h]) == Owed(s.requests[h]) + if AsksRelease(s, e, h) then 1 else 0
  {
    MessageStarts(s, e.key, if e.SaveRequest? then e.text else "");
  }

  /** One step: the attempt's own steps pay what it owes, a release that is asked for adds to it, and nothing else
      changes it. */
  lemma StepPays(s: State, e: Event, h: Handle)
    requires TableInv(s) && Enabled(s, e) && h in s.requests && PhaseInv(s.requests[h])
    ensures var s' := Next(s, e);
            && h in s'.requests
            && (IsStepOf(e, h) ==> |s'.outbox| + Owed(s'.requests[h]) == |s.outbox| + Owed(s.requests[h]))
            && (!IsStepOf(e, h) ==> Owed(s'.requests[h]) == Owed(s.requests[h]) + if AsksRelease(s, e, h) then 1 else 0)
  {
    if IsStepOf(e, h) {
      match e
      case Acquire(_, step) => AcquirePays(s, h, step);
      case Hold(_, step) => HoldPays(s, h, step);
    } else if Subject(s, e) == Some(h) {
      MessageAddsDebt(s, e, h);
    } else {
      Bystander(s, e, h);
    }
  }

  /** How many answers the steps of an attempt have given in a run. */
  ghost function AnswersGiven(s: State, run: seq<Event>, h: Handle): int
    requires Legal(s, run)
    decreases |run|
  {
    if run == [] then 0
    else
      var s' := Next(s, run[0]);
      (if IsStepOf(run[0], h) then |s'.outbox| - |s.outbox| else 0) + AnswersGiven(s', run[1..], h)
  }

  ghost function ReleasesAsked(s: State, run: seq<Event>, h: Handle): nat
    requires Legal(s, run)
    decreases |run|
  {
    if run == [] then 0
    else (if AsksRelease(s, run[0], h) then 1 else 0) + ReleasesAsked(Next(s, run[0]), run[1..], h)
  }

  /** Over every race-free run: the answers given and those still owed are those owed before, and one more for every
      release that was asked for. */
  lemma {:induction false} DebtsArePaid(s: State, run: seq<Event>, h: Handle)
    requires LockInv(s) && Legal(s, run) && RaceFree(s, run) && h in s.requests
    ensures h in After(s, run).requests
    ensures AnswersGiven(s, run, h) + Owed(After(s, run).requests[h])
         == Owed(s.requests[h]) + ReleasesAsked(s, run, h)
    decreases |run|
  {
    if run != [] {
      assert RequestInv(s, h);
      StepPays(s, run[0], h);
      StepKeepsLockInv(s, run[0]);
      DebtsArePaid(Next(s, run[0]), run[1..], h);
    }
  }

  /** While an answer is owed, the attempt has a step to take. */
  lemma DebtorCanMove(s: State, h: Handle) returns (e: Event)
    requires h in s.requests && PhaseInv(s.requests[h]) && Owed(s.requests[h]) > 0
    ensures IsStepOf(e, h) && Enabled(s, e) && !LosesNode(e) && !IsTimerScanRace(s, e)
  {
    var r := s.requests[h];
    match r.phase
    case Creating => e := Acquire(h, ServeCreate);
    case Created => e := Acquire(h, OnCreated);
    case Reading(got) => e := Hold(h, if got.None? then ServeGet else OnGet);
    case Writing(_, _, served) => e := Hold(h, if served then OnSet else ServeSet);
    case Deleting(_, found) => e := Hold(h, if found.None? then ServeDelete else OnDelete);
    case Scanning(view, _) =>
      if view.None? {
        e := Acquire(h, ServeChildren);
      } else if r.wait.DeleteSent? {
        e := Acquire(h, ServeTimeoutDelete);
      } else if r.wait.DeleteServed? {
        e := Acquire(h, OnTimeoutDelete);
      } else {
        var found := ScanResultExists(view.value, r.node.value);
        e := Acquire(h, OnChildren(found));
      }
    case _ =>
      e := Acquire(h, if r.wait.DeleteSent? then ServeTimeoutDelete
                      else if r.wait.DeleteServed? then OnTimeoutDelete else WaitTimerFires);
  }

  /** Everybody is answered: whatever the order in which the calls, callbacks and timers under way go on, when nothing
      more can happen every attempt has given exactly the answers it owed. */
  lemma EverybodyIsAnswered(base: nat, s: State, run: seq<Event>, h: Handle, nobody: Handle)
    requires Reachable(base, s) && h in s.requests && nobody !in s.requests
    requires GoesOn(s, run, nobody) && Stopped(Reached(s, run, nobody), nobody)
    ensures Legal(s, run) && AnswersGiven(s, run, h) == Owed(s.requests[h])
    ensures h in After(s, run).requests && Owed(After(s, run).requests[h]) == 0
  {
    ReachableInv(base, s);
    GoingOnIsLegal(s, run, nobody);
    GoingOnIsRaceFree(s, run, nobody);
    EverythingEnds(s, run, nobody, Above(s.requests.Keys));
    DebtsArePaid(s, run, h);
    var t := Reached(s, run, nobody);
    NobodyStaysAway(s, run, nobody);
    if Owed(t.requests[h]) > 0 {
      DebtorGoesOn(t, h, nobody);
    }
    NothingIsAsked(s, run, nobody, h);
  }

  lemma DebtorGoesOn(s: State, h: Handle, nobody: Handle)
    requires LockInv(s) && h in s.requests && nobody !in s.requests && Owed(s.requests[h]) > 0
    ensures !Stopped(s, nobody)
  {
    assert RequestInv(s, h);
    var e := DebtorCanMove(s, h);
    assert CanHappen(s, e, nobody);
  }

  lemma {:induction false} GoingOnIsRaceFree(s: State, run: seq<Event>, h: Handle)
    requires GoesOn(s, run, h) && Legal(s, run)
    ensures RaceFree(s, run)
    decreases |run|
  {
    if run != [] {
      GoingOnIsRaceFree(Next(s, run[0]), run[1..], h);
    }
  }

  lemma {:induction false} NobodyStaysAway(s: State, run: seq<Event>, nobody: Handle)
    requires GoesOn(s, run, nobody) && nobody !in s.requests
    ensures nobody !in Reached(s, run, nobody).requests
    decreases |run|
  {
    if run != [] {
      SameAttempts(s, run[0]);
      NobodyStaysAway(Next(s, run[0]), run[1..], nobody);
    }
  }

  lemma {:induction false} NothingIsAsked(s: State, run: seq<Event>, nobody: Handle, h: Handle)
    requires GoesOn(s, run, nobody) && Legal(s, run)
    ensures ReleasesAsked(s, run, h) == 0
    decreases |run|
  {
    if run != [] {
      NothingIsAsked(Next(s, run[0]), run[1..], nobody, h);
    }
  }

  // ---------- a grant carries the content that was read ----------

  /** What the attempt was given is the snapshot. */
  predicate HasGot(r: Request, got: Snapshot)
  {
    match r.phase
    case Reading(g) => g == Some(got)
    case Held(g) => g == got
    case Writing(g, _, _) => g == got
    case Deleting(purpose, _) => purpose.AfterSingleShot? ==> purpose.text == got.text
    case Leaked => true
    case Done => true
    case _ => false
  }

  lemma HasGotStays(s: State, e: Event, h: Handle, got: Snapshot)
    requires TableInv(s) && Enabled(s, e) && h in s.requests && PhaseInv(s.requests[h]) && HasGot(s.requests[h], got)
    ensures h in Next(s, e).requests && HasGot(Next(s, e).requests[h], got)
    ensures Next(s, e).requests[h].key == s.requests[h].key
  {
    if Subject(s, e) != Some(h) {
      Bystander(s, e, h);
    } else {
      match e
      case Acquire(_, step) => AcquireResult(s, h, step);
      case Hold(_, step) => HoldResult(s, h, step);
      case _ =>
    }
  }

  lemma {:induction false} RunHasGot(s: State, run: seq<Event>, h: Handle, got: Snapshot)
    requires LockInv(s) && Legal(s, run) && RaceFree(s, run) && h in s.requests && HasGot(s.requests[h], got)
    ensures h in After(s, run).requests && HasGot(After(s, run).requests[h], got)
    ensures LockInv(After(s, run)) && After(s, run).requests[h].key == s.requests[h].key
    decreases |run|
  {
    if run != [] {
      assert RequestInv(s, h);
      HasGotStays(s, run[0], h, got);
      StepKeepsLockInv(s, run[0]);
      RunHasGot(Next(s, run[0]), run[1..], h, got);
    }
  }

  /** The answer with a content, to a lock request or to a single-shot read, carries what the server had at the path
      when it was read under the lock; a path that does not exist has the empty content. */
  lemma GrantCarriesTheContent(s: State, h: Handle, run: seq<Event>, e: Event, text: string)
    requires LockInv(s) && Enabled(s, Hold(h, ServeGet))
    requires Legal(Next(s, Hold(h, ServeGet)), run) && RaceFree(Next(s, Hold(h, ServeGet)), run)
    requires var t := After(Next(s, Hold(h, ServeGet)), run);
             && Enabled(t, e) && IsStepOf(e, h)
             && Next(t, e).outbox == t.outbox + multiset{Granted(s.requests[h].key, text)}
    ensures text == if s.requests[h].path in s.store then s.store[s.requests[h].path].content else ""
  {
    var s1, r := Next(s, Hold(h, ServeGet)), s.requests[h];
    HoldResult(s, h, ServeGet);
    StepKeepsLockInv(s, Hold(h, ServeGet));
    var got := s1.requests[h].phase.got.value;
    RunHasGot(s1, run, h, got);
    var t := After(s1, run);
    StepGrants(t, e, h, got, text);
  }

  lemma StepGrants(t: State, e: Event, h: Handle, got: Snapshot, text: string)
    requires LockInv(t) && h in t.requests && HasGot(t.requests[h], got) && Enabled(t, e) && IsStepOf(e, h)
    requires Next(t, e).outbox == t.outbox + multiset{Granted(t.requests[h].key, text)}
    ensures text == got.text
  {
    var key := t.requests[h].key;
    assert RequestInv(t, h);
    assert Next(t, e).outbox[Granted(key, text)] == t.outbox[Granted(key, text)] + 1;
    match e
    case Acquire(_, step) => ProtocolAnswers(t, h, step);
    case Hold(_, step) =>
      if step == OnDelete || step == DeleteFails {
        ReleaseAnswers(t, h);
      } else {
        HolderAnswers(t, h, step);
      }
  }
}
