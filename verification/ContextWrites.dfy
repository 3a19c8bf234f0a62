/**
 The writes of the context service, attempt by attempt: a write stays written, and a lock that the hold timeout
 has taken away never writes.
 */
module ContextWrites {
  import opened Options
  import opened ContextService
  import opened ContextInvariant
  import opened ContextSafety

  /** The service has written the text for the attempt. */
  ghost predicate Committed(s: State, h: Handle, text: string)
  {
    exists path, i :: CommitAt(s, path, i, h) && s.store[path].history[i].text == text
  }

  ghost predicate CommitAt(s: State, path: string, i: int, h: Handle)
  {
    path in s.store && 0 <= i < |s.store[path].history| && s.store[path].history[i].handle == h
  }

  /** No release command of the client has reached the attempt. */
  predicate NotReleased(phase: Phase)
  {
    !phase.Writing? && !(phase.Deleting? && (phase.purpose.AfterSave? || phase.purpose.AfterUnlock?))
  }

  /** The lock has been granted and its content sent, or the attempt is over. */
  predicate Answered(phase: Phase)
  {
    phase.Held? || phase.Writing? || phase.Deleting? || phase.Leaked? || phase.Done?
  }

  ghost predicate Grows(s: State, s': State)
  {
    forall path :: path in s.store ==> path in s'.store && s.store[path].history <= s'.store[path].history
  }

  lemma EventGrows(s: State, e: Event)
    requires Enabled(s, e)
    ensures Grows(s, Next(s, e))
  {
    match e
    case Acquire(h, step) => AcquireGrows(s, h, step);
    case Hold(h, step) => HoldGrows(s, h, step);
    case _ =>
  }

  lemma AcquireGrows(s: State, h: Handle, step: AcquireStep)
    requires h in s.requests && AcquireEnabled(s.requests[h], step)
    ensures Grows(s, NextAcquire(s, h, step))
  {
  }

  lemma HoldGrows(s: State, h: Handle, step: HolderStep)
    requires h in s.requests && HoldEnabled(s.requests[h].phase, step)
    ensures Grows(s, NextHold(s, h, step))
  {
  }

  lemma CommittedStays(s: State, s': State, h: Handle, text: string)
    requires Grows(s, s') && Committed(s, h, text)
    ensures Committed(s', h, text)
  {
    var path, i :| CommitAt(s, path, i, h) && s.store[path].history[i].text == text;
    assert s'.store[path].history[i] == s.store[path].history[i];
    assert CommitAt(s', path, i, h);
  }

  lemma SetCommits(s: State, h: Handle)
    requires Enabled(s, Hold(h, ServeSet))
    ensures Committed(NextHold(s, h, ServeSet), h, s.requests[h].phase.text)
  {
    var s' := NextHold(s, h, ServeSet);
    var path := s.requests[h].path;
    var history := s'.store[path].history;
    assert CommitAt(s', path, |history| - 1, h);
  }

  // ---------- what one step does to its attempt ----------

  /** What a step of the lock protocol does to its attempt and to the replies. */
  lemma AcquireResult(s: State, h: Handle, step: AcquireStep)
    requires h in s.requests && AcquireEnabled(s.requests[h], step)
    ensures var r, s' := s.requests[h], NextAcquire(s, h, step);
            && s'.outbox == s.outbox + AcquireReply(r, step) && h in s'.requests
            && Undisturbed(Advance(r, ZnodeAt(s, r.path), step), s'.requests[h])
  {
  }

  lemma HoldResult(s: State, h: Handle, step: HolderStep)
    requires h in s.requests && HoldEnabled(s.requests[h].phase, step)
    ensures var r, s' := s.requests[h], NextHold(s, h, step);
            && s'.outbox == s.outbox + HoldReply(r, step) && h in s'.requests
            && s'.requests[h] == AdvanceHolder(r, ZnodeAt(s, r.path), step)
  {
  }

  lemma ProtocolIsUnanswered(r: Request, z: Znode, step: AcquireStep)
    requires AcquireEnabled(r, step) && PhaseInv(r)
    ensures var r' := Advance(r, z, step);
            && !Answered(r.phase) && NotReleased(r'.phase) && !r'.phase.Deleting?
            && r'.key == r.key && r'.singleShot == r.singleShot
    ensures AcquireReply(r, step) <= multiset{Refused(r.key)}
  {
  }

  // ---------- no write after the hold timeout ----------

  ghost predicate NeverWrote(s: State, h: Handle) { forall path, i :: !CommitAt(s, path, i, h) }

  /** The hold timeout has taken the lock away. */
  predicate TakenAway(phase: Phase)
  {
    (phase.Deleting? && phase.purpose.AfterHoldTimeout?) || phase.Leaked? || phase.Done?
  }

  lemma OnlyHoldersWrite(s: State, e: Event, path: string, i: int, h: Handle)
    requires Enabled(s, e) && CommitAt(Next(s, e), path, i, h) && NeverWrote(s, h)
    ensures e == Hold(h, ServeSet)
  {
    EventGrows(s, e);
    if path in s.store && i < |s.store[path].history| {
      assert CommitAt(s, path, i, h);
    } else {
      NewCommit(s, e, path, i);
    }
  }

  lemma NewCommit(s: State, e: Event, path: string, i: int)
    requires Enabled(s, e) && path in Next(s, e).store
    requires 0 <= i < |Next(s, e).store[path].history|
    requires path in s.store ==> i >= |s.store[path].history|
    ensures e.Hold? && e.hold.ServeSet? && Next(s, e).store[path].history[i].handle == e.h
  {
    match e
    case Acquire(h, step) => AcquireWritesNothing(s, h, step);
    case Hold(h, step) => HoldWrites(s, h, step, path, i);
    case _ =>
  }

  lemma AcquireWritesNothing(s: State, h: Handle, step: AcquireStep)
    requires h in s.requests && AcquireEnabled(s.requests[h], step)
    ensures forall path :: path in NextAcquire(s, h, step).store ==>
              NextAcquire(s, h, step).store[path].history == if path in s.store then s.store[path].history else []
  {
  }

  lemma HoldWrites(s: State, h: Handle, step: HolderStep, path: string, i: int)
    requires h in s.requests && HoldEnabled(s.requests[h].phase, step) && path in NextHold(s, h, step).store
    requires 0 <= i < |NextHold(s, h, step).store[path].history|
    requires path in s.store ==> i >= |s.store[path].history|
    ensures step.ServeSet? && NextHold(s, h, step).store[path].history[i].handle == h
  {
  }

  lemma TakenAwayStays(s: State, e: Event, h: Handle)
    requires LockInv(s) && Enabled(s, e) && h in s.requests && TakenAway(s.requests[h].phase)
    ensures h in Next(s, e).requests && TakenAway(Next(s, e).requests[h].phase)
  {
    assert RequestInv(s, h);
    if Subject(s, e) != Some(h) {
      Bystander(s, e, h);
    } else {
      match e
      case Acquire(_, step) => ProtocolIsUnanswered(s.requests[h], ZnodeAt(s, s.requests[h].path), step);
      case Hold(_, step) => HoldResult(s, h, step);
      case _ =>
    }
  }

  lemma {:induction false} TakenAwayNeverWrites(s: State, run: seq<Event>, h: Handle)
    requires Inv(s) && Legal(s, run) && RaceFree(s, run)
    requires h in s.requests && TakenAway(s.requests[h].phase) && NeverWrote(s, h)
    ensures NeverWrote(After(s, run), h)
    decreases |run|
  {
    if run != [] {
      var s' := Next(s, run[0]);
      StepKeepsInv(s, run[0]);
      TakenAwayStays(s, run[0], h);
      forall path, i | CommitAt(s', path, i, h) ensures false {
        OnlyHoldersWrite(s, run[0], path, i, h);
      }
      TakenAwayNeverWrites(s', run[1..], h);
    }
  }

  lemma WriterMayHaveCommitted(s: State, path: string, i: int, h: Handle)
    requires Inv(s) && CommitAt(s, path, i, h)
    ensures h in s.requests && MayHaveCommitted(s.requests[h].phase)
  {
    var c := s.store[path].history[i];
    assert PathData(s, path) && c in s.store[path].history && CommitInv(s, path, c);
  }

  /** Once the hold timer of a lock has fired, its holder never writes. */
  lemma NoWriteAfterHoldTimeout(s: State, h: Handle, run: seq<Event>)
    requires Inv(s) && Enabled(s, Hold(h, HoldTimerFires))
    requires Legal(Next(s, Hold(h, HoldTimerFires)), run)
    requires RaceFree(Next(s, Hold(h, HoldTimerFires)), run)
    ensures NeverWrote(After(Next(s, Hold(h, HoldTimerFires)), run), h)
  {
    var s' := Next(s, Hold(h, HoldTimerFires));
    forall path, i ensures CommitAt(s, path, i, h) ==> MayHaveCommitted(s.requests[h].phase) {
      if CommitAt(s, path, i, h) {
        WriterMayHaveCommitted(s, path, i, h);
      }
    }
    forall path, i | CommitAt(s', path, i, h) ensures false {
      OnlyHoldersWrite(s, Hold(h, HoldTimerFires), path, i, h);
    }
    StepKeepsInv(s, Hold(h, HoldTimerFires));
    TakenAwayNeverWrites(s', run, h);
  }
}
