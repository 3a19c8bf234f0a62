/**
 The invariant of the context service, and the proof that every step other than the timer/scan race keeps it.
 */
module ContextInvariant {
  import opened Options
  import opened LockNames
  import opened LockScan
  import opened ContextService

  /** What the phase, the node and the wait timer of one attempt say about each other. */
  ghost predicate PhaseInv(r: Request)
  {
    && (r.phase.Creating? ==> r.node.None? && r.wait == Unset)
    && (r.phase.Created? ==> r.node.Some? && r.wait == Unset)
    && (Waiting(r.phase) || r.phase.Abandoned? ==> r.node.Some? && r.wait != Unset && r.wait != Cleared)
    && (LockGranted(r.phase) ==> r.node.Some? && r.wait == Cleared)
    && (r.phase.Done? ==> r.wait.Unset? || r.wait.Cleared? || TimedOut(r.wait))
    && (r.phase.Done? && r.wait.Unset? ==> r.node.None?)
    && (r.phase.Scanning? && TimeoutDeletePending(r.wait) ==> r.phase.late)
    && (r.phase.Scanning? && r.wait.Armed? ==> !r.phase.late)
    && (r.phase.Deleting? && r.phase.found.Some? ==> r.phase.found.value)
    && (r.phase.Writing? ==> r.mode == Write)
  }

  /** Exactly when the lock node of an attempt exists. */
  predicate ShouldLive(r: Request)
  {
    match r.phase
    case Creating => false
    case Created => true
    case Done => r.wait.FireFailed?
    case Deleting(_, found) => found.None?
    case Reading(_) => true
    case Held(_) => true
    case Writing(_, _, _) => true
    case Leaked => true
    case _ => r.wait.Armed? || r.wait.DeleteSent? || r.wait.FireFailed?
  }

  ghost predicate NodeInv(s: State, r: Request)
  {
    && (r.node.Some? ==>
          && r.path in s.store
          && r.node.value.mode == r.mode
          && s.base <= r.node.value.number < s.store[r.path].counter)
    && (Live(s, r) <==> ShouldLive(r))
  }

  ghost predicate DistinctNodes(s: State)
  {
    forall h1, h2 :: h1 in s.requests && h2 in s.requests && h1 != h2
      && s.requests[h1].path == s.requests[h2].path && s.requests[h1].node.Some? && s.requests[h2].node.Some?
      ==> s.requests[h1].node.value.number != s.requests[h2].node.value.number
  }

  ghost predicate OwnedBy(s: State, path: string, node: LockNode, h: Handle)
  {
    h in s.requests && s.requests[h].path == path && s.requests[h].node == Some(node)
  }

  ghost predicate Owned(s: State, path: string, node: LockNode)
  {
    exists h :: OwnedBy(s, path, node, h)
  }

  ghost predicate AllOwned(s: State)
  {
    forall path, node :: path in s.store && node in s.store[path].locks ==> Owned(s, path, node)
  }

  /** What a waiting attempt knows about the nodes before its own. */
  ghost predicate WaitInv(s: State, r: Request)
  {
    && (r.phase.Scanning? && r.phase.view.Some? && r.node.Some? ==>
          forall n :: n in Locks(s, r.path) && n.number < r.node.value.number ==> n in r.phase.view.value)
    && (r.phase.Checking? || r.phase.Missing? || r.phase.Watching? || r.phase.Notified? ==>
          r.node.Some? && Seen(r.phase.pred, r.node.value))
    && (r.phase.Watching? ==> r.phase.pred in Locks(s, r.path))
    && (r.phase.Missing? || r.phase.Notified? ==> r.phase.pred !in Locks(s, r.path))
    && (r.phase.Checking? ==> r.path in s.store)
  }

  /** A granted attempt has no visible node before it. */
  ghost predicate GrantInv(s: State, r: Request)
  {
    LockGranted(r.phase) && r.node.Some? ==> forall n :: n in Locks(s, r.path) ==> !Seen(n, r.node.value)
  }

  /** The table entries are the held locks. */
  ghost predicate TableInv(s: State)
  {
    forall key :: key in s.controlMap ==>
      && s.controlMap[key] in s.requests
      && s.requests[s.controlMap[key]].phase.Held?
      && s.requests[s.controlMap[key]].key == key
  }

  ghost predicate AttemptInv(s: State, r: Request)
  {
    PhaseInv(r) && NodeInv(s, r) && WaitInv(s, r) && GrantInv(s, r)
  }

  ghost predicate RequestInv(s: State, h: Handle)
    requires h in s.requests
  {
    AttemptInv(s, s.requests[h])
  }

  ghost predicate CounterInv(s: State)
  {
    forall path :: path in s.store ==> s.store[path].counter >= s.base
  }

  ghost predicate LockInv(s: State)
  {
    && (forall h :: h in s.requests ==> RequestInv(s, h))
    && DistinctNodes(s) && AllOwned(s) && TableInv(s) && CounterInv(s)
  }

  lemma LockInvInit(base: nat)
    ensures LockInv(Init(base))
  {
  }

  /** Two states agree on everything about lock nodes. */
  ghost predicate SameNodes(s: State, s': State)
  {
    && s'.base == s.base && s'.store.Keys == s.store.Keys
    && forall p :: p in s.store ==> s'.store[p].locks == s.store[p].locks && s'.store[p].counter == s.store[p].counter
  }

  /** Only attempt h differs, and it keeps its path and node. */
  ghost predicate OnlyChanges(s: State, s': State, h: Handle)
  {
    && h in s.requests && s'.requests.Keys == s.requests.Keys
    && s'.requests[h].path == s.requests[h].path && s'.requests[h].node == s.requests[h].node
    && forall k :: k in s.requests && k != h ==> s'.requests[k] == s.requests[k]
  }

  lemma OwnersStay(s: State, s': State)
    requires AllOwned(s) && s'.store.Keys == s.store.Keys
    requires forall p :: p in s.store ==> s'.store[p].locks <= s.store[p].locks
    requires s'.requests.Keys >= s.requests.Keys
    requires forall k :: k in s.requests ==> s'.requests[k].path == s.requests[k].path
                                             && s'.requests[k].node == s.requests[k].node
    ensures AllOwned(s')
  {
    forall path, node | path in s'.store && node in s'.store[path].locks
      ensures Owned(s', path, node)
    {
      assert Owned(s, path, node);
      var h :| OwnedBy(s, path, node, h);
      assert OwnedBy(s', path, node, h);
    }
  }

  /** A step that changes one attempt and no lock node. */
  lemma LocalStep(s: State, s': State, h: Handle)
    requires LockInv(s) && SameNodes(s, s') && OnlyChanges(s, s', h)
    requires RequestInv(s', h) && TableInv(s')
    ensures LockInv(s')
  {
    OwnersStay(s, s');
    forall k | k in s'.requests
      ensures RequestInv(s', k)
    {
      if k != h {
        assert RequestInv(s, k);
      }
    }
  }

  /** A new node comes after every older one, so the older attempts do not notice it. */
  lemma CreateSeenBy(s: State, s': State, path: string, node: LockNode, q: Request)
    requires AttemptInv(s, q) && s'.base == s.base && s'.store.Keys == s.store.Keys + {path}
    requires forall p :: p in s.store && p != path ==> s'.store[p] == s.store[p]
    requires Locks(s', path) == Locks(s, path) + {node} && node.number == ZnodeAt(s, path).counter
    requires s'.store[path].counter > node.number
    ensures AttemptInv(s', q)
  {
    assert Live(s', q) == Live(s, q);
    if q.path == path && q.node.Some? {
      assert q.node.value.number < node.number;
    }
  }

  /** A step that creates the lock node of h, with the next sequence number. */
  lemma CreateStep(s: State, h: Handle)
    requires LockInv(s) && h in s.requests && s.requests[h].phase.Creating?
    ensures LockInv(NextAcquire(s, h, ServeCreate))
  {
    assert RequestInv(s, h);
    forall k | k in s.requests
      ensures RequestInv(NextAcquire(s, h, ServeCreate), k)
    {
      assert RequestInv(s, k);
      CreateKeepsAttempt(s, h, k);
    }
    CreateKeepsOwners(s, h);
    CreateKeepsTable(s, h);
  }

  lemma CreateKeepsAttempt(s: State, h: Handle, k: Handle)
    requires h in s.requests && k in s.requests && RequestInv(s, h) && RequestInv(s, k) && CounterInv(s)
    requires s.requests[h].phase.Creating?
    ensures NextAcquire(s, h, ServeCreate).requests.Keys == s.requests.Keys
    ensures RequestInv(NextAcquire(s, h, ServeCreate), k)
  {
    var s', r := NextAcquire(s, h, ServeCreate), s.requests[h];
    if k != h {
      CreateSeenBy(s, s', r.path, LockNode(r.mode, ZnodeAt(s, r.path).counter), s.requests[k]);
    }
  }

  lemma CreateKeepsTable(s: State, h: Handle)
    requires h in s.requests && TableInv(s) && s.requests[h].phase.Creating?
    ensures TableInv(NextAcquire(s, h, ServeCreate))
  {
  }

  lemma CreateKeepsOwners(s: State, h: Handle)
    requires LockInv(s) && h in s.requests && s.requests[h].phase.Creating?
    ensures var s' := NextAcquire(s, h, ServeCreate); AllOwned(s') && DistinctNodes(s') && CounterInv(s')
  {
    var s' := NextAcquire(s, h, ServeCreate);
    var r := s.requests[h];
    assert RequestInv(s, h);
    forall path, node | path in s'.store && node in s'.store[path].locks
      ensures Owned(s', path, node)
    {
      if path == r.path && Some(node) == s'.requests[h].node {
        assert OwnedBy(s', path, node, h);
      } else {
        assert path in s.store && node in s.store[path].locks;
        assert Owned(s, path, node);
        var k :| OwnedBy(s, path, node, k);
        assert OwnedBy(s', path, node, k);
      }
    }
    forall k | k in s.requests && k != h && s.requests[k].path == r.path && s.requests[k].node.Some?
      ensures s'.requests[k] == s.requests[k]
              && s.requests[k].node.value.number < s'.requests[h].node.value.number
    {
      assert RequestInv(s, k);
    }
  }

  /** A deletion leaves every other attempt's invariant alone, waking the watchers of the deleted node. */
  lemma RemovalSeenBy(s: State, s': State, k: Handle, path: string, gone: LockNode)
    requires k in s.requests && RequestInv(s, k)
    requires k in s'.requests && s'.requests[k] == NotifyWatcher(s.requests[k], path, gone)
    requires s'.base == s.base && s'.store.Keys == s.store.Keys && path in s.store
    requires s'.store == s.store[path := s.store[path].(locks := s.store[path].locks - {gone})]
    requires s.requests[k].path == path && s.requests[k].node.Some? ==> s.requests[k].node.value != gone
    ensures RequestInv(s', k)
  {
    var q, q' := s.requests[k], s'.requests[k];
    assert q'.path == q.path && q'.node == q.node;
    assert Locks(s', q.path) == if q.path == path then Locks(s, q.path) - {gone} else Locks(s, q.path);
    assert Live(s', q') == Live(s, q);
  }

  /** A step that deletes the lock node of h. */
  lemma RemoveStep(s: State, h: Handle, r': Request, s': State)
    requires LockInv(s) && h in s.requests
    requires r'.path == s.requests[h].path && r'.node == s.requests[h].node && r'.node.Some?
    requires s' == RemoveNode(With(s, h, r'), r'.path, r'.node.value)
    requires RequestInv(s', h) && !s.requests[h].phase.Held? && Live(s, s.requests[h])
    ensures LockInv(s')
  {
    assert RequestInv(s, h);
    var gone := r'.node.value;
    OwnersStay(s, s');
    forall k | k in s'.requests
      ensures RequestInv(s', k)
    {
      assert RequestInv(s, k);
      if k != h {
        RemovalSeenBy(s, s', k, r'.path, gone);
      }
    }
    RemoveKeepsTable(s, h, r', s');
  }

  lemma RemoveKeepsTable(s: State, h: Handle, r': Request, s': State)
    requires TableInv(s) && DistinctNodes(s) && h in s.requests && !s.requests[h].phase.Held?
    requires r'.path == s.requests[h].path && r'.node == s.requests[h].node && r'.node.Some?
    requires s' == RemoveNode(With(s, h, r'), r'.path, r'.node.value)
    ensures TableInv(s') && DistinctNodes(s')
  {
    forall key | key in s'.controlMap
      ensures s'.controlMap[key] in s'.requests && s'.requests[s'.controlMap[key]].phase.Held?
              && s'.requests[s'.controlMap[key]].key == key
    {
      assert key in s.controlMap && s.controlMap[key] != h;
    }
    assert forall k :: k in s.requests ==>
        s'.requests[k].path == s.requests[k].path && s'.requests[k].node == s.requests[k].node;
  }

  /** The request of a deletion step itself: its node goes, and nothing else about it changes. */
  lemma RemovalByOwner(s: State, h: Handle, r': Request, s': State)
    requires h in s.requests && RequestInv(s, h) && Live(s, s.requests[h])
    requires r'.path == s.requests[h].path && r'.node == s.requests[h].node && r'.mode == s.requests[h].mode
    requires s' == RemoveNode(With(s, h, r'), r'.path, r'.node.value)
    requires PhaseInv(r') && !ShouldLive(r')
    requires r'.phase == s.requests[h].phase || (r'.phase.Deleting? && LockGranted(s.requests[h].phase))
    ensures RequestInv(s', h)
  {
    var r, gone := s.requests[h], r'.node.value;
    assert s'.store == s.store[r.path := s.store[r.path].(locks := s.store[r.path].locks - {gone})];
    assert Locks(s', r.path) == Locks(s, r.path) - {gone};
    assert s'.requests[h] == NotifyWatcher(r', r.path, gone) == r';
  }

  predicate ChangesNodes(step: AcquireStep)
  {
    step.ServeCreate? || step.ServeTimeoutDelete?
  }

  /** The attempt's own invariant, for a step that leaves the lock nodes alone. */
  lemma AdvanceKeepsInv(s: State, r: Request, step: AcquireStep)
    requires AttemptInv(s, r) && AcquireEnabled(r, step) && !ChangesNodes(step)
    requires !(step.WaitTimerFires? && r.phase.Scanning?)
    ensures AttemptInv(s, Advance(r, ZnodeAt(s, r.path), step))
  {
    var z := ZnodeAt(s, r.path);
    assert z.locks == Locks(s, r.path);
    var r' := Advance(r, z, step);
    assert r'.node == r.node && r'.path == r.path && r'.mode == r.mode;
    assert Live(s, r') == Live(s, r);
    assert PhaseInv(r');
    assert NodeInv(s, r');
    assert WaitInv(s, r');
  }

  lemma TimeoutDeleteStep(s: State, h: Handle)
    requires LockInv(s) && Enabled(s, Acquire(h, ServeTimeoutDelete))
    ensures LockInv(NextAcquire(s, h, ServeTimeoutDelete))
  {
    var s' := NextAcquire(s, h, ServeTimeoutDelete);
    var r' := s.requests[h].(wait := DeleteServed);
    assert RequestInv(s, h);
    RemovalByOwner(s, h, r', s');
    RemoveStep(s, h, r', s');
  }

  lemma AdvanceStep(s: State, h: Handle, step: AcquireStep)
    requires LockInv(s) && Enabled(s, Acquire(h, step)) && !IsTimerScanRace(s, Acquire(h, step))
    requires !ChangesNodes(step)
    ensures LockInv(NextAcquire(s, h, step))
  {
    assert RequestInv(s, h);
    AdvanceKeepsInv(s, s.requests[h], step);
    AdvanceIsLocal(s, h, step);
    SameNodesSameInv(s, NextAcquire(s, h, step), NextAcquire(s, h, step).requests[h]);
    LocalStep(s, NextAcquire(s, h, step), h);
  }

  lemma AdvanceIsLocal(s: State, h: Handle, step: AcquireStep)
    requires h in s.requests && AcquireEnabled(s.requests[h], step) && PhaseInv(s.requests[h]) && !ChangesNodes(step)
    requires TableInv(s)
    ensures var s' := NextAcquire(s, h, step);
            && SameNodes(s, s') && OnlyChanges(s, s', h) && TableInv(s')
            && s'.requests[h] == Advance(s.requests[h], ZnodeAt(s, s.requests[h].path), step)
  {
  }

  lemma AcquireKeepsLockInv(s: State, h: Handle, step: AcquireStep)
    requires LockInv(s) && Enabled(s, Acquire(h, step)) && !IsTimerScanRace(s, Acquire(h, step))
    ensures LockInv(Next(s, Acquire(h, step)))
  {
    if step.ServeCreate? {
      CreateStep(s, h);
    } else if step.ServeTimeoutDelete? {
      TimeoutDeleteStep(s, h);
    } else {
      AdvanceStep(s, h, step);
    }
  }

  lemma AdvanceHolderKeepsInv(s: State, r: Request, step: HolderStep)
    requires AttemptInv(s, r) && HoldEnabled(r.phase, step) && !step.ServeDelete?
    ensures AttemptInv(s, AdvanceHolder(r, ZnodeAt(s, r.path), step))
  {
    var z := ZnodeAt(s, r.path);
    var r' := AdvanceHolder(r, z, step);
    assert r'.node == r.node && r'.path == r.path && r'.mode == r.mode && r'.wait == r.wait;
    assert Live(s, r') == Live(s, r);
    assert PhaseInv(r');
    assert NodeInv(s, r');
  }

  lemma HoldIsLocal(s: State, h: Handle, step: HolderStep)
    requires h in s.requests && HoldEnabled(s.requests[h].phase, step) && !step.ServeDelete?
    requires s.requests[h].path in s.store
    ensures var s' := NextHold(s, h, step); SameNodes(s, s') && OnlyChanges(s, s', h)
    ensures var s' := NextHold(s, h, step); s'.requests[h].key == s.requests[h].key
  {
  }

  lemma HoldTableInv(s: State, h: Handle, step: HolderStep)
    requires h in s.requests && HoldEnabled(s.requests[h].phase, step) && !step.ServeDelete?
    requires TableInv(s) && s.requests[h].path in s.store
    ensures TableInv(NextHold(s, h, step))
  {
    HoldIsLocal(s, h, step);
  }

  /** The invariant of an attempt depends only on the lock nodes of its path. */
  lemma SameNodesSameInv(s: State, s': State, r: Request)
    requires SameNodes(s, s') && AttemptInv(s, r)
    ensures AttemptInv(s', r)
  {
    assert Locks(s', r.path) == Locks(s, r.path);
  }

  lemma HoldKeepsLockInv(s: State, h: Handle, step: HolderStep)
    requires LockInv(s) && Enabled(s, Hold(h, step))
    ensures LockInv(Next(s, Hold(h, step)))
  {
    var s' := Next(s, Hold(h, step));
    var r := s.requests[h];
    assert RequestInv(s, h);
    if step.ServeDelete? {
      var r' := r.(phase := Deleting(r.phase.purpose, Some(Live(s, r))));
      RemovalByOwner(s, h, r', s');
      RemoveStep(s, h, r', s');
    } else {
      HoldIsLocal(s, h, step);
      AdvanceHolderKeepsInv(s, r, step);
      SameNodesSameInv(s, s', s'.requests[h]);
      HoldTableInv(s, h, step);
      LocalStep(s, s', h);
    }
  }

  /** A message from a client about the table entry of h. */
  lemma EntryStep(s: State, key: string, phase: Phase)
    requires LockInv(s) && key in s.controlMap
    requires phase.Writing? || phase == Deleting(AfterUnlock, None)
    requires phase.Writing? ==> s.requests[s.controlMap[key]].mode == Write && !phase.served
    ensures LockInv(InPhase(s, s.controlMap[key], phase).(controlMap := s.controlMap - {key}))
  {
    var h := s.controlMap[key];
    assert RequestInv(s, h);
    var s' := InPhase(s, h, phase).(controlMap := s.controlMap - {key});
    EntryIsReleased(s, h, phase);
    assert SameNodes(s, s') && OnlyChanges(s, s', h);
    SameNodesSameInv(s, s', s'.requests[h]);
    LocalStep(s, s', h);
  }

  /** A held lock may be written under or released. */
  lemma EntryIsReleased(s: State, h: Handle, phase: Phase)
    requires h in s.requests && RequestInv(s, h) && s.requests[h].phase.Held?
    requires phase.Writing? || phase == Deleting(AfterUnlock, None)
    requires phase.Writing? ==> s.requests[h].mode == Write && !phase.served
    ensures AttemptInv(s, s.requests[h].(phase := phase))
  {
    var r' := s.requests[h].(phase := phase);
    assert Live(s, r') == Live(s, s.requests[h]);
  }

  lemma NewRequestStep(s: State, h: Handle, r: Request)
    requires LockInv(s) && h !in s.requests && r.phase.Creating? && r.node.None? && r.wait.Unset?
    ensures LockInv(With(s, h, r))
  {
    var s' := With(s, h, r);
    OwnersStay(s, s');
    assert SameNodes(s, s');
    forall k | k in s'.requests
      ensures RequestInv(s', k)
    {
      if k != h {
        assert RequestInv(s, k);
        SameNodesSameInv(s, s', s.requests[k]);
      }
    }
    NewRequestKeepsTable(s, h, r);
  }

  lemma NewRequestKeepsTable(s: State, h: Handle, r: Request)
    requires TableInv(s) && DistinctNodes(s) && h !in s.requests && r.node.None?
    ensures TableInv(With(s, h, r)) && DistinctNodes(With(s, h, r))
  {
  }

  lemma LockInvIgnoresOutbox(s: State, outbox: multiset<Reply>)
    requires LockInv(s)
    ensures LockInv(s.(outbox := outbox))
  {
    var s' := s.(outbox := outbox);
    OwnersStay(s, s');
    forall k | k in s.requests
      ensures RequestInv(s', k)
    {
      assert RequestInv(s, k);
    }
  }

  lemma StepKeepsLockInv(s: State, e: Event)
    requires LockInv(s) && Enabled(s, e) && !IsTimerScanRace(s, e)
    ensures LockInv(Next(s, e))
  {
    match e
    case Acquire(h, step) => AcquireKeepsLockInv(s, h, step);
    case Hold(h, step) => HoldKeepsLockInv(s, h, step);
    case LockRequest(h, key, path, mode, singleShot) =>
      NewRequestStep(s, h, Request(key, path, mode, singleShot, None, Creating, Unset));
    case SaveRequest(key, text) =>
      LockInvIgnoresOutbox(s, s.outbox + multiset{Refused(key)});
      if key in s.controlMap && s.requests[s.controlMap[key]].mode == Write {
        EntryStep(s, key, Writing(s.requests[s.controlMap[key]].phase.held, text, false));
      }
    case UnlockRequest(key) =>
      LockInvIgnoresOutbox(s, s.outbox + multiset{Refused(key)});
      if key in s.controlMap {
        EntryStep(s, key, Deleting(AfterUnlock, None));
      }
  }

  /** The attempt an event is about, if any. */
  function Subject(s: State, e: Event): Option<Handle>
  {
    match e
    case LockRequest(h, _, _, _, _) => Some(h)
    case Acquire(h, _) => Some(h)
    case Hold(h, _) => Some(h)
    case _ => if e.key in s.controlMap then Some(s.controlMap[e.key]) else None
  }

  ghost predicate Undisturbed(r: Request, r': Request)
  {
    r' == r || (r.phase.Watching? && r' == r.(phase := Notified(r.phase.pred)))
  }

  lemma BystanderOfRemoval(s: State, path: string, node: LockNode, k: Handle)
    requires k in s.requests
    ensures var s' := RemoveNode(s, path, node); k in s'.requests && Undisturbed(s.requests[k], s'.requests[k])
  {
  }

  /** An event leaves the attempts it is not about alone, except that a deletion wakes watchers. */
  lemma Bystander(s: State, e: Event, k: Handle)
    requires Enabled(s, e) && k in s.requests && Subject(s, e) != Some(k)
    ensures var s' := Next(s, e); k in s'.requests && Undisturbed(s.requests[k], s'.requests[k])
  {
    match e
    case Acquire(h, step) => BystanderOfAcquire(s, h, step, k);
    case Hold(h, step) => BystanderOfHold(s, h, step, k);
    case _ =>
  }

  lemma BystanderOfAcquire(s: State, h: Handle, step: AcquireStep, k: Handle)
    requires Enabled(s, Acquire(h, step)) && k in s.requests && h != k
    ensures var s' := NextAcquire(s, h, step); k in s'.requests && Undisturbed(s.requests[k], s'.requests[k])
  {
    var r := s.requests[h];
    if step.ServeTimeoutDelete? {
      var s1 := With(s, h, Advance(r, ZnodeAt(s, r.path), step)).(outbox := s.outbox + AcquireReply(r, step));
      BystanderOfRemoval(s1, r.path, r.node.value, k);
    }
  }

  lemma BystanderOfHold(s: State, h: Handle, step: HolderStep, k: Handle)
    requires Enabled(s, Hold(h, step)) && k in s.requests && h != k
    ensures var s' := NextHold(s, h, step); k in s'.requests && Undisturbed(s.requests[k], s'.requests[k])
  {
    var r := s.requests[h];
    if step.ServeDelete? && r.node.Some? {
      var s1 := With(s, h, AdvanceHolder(r, ZnodeAt(s, r.path), step)).(outbox := s.outbox + HoldReply(r, step));
      BystanderOfRemoval(s1, r.path, r.node.value, k);
    }
  }
}
