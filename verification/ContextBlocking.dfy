/**
 Lock nodes that nobody will delete: what a failed call leaves behind blocks every conflicting attempt after it,
 in every continuation, the timer/scan race included.
 */
module ContextBlocking {
  import opened Options
  import opened LockNames
  import opened LockScan
  import opened ContextService
  import opened ContextInvariant
  import opened ContextTheorems
  import opened ContextProgress
  import opened ContextWrites

  predicate HasToWaitFor(r: Request, q: Request)
  {
    q.path == r.path && q.node.Some? && r.node.Some? && Seen(q.node.value, r.node.value)
  }

  /** A lost attempt holds up another one: its node is alive and the other has to wait for it. */
  ghost predicate HoldsUp(s: State, k: Handle, r: Request)
  {
    k in s.requests && Lost(s.requests[k]) && Live(s, s.requests[k]) && HasToWaitFor(r, s.requests[k])
  }

  ghost predicate LostAhead(s: State, r: Request) { exists k :: HoldsUp(s, k, r) }

  // ---------- what holds in every run ----------

  /** The facts about nodes and the table that even a race leaves alone. */
  ghost predicate Sane(s: State)
  {
    && TableInv(s) && DistinctNodes(s)
    && forall h :: h in s.requests ==> NodeIsNumbered(s, s.requests[h])
  }

  ghost predicate NodeIsNumbered(s: State, r: Request)
  {
    && (r.phase.Creating? ==> r.node.None?)
    && (r.node.Some? ==> r.path in s.store && r.node.value.number < s.store[r.path].counter)
  }

  lemma SaneFromInv(s: State)
    requires LockInv(s)
    ensures Sane(s)
  {
    forall h | h in s.requests
      ensures NodeIsNumbered(s, s.requests[h])
    {
      assert RequestInv(s, h);
    }
  }

  lemma TableStays(s: State, e: Event)
    requires TableInv(s) && Enabled(s, e)
    ensures TableInv(Next(s, e))
  {
    var s' := Next(s, e);
    forall key | key in s'.controlMap
      ensures s'.controlMap[key] in s'.requests && s'.requests[s'.controlMap[key]].phase.Held?
              && s'.requests[s'.controlMap[key]].key == key
    {
      var k := s'.controlMap[key];
      if key in s.controlMap && s.controlMap[key] == k {
        EntryStaysHeld(s, e, key);
      }
    }
  }

  lemma EntryStaysHeld(s: State, e: Event, key: string)
    requires TableInv(s) && Enabled(s, e) && key in s.controlMap
    requires key in Next(s, e).controlMap && Next(s, e).controlMap[key] == s.controlMap[key]
    ensures var k := s.controlMap[key];
            k in Next(s, e).requests && Next(s, e).requests[k].phase.Held? && Next(s, e).requests[k].key == key
  {
    var k := s.controlMap[key];
    if Subject(s, e) != Some(k) {
      Bystander(s, e, k);
    } else {
      match e
      case Acquire(h, step) => AcquireResult(s, h, step);
      case Hold(h, step) => HoldResult(s, h, step);
      case _ =>
    }
  }

  /** Nodes are given once, by the create call, and attempts keep their paths. */
  lemma NodeMoves(s: State, e: Event, k: Handle)
    requires Enabled(s, e) && k in Next(s, e).requests
    ensures var r' := Next(s, e).requests[k];
            if k !in s.requests then r'.node.None?
            else
              && r'.path == s.requests[k].path
              && (r'.phase.Creating? ==> s.requests[k].phase.Creating? && e != Acquire(k, ServeCreate))
              && r'.node == if e == Acquire(k, ServeCreate)
                            then Some(LockNode(s.requests[k].mode, ZnodeAt(s, s.requests[k].path).counter))
                            else s.requests[k].node
  {
    if k in s.requests && Subject(s, e) != Some(k) {
      Bystander(s, e, k);
    } else {
      match e
      case Acquire(h, step) => AcquireResult(s, h, step);
      case Hold(h, step) => HoldResult(s, h, step);
      case _ =>
    }
  }

  lemma CounterMoves(s: State, e: Event, path: string)
    requires Enabled(s, e)
    ensures path in s.store ==> path in Next(s, e).store && Next(s, e).store[path].counter >= s.store[path].counter
    ensures e.Acquire? && e.acquire.ServeCreate? && s.requests[e.h].path == path ==>
              path in Next(s, e).store && Next(s, e).store[path].counter == ZnodeAt(s, path).counter + 1
  {
    match e
    case Acquire(h, step) => AcquireCounts(s, h, step, path);
    case Hold(h, step) => HoldCounts(s, h, step, path);
    case _ =>
  }

  lemma AcquireCounts(s: State, h: Handle, step: AcquireStep, path: string)
    requires h in s.requests && AcquireEnabled(s.requests[h], step)
    ensures var s' := NextAcquire(s, h, step);
            && (path in s.store ==> path in s'.store && s'.store[path].counter >= s.store[path].counter)
            && (step.ServeCreate? && s.requests[h].path == path ==>
                  path in s'.store && s'.store[path].counter == ZnodeAt(s, path).counter + 1)
  {
  }

  lemma HoldCounts(s: State, h: Handle, step: HolderStep, path: string)
    requires h in s.requests && HoldEnabled(s.requests[h].phase, step)
    ensures var s' := NextHold(s, h, step);
            path in s.store ==> path in s'.store && s'.store[path].counter >= s.store[path].counter
  {
  }

  lemma NumberStays(s: State, e: Event, k: Handle)
    requires Enabled(s, e) && k in Next(s, e).requests && (k in s.requests ==> NodeIsNumbered(s, s.requests[k]))
    ensures NodeIsNumbered(Next(s, e), Next(s, e).requests[k])
  {
    NodeMoves(s, e, k);
    CounterMoves(s, e, Next(s, e).requests[k].path);
  }

  lemma StepKeepsSane(s: State, e: Event)
    requires Sane(s) && Enabled(s, e)
    ensures Sane(Next(s, e))
  {
    var s' := Next(s, e);
    TableStays(s, e);
    forall k | k in s'.requests
      ensures NodeIsNumbered(s', s'.requests[k])
    {
      NumberStays(s, e, k);
    }
    forall h, k | h in s'.requests && k in s'.requests && h != k && s'.requests[h].path == s'.requests[k].path
      && s'.requests[h].node.Some? && s'.requests[k].node.Some?
      ensures s'.requests[h].node.value.number != s'.requests[k].node.value.number
    {
      NodeMoves(s, e, h);
      NodeMoves(s, e, k);
      assert NodeIsNumbered(s, s.requests[h]) && NodeIsNumbered(s, s.requests[k]);
    }
  }

  /** A node goes only by a delete call of its own attempt. */
  lemma NodeGoesByOwner(s: State, e: Event, path: string, n: LockNode)
    requires Enabled(s, e) && n in Locks(s, path) && n !in Locks(Next(s, e), path)
    ensures (e.Acquire? && e.acquire.ServeTimeoutDelete?) || (e.Hold? && e.hold.ServeDelete?)
    ensures e.h in s.requests && s.requests[e.h].path == path && s.requests[e.h].node == Some(n)
  {
    match e
    case Acquire(h, step) => AcquireRemoves(s, h, step, path, n);
    case Hold(h, step) => HoldRemoves(s, h, step, path, n);
    case _ =>
  }

  lemma AcquireRemoves(s: State, h: Handle, step: AcquireStep, path: string, n: LockNode)
    requires h in s.requests && AcquireEnabled(s.requests[h], step)
    requires n in Locks(s, path) && n !in Locks(NextAcquire(s, h, step), path)
    ensures step.ServeTimeoutDelete? && s.requests[h].path == path && s.requests[h].node == Some(n)
  {
  }

  lemma HoldRemoves(s: State, h: Handle, step: HolderStep, path: string, n: LockNode)
    requires h in s.requests && HoldEnabled(s.requests[h].phase, step)
    requires n in Locks(s, path) && n !in Locks(NextHold(s, h, step), path)
    ensures step.ServeDelete? && s.requests[h].path == path && s.requests[h].node == Some(n)
  {
  }

  // ---------- a lost node stays ----------

  /** Nothing of the attempt is left that could delete its node. */
  predicate Finished(r: Request)
  {
    || (r.phase.Leaked? && r.wait.Cleared?)
    || (r.wait.FireFailed? && !LockGranted(r.phase) && !r.phase.Creating? && !r.phase.Created?)
  }

  lemma FinishedStays(s: State, e: Event, k: Handle)
    requires TableInv(s) && Enabled(s, e) && k in s.requests && Finished(s.requests[k])
    ensures k in Next(s, e).requests && Finished(Next(s, e).requests[k])
    ensures Next(s, e).requests[k].path == s.requests[k].path && Next(s, e).requests[k].node == s.requests[k].node
  {
    if Subject(s, e) != Some(k) {
      Bystander(s, e, k);
    } else {
      OnlyCallbacksAreLeft(s, e, k);
      FinishedAdvances(s.requests[k], ZnodeAt(s, s.requests[k].path), e.acquire);
      AcquireResult(s, k, e.acquire);
    }
  }

  lemma OnlyCallbacksAreLeft(s: State, e: Event, k: Handle)
    requires TableInv(s) && Enabled(s, e) && k in s.requests && Finished(s.requests[k]) && Subject(s, e) == Some(k)
    ensures e.Acquire? && e.h == k
  {
  }

  lemma FinishedAdvances(r: Request, z: Znode, step: AcquireStep)
    requires Finished(r) && AcquireEnabled(r, step)
    ensures var r' := Advance(r, z, step); Finished(r') && r'.path == r.path && r'.node == r.node
  {
  }

  /** The node of a finished attempt, and everybody who has to wait for it is kept waiting. */
  ghost predicate Jammed(s: State, k: Handle)
  {
    && k in s.requests && Finished(s.requests[k]) && Live(s, s.requests[k])
    && forall h :: h in s.requests && s.requests[h].path == s.requests[k].path ==>
         KeptWaiting(s.requests[h], s.requests[k].node.value)
  }

  predicate KeptWaiting(r: Request, n: LockNode)
  {
    r.node.Some? && Seen(n, r.node.value) ==>
      && !LockGranted(r.phase)
      && (r.phase.Scanning? && r.phase.view.Some? ==> n in r.phase.view.value)
  }

  lemma LostJams(s: State, k: Handle)
    requires LockInv(s) && k in s.requests && Lost(s.requests[k])
    ensures Jammed(s, k)
  {
    assert RequestInv(s, k);
    forall h | h in s.requests && s.requests[h].path == s.requests[k].path
      ensures KeptWaiting(s.requests[h], s.requests[k].node.value)
    {
      assert RequestInv(s, h);
    }
  }

  lemma WaiterStaysKept(s: State, e: Event, h: Handle, n: LockNode)
    requires TableInv(s) && Enabled(s, e) && h in Next(s, e).requests
    requires h in s.requests ==> KeptWaiting(s.requests[h], n) && NodeIsNumbered(s, s.requests[h])
    requires n in Locks(s, Next(s, e).requests[h].path)
    ensures KeptWaiting(Next(s, e).requests[h], n)
  {
    NodeMoves(s, e, h);
    if h in s.requests && s.requests[h].node.Some? && Seen(n, s.requests[h].node.value) {
      if Subject(s, e) != Some(h) {
        Bystander(s, e, h);
      } else {
        OnlyCallbacksOfWaiter(s, e, h);
        WaiterAdvances(s.requests[h], ZnodeAt(s, s.requests[h].path), e.acquire, n);
        AcquireResult(s, h, e.acquire);
      }
    } else if h in s.requests {
      FreshNodeIsUnscanned(s, e, h, n);
    }
  }

  lemma OnlyCallbacksOfWaiter(s: State, e: Event, h: Handle)
    requires TableInv(s) && Enabled(s, e) && h in s.requests && !LockGranted(s.requests[h].phase)
    requires Subject(s, e) == Some(h)
    ensures e.Acquire? && e.h == h
  {
  }

  lemma WaiterAdvances(r: Request, z: Znode, step: AcquireStep, n: LockNode)
    requires KeptWaiting(r, n) && r.node.Some? && Seen(n, r.node.value) && AcquireEnabled(r, step) && n in z.locks
    requires !r.phase.Creating?
    ensures KeptWaiting(Advance(r, z, step), n)
  {
  }

  /** Who gets a node now has not been scanning. */
  lemma FreshNodeIsUnscanned(s: State, e: Event, h: Handle, n: LockNode)
    requires Enabled(s, e) && h in s.requests && h in Next(s, e).requests && NodeIsNumbered(s, s.requests[h])
    requires s.requests[h].node.Some? ==> !Seen(n, s.requests[h].node.value)
    ensures KeptWaiting(Next(s, e).requests[h], n)
  {
    NodeMoves(s, e, h);
    if e == Acquire(h, ServeCreate) {
      AcquireResult(s, h, ServeCreate);
    }
  }

  lemma FinishedNodeStays(s: State, e: Event, k: Handle)
    requires DistinctNodes(s) && Enabled(s, e) && k in s.requests && Finished(s.requests[k]) && Live(s, s.requests[k])
    ensures s.requests[k].node.value in Locks(Next(s, e), s.requests[k].path)
  {
    if s.requests[k].node.value !in Locks(Next(s, e), s.requests[k].path) {
      NodeGoesByOwner(s, e, s.requests[k].path, s.requests[k].node.value);
    }
  }

  lemma JamStays(s: State, e: Event, k: Handle)
    requires Sane(s) && Jammed(s, k) && Enabled(s, e)
    ensures Jammed(Next(s, e), k)
    ensures Next(s, e).requests[k].path == s.requests[k].path && Next(s, e).requests[k].node == s.requests[k].node
  {
    var s', path, n := Next(s, e), s.requests[k].path, s.requests[k].node.value;
    FinishedStays(s, e, k);
    FinishedNodeStays(s, e, k);
    forall h | h in s'.requests && s'.requests[h].path == path
      ensures KeptWaiting(s'.requests[h], n)
    {
      NodeMoves(s, e, h);
      WaiterStaysKept(s, e, h, n);
    }
  }

  lemma {:induction false} JamLasts(s: State, run: seq<Event>, k: Handle)
    requires Sane(s) && Jammed(s, k) && Legal(s, run)
    ensures Jammed(After(s, run), k)
    ensures After(s, run).requests[k].path == s.requests[k].path && After(s, run).requests[k].node == s.requests[k].node
    decreases run
  {
    if run != [] {
      StepKeepsSane(s, run[0]);
      JamStays(s, run[0], k);
      JamLasts(Next(s, run[0]), run[1..], k);
    }
  }

  /** A failed a_get, a_set or a_delete_, or a failed delete of the wait timer, leaves the lock node behind for
      good: after every continuation it is still there, and no attempt that has to wait for it, old or new, has
      been granted. */
  lemma LostNodeBlocksForever(base: nat, s: State, run: seq<Event>, k: Handle, h: Handle)
    requires Reachable(base, s) && Legal(s, run) && k in s.requests && Lost(s.requests[k])
    ensures var t := After(s, run);
            && s.requests[k].node.Some? && s.requests[k].node.value in Locks(t, s.requests[k].path)
            && (h in t.requests && HasToWaitFor(t.requests[h], s.requests[k]) ==> !LockGranted(t.requests[h].phase))
  {
    ReachableInv(base, s);
    SaneFromInv(s);
    LostJams(s, k);
    JamLasts(s, run, k);
    assert h in After(s, run).requests && HasToWaitFor(After(s, run).requests[h], s.requests[k]) ==>
        KeptWaiting(After(s, run).requests[h], s.requests[k].node.value);
  }

  /** An attempt keeps its node in every run. */
  lemma {:induction false} NodeLasts(s: State, run: seq<Event>, h: Handle)
    requires h in s.requests && s.requests[h].node.Some? && !s.requests[h].phase.Creating? && Legal(s, run)
    ensures h in After(s, run).requests && After(s, run).requests[h].node == s.requests[h].node
    ensures After(s, run).requests[h].path == s.requests[h].path
    decreases run
  {
    if run != [] {
      RequestLasts(s, run[0], h);
      NodeMoves(s, run[0], h);
      NodeLasts(Next(s, run[0]), run[1..], h);
    }
  }

  lemma RequestLasts(s: State, e: Event, h: Handle)
    requires Enabled(s, e) && h in s.requests
    ensures h in Next(s, e).requests
  {
    if Subject(s, e) != Some(h) {
      Bystander(s, e, h);
    } else {
      match e
      case Acquire(_, step) => AcquireResult(s, h, step);
      case Hold(_, step) => HoldResult(s, h, step);
      case _ =>
    }
  }

  /** An attempt with a lost node ahead is never granted, whatever happens. */
  lemma LostAheadIsForever(base: nat, s: State, run: seq<Event>, h: Handle)
    requires Reachable(base, s) && h in s.requests && LostAhead(s, s.requests[h]) && Legal(s, run)
    ensures h in After(s, run).requests && !LockGranted(After(s, run).requests[h].phase)
  {
    var k :| HoldsUp(s, k, s.requests[h]);
    ReachableInv(base, s);
    assert RequestInv(s, h);
    NodeLasts(s, run, h);
    LostNodeBlocksForever(base, s, run, k, h);
  }
}
