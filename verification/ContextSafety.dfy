/**
 What the context service guarantees in every race-free run: readers and writers exclude each other,
 a content that was read under a lock is still the stored content when the lock's write is served, and the
 writes on a path form a chain of read-modify-writes in lock order.
 */
module ContextSafety {
  import opened Options
  import opened LockNames
  import opened LockScan
  import opened ContextService
  import opened ContextInvariant

  /** The content an attempt has been given and not yet replaced or released. */
  function Got(phase: Phase): Option<Snapshot>
  {
    match phase
    case Reading(got) => got
    case Held(held) => Some(held)
    case Writing(got, _, served) => if served then None else Some(got)
    case _ => None
  }

  /** The write of the attempt is still ahead of it, if it ever comes. */
  predicate MayCommit(phase: Phase)
  {
    phase.Created? || Waiting(phase) || phase.Reading? || phase.Held? || (phase.Writing? && !phase.served)
  }

  predicate MayHaveCommitted(phase: Phase)
  {
    (phase.Writing? && phase.served) || (phase.Deleting? && phase.purpose.AfterSave?) || phase.Leaked? || phase.Done?
  }

  ghost predicate Fresh(s: State, r: Request)
  {
    Got(r.phase).Some? && !Got(r.phase).value.cold ==>
      r.path in s.store && s.store[r.path].content == Got(r.phase).value.text && !ZeroAlive(s.store[r.path].locks)
  }

  ghost predicate AfterAllCommits(s: State, r: Request)
  {
    r.mode == Write && MayCommit(r.phase) && Live(s, r) && r.node.value.number > 0 ==>
      forall c :: c in s.store[r.path].history ==> c.number < r.node.value.number
  }

  /** The attempt with number 0 reads beside its own node. */
  predicate ZeroReadsCold(r: Request)
  {
    Got(r.phase).Some? && r.node.Some? && r.node.value.number == 0 ==> Got(r.phase).value.cold
  }

  ghost predicate AttemptData(s: State, r: Request)
  {
    && Fresh(s, r) && AfterAllCommits(s, r) && (Got(r.phase).Some? && Got(r.phase).value.cold ==> s.base == 0)
    && ZeroReadsCold(r)
  }

  function LastText(history: seq<Commit>): string
  {
    if history == [] then "" else history[|history| - 1].text
  }

  /** Every commit, unless it read beside a number-0 node, read what the commit before it wrote. */
  ghost predicate IsChain(history: seq<Commit>)
  {
    forall i :: 0 <= i < |history| && !history[i].got.cold ==> history[i].got.text == LastText(history[..i])
  }

  /** Commits come in lock order; only the number-0 node may come late.  No attempt commits twice. */
  ghost predicate InLockOrder(history: seq<Commit>)
  {
    forall i, j :: 0 <= i < j < |history| ==>
      && (history[i].number < history[j].number || history[j].number == 0)
      && history[i].handle != history[j].handle
  }

  ghost predicate CommitInv(s: State, path: string, c: Commit)
  {
    && c.handle in s.requests
    && var r := s.requests[c.handle];
    && r.path == path && r.node == Some(LockNode(Write, c.number)) && MayHaveCommitted(r.phase)
    && (c.got.cold ==> s.base == 0) && (c.number == 0 ==> c.got.cold) && c.held
  }

  ghost predicate PathData(s: State, path: string)
    requires path in s.store
  {
    var z := s.store[path];
    && z.content == LastText(z.history) && IsChain(z.history) && InLockOrder(z.history)
    && forall c :: c in z.history ==> CommitInv(s, path, c) && c.number < z.counter
  }

  ghost predicate DataInv(s: State)
  {
    && (forall h :: h in s.requests ==> AttemptData(s, s.requests[h]))
    && (forall path :: path in s.store ==> PathData(s, path))
  }

  ghost predicate Inv(s: State)
  {
    LockInv(s) && DataInv(s)
  }

  /** The heart of the matter: two granted attempts on one path, one of them a writer. */
  lemma GrantedExclude(s: State, h1: Handle, h2: Handle)
    requires LockInv(s) && h1 in s.requests && h2 in s.requests && h1 != h2
    requires s.requests[h1].path == s.requests[h2].path
    requires LockGranted(s.requests[h1].phase) && Live(s, s.requests[h1])
    requires LockGranted(s.requests[h2].phase) && Live(s, s.requests[h2])
    requires s.requests[h1].mode == Write || s.requests[h2].mode == Write
    ensures s.requests[h1].node.value.number == 0 || s.requests[h2].node.value.number == 0
  {
    assert RequestInv(s, h1) && RequestInv(s, h2);
    var n1, n2 := s.requests[h1].node.value, s.requests[h2].node.value;
    assert n1.number != n2.number;
    assert !Seen(n2, n1) && !Seen(n1, n2);
  }

  /** The attempt goes on in place: same path and node, and no content read, kept or written anew. */
  ghost predicate Onward(r: Request, r': Request)
  {
    && r'.path == r.path && r'.mode == r.mode && r'.node == r.node
    && (MayCommit(r'.phase) ==> MayCommit(r.phase))
    && (Got(r'.phase) == Got(r.phase) || Got(r'.phase) == None)
    && (MayHaveCommitted(r.phase) ==> MayHaveCommitted(r'.phase))
  }

  /** A step that touches no content: at most lock nodes disappear and attempts come or go on. */
  ghost predicate Quiet(s: State, s': State)
  {
    && s'.base == s.base && s'.store.Keys == s.store.Keys
    && (forall p :: p in s.store ==>
      s'.store[p].content == s.store[p].content && s'.store[p].history == s.store[p].history
      && s'.store[p].counter == s.store[p].counter && s'.store[p].locks <= s.store[p].locks)
    && (forall k :: k in s.requests ==> k in s'.requests && Onward(s.requests[k], s'.requests[k]))
    && (forall k :: k in s'.requests && k !in s.requests ==> s'.requests[k].phase.Creating?)
  }

  /** Attempts that have written go on as attempts that have written. */
  ghost predicate CommittersStay(s: State, s': State)
  {
    && s'.base == s.base
    && forall k :: k in s.requests && MayHaveCommitted(s.requests[k].phase) ==>
      && k in s'.requests && s'.requests[k].path == s.requests[k].path
      && s'.requests[k].node == s.requests[k].node && MayHaveCommitted(s'.requests[k].phase)
  }

  lemma PathStays(s: State, s': State, path: string)
    requires path in s.store && PathData(s, path) && CommittersStay(s, s')
    requires path in s'.store && s'.store[path].counter >= s.store[path].counter
    requires s'.store[path].content == s.store[path].content && s'.store[path].history == s.store[path].history
    ensures PathData(s', path)
  {
    forall c | c in s'.store[path].history
      ensures CommitInv(s', path, c)
    {
      assert CommitInv(s, path, c);
    }
  }

  lemma OnwardKeepsData(s: State, s': State, r: Request, r': Request)
    requires AttemptData(s, r) && Onward(r, r') && s'.base == s.base
    requires r.path in s'.store ==> r.path in s.store
    requires r.path in s.store ==>
      && r.path in s'.store
      && s'.store[r.path].content == s.store[r.path].content && s'.store[r.path].history == s.store[r.path].history
      && s'.store[r.path].locks <= s.store[r.path].locks
    ensures AttemptData(s', r')
  {
  }

  lemma QuietKeepsAttempt(s: State, s': State, k: Handle)
    requires Quiet(s, s') && k in s'.requests && (k in s.requests ==> AttemptData(s, s.requests[k]))
    ensures AttemptData(s', s'.requests[k])
  {
    if k in s.requests {
      OnwardKeepsData(s, s', s.requests[k], s'.requests[k]);
    }
  }

  lemma QuietKeepsPath(s: State, s': State, path: string)
    requires Quiet(s, s') && path in s.store && PathData(s, path)
    ensures PathData(s', path)
  {
    assert CommittersStay(s, s');
    PathStays(s, s', path);
  }

  lemma QuietKeepsData(s: State, s': State)
    requires DataInv(s) && Quiet(s, s')
    ensures DataInv(s')
  {
    forall k | k in s'.requests
      ensures AttemptData(s', s'.requests[k])
    {
      QuietKeepsAttempt(s, s', k);
    }
    forall path | path in s'.store
      ensures PathData(s', path)
    {
      QuietKeepsPath(s, s', path);
    }
  }

  lemma AdvanceIsOnward(r: Request, z: Znode, step: AcquireStep)
    requires AcquireEnabled(r, step) && PhaseInv(r) && !step.ServeCreate?
    ensures Onward(r, Advance(r, z, step))
  {
  }

  lemma AdvanceHolderIsOnward(r: Request, z: Znode, step: HolderStep)
    requires HoldEnabled(r.phase, step) && PhaseInv(r) && !step.ServeGet?
    ensures Onward(r, AdvanceHolder(r, z, step))
  {
  }

  lemma ChangeIsQuiet(s: State, s': State, h: Handle)
    requires s'.base == s.base && s'.store == s.store && h in s'.requests
    requires s'.requests == s.requests[h := s'.requests[h]]
    requires if h in s.requests then Onward(s.requests[h], s'.requests[h]) else s'.requests[h].phase.Creating?
    ensures Quiet(s, s')
  {
  }

  lemma NotifyIsOnward(r: Request, path: string, node: LockNode)
    ensures Onward(r, NotifyWatcher(r, path, node))
  {
  }

  lemma RemovalIsQuiet(s: State, s': State, h: Handle, r': Request, node: LockNode)
    requires h in s.requests && Onward(s.requests[h], r')
    requires s'.base == s.base && r'.path in s.store
    requires s'.store == s.store[r'.path := s.store[r'.path].(locks := s.store[r'.path].locks - {node})]
    requires s'.requests.Keys == s.requests.Keys
    requires forall k :: k in s.requests ==>
      s'.requests[k] == NotifyWatcher(if k == h then r' else s.requests[k], r'.path, node)
    ensures Quiet(s, s')
  {
    NotifyIsOnward(r', r'.path, node);
    forall k | k in s.requests && k != h
      ensures Onward(s.requests[k], s'.requests[k])
    {
      NotifyIsOnward(s.requests[k], r'.path, node);
    }
  }

  lemma AcquireIsQuiet(s: State, h: Handle, step: AcquireStep)
    requires h in s.requests && AcquireEnabled(s.requests[h], step) && !step.ServeCreate?
    requires PhaseInv(s.requests[h])
    ensures Quiet(s, NextAcquire(s, h, step))
  {
    AdvanceIsOnward(s.requests[h], ZnodeAt(s, s.requests[h].path), step);
    var s' := NextAcquire(s, h, step);
    if step.ServeTimeoutDelete? && Live(s, s.requests[h]) {
      RemovalIsQuiet(s, s', h, s.requests[h].(wait := DeleteServed), s.requests[h].node.value);
    } else {
      AcquireEffect(s, h, step);
      ChangeIsQuiet(s, s', h);
    }
  }

  lemma AcquireEffect(s: State, h: Handle, step: AcquireStep)
    requires h in s.requests && AcquireEnabled(s.requests[h], step) && !step.ServeCreate?
    requires step.ServeTimeoutDelete? ==> !Live(s, s.requests[h])
    ensures var s' := NextAcquire(s, h, step);
            && s'.base == s.base && s'.store == s.store
            && s'.requests == s.requests[h := Advance(s.requests[h], ZnodeAt(s, s.requests[h].path), step)]
  {
  }

  lemma HoldIsQuiet(s: State, h: Handle, step: HolderStep)
    requires h in s.requests && HoldEnabled(s.requests[h].phase, step) && !step.ServeGet? && !step.ServeSet?
    requires PhaseInv(s.requests[h])
    ensures Quiet(s, NextHold(s, h, step))
  {
    AdvanceHolderIsOnward(s.requests[h], ZnodeAt(s, s.requests[h].path), step);
    var s' := NextHold(s, h, step);
    if step.ServeDelete? && Live(s, s.requests[h]) {
      RemovalIsQuiet(s, s', h, AdvanceHolder(s.requests[h], ZnodeAt(s, s.requests[h].path), step),
                     s.requests[h].node.value);
    } else {
      HoldEffect(s, h, step);
      ChangeIsQuiet(s, s', h);
    }
  }

  lemma HoldEffect(s: State, h: Handle, step: HolderStep)
    requires h in s.requests && HoldEnabled(s.requests[h].phase, step) && !step.ServeSet?
    requires step.ServeDelete? ==> !Live(s, s.requests[h])
    ensures var s' := NextHold(s, h, step);
            && s'.base == s.base && s'.store == s.store
            && s'.requests == s.requests[h := AdvanceHolder(s.requests[h], ZnodeAt(s, s.requests[h].path), step)]
  {
  }

  lemma HeldIsReleased(s: State, e: Event, h: Handle)
    requires (e.SaveRequest? || e.UnlockRequest?) && e.key in s.controlMap && s.controlMap[e.key] == h
    requires h in s.requests && s.requests[h].phase.Held? && Next(s, e).requests != s.requests
    ensures var s' := Next(s, e);
            && h in s'.requests && s'.requests == s.requests[h := s'.requests[h]]
            && Onward(s.requests[h], s'.requests[h])
  {
  }

  lemma MessageIsQuiet(s: State, e: Event)
    requires Enabled(s, e) && !e.Acquire? && !e.Hold? && TableInv(s)
    ensures Quiet(s, Next(s, e))
  {
    var s' := Next(s, e);
    assert s'.base == s.base && s'.store == s.store;
    if e.LockRequest? {
      ChangeIsQuiet(s, s', e.h);
    } else if e.key in s.controlMap && s'.requests != s.requests {
      var h := s.controlMap[e.key];
      HeldIsReleased(s, e, h);
      ChangeIsQuiet(s, s', h);
    } else {
      assert s'.requests == s.requests;
    }
  }

  lemma CreateKeepsAttempts(s: State, h: Handle, k: Handle)
    requires Inv(s) && h in s.requests && s.requests[h].phase.Creating? && k in s.requests
    ensures var s' := NextAcquire(s, h, ServeCreate); AttemptData(s', s'.requests[k])
  {
    var s' := NextAcquire(s, h, ServeCreate);
    var path := s.requests[h].path;
    var z := ZnodeAt(s, path);
    var q := s.requests[k];
    assert s'.store[path].locks == z.locks + {LockNode(s.requests[h].mode, z.counter)};
    assert s'.store[path].content == z.content && s'.store[path].history == z.history;
    if k == h {
      assert s'.requests[h].node == Some(LockNode(s.requests[h].mode, z.counter));
      if path in s.store {
        assert PathData(s, path);
      }
    } else {
      assert RequestInv(s, k) && AttemptData(s, q);
      assert s'.requests[k] == q;
      assert q.node.Some? && q.path == path ==> path in s.store && q.node.value.number < z.counter;
      CreateKeepsAttempt(s, s', path, LockNode(s.requests[h].mode, z.counter), q);
    }
  }

  /** A new lock node changes nothing that an older attempt knows. */
  lemma CreateKeepsAttempt(s: State, s': State, path: string, node: LockNode, q: Request)
    requires AttemptData(s, q) && PhaseInv(q) && s'.base == s.base
    requires s'.store.Keys == s.store.Keys + {path}
    requires forall p :: p in s.store && p != path ==> s'.store[p] == s.store[p]
    requires path in s.store ==>
      s'.store[path].locks == s.store[path].locks + {node}
      && s'.store[path].content == s.store[path].content && s'.store[path].history == s.store[path].history
    requires q.path == path && q.node.Some? ==> path in s.store && q.node.value.number < node.number
    ensures AttemptData(s', q)
  {
    assert Got(q.phase).Some? ==> q.node.Some?;
    if q.path == path && q.node.Some? {
      assert ZeroAlive(s'.store[path].locks) ==> ZeroAlive(s.store[path].locks);
      assert Live(s', q) == Live(s, q);
    }
  }

  lemma CreateKeepsPath(s: State, h: Handle, path: string)
    requires Inv(s) && h in s.requests && s.requests[h].phase.Creating?
    requires path in NextAcquire(s, h, ServeCreate).store
    ensures PathData(NextAcquire(s, h, ServeCreate), path)
  {
    if path in s.store {
      PathStays(s, NextAcquire(s, h, ServeCreate), path);
    }
  }

  lemma AcquireKeepsData(s: State, h: Handle, step: AcquireStep)
    requires Inv(s) && Enabled(s, Acquire(h, step))
    ensures DataInv(Next(s, Acquire(h, step)))
  {
    var s' := Next(s, Acquire(h, step));
    if step.ServeCreate? {
      forall k | k in s.requests
        ensures AttemptData(s', s'.requests[k])
      {
        CreateKeepsAttempts(s, h, k);
      }
      forall path | path in s'.store
        ensures PathData(s', path)
      {
        CreateKeepsPath(s, h, path);
      }
    } else {
      assert RequestInv(s, h);
      AcquireIsQuiet(s, h, step);
      QuietKeepsData(s, s');
    }
  }

  /** With a positive first number there is no number-0 node. */
  lemma WarmPath(s: State, path: string)
    requires LockInv(s) && s.base > 0
    ensures !ZeroAlive(Locks(s, path))
  {
    forall node | node in Locks(s, path)
      ensures node.number > 0
    {
      assert Owned(s, path, node);
      var h :| OwnedBy(s, path, node, h);
      assert RequestInv(s, h);
    }
  }

  lemma GetEffect(s: State, h: Handle)
    requires Enabled(s, Hold(h, ServeGet))
    ensures var s', r, z := Next(s, Hold(h, ServeGet)), s.requests[h], ZnodeAt(s, s.requests[h].path);
            && s'.base == s.base && s'.store == s.store
            && s'.requests == s.requests[h := r.(phase := Reading(Some(Snapshot(z.content, ZeroAlive(z.locks)))))]
  {
  }

  lemma ReadIsQuietForOthers(s: State, h: Handle)
    requires Enabled(s, Hold(h, ServeGet))
    ensures var s' := Next(s, Hold(h, ServeGet));
            && s'.base == s.base && s'.store == s.store && s'.requests.Keys == s.requests.Keys && CommittersStay(s, s')
            && forall k :: k in s.requests && k != h ==> s'.requests[k] == s.requests[k]
  {
    GetEffect(s, h);
  }

  /** The content an attempt has just been given is the stored one. */
  lemma ReaderIsFresh(s: State, h: Handle)
    requires Enabled(s, Hold(h, ServeGet)) && AttemptData(s, s.requests[h]) && s.requests[h].path in s.store
    requires Live(s, s.requests[h])
    requires s.base > 0 ==> !ZeroAlive(Locks(s, s.requests[h].path))
    ensures var s' := Next(s, Hold(h, ServeGet)); AttemptData(s', s'.requests[h])
  {
    GetEffect(s, h);
    var node := s.requests[h].node.value;
    assert node.number == 0 ==> node == LockNode(Read, 0) || node == LockNode(Write, 0);
  }

  lemma ReadKeepsData(s: State, h: Handle)
    requires Inv(s) && Enabled(s, Hold(h, ServeGet))
    ensures DataInv(Next(s, Hold(h, ServeGet)))
  {
    var s' := Next(s, Hold(h, ServeGet));
    assert RequestInv(s, h) && AttemptData(s, s.requests[h]);
    if s.base > 0 {
      WarmPath(s, s.requests[h].path);
    }
    ReaderIsFresh(s, h);
    ReadIsQuietForOthers(s, h);
    forall k | k in s.requests && k != h
      ensures AttemptData(s', s'.requests[k])
    {
      OnwardKeepsData(s, s', s.requests[k], s'.requests[k]);
    }
    forall path | path in s.store
      ensures PathData(s', path)
    {
      PathStays(s, s', path);
    }
  }

  /** The attempt q keeps no content that a write of r makes stale, and its own write comes after it. */
  ghost predicate Spared(s: State, r: Request, q: Request)
  {
    && (Got(q.phase).Some? ==> Got(q.phase).value.cold)
    && (q.mode == Write && MayCommit(q.phase) && Live(s, q) && q.node.value.number > 0 ==>
          r.node.Some? && r.node.value.number < q.node.value.number)
  }

  /** The write of a holder: nobody else on the path has read a content that it makes stale. */
  lemma CommitSparesRivals(s: State, h: Handle, k: Handle)
    requires Inv(s) && Enabled(s, Hold(h, ServeSet)) && k in s.requests && k != h
    requires s.requests[k].path == s.requests[h].path
    ensures Spared(s, s.requests[h], s.requests[k])
  {
    var r, q := s.requests[h], s.requests[k];
    assert RequestInv(s, h) && RequestInv(s, k) && AttemptData(s, q);
    if Got(q.phase).Some? && !Got(q.phase).value.cold {
      GrantedExclude(s, h, k);
      assert false;
    }
    if q.mode == Write && MayCommit(q.phase) && Live(s, q) && q.node.value.number > 0 {
      assert !Seen(q.node.value, r.node.value);
    }
  }

  lemma CommitSeenBy(s: State, s': State, path: string, c: Commit, q: Request)
    requires AttemptData(s, q) && s'.base == s.base && path in s.store
    requires s'.store == s.store[path := s.store[path].(content := c.text, history := s.store[path].history + [c])]
    requires q.path == path && Got(q.phase).Some? ==> Got(q.phase).value.cold
    requires q.path == path && q.mode == Write && MayCommit(q.phase) && Live(s, q) && q.node.value.number > 0 ==>
      c.number < q.node.value.number
    ensures AttemptData(s', q)
  {
    assert Live(s', q) == Live(s, q);
  }

  /** The commit that serving the write of h adds. */
  function CommitOf(s: State, h: Handle): Commit
    requires h in s.requests && s.requests[h].phase.Writing? && s.requests[h].node.Some?
  {
    var r := s.requests[h];
    Commit(h, r.node.value.number, r.phase.base, r.phase.text, Live(s, r))
  }

  lemma SetEffect(s: State, h: Handle)
    requires Enabled(s, Hold(h, ServeSet)) && s.requests[h].node.Some? && s.requests[h].path in s.store
    ensures var s', r, c := Next(s, Hold(h, ServeSet)), s.requests[h], CommitOf(s, h);
            && s'.base == s.base
            && s'.store
               == s.store[r.path := s.store[r.path].(content := c.text, history := s.store[r.path].history + [c])]
            && s'.requests == s.requests[h := r.(phase := r.phase.(served := true))]
  {
  }

  lemma CommitKeepsAttempts(s: State, h: Handle, k: Handle)
    requires Inv(s) && Enabled(s, Hold(h, ServeSet)) && k in s.requests
    ensures var s' := Next(s, Hold(h, ServeSet)); AttemptData(s', s'.requests[k])
  {
    assert RequestInv(s, h) && AttemptData(s, s.requests[k]);
    if k == h {
      WriterIsDone(s, h);
    } else {
      if s.requests[k].path == s.requests[h].path {
        CommitSparesRivals(s, h, k);
      }
      RivalKeepsData(s, h, k);
    }
  }

  lemma WriterIsDone(s: State, h: Handle)
    requires Enabled(s, Hold(h, ServeSet)) && s.requests[h].node.Some? && s.requests[h].path in s.store
    ensures var s' := Next(s, Hold(h, ServeSet)); AttemptData(s', s'.requests[h])
  {
    SetEffect(s, h);
  }

  lemma RivalKeepsData(s: State, h: Handle, k: Handle)
    requires Enabled(s, Hold(h, ServeSet)) && s.requests[h].node.Some? && s.requests[h].path in s.store
    requires k in s.requests && k != h && AttemptData(s, s.requests[k])
    requires s.requests[k].path == s.requests[h].path ==> Spared(s, s.requests[h], s.requests[k])
    ensures var s' := Next(s, Hold(h, ServeSet)); AttemptData(s', s'.requests[k])
  {
    SetEffect(s, h);
    CommitSeenBy(s, Next(s, Hold(h, ServeSet)), s.requests[h].path, CommitOf(s, h), s.requests[k]);
  }

  lemma ChainGrows(history: seq<Commit>, c: Commit)
    requires IsChain(history) && InLockOrder(history)
    requires c.got.cold || c.got.text == LastText(history)
    requires forall d :: d in history ==> (d.number < c.number || c.number == 0) && d.handle != c.handle
    ensures IsChain(history + [c]) && InLockOrder(history + [c])
  {
    var longer := history + [c];
    forall i | 0 <= i < |longer| && !longer[i].got.cold
      ensures longer[i].got.text == LastText(longer[..i])
    {
      assert longer[..i] == history[..i];
      assert history[..|history|] == history;
    }
  }

  lemma CommitKeepsPath(s: State, h: Handle)
    requires Enabled(s, Hold(h, ServeSet)) && s.requests[h].node.Some?
    requires s.requests[h].path in s.store && PathData(s, s.requests[h].path)
    requires AttemptInv(s, s.requests[h]) && AttemptData(s, s.requests[h])
    ensures var s' := Next(s, Hold(h, ServeSet));
            s.requests[h].path in s'.store && PathData(s', s.requests[h].path)
  {
    CommitExtendsHistory(s, h);
    NewCommitOnPath(s, h);
  }

  /** The path after the write, given that the history with the new commit is a chain in lock order. */
  lemma NewCommitOnPath(s: State, h: Handle)
    requires Enabled(s, Hold(h, ServeSet)) && s.requests[h].node.Some? && s.requests[h].node.value.mode == Write
    requires var r, c := s.requests[h], CommitOf(s, h);
             && r.path in s.store && PathData(s, r.path)
             && IsChain(s.store[r.path].history + [c]) && InLockOrder(s.store[r.path].history + [c])
             && c.number < s.store[r.path].counter && (c.got.cold ==> s.base == 0)
             && (c.number == 0 ==> c.got.cold) && c.held
    ensures var s' := Next(s, Hold(h, ServeSet));
            s.requests[h].path in s'.store && PathData(s', s.requests[h].path)
  {
    var s', r, c := Next(s, Hold(h, ServeSet)), s.requests[h], CommitOf(s, h);
    SetEffect(s, h);
    SetKeepsCommitters(s, h);
    forall d | d in s.store[r.path].history
      ensures CommitInv(s', r.path, d)
    {
      assert CommitInv(s, r.path, d);
    }
    assert CommitInv(s', r.path, c);
  }

  lemma SetKeepsCommitters(s: State, h: Handle)
    requires Enabled(s, Hold(h, ServeSet)) && s.requests[h].node.Some? && s.requests[h].path in s.store
    ensures CommittersStay(s, Next(s, Hold(h, ServeSet)))
  {
    SetEffect(s, h);
  }

  lemma CommitExtendsHistory(s: State, h: Handle)
    requires Enabled(s, Hold(h, ServeSet)) && s.requests[h].node.Some?
    requires s.requests[h].path in s.store && PathData(s, s.requests[h].path)
    requires AttemptInv(s, s.requests[h]) && AttemptData(s, s.requests[h])
    ensures var path, c := s.requests[h].path, CommitOf(s, h);
            && IsChain(s.store[path].history + [c]) && InLockOrder(s.store[path].history + [c])
            && c.number < s.store[path].counter
  {
    var r, c := s.requests[h], CommitOf(s, h);
    forall d | d in s.store[r.path].history
      ensures d.handle != h
    {
      assert CommitInv(s, r.path, d);
    }
    ChainGrows(s.store[r.path].history, c);
  }

  lemma CommitKeepsOtherPath(s: State, h: Handle, path: string)
    requires Enabled(s, Hold(h, ServeSet)) && path in s.store && path != s.requests[h].path && PathData(s, path)
    requires s.requests[h].node.Some? && s.requests[h].path in s.store
    ensures var s' := Next(s, Hold(h, ServeSet)); path in s'.store && PathData(s', path)
  {
    SetEffect(s, h);
    SetKeepsCommitters(s, h);
    PathStays(s, Next(s, Hold(h, ServeSet)), path);
  }

  lemma CommitKeepsData(s: State, h: Handle)
    requires Inv(s) && Enabled(s, Hold(h, ServeSet))
    ensures DataInv(Next(s, Hold(h, ServeSet)))
  {
    var s' := Next(s, Hold(h, ServeSet));
    assert RequestInv(s, h) && AttemptData(s, s.requests[h]) && PathData(s, s.requests[h].path);
    forall k | k in s.requests
      ensures AttemptData(s', s'.requests[k])
    {
      CommitKeepsAttempts(s, h, k);
    }
    forall path | path in s'.store
      ensures PathData(s', path)
    {
      if path == s.requests[h].path {
        CommitKeepsPath(s, h);
      } else {
        CommitKeepsOtherPath(s, h, path);
      }
    }
  }

  lemma HoldKeepsData(s: State, h: Handle, step: HolderStep)
    requires Inv(s) && Enabled(s, Hold(h, step))
    ensures DataInv(Next(s, Hold(h, step)))
  {
    if step.ServeGet? {
      ReadKeepsData(s, h);
    } else if step.ServeSet? {
      CommitKeepsData(s, h);
    } else {
      var s' := Next(s, Hold(h, step));
      assert RequestInv(s, h);
      HoldIsQuiet(s, h, step);
      QuietKeepsData(s, s');
    }
  }

  lemma StepKeepsInv(s: State, e: Event)
    requires Inv(s) && Enabled(s, e) && !IsTimerScanRace(s, e)
    ensures Inv(Next(s, e))
  {
    StepKeepsLockInv(s, e);
    match e
    case Acquire(h, step) => AcquireKeepsData(s, h, step);
    case Hold(h, step) => HoldKeepsData(s, h, step);
    case _ =>
      MessageIsQuiet(s, e);
      QuietKeepsData(s, Next(s, e));
  }
}
