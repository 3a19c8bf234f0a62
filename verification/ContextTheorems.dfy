/**
 The guarantees of the context service over whole runs, and the runs on which they fail.
 */
module ContextTheorems {
  import opened LockNames
  import opened ContextService
  import opened ContextInvariant
  import opened ContextSafety

  lemma {:induction false} RunKeepsInv(s: State, run: seq<Event>)
    requires Inv(s) && Legal(s, run) && RaceFree(s, run)
    ensures Inv(After(s, run)) && After(s, run).base == s.base
    decreases run
  {
    if run != [] {
      StepKeepsInv(s, run[0]);
      RunKeepsInv(Next(s, run[0]), run[1..]);
    }
  }

  /** The states that race-free runs reach. */
  ghost predicate Reachable(base: nat, s: State)
  {
    exists run :: Legal(Init(base), run) && RaceFree(Init(base), run) && After(Init(base), run) == s
  }

  lemma ReachableInv(base: nat, s: State)
    requires Reachable(base, s)
    ensures Inv(s) && s.base == base
  {
    var run :| Legal(Init(base), run) && RaceFree(Init(base), run) && After(Init(base), run) == s;
    LockInvInit(base);
    RunKeepsInv(Init(base), run);
  }

  ghost predicate GrantedAlive(s: State, h: Handle)
  {
    h in s.requests && LockGranted(s.requests[h].phase) && Live(s, s.requests[h])
  }

  /** A granted, undeleted write node excludes every other granted node on the path. */
  ghost predicate Exclusive(s: State)
  {
    forall h1, h2 |
        GrantedAlive(s, h1) && GrantedAlive(s, h2) && h1 != h2 && s.requests[h1].path == s.requests[h2].path ::
      s.requests[h1].mode == Read && s.requests[h2].mode == Read
  }

  /** The content that was read under a lock is still stored when the lock's write is served. */
  ghost predicate NoLostUpdate(s: State)
  {
    forall h :: Enabled(s, Hold(h, ServeSet)) ==> FindsWhatItRead(s, s.requests[h])
  }

  ghost predicate FindsWhatItRead(s: State, r: Request)
    requires r.phase.Writing?
  {
    r.path in s.store && s.store[r.path].content == r.phase.base.text
  }

  /** The writes served on every path are read-modify-writes of one another, in lock order. */
  ghost predicate AtomicRegisters(s: State)
  {
    forall path :: path in s.store ==>
      var history := s.store[path].history;
      && s.store[path].content == LastText(history)
      && (forall i :: 0 <= i < |history| ==> history[i].got.text == LastText(history[..i]))
      && (forall i, j :: 0 <= i < j < |history| ==> history[i].number < history[j].number)
  }

  // ---------- for every first sequence number ----------

  ghost predicate NumberedFromOne(s: State, h: Handle)
  {
    h in s.requests && s.requests[h].node.Some? && s.requests[h].node.value.number > 0
  }

  /** Exclusion among all attempts but the one with number 0. */
  ghost predicate ExclusiveButZero(s: State)
  {
    forall h1, h2 |
        GrantedAlive(s, h1) && GrantedAlive(s, h2) && h1 != h2 && s.requests[h1].path == s.requests[h2].path
        && NumberedFromOne(s, h1) && NumberedFromOne(s, h2) ::
      s.requests[h1].mode == Read && s.requests[h2].mode == Read
  }

  /** No update is lost by a write whose content was read while no node with number 0 was alive. */
  ghost predicate NoLostUpdateButCold(s: State)
  {
    forall h :: Enabled(s, Hold(h, ServeSet)) && !s.requests[h].phase.base.cold ==> FindsWhatItRead(s, s.requests[h])
  }

  /** The writes on every path, each served while the node of its lock was alive: one that was not read beside
      the node with number 0 is a read-modify-write of the one before; all but that node's are in lock order. */
  ghost predicate RegistersButCold(s: State)
  {
    forall path :: path in s.store ==>
      var history := s.store[path].history;
      && s.store[path].content == LastText(history) && IsChain(history) && InLockOrder(history)
      && forall c :: c in history ==> c.held && (c.number == 0 ==> c.got.cold)
  }

  lemma InvExcludes(s: State)
    requires Inv(s)
    ensures ExclusiveButZero(s)
  {
    forall h1, h2 | GrantedAlive(s, h1) && GrantedAlive(s, h2) && h1 != h2
      && s.requests[h1].path == s.requests[h2].path && NumberedFromOne(s, h1) && NumberedFromOne(s, h2)
      ensures s.requests[h1].mode == Read && s.requests[h2].mode == Read
    {
      if s.requests[h1].mode == Write || s.requests[h2].mode == Write {
        GrantedExclude(s, h1, h2);
      }
    }
  }

  lemma InvKeepsUpdates(s: State)
    requires Inv(s)
    ensures NoLostUpdateButCold(s)
  {
    forall h | Enabled(s, Hold(h, ServeSet)) && !s.requests[h].phase.base.cold
      ensures FindsWhatItRead(s, s.requests[h])
    {
      assert AttemptData(s, s.requests[h]);
    }
  }

  lemma InvKeepsRegisters(s: State)
    requires Inv(s)
    ensures RegistersButCold(s)
  {
    forall path | path in s.store
      ensures PathData(s, path) && forall c :: c in s.store[path].history ==> CommitInv(s, path, c)
    {
    }
  }

  /** In every state that any number of requests reach in any race-free interleaving, whatever the first
      sequence number of a path: exclusion, no lost update and atomic registers fail at most beside a live node
      with number 0. */
  lemma ServiceIsSafeBesideZero(base: nat, s: State)
    requires Reachable(base, s)
    ensures ExclusiveButZero(s) && NoLostUpdateButCold(s) && RegistersButCold(s)
  {
    ReachableInv(base, s);
    InvExcludes(s);
    InvKeepsUpdates(s);
    InvKeepsRegisters(s);
  }

  /** A write is served only under the write lock: granted, and its node alive. */
  lemma WritesHoldTheLock(base: nat, s: State, h: Handle)
    requires Reachable(base, s) && Enabled(s, Hold(h, ServeSet))
    ensures GrantedAlive(s, h) && s.requests[h].mode == Write
  {
    ReachableInv(base, s);
    assert RequestInv(s, h);
  }

  // ---------- with sequence numbers from 1 ----------

  /** With sequence numbers from 1 there is no node with number 0, and nothing is read beside one. */
  lemma NothingIsCold(base: nat, s: State)
    requires base >= 1 && Reachable(base, s)
    ensures forall h :: h in s.requests && s.requests[h].node.Some? ==> NumberedFromOne(s, h)
    ensures forall h :: h in s.requests && Got(s.requests[h].phase).Some? ==> !Got(s.requests[h].phase).value.cold
    ensures forall path, c :: path in s.store && c in s.store[path].history ==> !c.got.cold && c.number > 0
  {
    ReachableInv(base, s);
    forall h | h in s.requests
      ensures s.requests[h].node.Some? ==> NumberedFromOne(s, h)
      ensures Got(s.requests[h].phase).Some? ==> !Got(s.requests[h].phase).value.cold
    {
      assert RequestInv(s, h) && AttemptData(s, s.requests[h]);
    }
    forall path, c | path in s.store && c in s.store[path].history
      ensures !c.got.cold && c.number > 0
    {
      assert PathData(s, path) && CommitInv(s, path, c);
    }
  }

  /** With sequence numbers from 1: exclusion, no lost update and atomic registers in every state that
      any number of requests reach in any race-free interleaving. */
  lemma ServiceIsSafe(base: nat, s: State)
    requires base >= 1 && Reachable(base, s)
    ensures Exclusive(s) && NoLostUpdate(s) && AtomicRegisters(s)
  {
    ServiceIsSafeBesideZero(base, s);
    NothingIsCold(base, s);
  }
}
