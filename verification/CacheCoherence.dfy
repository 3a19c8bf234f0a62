/**
 One device over time: the device manager's record, the events about it that are still to be processed, and
 what the cache holds.  Events of a device are processed one at a time; every call to the cache or to the
 device manager is a step of its own and may fail.
 */
module CacheCoherence {
  import opened Options
  import opened DeviceCache

  /** Create and update carry the record; publish and configure only need it looked up. */
  datatype Event = Changed(record: Record) | Removed | Data

  /** What the consumer is waiting for.  `removing` says that the lookup belongs to a remove event; `again` that
      a failure of the request is followed by a second one. */
  datatype Stage =
    | Idle
    | Storing(info: DeviceInfo)
    | Reading(removing: bool)
    | Requesting(removing: bool, again: bool)
    | Writing(removing: bool, again: bool, fetched: DeviceInfo)
    | Deleting

  datatype State = State(source: Option<Record>, pending: seq<Event>, stage: Stage, cached: Option<DeviceInfo>)

  datatype Step =
    | Change(record: Record)                            // the device is created or updated
    | Remove                                            // the device is removed
    | Arrive                                            // the device sends data
    | Take(ready: bool)                                 // the next event is processed; is the cache ready?
    | Store(succeeds: bool)                             // addDevice's write ends
    | Read(succeeds: bool)                              // the read of the cache ends
    | Respond(succeeds: bool, ready: bool)              // the device manager answers; is the cache ready?
    | Write(succeeds: bool)                             // the write of a fetched record ends
    | Delete(succeeds: bool)                            // deleteDevice's call ends

  predicate Enabled(s: State, step: Step)
  {
    match step
    case Change(_) => true
    case Remove => s.source.Some?
    case Arrive => true
    case Take(_) => s.stage == Idle && s.pending != []
    case Store(_) => s.stage.Storing?
    case Read(_) => s.stage.Reading?
    case Respond(_, _) => s.stage.Requesting?
    case Write(_) => s.stage.Writing?
    case Delete(_) => s.stage == Deleting
  }

  /** A lookup has given the record: a remove event goes on to delete it, any other event is done. */
  function LookedUp(s: State, removing: bool): State { s.(stage := if removing then Deleting else Idle) }

  /** An attempt has failed. */
  function Failed(s: State, removing: bool, again: bool): State
  {
    s.(stage := if again then Requesting(removing, false) else Idle)
  }

  function Next(s: State, step: Step): State
    requires Enabled(s, step)
  {
    match step
    case Change(record) => s.(source := Some(record), pending := s.pending + [Changed(record)])
    case Remove => s.(source := None, pending := s.pending + [Removed])
    case Arrive => s.(pending := s.pending + [Data])
    case Take(ready) =>
      var event := s.pending[0];
      s.(pending := s.pending[1..],
         stage := if event.Changed? then Storing(InfoOf(event.record))
                  else if ready then Reading(event.Removed?) else Requesting(event.Removed?, false))
    case Store(ok) => s.(cached := if ok then Some(s.stage.info) else s.cached, stage := Idle)
    case Read(ok) =>
      var removing := s.stage.removing;
      if ok && s.cached.Some? then LookedUp(s, removing) else s.(stage := Requesting(removing, ok))
    case Respond(ok, ready) =>
      var removing, again := s.stage.removing, s.stage.again;
      if !ok || s.source.None? then Failed(s, removing, again)
      else if ready then s.(stage := Writing(removing, again, InfoOf(s.source.value)))
      else LookedUp(s, removing)
    case Write(ok) =>
      var removing, again := s.stage.removing, s.stage.again;
      if ok then LookedUp(s.(cached := Some(s.stage.fetched)), removing) else Failed(s, removing, again)
    case Delete(ok) => s.(cached := if ok then None else s.cached, stage := Idle)
  }

  // ---------- what coherence means ----------

  predicate IsChange(e: Event) { e != Data }

  ghost predicate ChangePending(s: State) { exists e :: e in s.pending && IsChange(e) }

  /** The event in processing says that the record is new or gone. */
  predicate ChangeInHand(s: State)
  {
    || s.stage.Storing? || s.stage == Deleting
    || ((s.stage.Reading? || s.stage.Requesting? || s.stage.Writing?) && s.stage.removing)
  }

  /** Nothing is cached, or what the device manager knows. */
  predicate Coherent(s: State)
  {
    s.cached.None? || (s.source.Some? && s.cached.value == InfoOf(s.source.value))
  }

  /** The step ends the processing of a create, update or remove event without bringing a cached entry in line
      with it: the write or the deletion failed, or the lookup before the deletion did. */
  predicate LeavesStale(s: State, step: Step)
    requires Enabled(s, step)
  {
    && s.cached.Some?
    && match step
       case Store(ok) => !ok && s.cached.value != s.stage.info
       case Delete(ok) => !ok
       case Respond(ok, _) => s.stage.removing && !s.stage.again && (!ok || s.source.None?)
       case Write(ok) => s.stage.removing && !s.stage.again && !ok
       case _ => false
  }

  // ---------- the invariant ----------

  /** What a change event makes of the record. */
  function Says(e: Event): Option<Record>
    requires IsChange(e)
  {
    if e.Changed? then Some(e.record) else None
  }

  ghost predicate LastChangeIs(pending: seq<Event>, source: Option<Record>)
  {
    forall i | 0 <= i < |pending| && IsChange(pending[i]) && forall j :: i < j < |pending| ==> !IsChange(pending[j]) ::
      Says(pending[i]) == source
  }

  /** With no change pending: the event in hand agrees with the device manager, and so does the cache unless
      that event is about to change it. */
  ghost predicate Agrees(s: State)
  {
    && (s.stage.Storing? ==> s.source.Some? && s.stage.info == InfoOf(s.source.value))
    && (ChangeInHand(s) && !s.stage.Storing? ==> s.source.None?)
    && (!ChangeInHand(s) ==> Coherent(s))
    && (s.stage.Writing? && !s.stage.removing ==> s.source.Some? && s.stage.fetched == InfoOf(s.source.value))
  }

  ghost predicate Inv(s: State)
  {
    LastChangeIs(s.pending, s.source) && (!ChangePending(s) ==> Agrees(s))
  }

  lemma AppendedChange(pending: seq<Event>, e: Event)
    requires IsChange(e)
    ensures LastChangeIs(pending + [e], Says(e)) && e in pending + [e]
  {
    assert (pending + [e])[|pending|] == e;
  }

  lemma AppendedData(pending: seq<Event>, source: Option<Record>)
    requires LastChangeIs(pending, source)
    ensures LastChangeIs(pending + [Data], source)
    ensures (exists e :: e in pending + [Data] && IsChange(e)) <==> (exists e :: e in pending && IsChange(e))
  {
    var more := pending + [Data];
    forall i | 0 <= i < |more| && IsChange(more[i]) && (forall j :: i < j < |more| ==> !IsChange(more[j]))
      ensures Says(more[i]) == source
    {
      assert pending[i] == more[i];
      assert forall j :: i < j < |pending| ==> pending[j] == more[j] && !IsChange(more[j]);
    }
    assert forall e :: e in more <==> e in pending || e == Data;
  }

  lemma TakenEvent(pending: seq<Event>, source: Option<Record>)
    requires pending != [] && LastChangeIs(pending, source)
    ensures LastChangeIs(pending[1..], source)
    ensures IsChange(pending[0]) && !(exists e :: e in pending[1..] && IsChange(e)) ==> Says(pending[0]) == source
    ensures !IsChange(pending[0]) && !(exists e :: e in pending[1..] && IsChange(e)) ==>
              !(exists e :: e in pending && IsChange(e))
  {
    var rest := pending[1..];
    forall i | 0 <= i < |rest| && IsChange(rest[i]) && (forall j :: i < j < |rest| ==> !IsChange(rest[j]))
      ensures Says(rest[i]) == source
    {
      assert pending[i + 1] == rest[i];
      assert forall j :: i + 1 < j < |pending| ==> pending[j] == rest[j - 1];
    }
    assert pending == [pending[0]] + rest;
    assert forall j :: 0 < j < |pending| ==> pending[j] == rest[j - 1] && rest[j - 1] in rest;
  }

  lemma StepKeepsInv(s: State, step: Step)
    requires Inv(s) && Enabled(s, step) && (LeavesStale(s, step) ==> ChangePending(s))
    ensures Inv(Next(s, step))
  {
    match step
    case Change(record) => AppendedChange(s.pending, Changed(record));
    case Remove => AppendedChange(s.pending, Removed);
    case Arrive => AppendedData(s.pending, s.source);
    case Take(_) => TakenEvent(s.pending, s.source);
    case Store(_) =>
    case Read(_) =>
    case Respond(_, _) =>
    case Write(_) =>
    case Delete(_) =>
  }

  ghost predicate Legal(s: State, run: seq<Step>)
    decreases |run|
  {
    run == [] || (Enabled(s, run[0]) && Legal(Next(s, run[0]), run[1..]))
  }

  ghost function After(s: State, run: seq<Step>): State
    requires Legal(s, run)
    decreases |run|
  {
    if run == [] then s else After(Next(s, run[0]), run[1..])
  }

  /** No step of the run leaves a stale entry, or another change is pending that will replace it. */
  ghost predicate NothingStale(s: State, run: seq<Step>)
    requires Legal(s, run)
    decreases |run|
  {
    run == [] || ((LeavesStale(s, run[0]) ==> ChangePending(s)) && NothingStale(Next(s, run[0]), run[1..]))
  }

  ghost predicate Initial(s: State) { s.pending == [] && s.stage == Idle && Coherent(s) }

  /** No create, update or remove event of the device is pending or in hand. */
  ghost predicate Quiet(s: State) { !ChangePending(s) && !ChangeInHand(s) }

  lemma {:induction false} RunKeepsInv(s: State, run: seq<Step>)
    requires Inv(s) && Legal(s, run) && NothingStale(s, run)
    ensures Inv(After(s, run))
    decreases |run|
  {
    if run != [] {
      StepKeepsInv(s, run[0]);
      RunKeepsInv(Next(s, run[0]), run[1..]);
    }
  }

  // ---------- the theorems ----------

  /** In every run without such a failure at the last change, whatever else fails: while no create, update or
      remove event of the device is pending or in hand, the cache holds nothing or what the device manager knows;
      so a removed device is not cached. */
  lemma CacheIsCoherent(s: State, run: seq<Step>)
    requires Initial(s) && Legal(s, run) && NothingStale(s, run)
    ensures var t := After(s, run);
            Quiet(t) ==> Coherent(t) && (t.source.None? ==> t.cached.None?)
  {
    RunKeepsInv(s, run);
  }

  /** The record that a step hands to the flows, if the step ends a lookup. */
  function GivesOut(s: State, step: Step): Option<DeviceInfo>
    requires Enabled(s, step)
  {
    match step
    case Read(ok) => if ok then s.cached else None
    case Respond(ok, ready) => if ok && s.source.Some? && !ready then Some(InfoOf(s.source.value)) else None
    case Write(ok) => if ok then Some(s.stage.fetched) else None
    case _ => None
  }

  /** What a lookup hands to the flows, from the cache or from the device manager, is current. */
  lemma LookupsAreCurrent(s: State, run: seq<Step>, step: Step)
    requires Initial(s) && Legal(s, run) && NothingStale(s, run) && Enabled(After(s, run), step)
    ensures var t := After(s, run);
            Quiet(t) && GivesOut(t, step).Some? ==>
              t.source.Some? && GivesOut(t, step).value == InfoOf(t.source.value)
  {
    RunKeepsInv(s, run);
  }

  /** Exactly when a last change leaves the cache coherent. */
  lemma LastChangeExactly(s: State, step: Step)
    requires Inv(s) && Enabled(s, step) && ChangeInHand(s) && Next(s, step).stage == Idle && !ChangePending(s)
    ensures Coherent(Next(s, step)) <==> !LeavesStale(s, step)
  {
    if !LeavesStale(s, step) {
      StepKeepsInv(s, step);
    }
  }

  // ---------- every run, exactly ----------

  /** Whether the entry is stale after a step: the end of a change decides, and a data event that writes a fetched
      record repairs it. */
  predicate StaleNow(s: State, step: Step, stale: bool)
    requires Enabled(s, step)
  {
    if ChangeInHand(s) then LeavesStale(s, step) else stale && step != Write(true)
  }

  /** Whether the last change of a run was left stale and no data event has repaired that since. */
  ghost predicate EndsStale(s: State, run: seq<Step>, stale: bool)
    requires Legal(s, run)
    decreases |run|
  {
    if run == [] then stale else EndsStale(Next(s, run[0]), run[1..], StaleNow(s, run[0], stale))
  }

  /** As `Agrees`, for an entry that may be stale. */
  ghost predicate AgreesUnless(s: State, stale: bool)
  {
    && (s.stage.Storing? ==> s.source.Some? && s.stage.info == InfoOf(s.source.value))
    && (ChangeInHand(s) && !s.stage.Storing? ==> s.source.None?)
    && (!ChangeInHand(s) ==> (Coherent(s) <==> !stale))
    && (s.stage.Writing? && !s.stage.removing ==> s.source.Some? && s.stage.fetched == InfoOf(s.source.value))
  }

  ghost predicate Tracked(s: State, stale: bool)
  {
    LastChangeIs(s.pending, s.source) && (!ChangePending(s) ==> AgreesUnless(s, stale))
  }

  lemma StepIsTracked(s: State, step: Step, stale: bool)
    requires Tracked(s, stale) && Enabled(s, step)
    ensures Tracked(Next(s, step), StaleNow(s, step, stale))
  {
    match step
    case Change(record) => AppendedChange(s.pending, Changed(record));
    case Remove => AppendedChange(s.pending, Removed);
    case Arrive => AppendedData(s.pending, s.source);
    case Take(_) => TakenEvent(s.pending, s.source);
    case Store(_) =>
    case Read(_) =>
    case Respond(_, _) =>
    case Write(_) =>
    case Delete(_) =>
  }

  lemma {:induction false} RunIsTracked(s: State, run: seq<Step>, stale: bool)
    requires Tracked(s, stale) && Legal(s, run)
    ensures Tracked(After(s, run), EndsStale(s, run, stale))
    decreases |run|
  {
    if run != [] {
      StepIsTracked(s, run[0], stale);
      RunIsTracked(Next(s, run[0]), run[1..], StaleNow(s, run[0], stale));
    }
  }

  /** Over every run, whatever fails: a quiet cache is coherent if and only if the last change was not left stale,
      or a data event has repaired it since. */
  lemma QuietCacheExactly(s: State, run: seq<Step>)
    requires Initial(s) && Legal(s, run) && Quiet(After(s, run))
    ensures Coherent(After(s, run)) <==> !EndsStale(s, run, false)
  {
    RunIsTracked(s, run, false);
  }

  predicate OnlyData(run: seq<Step>) { forall step | step in run :: !step.Change? && !step.Remove? }

  lemma {:induction false} DataStaysQuiet(s: State, run: seq<Step>, stale: bool)
    requires Quiet(s) && Legal(s, run) && OnlyData(run)
    ensures Quiet(After(s, run)) && (EndsStale(s, run, stale) <==> stale && Write(true) !in run)
    decreases |run|
  {
    if run != [] {
      var t := Next(s, run[0]);
      assert run[0] in run && forall step :: step in run[1..] ==> step in run;
      StillQuiet(s, run[0]);
      DataStaysQuiet(t, run[1..], StaleNow(s, run[0], stale));
      assert run == [run[0]] + run[1..];
    }
  }

  lemma StillQuiet(s: State, step: Step)
    requires Quiet(s) && Enabled(s, step) && !step.Change? && !step.Remove?
    ensures Quiet(Next(s, step))
  {
    if step.Take? {
      assert s.pending[0] in s.pending;
      assert forall e :: e in Next(s, step).pending ==> e in s.pending;
    } else if step.Arrive? {
      assert forall e :: e in Next(s, step).pending ==> e in s.pending || e == Data;
    }
  }

  /** A stale entry, while the device does not change, exactly: it is repaired if and only if a data event fetches
      the record and writes it. */
  lemma StaleUntilWritten(s: State, run: seq<Step>)
    requires !Coherent(s) && Quiet(s) && s.stage == Idle && Legal(s, run) && OnlyData(run)
    ensures Coherent(After(s, run)) <==> Write(true) in run
  {
    DataStaysQuiet(s, run, true);
    RunIsTracked(s, run, true);
  }

  // ---------- failures that leave the cache stale ----------

  /** A device is updated while the cache refuses the write: the old record stays in the cache, although every
      event has been processed. */
  lemma FailedWriteIsNotOnlyPerformance(before: Record, after: Record)
    requires InfoOf(before) != InfoOf(after)
    ensures exists s: State, run: seq<Step> :: Initial(s) && Legal(s, run) && s.source == Some(before)
              && After(s, run).pending == [] && After(s, run).stage == Idle && !Coherent(After(s, run))
  {
    var s := State(Some(before), [], Idle, Some(InfoOf(before)));
    var run := [Change(after), Take(true), Store(false)];
    var s1 := Next(s, run[0]);
    var s2 := Next(s1, run[1]);
    var s3 := Next(s2, run[2]);
    assert run[1..] == [Take(true), Store(false)] && run[1..][1..] == [Store(false)] && run[1..][1..][1..] == [];
    assert Legal(s2, [Store(false)]) && Legal(s1, run[1..]) && Legal(s, run);
    assert After(s2, [Store(false)]) == s3 && After(s, run) == s3;
  }

  /** A remove event that is processed while the cache cannot be read finds no record at the device manager, and
      gives up before it deletes the entry: the removed device stays cached. */
  lemma UnreadableCacheKeepsRemovedDevice(record: Record)
    ensures exists s: State, run: seq<Step> :: Initial(s) && Legal(s, run) && s.source == Some(record)
              && After(s, run).source == None && After(s, run).pending == [] && After(s, run).stage == Idle
              && After(s, run).cached.Some?
  {
    var s := State(Some(record), [], Idle, Some(InfoOf(record)));
    var run := [Remove, Take(true), Read(false), Respond(true, true)];
    var s1 := Next(s, run[0]);
    var s2 := Next(s1, run[1]);
    var s3 := Next(s2, run[2]);
    var s4 := Next(s3, run[3]);
    assert run[1..] == [Take(true), Read(false), Respond(true, true)];
    assert run[1..][1..] == [Read(false), Respond(true, true)];
    assert run[1..][1..][1..] == [Respond(true, true)] && run[1..][1..][1..][1..] == [];
    assert Legal(s3, [Respond(true, true)]) && Legal(s2, run[1..][1..]) && Legal(s1, run[1..]) && Legal(s, run);
    assert After(s3, [Respond(true, true)]) == s4 && After(s2, run[1..][1..]) == s4 && After(s, run) == s4;
  }
}
