/**
 The steps in which one event is processed, for given outcomes of its calls: they end in what the code of the
 device cache computes.
 */
module CacheLookup {
  import opened Options
  import opened DeviceCache
  import opened CacheCoherence

  /** One request: does the device manager answer, is the cache ready then, does it accept the write? */
  datatype Try = Try(answers: bool, ready: bool, writes: bool)

  /** How the calls for one event go. */
  datatype Outcome = Outcome(ready: bool, readable: bool, first: Try, second: Try, stores: bool, deletes: bool)

  /** The attempt as the code sees it: a device that the device manager does not know is not answered. */
  function AttemptOf(source: Option<Record>, t: Try): Attempt
  {
    Attempt(if t.answers then source else None, t.ready, t.writes)
  }

  function Looked(s: State, o: Outcome): Option<DeviceInfo>
  {
    Found(s.cached, o.ready, o.readable, AttemptOf(s.source, o.first), AttemptOf(s.source, o.second))
  }

  function CachedByLookup(s: State, o: Outcome): Option<DeviceInfo>
  {
    CachedAfter(s.cached, o.ready, o.readable, AttemptOf(s.source, o.first), AttemptOf(s.source, o.second))
  }

  // ---------- the steps ----------

  function TrySteps(source: Option<Record>, t: Try): seq<Step>
  {
    [Respond(t.answers, t.ready)] + if t.answers && source.Some? && t.ready then [Write(t.writes)] else []
  }

  function RequestSteps(s: State, o: Outcome): seq<Step>
  {
    TrySteps(s.source, o.first)
    + if o.ready && o.readable && Obtained(AttemptOf(s.source, o.first)).None? then TrySteps(s.source, o.second) else []
  }

  function LookupSteps(s: State, o: Outcome): seq<Step>
  {
    if !o.ready then RequestSteps(s, o)
    else [Read(o.readable)] + if o.readable && s.cached.Some? then [] else RequestSteps(s, o)
  }

  function Processing(s: State, o: Outcome): seq<Step>
    requires s.pending != []
  {
    [Take(o.ready)]
    + match s.pending[0]
      case Changed(_) => [Store(o.stores)]
      case Data => LookupSteps(s, o)
      case Removed => LookupSteps(s, o) + if Looked(s, o).Some? then [Delete(o.deletes)] else []
  }

  /** The last record that the steps of a run hand out. */
  ghost function Given(s: State, run: seq<Step>): Option<DeviceInfo>
    requires Legal(s, run)
    decreases |run|
  {
    if run == [] then None
    else
      var later := Given(Next(s, run[0]), run[1..]);
      if later.Some? then later else GivesOut(s, run[0])
  }

  // ---------- they do what the code does ----------

  lemma OneStep(s: State, step: Step)
    requires Enabled(s, step)
    ensures Legal(s, [step]) && After(s, [step]) == Next(s, step) && Given(s, [step]) == GivesOut(s, step)
  {
    assert [step][1..] == [] && Legal(Next(s, step), []);
  }

  lemma {:induction false} RunsConcatenate(s: State, a: seq<Step>, b: seq<Step>)
    requires Legal(s, a) && Legal(After(s, a), b)
    ensures Legal(s, a + b) && After(s, a + b) == After(After(s, a), b)
    ensures Given(s, a + b) == if Given(After(s, a), b).Some? then Given(After(s, a), b) else Given(s, a)
    decreases |a|
  {
    if a == [] {
      assert a + b == b;
    } else {
      RunsConcatenate(Next(s, a[0]), a[1..], b);
      assert (a + b)[1..] == a[1..] + b;
    }
  }

  /** The state after a lookup: it goes on to the deletion or is done, with a record or without. */
  function Ended(s: State, removing: bool, cached: Option<DeviceInfo>, found: bool): State
  {
    s.(cached := cached, stage := if found && removing then Deleting else Idle)
  }

  /** One attempt is one call of `_requestDeviceInfo`. */
  lemma TryRuns(s: State, t: Try)
    requires s.stage.Requesting?
    ensures var a, steps := AttemptOf(s.source, t), TrySteps(s.source, t);
            && Legal(s, steps) && Given(s, steps) == Obtained(a)
            && After(s, steps) == if Obtained(a).None? && s.stage.again
                                  then s.(stage := Requesting(s.stage.removing, false))
                                  else Ended(s, s.stage.removing, Refreshed(a, s.cached), Obtained(a).Some?)
  {
    var respond := Respond(t.answers, t.ready);
    OneStep(s, respond);
    if t.answers && s.source.Some? && t.ready {
      OneStep(Next(s, respond), Write(t.writes));
      RunsConcatenate(s, [respond], [Write(t.writes)]);
    }
  }

  lemma RequestRuns(s: State, o: Outcome)
    requires s.stage.Requesting? && s.stage.again == (o.ready && o.readable)
    requires s.stage.again ==> s.cached.None?
    ensures var steps := RequestSteps(s, o);
            && Legal(s, steps) && Given(s, steps) == Looked(s, o)
            && After(s, steps) == Ended(s, s.stage.removing, CachedByLookup(s, o), Looked(s, o).Some?)
  {
    TryRuns(s, o.first);
    var first := TrySteps(s.source, o.first);
    if o.ready && o.readable && Obtained(AttemptOf(s.source, o.first)).None? {
      TryRuns(After(s, first), o.second);
      RunsConcatenate(s, first, TrySteps(s.source, o.second));
    } else {
      assert RequestSteps(s, o) == first;
    }
  }

  /** A lookup is one call of `getDeviceInfo`, when the device does not change meanwhile. */
  lemma LookupRuns(s: State, o: Outcome)
    requires if o.ready then s.stage.Reading? else s.stage.Requesting? && !s.stage.again
    ensures var steps := LookupSteps(s, o);
            && Legal(s, steps) && Given(s, steps) == Looked(s, o)
            && After(s, steps) == Ended(s, s.stage.removing, CachedByLookup(s, o), Looked(s, o).Some?)
  {
    if !o.ready {
      RequestRuns(s, o);
    } else {
      var read := Read(o.readable);
      OneStep(s, read);
      if o.readable && s.cached.Some? {
        assert LookupSteps(s, o) == [read];
      } else {
        var t := Next(s, read);
        RequestRuns(t, o);
        RunsConcatenate(s, [read], RequestSteps(t, o));
      }
    }
  }

  /** What the cache holds after an event, as the code of `addDevice`, `getDeviceInfo` and `deleteDevice` has it. */
  function CachedByEvent(s: State, o: Outcome): Option<DeviceInfo>
    requires s.pending != []
  {
    match s.pending[0]
    case Changed(record) => if o.stores then Some(InfoOf(record)) else s.cached
    case Data => CachedByLookup(s, o)
    case Removed => if Looked(s, o).Some? && o.deletes then None else CachedByLookup(s, o)
  }

  /** Processing an event step by step, with the device unchanged meanwhile, ends as the code does, and hands out
      what the code's lookup gives. */
  lemma ProcessingIsTheCode(s: State, o: Outcome)
    requires s.stage == Idle && s.pending != []
    ensures Legal(s, Processing(s, o))
    ensures After(s, Processing(s, o)) == s.(pending := s.pending[1..], cached := CachedByEvent(s, o))
    ensures Given(s, Processing(s, o)) == if s.pending[0].Changed? then None else Looked(s, o)
  {
    var take := Take(o.ready);
    var t := Next(s, take);
    OneStep(s, take);
    if s.pending[0].Changed? {
      OneStep(t, Store(o.stores));
      RunsConcatenate(s, [take], [Store(o.stores)]);
    } else {
      var steps := LookupSteps(t, o);
      LookupRuns(t, o);
      RunsConcatenate(s, [take], steps);
      if s.pending[0].Removed? && Looked(s, o).Some? {
        OneStep(After(t, steps), Delete(o.deletes));
        RunsConcatenate(s, [take] + steps, [Delete(o.deletes)]);
        assert [take] + steps + [Delete(o.deletes)] == Processing(s, o);
      } else {
        assert [take] + steps == Processing(s, o);
      }
    }
  }

  /** A data event repairs a stale entry exactly if the cache is not ready, or cannot be read, at first, and then
      the device manager answers and the cache accepts the write. */
  lemma DataEventRepairsExactly(s: State, o: Outcome)
    requires !Coherent(s) && s.stage == Idle && s.pending != [] && s.pending[0] == Data
    ensures Legal(s, Processing(s, o))
    ensures Coherent(After(s, Processing(s, o)))
       <==> !(o.ready && o.readable) && s.source.Some? && o.first.answers && o.first.ready && o.first.writes
  {
    ProcessingIsTheCode(s, o);
  }
}
