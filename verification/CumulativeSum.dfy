/**
 The cumulative-sum node: a sliding-window sum that lives in a context.
 */
module CumulativeSum {
  import opened Options

  datatype Entry = Entry(timestamp: int, value: int)

  /** The content of the node instance's context; a context that was never saved is Context(0, []). */
  datatype Context = Context(sum: int, entries: seq<Entry>)

  const EMPTY := Context(0, [])
  const MILLISECONDS_PER_MINUTE := 60000

  function Total(entries: seq<Entry>): int
  {
    if entries == [] then 0 else entries[0].value + Total(entries[1..])
  }

  /** The length of the expired prefix: the entries before the first one that is recent enough. */
  function ExpiredPrefix(entries: seq<Entry>, threshold: int): (k: nat)
    ensures k <= |entries|
    ensures forall i :: 0 <= i < k ==> entries[i].timestamp < threshold
    ensures k < |entries| ==> entries[k].timestamp >= threshold
  {
    if entries == [] || entries[0].timestamp >= threshold then 0 else 1 + ExpiredPrefix(entries[1..], threshold)
  }

  /** One execution on a context: the context to save, or None for "messy time". */
  function Accumulated(context: Context, event: Entry, period: int): Option<Context>
  {
    var entries := if context.sum == 0 then [] else context.entries;
    if entries != [] && entries[|entries| - 1].timestamp > event.timestamp then None
    else
      var k := ExpiredPrefix(entries, event.timestamp - period);
      Some(Context(context.sum - Total(entries[..k]) + event.value, entries[k..] + [event]))
  }

  lemma {:induction false} TotalSplits(a: seq<Entry>, b: seq<Entry>)
    ensures Total(a + b) == Total(a) + Total(b)
  {
    if a == [] {
      assert a + b == b;
    } else {
      assert (a + b)[1..] == a[1..] + b;
      TotalSplits(a[1..], b);
    }
  }

  lemma {:induction false} ExpiredPrefixIsUnique(entries: seq<Entry>, threshold: int, k: nat)
    requires k <= |entries| && (forall i :: 0 <= i < k ==> entries[i].timestamp < threshold)
    requires k < |entries| ==> entries[k].timestamp >= threshold
    ensures ExpiredPrefix(entries, threshold) == k
  {
    if k > 0 {
      ExpiredPrefixIsUnique(entries[1..], threshold, k - 1);
    }
  }

  lemma TotalOfMore(entries: seq<Entry>, i: nat)
    requires i < |entries|
    ensures Total(entries[..i + 1]) == Total(entries[..i]) + entries[i].value
  {
    assert entries[..i + 1] == entries[..i] + [entries[i]];
    TotalSplits(entries[..i], [entries[i]]);
    assert Total([entries[i]]) == entries[i].value;
  }

  /** An execution that goes through, given where the expired prefix ends. */
  lemma {:induction false} AccumulatedBy(context: Context, event: Entry, period: int, k: nat)
    requires context.sum == 0 ==> context.entries == []
    requires context.entries != [] ==> context.entries[|context.entries| - 1].timestamp <= event.timestamp
    requires k == ExpiredPrefix(context.entries, event.timestamp - period)
    ensures Accumulated(context, event, period)
         == Some(Context(context.sum - Total(context.entries[..k]) + event.value, context.entries[k..] + [event]))
  {
  }

  lemma PushThenSlice(entries: seq<Entry>, event: Entry, k: nat)
    requires k <= |entries|
    ensures (entries + [event])[k..] == entries[k..] + [event]
  {
  }

  /** The loop over the entries: where the first one is that has not expired, and the sum of those before it. */
  method SumExpired(entries: seq<Entry>, threshold: int) returns (indexToSlice: nat, sum: int)
    ensures indexToSlice == ExpiredPrefix(entries, threshold)
    ensures sum == Total(entries[..indexToSlice])
  {
    indexToSlice, sum := 0, 0;
    while indexToSlice < |entries| && entries[indexToSlice].timestamp < threshold
      invariant indexToSlice <= |entries|
      invariant forall j :: 0 <= j < indexToSlice ==> entries[j].timestamp < threshold
      invariant sum == Total(entries[..indexToSlice])
    {
      TotalOfMore(entries, indexToSlice);
      sum := sum + entries[indexToSlice].value;
      indexToSlice := indexToSlice + 1;
    }
    ExpiredPrefixIsUnique(entries, threshold, indexToSlice);
  }

  /** The body of `handleMessage` between the lock and the release. */
  method Accumulate(context: Context, event: Entry, timePeriod: int) returns (updated: Option<Context>)
    ensures updated == Accumulated(context, event, timePeriod * 60000)
  {
    var contextSum, entries := context.sum, context.entries;
    if contextSum == 0 {
      contextSum, entries := 0, [];
    }
    var period := timePeriod * MILLISECONDS_PER_MINUTE;
    var threshold := event.timestamp - period;
    if |entries| > 0 && entries[|entries| - 1].timestamp > event.timestamp {
      return None;
    }
    var indexToSlice, sum := SumExpired(entries, threshold);
    AccumulatedBy(Context(contextSum, entries), event, period, indexToSlice);
    PushThenSlice(entries, event, indexToSlice);
    entries := entries + [event];
    entries := entries[indexToSlice..];
    contextSum := contextSum - sum + event.value;
    return Some(Context(contextSum, entries));
  }

  // ---------- the window that the node is meant to keep ----------

  ghost predicate TimeSorted(history: seq<Entry>)
  {
    forall i, j :: 0 <= i < j < |history| ==> history[i].timestamp <= history[j].timestamp
  }

  /** The events of a history that are not older than the threshold. */
  function Recent(history: seq<Entry>, threshold: int): seq<Entry>
  {
    if history == [] then []
    else (if history[0].timestamp >= threshold then [history[0]] else []) + Recent(history[1..], threshold)
  }

  function Latest(history: seq<Entry>): int
    requires history != []
  {
    history[|history| - 1].timestamp
  }

  /** The accepted events with a timestamp of at least the latest one minus the period. */
  function Window(history: seq<Entry>, period: int): seq<Entry>
  {
    if history == [] then [] else Recent(history, Latest(history) - period)
  }

  function Ideal(history: seq<Entry>, period: int): Context
  {
    Context(Total(Window(history, period)), Window(history, period))
  }

  /** What one more event should do: be refused if it is older than the latest one, else join the window. */
  function IdealNext(history: seq<Entry>, event: Entry, period: int): Option<Context>
  {
    if history != [] && Latest(history) > event.timestamp then None else Some(Ideal(history + [event], period))
  }

  lemma {:induction false} RecentOfSorted(history: seq<Entry>, threshold: int)
    requires TimeSorted(history)
    ensures Recent(history, threshold) == history[ExpiredPrefix(history, threshold)..]
  {
    if history != [] {
      var rest := history[1..];
      RecentOfSorted(rest, threshold);
      assert history == [history[0]] + rest;
      if history[0].timestamp >= threshold {
        ExpiredPrefixIsUnique(rest, threshold, 0);
        assert rest[0..] == rest;
      } else {
        assert history[1 + ExpiredPrefix(rest, threshold)..] == rest[ExpiredPrefix(rest, threshold)..];
      }
    }
  }

  lemma {:induction false} RecentSplits(a: seq<Entry>, b: seq<Entry>, threshold: int)
    ensures Recent(a + b, threshold) == Recent(a, threshold) + Recent(b, threshold)
  {
    if a == [] {
      assert a + b == b;
    } else {
      assert (a + b)[1..] == a[1..] + b && (a + b)[0] == a[0];
      RecentSplits(a[1..], b, threshold);
      var first := if a[0].timestamp >= threshold then [a[0]] else [];
      var middle, last := Recent(a[1..], threshold), Recent(b, threshold);
      assert first + (middle + last) == first + middle + last;
    }
  }

  lemma {:induction false} RecentTwice(history: seq<Entry>, early: int, late: int)
    requires early <= late
    ensures Recent(Recent(history, early), late) == Recent(history, late)
  {
    if history != [] {
      RecentTwice(history[1..], early, late);
      RecentSplits(if history[0].timestamp >= early then [history[0]] else [], Recent(history[1..], early), late);
    }
  }

  lemma {:induction false} RecentKeepsOrder(history: seq<Entry>, threshold: int)
    requires TimeSorted(history)
    ensures TimeSorted(Recent(history, threshold))
    ensures history != [] && Latest(history) >= threshold ==>
      Recent(history, threshold) != [] && Latest(Recent(history, threshold)) == Latest(history)
  {
    RecentOfSorted(history, threshold);
  }

  lemma {:induction false} JoinsWindow(history: seq<Entry>, event: Entry, period: int)
    requires period > 0
    ensures Window(history + [event], period) == Recent(history, event.timestamp - period) + [event]
  {
    RecentSplits(history, [event], event.timestamp - period);
    assert Recent([event], event.timestamp - period) == [event];
  }

  /** What is in the window once an event has joined: the event, and those that are not older than the period. */
  lemma {:induction false} WindowMembers(history: seq<Entry>, event: Entry, period: int, n: Entry)
    requires period > 0
    ensures n in Window(history + [event], period) <==>
            n == event || (n in history && n.timestamp >= event.timestamp - period)
  {
    JoinsWindow(history, event, period);
    RecentMembers(history, event.timestamp - period, n);
  }

  lemma {:induction false} RecentMembers(history: seq<Entry>, threshold: int, n: Entry)
    ensures n in Recent(history, threshold) <==> n in history && n.timestamp >= threshold
  {
    if history != [] {
      RecentMembers(history[1..], threshold, n);
      assert history == [history[0]] + history[1..];
    }
  }

  /** The sum of a list of entries. */
  lemma TotalIsTheSum(a: seq<Entry>, n: Entry)
    ensures Total([]) == 0 && Total(a + [n]) == Total(a) + n.value
  {
    TotalSplits(a, [n]);
    assert Total([n]) == n.value;
  }

  /** An execution on a window with a sum, in minutes: older events are refused; otherwise the event is added, those
      before its period of so many minutes are gone, and the others are kept. */
  lemma {:induction false} OneExecution(window: seq<Entry>, event: Entry, minutes: int, n: Entry)
    requires TimeSorted(window) && Total(window) != 0 && minutes > 0
    ensures var result := Accumulated(Context(Total(window), window), event, minutes * 60000);
            && (result.None? <==> window[|window| - 1].timestamp > event.timestamp)
            && (result.Some? ==>
                  && result.value.sum == Total(result.value.entries)
                  && (n in result.value.entries <==>
                      n == event || (n in window && n.timestamp >= event.timestamp - minutes * 60000)))
  {
    SlicingIsFiltering(window, event, minutes * 60000);
    RecentMembers(window, event.timestamp - minutes * 60000, n);
  }

  /** A context whose sum is zero is started afresh. */
  lemma StartsAfresh(context: Context, event: Entry, period: int)
    requires context.sum == 0
    ensures Accumulated(context, event, period) == Some(Context(event.value, [event]))
  {
    var none: seq<Entry> := [];
    assert none[..0] == [] && none[0..] + [event] == [event];
  }

  lemma {:induction false} TotalAfterSlice(window: seq<Entry>, event: Entry, k: nat)
    requires k <= |window|
    ensures Context(Total(window) - Total(window[..k]) + event.value, window[k..] + [event])
         == Context(Total(window[k..] + [event]), window[k..] + [event])
  {
    assert window == window[..k] + window[k..];
    TotalSplits(window[..k], window[k..]);
    TotalSplits(window[k..], [event]);
    assert Total([event]) == event.value;
  }

  lemma {:induction false} Sliced(window: seq<Entry>, event: Entry, period: int)
    requires Total(window) != 0 && window != [] && Latest(window) <= event.timestamp
    ensures var kept := window[ExpiredPrefix(window, event.timestamp - period)..] + [event];
            Accumulated(Context(Total(window), window), event, period) == Some(Context(Total(kept), kept))
  {
    var k := ExpiredPrefix(window, event.timestamp - period);
    AccumulatedBy(Context(Total(window), window), event, period, k);
    TotalAfterSlice(window, event, k);
  }

  /** On a sorted list of entries with its right, non-zero sum, the loop and the slice are a filter. */
  lemma {:induction false} SlicingIsFiltering(window: seq<Entry>, event: Entry, period: int)
    requires TimeSorted(window) && Total(window) != 0 && window != []
    ensures Accumulated(Context(Total(window), window), event, period) ==
            if Latest(window) > event.timestamp then None
            else
              var kept := Recent(window, event.timestamp - period) + [event];
              Some(Context(Total(kept), kept))
  {
    if Latest(window) <= event.timestamp {
      Sliced(window, event, period);
      RecentOfSorted(window, event.timestamp - period);
    }
  }

  /** The window of a window with a later threshold is the window of the whole history. */
  lemma {:induction false} WindowMovesOn(history: seq<Entry>, event: Entry, period: int)
    requires TimeSorted(history) && period > 0 && history != [] && Latest(history) <= event.timestamp
    ensures Window(history + [event], period) == Recent(Window(history, period), event.timestamp - period) + [event]
  {
    assert Recent(Window(history, period), event.timestamp - period) == Recent(history, event.timestamp - period) by {
      RecentTwice(history, Latest(history) - period, event.timestamp - period);
    }
    JoinsWindow(history, event, period);
  }

  lemma {:induction false} RightUnlessZeroSum(history: seq<Entry>, event: Entry, period: int)
    requires TimeSorted(history) && period > 0 && Ideal(history, period).sum != 0
    ensures Accumulated(Ideal(history, period), event, period) == IdealNext(history, event, period)
  {
    var window := Window(history, period);
    RecentKeepsOrder(history, Latest(history) - period);
    assert TimeSorted(window) && Latest(window) == Latest(history);
    SlicingIsFiltering(window, event, period);
    if Latest(history) <= event.timestamp {
      WindowMovesOn(history, event, period);
    }
  }

  lemma {:induction false} RecentIsEmpty(history: seq<Entry>, threshold: int)
    ensures Recent(history, threshold) == [] <==> AllExpired(history, threshold)
  {
    if history != [] {
      RecentIsEmpty(history[1..], threshold);
      assert history == [history[0]] + history[1..];
    }
  }

  lemma {:induction false} RecentIsAll(history: seq<Entry>, threshold: int)
    requires forall n :: n in history ==> n.timestamp >= threshold
    ensures Recent(history, threshold) == history
  {
    if history != [] {
      RecentIsAll(history[1..], threshold);
    }
  }

  lemma IdealJoins(history: seq<Entry>, event: Entry, period: int)
    requires TimeSorted(history) && period > 0 && history != [] && Latest(history) <= event.timestamp
    ensures var kept := Recent(Window(history, period), event.timestamp - period);
            IdealNext(history, event, period) == Some(Context(Total(kept + [event]), kept + [event]))
  {
    WindowMovesOn(history, event, period);
  }

  lemma {:induction false} WindowEndsWithLatest(history: seq<Entry>, period: int) returns (n: Entry)
    requires TimeSorted(history) && period > 0 && history != []
    ensures n in Window(history, period) && n.timestamp == Latest(history)
  {
    RecentKeepsOrder(history, Latest(history) - period);
    n := LatestIsIn(Window(history, period));
  }

  lemma LatestIsIn(window: seq<Entry>) returns (n: Entry)
    requires window != []
    ensures n in window && n.timestamp == Latest(window)
  {
    n := window[|window| - 1];
  }

  ghost predicate AllExpired(entries: seq<Entry>, threshold: int)
  {
    forall n :: n in entries ==> n.timestamp < threshold
  }

  lemma ZeroSumRefusal(history: seq<Entry>, event: Entry, period: int)
    requires TimeSorted(history) && period > 0 && history != [] && Latest(history) > event.timestamp
    ensures IdealNext(history, event, period) == None
    ensures !AllExpired(Window(history, period), event.timestamp - period)
  {
    var n := WindowEndsWithLatest(history, period);
  }

  /** A window with total zero is forgotten; that is right only if all of it has expired. */
  lemma ZeroSumCase(history: seq<Entry>, event: Entry, period: int)
    requires TimeSorted(history) && period > 0 && history != []
    ensures IdealNext(history, event, period) == Some(Context(event.value, [event]))
       <==> AllExpired(Window(history, period), event.timestamp - period)
  {
    if Latest(history) > event.timestamp {
      ZeroSumRefusal(history, event, period);
    } else {
      var kept := Recent(Window(history, period), event.timestamp - period);
      assert IdealNext(history, event, period) == Some(Context(Total(kept + [event]), kept + [event])) by {
        IdealJoins(history, event, period);
      }
      assert kept == [] <==> AllExpired(Window(history, period), event.timestamp - period) by {
        RecentIsEmpty(Window(history, period), event.timestamp - period);
      }
      OnlyTheEvent(kept, event);
    }
  }

  lemma OnlyTheEvent(kept: seq<Entry>, event: Entry)
    ensures Context(Total(kept + [event]), kept + [event]) == Context(event.value, [event]) <==> kept == []
  {
    if kept == [] {
      assert kept + [event] == [event] && Total([event]) == event.value;
    } else {
      assert |kept + [event]| > 1;
    }
  }

  /** Exactly when the node does the right thing.  A window that adds up to zero counts as no context at
      all, so it must either be empty or be about to expire as a whole. */
  lemma ExactUnlessZeroSum(history: seq<Entry>, event: Entry, period: int)
    requires TimeSorted(history) && period > 0
    ensures Accumulated(Ideal(history, period), event, period) == IdealNext(history, event, period)
       <==> (Ideal(history, period).sum != 0 || AllExpired(Window(history, period), event.timestamp - period))
  {
    if Ideal(history, period).sum != 0 {
      RightUnlessZeroSum(history, event, period);
    } else if history == [] {
      StartsAfresh(Ideal(history, period), event, period);
      JoinsWindow(history, event, period);
      assert Total([event]) == event.value;
    } else {
      StartsAfresh(Ideal(history, period), event, period);
      ZeroSumCase(history, event, period);
    }
  }

  /** The failing case exists: 5 and -5 inside one window make the node forget both. */
  lemma ZeroSumForgets()
    ensures var history := [Entry(1, 5), Entry(2, -5)]; var event := Entry(3, 7);
            Accumulated(Ideal(history, 60000), event, 60000) == Some(Context(7, [event]))
            && IdealNext(history, event, 60000) == Some(Context(7, history + [event]))
  {
    var history, event := [Entry(1, 5), Entry(2, -5)], Entry(3, 7);
    ZeroSumWindow();
    StartsAfresh(Ideal(history, 60000), event, 60000);
    JoinsWindow(history, event, 60000);
    RecentIsAll(history, 3 - 60000);
    TotalSplits(history, [event]);
    assert Total([event]) == 7;
  }

  lemma ZeroSumWindow()
    ensures Ideal([Entry(1, 5), Entry(2, -5)], 60000) == Context(0, [Entry(1, 5), Entry(2, -5)])
    ensures Total([Entry(1, 5), Entry(2, -5)]) == 0
  {
    var a, b := Entry(1, 5), Entry(2, -5);
    assert [a, b] == [a] + [b];
    RecentIsAll([a, b], 2 - 60000);
    TotalSplits([a], [b]);
    assert Total([a]) == 5 && Total([b]) == -5;
  }

  /** What a sequence of executions leaves in the context, and which of their events they accepted. */
  function Executed(events: seq<Entry>, period: int): (result: (Context, seq<Entry>))
  {
    if events == [] then (EMPTY, [])
    else
      var (context, accepted) := Executed(events[..|events| - 1], period);
      var event := events[|events| - 1];
      match Accumulated(context, event, period)
      case None => (context, accepted)
      case Some(updated) => (updated, accepted + [event])
  }

  lemma {:induction false} PositiveTotal(entries: seq<Entry>)
    requires forall n :: n in entries ==> n.value > 0
    ensures Total(entries) >= 0 && (Total(entries) == 0 <==> entries == [])
  {
    if entries != [] {
      PositiveTotal(entries[1..]);
    }
  }

  lemma {:induction false} RecentIsSublist(history: seq<Entry>, threshold: int)
    ensures forall n :: n in Recent(history, threshold) ==> n in history
  {
    if history != [] {
      RecentIsSublist(history[1..], threshold);
    }
  }

  lemma PositiveStep(history: seq<Entry>, event: Entry, period: int)
    requires TimeSorted(history) && period > 0 && forall n :: n in history ==> n.value > 0
    ensures Accumulated(Ideal(history, period), event, period) == IdealNext(history, event, period)
  {
    if history != [] {
      RecentIsSublist(history, Latest(history) - period);
    }
    PositiveTotal(Window(history, period));
    ExactUnlessZeroSum(history, event, period);
  }

  lemma StaysSorted(history: seq<Entry>, event: Entry)
    requires TimeSorted(history) && (history == [] || Latest(history) <= event.timestamp)
    ensures TimeSorted(history + [event])
  {
  }

  ghost predicate AllPositive(events: seq<Entry>)
  {
    forall n :: n in events ==> n.value > 0
  }

  /** Window exactness: whatever the order and the times of the events, after every sequence of executions on
      positive values the context is the window of all accepted events, and these are in time order. */
  lemma {:induction false} WindowIsExact(events: seq<Entry>, period: int)
    requires period > 0 && AllPositive(events)
    ensures var (context, accepted) := Executed(events, period);
            TimeSorted(accepted) && AllPositive(accepted) && context == Ideal(accepted, period)
  {
    if events != [] {
      var before, event := events[..|events| - 1], events[|events| - 1];
      WindowIsExact(before, period);
      var (context, accepted) := Executed(before, period);
      PositiveStep(accepted, event, period);
      if accepted == [] || Latest(accepted) <= event.timestamp {
        StaysSorted(accepted, event);
      }
    }
  }
}
