/**
 The two scans that decide which lock node a waiting request watches.
 */
module LockScan {
  import opened Options
  import opened LockNames

  /** A node that the shared-locks recipe makes `mine` wait for. */
  predicate Blocks(other: LockNode, mine: LockNode)
  {
    other.number < mine.number && (mine.mode == Write || other.mode == Write)
  }

  /** The blocking nodes the scans can find: the running maximum starts at the number 0 and is beaten
      only by a strictly greater one, so the suffix 0000000000 never qualifies. */
  predicate Seen(other: LockNode, mine: LockNode)
  {
    Blocks(other, mine) && other.number > 0
  }

  /** `found` is the greatest node of `view` that a scan for `mine` can see, or None if there is none. */
  ghost predicate IsScanResult(view: set<LockNode>, mine: LockNode, found: Option<LockNode>)
  {
    match found
    case None => forall n :: n in view ==> !Seen(n, mine)
    case Some(p) => p in view && Seen(p, mine) && forall n :: n in view && Seen(n, mine) ==> n.number <= p.number
  }

  /** A JavaScript value that the scans keep in `previousValue`: the number 0, later a suffix. */
  datatype Threshold = Number(value: nat) | Text(text: string)

  /** JavaScript's `elem > previous`: numeric against a number, lexicographic against a string. */
  predicate Exceeds(elem: string, previous: Threshold)
  {
    match previous
    case Number(k) => DecimalValue(elem) > k
    case Text(p) => StringLess(p, elem)
  }

  ghost predicate AllLockNames(children: seq<string>)
  {
    forall c :: c in children ==> IsLockName(c)
  }

  ghost function Nodes(children: seq<string>): set<LockNode>
  {
    set c | c in children :: Parse(c)
  }

  /** What a finished prefix of the scan has established. */
  ghost predicate ScanProgress(
    done: seq<string>, mine: LockNode, previous: Option<string>, threshold: Threshold)
  {
    match previous
    case None =>
      threshold == Number(0) && forall c :: c in done ==> !Seen(Parse(c), mine)
    case Some(p) =>
      && threshold == Text(Suffix(p))
      && p in done && Seen(Parse(p), mine)
      && forall c :: c in done && Seen(Parse(c), mine) ==> Parse(c).number <= Parse(p).number
  }

  lemma CompareNames(a: string, b: string)
    requires IsLockName(a) && IsLockName(b)
    ensures StringLess(Suffix(a), Suffix(b)) <==> Parse(a).number < Parse(b).number
    ensures DecimalValue(Suffix(a)) == Parse(a).number
    ensures a != "" && (a[0] == 'w' <==> Parse(a).mode == Write)
  {
    var m: LockNode :| m.number < SEQUENCE_LIMIT && a == Name(m);
    var n: LockNode :| n.number < SEQUENCE_LIMIT && b == Name(n);
    NameRoundTrip(m);
    NameRoundTrip(n);
    SuffixOrder(m, n);
  }

  /** One element: it replaces the running maximum exactly when it is a greater node the scan can see. */
  lemma ScanStep(done: seq<string>, element: string, target: string,
                 previous: Option<string>, threshold: Threshold)
    requires AllLockNames(done) && IsLockName(element) && IsLockName(target)
    requires ScanProgress(done, Parse(target), previous, threshold)
    ensures var taken := (Parse(target).mode == Write || element[0] == 'w')
                         && Exceeds(Suffix(element), threshold) && StringLess(Suffix(element), Suffix(target));
            if taken then ScanProgress(done + [element], Parse(target), Some(element), Text(Suffix(element)))
            else ScanProgress(done + [element], Parse(target), previous, threshold)
  {
    CompareNames(element, target);
    if previous.Some? {
      assert IsLockName(previous.value);
      CompareNames(previous.value, element);
    }
  }

  method FindNextElemToBeWatchedWriteCase(children: seq<string>, target: string) returns (found: Option<string>)
    requires AllLockNames(children) && IsLockName(target) && Parse(target).mode == Write
    ensures found.Some? ==> found.value in children
    ensures IsScanResult(Nodes(children), Parse(target), if found.Some? then Some(Parse(found.value)) else None)
  {
    var previous := None;
    var previousValue := Number(0);
    var targetValue := Suffix(target);
    for i := 0 to |children|
      invariant ScanProgress(children[..i], Parse(target), previous, previousValue)
    {
      var element := children[i];
      assert IsLockName(element) && AllLockNames(children[..i]);
      var elemValue := Suffix(element);
      ScanStep(children[..i], element, target, previous, previousValue);
      assert children[..i + 1] == children[..i] + [element];
      if Exceeds(elemValue, previousValue) && StringLess(elemValue, targetValue) {
        previousValue := Text(elemValue);
        previous := Some(element);
      }
    }
    assert children[..|children|] == children;
    if previous == Some(target) {
      return None;
    }
    return previous;
  }

  method FindNextElemToBeWatchedReadCase(children: seq<string>, target: string) returns (found: Option<string>)
    requires AllLockNames(children) && IsLockName(target) && Parse(target).mode == Read
    ensures found.Some? ==> found.value in children
    ensures IsScanResult(Nodes(children), Parse(target), if found.Some? then Some(Parse(found.value)) else None)
  {
    var previous := None;
    var previousValue := Number(0);
    var targetValue := Suffix(target);
    for i := 0 to |children|
      invariant ScanProgress(children[..i], Parse(target), previous, previousValue)
    {
      var element := children[i];
      assert IsLockName(element) && AllLockNames(children[..i]);
      CompareNames(element, element);
      ScanStep(children[..i], element, target, previous, previousValue);
      assert children[..i + 1] == children[..i] + [element];
      if element[0] == 'w' {
        var elemValue := Suffix(element);
        if Exceeds(elemValue, previousValue) && StringLess(elemValue, targetValue) {
          previousValue := Text(elemValue);
          previous := Some(element);
        }
      }
    }
    assert children[..|children|] == children;
    if previous == Some(target) {
      return None;
    }
    return previous;
  }

  /** The scan grants what the recipe grants, except when the only blocking nodes left have number 0. */
  lemma ScanAgreesWithRecipe(view: set<LockNode>, mine: LockNode, found: Option<LockNode>)
    requires IsScanResult(view, mine, found)
    ensures (found.None? <==> forall n :: n in view ==> !Blocks(n, mine))
       <==> ((exists n :: n in view && Blocks(n, mine) && n.number == 0)
             ==> exists n :: n in view && Blocks(n, mine) && n.number > 0)
  {
    if found.Some? {
      assert Blocks(found.value, mine);
    }
  }

  /** Readers share and writers do not: a read lock is granted when no write lock from number 1 on is before it, a
      write lock when no lock at all is; otherwise the scan finds the last one to wait for. */
  lemma ReadersShare(view: set<LockNode>, mine: LockNode, found: Option<LockNode>)
    requires IsScanResult(view, mine, found)
    ensures mine.mode == Read ==>
              (found == None <==> forall n :: n in view && n.mode == Write && n.number > 0 ==> n.number >= mine.number)
    ensures mine.mode == Write ==>
              (found == None <==> forall n :: n in view && n.number > 0 ==> n.number >= mine.number)
    ensures found.Some? ==>
              && found.value in view && 0 < found.value.number < mine.number
              && (mine.mode == Read ==> found.value.mode == Write)
              && forall n :: n in view && n.number < mine.number && (mine.mode == Write || n.mode == Write) ==>
                   n.number <= found.value.number
  {
    if found.None? {
      assert forall n :: n in view ==> !Seen(n, mine);
    }
  }

  /** Some scan result exists for every snapshot. */
  lemma {:induction false} ScanResultExists(view: set<LockNode>, mine: LockNode) returns (found: Option<LockNode>)
    ensures IsScanResult(view, mine, found)
  {
    if view == {} {
      return None;
    }
    var n :| n in view;
    found := ScanResultExists(view - {n}, mine);
    assert view == (view - {n}) + {n};
    if Seen(n, mine) && (found.None? || found.value.number < n.number) {
      found := Some(n);
    }
  }
}
