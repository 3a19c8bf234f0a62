/**
 The names of the lock nodes: "rlock-" or "wlock-" followed by a ten-digit, zero-padded sequence
 number (ZooKeeper's ZOO_SEQUENCE suffix).  The lock code compares these suffixes with JavaScript's
 `<` and `>`, on strings against strings and on strings against the number 0.
 */
module LockNames {

  datatype Mode = Read | Write

  datatype LockNode = LockNode(mode: Mode, number: nat)

  const PREFIX_LENGTH := 6
  const SUFFIX_LENGTH := 10
  const SEQUENCE_LIMIT := 10_000_000_000

  function PowerOfTen(width: nat): (p: nat)
    ensures p >= 1
  {
    if width == 0 then 1 else 10 * PowerOfTen(width - 1)
  }

  function DigitChar(d: nat): char
    requires d < 10
  {
    '0' + d as char
  }

  function DigitValue(c: char): nat
  {
    if '0' <= c <= '9' then (c - '0') as nat else 0
  }

  /** The decimal digits of n, padded with zeros on the left up to the given width. */
  function Padded(n: nat, width: nat): (s: string)
    ensures |s| == width
    ensures forall c :: c in s ==> '0' <= c <= '9'
  {
    if width == 0 then "" else Padded(n / 10, width - 1) + [DigitChar(n % 10)]
  }

  /** JavaScript's Number() on a string of decimal digits. */
  function DecimalValue(s: string): nat
  {
    if s == "" then 0 else 10 * DecimalValue(s[..|s| - 1]) + DigitValue(s[|s| - 1])
  }

  /** JavaScript's `a < b` on two strings: lexicographic on character codes. */
  predicate StringLess(a: string, b: string)
  {
    if b == "" then false
    else if a == "" then true
    else a[0] < b[0] || (a[0] == b[0] && StringLess(a[1..], b[1..]))
  }

  function Prefix(mode: Mode): (p: string)
    ensures |p| == PREFIX_LENGTH
  {
    match mode
    case Read => "rlock-"
    case Write => "wlock-"
  }

  /** The name ZooKeeper gives to a lock node. */
  function Name(node: LockNode): string
  {
    Prefix(node.mode) + Padded(node.number, SUFFIX_LENGTH)
  }

  /** JavaScript's `name.substring(6)`. */
  function Suffix(name: string): string
  {
    if |name| < PREFIX_LENGTH then "" else name[PREFIX_LENGTH..]
  }

  ghost predicate IsLockName(name: string)
  {
    exists node: LockNode :: node.number < SEQUENCE_LIMIT && name == Name(node)
  }

  /** The node a name stands for. */
  function Parse(name: string): LockNode
  {
    LockNode(if name != "" && name[0] == 'w' then Write else Read, DecimalValue(Suffix(name)))
  }

  lemma {:induction false} PaddedValue(n: nat, width: nat)
    requires n < PowerOfTen(width)
    ensures DecimalValue(Padded(n, width)) == n
  {
    if width > 0 {
      PaddedValue(n / 10, width - 1);
      var s := Padded(n, width);
      assert s[..|s| - 1] == Padded(n / 10, width - 1);
    }
  }

  /** Names are an injective encoding of nodes. */
  lemma NameRoundTrip(node: LockNode)
    requires node.number < SEQUENCE_LIMIT
    ensures Parse(Name(node)) == node
    ensures Name(node)[0] == 'w' <==> node.mode == Write
    ensures Suffix(Name(node)) == Padded(node.number, SUFFIX_LENGTH)
  {
    assert PowerOfTen(10) == SEQUENCE_LIMIT by {
      assert PowerOfTen(5) == 100_000;
      assert PowerOfTen(8) == 100_000_000;
    }
    PaddedValue(node.number, SUFFIX_LENGTH);
    assert Suffix(Name(node)) == Padded(node.number, SUFFIX_LENGTH);
  }

  lemma ManyZeros()
    ensures Padded(0, 8) == "00000000" && Padded(0, 10) == "0000000000"
  {
    assert Padded(0, 4) == "0000";
    assert Padded(0, 8) == Padded(0, 4) + "0000";
  }

  /** What the names look like. */
  lemma FirstNames()
    ensures Name(LockNode(Read, 0)) == "rlock-0000000000"
    ensures Name(LockNode(Write, 17)) == "wlock-0000000017"
  {
    ManyZeros();
    assert Padded(1, 9) == Padded(0, 8) + "1";
    assert Padded(17, 10) == Padded(1, 9) + "7";
  }

  lemma {:induction false} StringLessSnoc(a: string, b: string, c: char, d: char)
    requires |a| == |b|
    ensures StringLess(a + [c], b + [d]) <==> StringLess(a, b) || (a == b && c < d)
  {
    if a == "" {
      assert (a + [c])[1..] == "" && (b + [d])[1..] == "";
    } else {
      StringLessSnoc(a[1..], b[1..], c, d);
      assert (a + [c])[1..] == a[1..] + [c];
      assert (b + [d])[1..] == b[1..] + [d];
      assert a == [a[0]] + a[1..] && b == [b[0]] + b[1..];
    }
  }

  /** On zero-padded suffixes of one width, string order is numeric order. */
  lemma {:induction false} PaddedOrder(m: nat, n: nat, width: nat)
    requires m < PowerOfTen(width) && n < PowerOfTen(width)
    ensures StringLess(Padded(m, width), Padded(n, width)) <==> m < n
  {
    if width > 0 {
      PaddedOrder(m / 10, n / 10, width - 1);
      PaddedValue(m / 10, width - 1);
      PaddedValue(n / 10, width - 1);
      StringLessSnoc(Padded(m / 10, width - 1), Padded(n / 10, width - 1), DigitChar(m % 10), DigitChar(n % 10));
    }
  }

  lemma SuffixOrder(a: LockNode, b: LockNode)
    requires a.number < SEQUENCE_LIMIT && b.number < SEQUENCE_LIMIT
    ensures StringLess(Suffix(Name(a)), Suffix(Name(b))) <==> a.number < b.number
  {
    NameRoundTrip(a);
    NameRoundTrip(b);
    assert PowerOfTen(5) == 100_000;
    assert PowerOfTen(8) == 100_000_000;
    PaddedOrder(a.number, b.number, SUFFIX_LENGTH);
  }
}
