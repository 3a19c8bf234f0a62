/** Facts about sequences as multisets. */
module Bags {
  function Without<T>(s: seq<T>, i: nat): seq<T>
    requires i < |s|
  {
    s[..i] + s[i + 1..]
  }

  lemma TakeOne<T>(s: seq<T>, i: nat)
    requires i < |s|
    ensures multiset(s) == multiset(Without(s, i)) + multiset{s[i]}
  {
    assert s == s[..i] + [s[i]] + s[i + 1..];
  }

  lemma OneMore<T>(s: seq<T>, last: T, x: T)
    ensures multiset(s + [last])[x] == multiset(s)[x] + if x == last then 1 else 0
  {
  }

  /** Taking one element out of both sides keeps inclusion and equality. */
  lemma TakeSame<T>(a: seq<T>, i: nat, b: seq<T>, j: nat)
    requires i < |a| && j < |b| && a[i] == b[j] && multiset(a) <= multiset(b)
    ensures multiset(Without(a, i)) <= multiset(Without(b, j))
    ensures multiset(a) == multiset(b) ==> multiset(Without(a, i)) == multiset(Without(b, j))
  {
    TakeOne(a, i);
    TakeOne(b, j);
    var x, p, q := multiset{a[i]}, multiset(Without(a, i)), multiset(Without(b, j));
    forall e: T ensures p[e] <= q[e] && (multiset(a) == multiset(b) ==> p[e] == q[e]) {
      assert (p + x)[e] <= (q + x)[e];
    }
  }

  /** An element of a smaller multiset is found in the larger one. */
  lemma FindSame<T>(a: seq<T>, i: nat, b: seq<T>) returns (j: nat)
    requires i < |a| && multiset(a) <= multiset(b)
    ensures j < |b| && b[j] == a[i]
  {
    assert a[i] in multiset(a) && a[i] in multiset(b);
    j :| 0 <= j < |b| && b[j] == a[i];
  }
}
