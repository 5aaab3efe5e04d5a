/** Python list operations the model relies on: slicing with Python's bound
    rules, order-preserving filtering (list comprehensions with an `if`), and
    the subsequence relation that filtering establishes. */
module Lists {

  /** Normalises one bound of a Python slice `s[lo:hi]` for a sequence of
      length n: a negative bound counts from the end, and the result is
      clamped into 0..n. */
  function Clamp(i: int, n: nat): (r: nat)
    ensures r <= n
    ensures 0 <= i <= n ==> r == i
    ensures i > n ==> r == n
  {
    if i < 0 then (if i + n < 0 then 0 else i + n)
    else if i > n then n
    else i
  }

  /** Python's `s[lo:hi]`. */
  function Slice<T>(s: seq<T>, lo: int, hi: int): seq<T>
  {
    var a := Clamp(lo, |s|);
    var b := Clamp(hi, |s|);
    if a < b then s[a..b] else []
  }

  /** Python's `s[:hi]`. */
  function Take<T>(s: seq<T>, hi: int): (r: seq<T>)
    ensures 0 <= hi ==> r == s[..if hi <= |s| then hi else |s|]
    ensures hi < 0 ==> r == s[..if |s| + hi < 0 then 0 else |s| + hi]
  {
    Slice(s, 0, hi)
  }

  /** Python's `s[lo:]`. */
  function Drop<T>(s: seq<T>, lo: int): (r: seq<T>)
    ensures 0 <= lo <= |s| ==> r == s[lo..]
  {
    Slice(s, lo, |s|)
  }

  /** `[x for x in s if p(x)]`. */
  function Filter<T(!new)>(s: seq<T>, p: T -> bool): (r: seq<T>)
    ensures |r| <= |s|
    ensures forall x :: x in r <==> x in s && p(x)
    ensures forall k :: 0 <= k < |r| ==> p(r[k])
  {
    if s == [] then []
    else (if p(s[0]) then [s[0]] else []) + Filter(s[1..], p)
  }

  /** a is obtained from b by deleting elements, keeping the order of the rest. */
  predicate IsSubsequence<T(==)>(a: seq<T>, b: seq<T>)
    decreases |b|
  {
    a == [] || (b != [] && ((a[0] == b[0] && IsSubsequence(a[1..], b[1..])) || IsSubsequence(a, b[1..])))
  }

  /** The subsequence relation is transitive. */
  lemma {:induction false} SubsequenceTrans<T>(a: seq<T>, b: seq<T>, c: seq<T>)
    requires IsSubsequence(a, b) && IsSubsequence(b, c)
    ensures IsSubsequence(a, c)
    decreases |c|
  {
    if a != [] {
      if IsSubsequence(b, c[1..]) {
        SubsequenceTrans(a, b, c[1..]);
      } else if a[0] == b[0] && IsSubsequence(a[1..], b[1..]) {
        SubsequenceTrans(a[1..], b[1..], c[1..]);
      } else {
        SubsequenceTrans(a, b[1..], c[1..]);
      }
    }
  }

  lemma {:induction false} FilterIsSubsequence<T(!new)>(s: seq<T>, p: T -> bool)
    ensures IsSubsequence(Filter(s, p), s)
  {
    if s != [] {
      FilterIsSubsequence(s[1..], p);
      if p(s[0]) {
        assert Filter(s, p)[0] == s[0] && Filter(s, p)[1..] == Filter(s[1..], p);
      } else {
        assert Filter(s, p) == Filter(s[1..], p);
      }
    }
  }

  /** Two filters with complementary conditions split s between them. */
  lemma {:induction false} FilterSplitsLength<T(!new)>(s: seq<T>, p: T -> bool, q: T -> bool)
    requires forall k :: 0 <= k < |s| ==> (p(s[k]) <==> !q(s[k]))
    ensures |Filter(s, p)| + |Filter(s, q)| == |s|
  {
    if s != [] {
      assert forall k :: 0 <= k < |s[1..]| ==> s[1..][k] == s[k + 1];
      FilterSplitsLength(s[1..], p, q);
    }
  }
}
