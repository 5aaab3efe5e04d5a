/** The Python `str` operations that the parsers and command builders use,
    with Python's semantics: `startswith`, `find`, `in`, slicing, `strip()`,
    `int()` on a string, `split(' ')`, `join` and `'%s' % n` for integers. */
module Text {
  import opened Lists

  /** `s.startswith(prefix)`. */
  predicate StartsWith(s: string, prefix: string)
  {
    |prefix| <= |s| && s[..|prefix|] == prefix
  }

  /** Appending to a string keeps what it starts with. */
  lemma StartsWithExtend(s: string, p: string, rest: string)
    requires StartsWith(s, p)
    ensures StartsWith(s + rest, p)
  {
    assert (s + rest)[..|p|] == s[..|p|];
  }

  /** sub occurs in s starting at index i. */
  predicate OccursAt(s: string, sub: string, i: int)
  {
    0 <= i && i + |sub| <= |s| && s[i..i + |sub|] == sub
  }

  function FindFrom(s: string, sub: string, from: nat): (r: int)
    decreases |s| + 1 - from
    ensures r == -1 || (from <= r && OccursAt(s, sub, r))
    ensures forall j :: from <= j && (r == -1 || j < r) ==> !OccursAt(s, sub, j)
  {
    if from + |sub| > |s| then -1
    else if s[from..from + |sub|] == sub then from
    else FindFrom(s, sub, from + 1)
  }

  /** `s.find(sub)`: the lowest index where sub occurs, or -1. */
  function Find(s: string, sub: string): (r: int)
    ensures -1 <= r <= |s|
    ensures r >= 0 ==> OccursAt(s, sub, r)
    ensures forall j :: 0 <= j && (r == -1 || j < r) ==> !OccursAt(s, sub, j)
  {
    FindFrom(s, sub, 0)
  }

  /** `sub in s`. */
  predicate Contains(s: string, sub: string)
  {
    Find(s, sub) >= 0
  }

  /** When the first occurrence of u in p + u + b can only be the one after
      p, `find` returns |p|. */
  lemma FindAfterPrefix(p: string, u: string, b: string)
    requires |u| > 0 && !Contains(p + u[..|u| - 1], u)
    ensures Find(p + u + b, u) == |p|
  {
    var s := p + u + b;
    var q := p + u[..|u| - 1];
    assert OccursAt(s, u, |p|) by { assert s[|p|..|p| + |u|] == u; }
    assert s[..|q|] == q by {
      assert forall k :: 0 <= k < |q| ==> s[k] == q[k];
    }
    forall j | 0 <= j < |p|
      ensures !OccursAt(s, u, j)
    {
      assert s[j..j + |u|] == s[..|q|][j..j + |u|];
      assert !OccursAt(q, u, j);
    }
  }

  /** A string without the character c does not contain [c]. */
  lemma NotContainsChar(s: string, c: char)
    requires forall k :: 0 <= k < |s| ==> s[k] != c
    ensures !Contains(s, [c])
  {
    forall k | 0 <= k < |s|
      ensures !OccursAt(s, [c], k)
    {
      assert s[k..k + 1] == [s[k]];
    }
  }

  /** A string without the first character of sub does not contain sub. */
  lemma NotContainsHead(s: string, sub: string)
    requires |sub| > 0 && forall k :: 0 <= k < |s| ==> s[k] != sub[0]
    ensures !Contains(s, sub)
  {
    forall k | 0 <= k < |s|
      ensures !OccursAt(s, sub, k)
    {
      if k + |sub| <= |s| {
        assert s[k..k + |sub|][0] == s[k];
      }
    }
  }

  /** The characters `str.strip()` removes (those for which `str.isspace()` holds). */
  predicate IsSpace(c: char)
  {
    var n := c as int;
    (9 <= n <= 13) || (28 <= n <= 32) || n == 0x85 || n == 0xA0 || n == 0x1680
    || (0x2000 <= n <= 0x200A) || n == 0x2028 || n == 0x2029 || n == 0x202F
    || n == 0x205F || n == 0x3000
  }

  function LStrip(s: string): (r: string)
    ensures |r| <= |s|
    ensures r == [] || !IsSpace(r[0])
  {
    if s != [] && IsSpace(s[0]) then LStrip(s[1..]) else s
  }

  function RStrip(s: string): (r: string)
    ensures |r| <= |s| && r == s[..|r|]
    ensures r == [] || !IsSpace(r[|r| - 1])
  {
    if s != [] && IsSpace(s[|s| - 1]) then RStrip(s[..|s| - 1]) else s
  }

  /** `s.strip()`: s without its leading and trailing whitespace. */
  function Strip(s: string): (t: string)
    ensures |t| <= |s|
    ensures t == [] || (!IsSpace(t[0]) && !IsSpace(t[|t| - 1]))
  {
    RStrip(LStrip(s))
  }

  /** `lstrip` removes a prefix of whitespace. */
  lemma {:induction false} LStripTrims(s: string) returns (i: nat)
    ensures i <= |s| && LStrip(s) == s[i..]
    ensures forall k :: 0 <= k < i ==> IsSpace(s[k])
    decreases |s|
  {
    if s != [] && IsSpace(s[0]) {
      var i1 := LStripTrims(s[1..]);
      i := i1 + 1;
      assert s[1..][i1..] == s[i..];
      assert forall k :: 1 <= k < i ==> s[k] == s[1..][k - 1];
    } else {
      i := 0;
    }
  }

  /** `rstrip` removes a suffix of whitespace. */
  lemma {:induction false} RStripTrims(s: string) returns (j: nat)
    ensures j <= |s| && RStrip(s) == s[..j]
    ensures forall k :: j <= k < |s| ==> IsSpace(s[k])
    decreases |s|
  {
    if s != [] && IsSpace(s[|s| - 1]) {
      j := RStripTrims(s[..|s| - 1]);
      assert s[..|s| - 1][..j] == s[..j];
      assert forall k :: j <= k < |s| - 1 ==> s[k] == s[..|s| - 1][k];
    } else {
      j := |s|;
    }
  }

  /** `strip` removes exactly the whitespace around the text: the result
      is the slice s[i..j], everything before i and from j on is
      whitespace, and the slice neither starts nor ends with whitespace. */
  lemma StripTrims(s: string) returns (i: nat, j: nat)
    ensures i <= j <= |s| && Strip(s) == s[i..j]
    ensures forall k :: 0 <= k < i ==> IsSpace(s[k])
    ensures forall k :: j <= k < |s| ==> IsSpace(s[k])
    ensures i < j ==> !IsSpace(s[i]) && !IsSpace(s[j - 1])
  {
    i := LStripTrims(s);
    var n := RStripTrims(s[i..]);
    j := i + n;
    assert s[i..][..n] == s[i..j];
    assert forall k :: j <= k < |s| ==> s[k] == s[i..][k - i];
  }

  /** A string that neither starts nor ends with whitespace is its own strip. */
  lemma StripNoSpace(s: string)
    requires s == [] || (!IsSpace(s[0]) && !IsSpace(s[|s| - 1]))
    ensures Strip(s) == s
  {
  }

  predicate IsDigit(c: char)
  {
    '0' <= c <= '9'
  }

  predicate AllDigits(s: string)
  {
    forall k :: 0 <= k < |s| ==> IsDigit(s[k])
  }

  function DigitsValue(d: string): nat
    requires AllDigits(d)
  {
    if d == [] then 0 else DigitsValue(d[..|d| - 1]) * 10 + (d[|d| - 1] as int - '0' as int)
  }

  /** `int(s)` for a string argument: surrounding whitespace, an optional
      sign and one or more digits; None stands for the ValueError. */
  function ParseInt(s: string): Option<int>
  {
    var t := Strip(s);
    if |t| > 1 && (t[0] == '-' || t[0] == '+') && AllDigits(t[1..]) then
      var v: int := DigitsValue(t[1..]);
      Some(if t[0] == '-' then -v else v)
    else if |t| > 0 && AllDigits(t) then Some(DigitsValue(t))
    else None
  }

  datatype Option<T> = None | Some(value: T)

  function DigitChar(d: nat): char
    requires d < 10
  {
    ('0' as int + d) as char
  }

  /** Decimal digits of n, as `'%s' % n` writes a non-negative int. */
  function FormatNat(n: nat): (r: string)
    ensures |r| > 0 && AllDigits(r)
    ensures DigitsValue(r) == n
  {
    if n < 10 then [DigitChar(n)]
    else
      var p := FormatNat(n / 10);
      var r := p + [DigitChar(n % 10)];
      assert r[..|r| - 1] == p;
      r
  }

  /** `'%s' % i` for an int. */
  function FormatInt(i: int): (r: string)
    ensures |r| > 0
  {
    if i < 0 then "-" + FormatNat(-i) else FormatNat(i)
  }

  /** `int()` reads back what `'%s'` writes. */
  lemma ParseFormatInt(i: int)
    ensures ParseInt(FormatInt(i)) == Some(i)
  {
    var f := FormatInt(i);
    assert !IsSpace(f[0]) && !IsSpace(f[|f| - 1]);
    StripNoSpace(f);
    if i < 0 {
      assert f[1..] == FormatNat(-i);
    }
  }

  /** `s.split(sep)` for a one-character separator: the pieces between
      separators, empty pieces included. */
  function Split(s: string, sep: char): (r: seq<string>)
    ensures |r| >= 1
    ensures forall k :: 0 <= k < |r| ==> sep !in r[k]
  {
    if s == [] then [""]
    else
      var rest := Split(s[1..], sep);
      if s[0] == sep then [""] + rest else [[s[0]] + rest[0]] + rest[1..]
  }

  /** `sep.join(parts)`. */
  function Join(parts: seq<string>, sep: string): string
  {
    if parts == [] then ""
    else if |parts| == 1 then parts[0]
    else parts[0] + sep + Join(parts[1..], sep)
  }

  /** Joining the pieces of `split` with the separator gives back the string. */
  lemma {:induction false} JoinSplit(s: string, sep: char)
    ensures Join(Split(s, sep), [sep]) == s
  {
    if s != [] {
      var rest := Split(s[1..], sep);
      JoinSplit(s[1..], sep);
      if s[0] == sep {
        assert Split(s, sep) == [""] + rest;
        assert ([""] + rest)[1..] == rest;
      } else {
        var r := [[s[0]] + rest[0]] + rest[1..];
        assert Split(s, sep) == r;
        if |rest| == 1 {
          assert Join(r, [sep]) == [s[0]] + rest[0];
        } else {
          assert r[1..] == rest[1..];
          assert Join(rest, [sep]) == rest[0] + [sep] + Join(rest[1..], [sep]);
        }
      }
    }
  }
}
