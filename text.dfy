/** The few Python `str` operations the core relies on: `lower()` (on ASCII letters),
    `strip()`, the `in` substring test, `count`, `split` and slicing. */
module Text {

  /** Python's `str.lower()` on one character, for the ASCII upper-case letters. */
  function LowerChar(c: char): char
  {
    if 'A' <= c <= 'Z' then (c as int + 32) as char else c
  }

  /** Python's `str.lower()`. */
  function Lower(s: string): (r: string)
    ensures |r| == |s|
    ensures forall i :: 0 <= i < |s| ==> r[i] == LowerChar(s[i])
  {
    seq(|s|, i requires 0 <= i < |s| => LowerChar(s[i]))
  }

  /** The characters Python's `str.strip()` removes: those for which `str.isspace()` holds,
      namely the ASCII tab to carriage return, the four separators `\x1c` to `\x1f` and the
      space, and the Unicode spaces and line or paragraph separators. */
  predicate IsSpace(c: char)
  {
    || c == ' ' || '\t' <= c <= '\r' || '\U{1C}' <= c <= '\U{1F}'
    || c == '\U{85}' || c == '\U{A0}' || c == '\U{1680}' || '\U{2000}' <= c <= '\U{200A}'
    || c == '\U{2028}' || c == '\U{2029}' || c == '\U{202F}' || c == '\U{205F}' || c == '\U{3000}'
  }

  function TrimLeft(s: string): (r: string)
    ensures |r| <= |s| && r == s[|s| - |r|..]
    decreases |s|
  {
    if s != [] && IsSpace(s[0]) then
      var r := TrimLeft(s[1..]);
      assert s[1..][|s| - 1 - |r|..] == s[|s| - |r|..];
      r
    else s
  }

  function TrimRight(s: string): (r: string)
    ensures |r| <= |s| && r == s[..|r|]
    decreases |s|
  {
    if s != [] && IsSpace(s[|s| - 1]) then
      var r := TrimRight(s[..|s| - 1]);
      assert s[..|s| - 1][..|r|] == s[..|r|];
      r
    else s
  }

  /** Python's `str.strip()`. */
  function Strip(s: string): (r: string)
    ensures forall c | c in r :: c in s
  {
    var l := TrimLeft(s);
    assert forall c | c in TrimRight(l) :: c in l;
    TrimRight(l)
  }

  predicate StartsWith(s: string, p: string)
  {
    |p| <= |s| && s[..|p|] == p
  }

  /** `p` occurs in `s` starting at index `i`. */
  predicate OccursAt(s: string, p: string, i: int)
  {
    0 <= i && i + |p| <= |s| && s[i..i + |p|] == p
  }

  /** Python's `p in s` for strings. */
  predicate Contains(s: string, p: string)
    decreases |s|
  {
    StartsWith(s, p) || (s != [] && Contains(s[1..], p))
  }

  /** Python's `any(p in s for p in pats)`. */
  predicate ContainsAny(s: string, pats: seq<string>)
  {
    exists p | p in pats :: Contains(s, p)
  }

  /** `Contains` agrees with the positional definition of a substring. */
  lemma {:induction false} ContainsIff(s: string, p: string)
    ensures Contains(s, p) <==> exists i :: OccursAt(s, p, i)
    decreases |s|
  {
    assert OccursAt(s, p, 0) <==> StartsWith(s, p);
    if s != [] {
      ContainsIff(s[1..], p);
      if exists i :: OccursAt(s, p, i) && i > 0 {
        var i :| OccursAt(s, p, i) && i > 0;
        assert s[1..][i - 1..i - 1 + |p|] == s[i..i + |p|];
        assert OccursAt(s[1..], p, i - 1);
      }
      if exists j :: OccursAt(s[1..], p, j) {
        var j :| OccursAt(s[1..], p, j);
        assert s[1..][j..j + |p|] == s[j + 1..j + 1 + |p|];
        assert OccursAt(s, p, j + 1);
      }
    }
  }

  /** A string that contains `p` contains every character of `p`. */
  lemma ContainsChar(s: string, p: string, k: int)
    requires Contains(s, p) && 0 <= k < |p|
    ensures p[k] in s
  {
    ContainsIff(s, p);
    var i :| OccursAt(s, p, i);
    assert s[i..i + |p|][k] == s[i + k];
  }

  /** Python's `s.count(c)` for a single character. */
  function Count(s: string, c: char): nat
    decreases |s|
  {
    if s == [] then 0 else (if s[0] == c then 1 else 0) + Count(s[1..], c)
  }

  /** Python's `s.split(c)[-1]`: the text after the last `c`, or all of `s` when `c` does not occur. */
  function LastSegment(s: string, c: char): (r: string)
    ensures |r| <= |s| && r == s[|s| - |r|..]
    ensures c !in r
    ensures c !in s ==> r == s
    decreases |s|
  {
    if s == [] then []
    else if s[|s| - 1] == c then []
    else
      var init := LastSegment(s[..|s| - 1], c);
      assert s[..|s| - 1][|s| - 1 - |init|..] + [s[|s| - 1]] == s[|s| - |init| - 1..];
      init + [s[|s| - 1]]
  }

  /** Python's slice `s[:n]`. */
  function Take<T>(s: seq<T>, n: nat): (r: seq<T>)
    ensures |r| == if n < |s| then n else |s|
    ensures |r| <= |s| && r == s[..|r|]
  {
    if n < |s| then s[..n] else s
  }

  function Digit(d: nat): char
    requires d < 10
  {
    ('0' as int + d) as char
  }

  /** Python's `str(n)` for a non-negative integer. */
  function Decimal(n: nat): (r: string)
    ensures r != [] && forall c | c in r :: '0' <= c <= '9'
    decreases n
  {
    if n < 10 then [Digit(n)] else Decimal(n / 10) + [Digit(n % 10)]
  }

  /** The decimal rendering tells numbers apart. */
  lemma {:induction false} DecimalInjective(a: nat, b: nat)
    requires Decimal(a) == Decimal(b)
    ensures a == b
    decreases a
  {
    var da, db := Decimal(a), Decimal(b);
    if a < 10 && b < 10 {
      assert da[0] == Digit(a) && db[0] == Digit(b);
    } else if 10 <= a && 10 <= b {
      assert da[|da| - 1] == Digit(a % 10) && db[|db| - 1] == Digit(b % 10);
      assert da[..|da| - 1] == Decimal(a / 10) && db[..|db| - 1] == Decimal(b / 10);
      DecimalInjective(a / 10, b / 10);
    }
  }

  predicate IsUpper(c: char)
  {
    'A' <= c <= 'Z'
  }

  /** Lower-casing leaves no upper-case letter behind. */
  lemma LowerHasNoUpper(s: string, c: char)
    requires c in Lower(s)
    ensures !IsUpper(c)
  {
    var j :| 0 <= j < |Lower(s)| && Lower(s)[j] == c;
    assert c == LowerChar(s[j]);
  }

  /** A pattern holding an upper-case letter never occurs in a lower-cased string: comparing it
      against `s.lower()` can only fail. */
  lemma UpperPatternNeverMatches(s: string, p: string, k: int)
    requires 0 <= k < |p| && IsUpper(p[k])
    ensures !Contains(Lower(s), p)
  {
    if Contains(Lower(s), p) {
      ContainsChar(Lower(s), p, k);
      LowerHasNoUpper(s, p[k]);
    }
  }

  /** Lower-casing twice is lower-casing once. */
  lemma LowerIdempotent(s: string)
    ensures Lower(Lower(s)) == Lower(s)
  {
    assert forall i | 0 <= i < |s| :: Lower(Lower(s))[i] == LowerChar(LowerChar(s[i])) == LowerChar(s[i]);
  }

  /** Appending a character other than the separator extends the last segment by it. */
  lemma LastSegmentExtend(s: string, x: char, sep: char)
    requires x != sep
    ensures LastSegment(s + [x], sep) == LastSegment(s, sep) + [x]
  {
    assert (s + [x])[..|s|] == s;
  }

  /** The last segment of `s`, the separator and a separator-free `d` is `d`. */
  lemma {:induction false} LastSegmentAfter(s: string, sep: char, d: string)
    requires sep !in d
    ensures LastSegment(s + [sep] + d, sep) == d
    decreases |d|
  {
    if d == [] {
      assert s + [sep] + d == s + [sep];
    } else {
      var init := d[..|d| - 1];
      LastSegmentAfter(s, sep, init);
      assert s + [sep] + d == (s + [sep] + init) + [d[|d| - 1]];
      LastSegmentExtend(s + [sep] + init, d[|d| - 1], sep);
      assert init + [d[|d| - 1]] == d;
    }
  }
}
