/**
  String primitives the TypeScript sources lean on: the ECMAScript
  whitespace set (used by `String.prototype.trim` and by `\s` in regular
  expressions), `toLowerCase` restricted to the Basic Latin and Latin-1
  letters, `trim`, `includes`, `startsWith`, and decimal rendering of
  non-negative integers.
*/
module Text {

  /** The characters ECMAScript counts as WhiteSpace or LineTerminator. */
  predicate IsWhite(c: char)
  {
    c == '\t' || c == '\n' || c == '\U{000B}' || c == '\U{000C}' || c == '\r' || c == ' '
    || c == '\U{00A0}' || c == '\U{1680}' || ('\U{2000}' <= c <= '\U{200A}')
    || c == '\U{2028}' || c == '\U{2029}' || c == '\U{202F}' || c == '\U{205F}'
    || c == '\U{3000}' || c == '\U{FEFF}'
  }

  predicate IsDigit(c: char)
  {
    '0' <= c <= '9'
  }

  predicate IsUpper(c: char)
  {
    ('A' <= c <= 'Z') || ('À' <= c <= 'Þ' && c != '×')
  }

  /** `toLowerCase` on one character: A-Z and the Latin-1 capitals À-Þ (except ×). */
  function LowerChar(c: char): (r: char)
    ensures IsUpper(c) ==> r as int == c as int + 32 && !IsUpper(r)
    ensures !IsUpper(c) ==> r == c
    ensures IsWhite(r) <==> IsWhite(c)
    ensures IsDigit(r) <==> IsDigit(c)
  {
    if IsUpper(c) then (c as int + 32) as char else c
  }

  function Lower(s: string): (r: string)
    ensures |r| == |s|
    ensures forall i :: 0 <= i < |s| ==> r[i] == LowerChar(s[i])
  {
    seq(|s|, i requires 0 <= i < |s| => LowerChar(s[i]))
  }

  /** A string `toLowerCase` leaves as it is. */
  predicate IsLower(s: string)
  {
    forall i :: 0 <= i < |s| ==> !IsUpper(s[i])
  }

  lemma LowerIsLower(s: string)
    ensures IsLower(Lower(s))
  {
  }

  lemma LowerOfLower(s: string)
    requires IsLower(s)
    ensures Lower(s) == s
  {
  }

  function TrimStart(s: string): string
  {
    if s != [] && IsWhite(s[0]) then TrimStart(s[1..]) else s
  }

  /** `TrimStart` leaves a suffix that does not start with whitespace. */
  lemma {:induction false} TrimStartSuffix(s: string)
    ensures var r := TrimStart(s); |r| <= |s| && r == s[|s| - |r|..] && (r == [] || !IsWhite(r[0]))
  {
    if s != [] && IsWhite(s[0]) {
      TrimStartSuffix(s[1..]);
    }
  }

  /** `TrimStart` drops only whitespace. */
  lemma {:induction false} TrimStartDropsWhite(s: string)
    ensures forall i :: 0 <= i < |s| - |TrimStart(s)| ==> IsWhite(s[i])
  {
    if s != [] && IsWhite(s[0]) {
      TrimStartDropsWhite(s[1..]);
    }
  }

  function TrimEnd(s: string): string
  {
    if s != [] && IsWhite(s[|s| - 1]) then TrimEnd(s[..|s| - 1]) else s
  }

  /** `TrimEnd` leaves a prefix that does not end with whitespace. */
  lemma {:induction false} TrimEndPrefix(s: string)
    ensures var r := TrimEnd(s); |r| <= |s| && r == s[..|r|] && (r == [] || !IsWhite(r[|r| - 1]))
  {
    if s != [] && IsWhite(s[|s| - 1]) {
      TrimEndPrefix(s[..|s| - 1]);
    }
  }

  /** `TrimEnd` drops only whitespace. */
  lemma {:induction false} TrimEndDropsWhite(s: string)
    ensures forall i :: |TrimEnd(s)| <= i < |s| ==> IsWhite(s[i])
  {
    if s != [] && IsWhite(s[|s| - 1]) {
      TrimEndDropsWhite(s[..|s| - 1]);
    }
  }

  /** `String.prototype.trim`. */
  function Trim(s: string): (r: string)
  {
    TrimEnd(TrimStart(s))
  }

  /** No whitespace at either end. */
  predicate IsTrimmed(s: string)
  {
    s == [] || (!IsWhite(s[0]) && !IsWhite(s[|s| - 1]))
  }

  /** `r` sits at `a` in `s`, and every character of `s` before or after it is whitespace. */
  predicate WhiteAround(s: string, r: string, a: int)
  {
    OccursAt(s, r, a)
    && (forall i :: 0 <= i < a ==> IsWhite(s[i]))
    && (forall i :: a + |r| <= i < |s| ==> IsWhite(s[i]))
  }

  /** `piece` is a slice of `whole` with only whitespace around it. */
  ghost predicate InnerSlice(piece: string, whole: string)
  {
    exists a :: WhiteAround(whole, piece, a)
  }

  /** `trim` yields a trimmed slice of its input, dropping only whitespace. */
  lemma TrimSpec(s: string)
    ensures IsTrimmed(Trim(s))
    ensures WhiteAround(s, Trim(s), |s| - |TrimStart(s)|)
    ensures Trim(s) == [] <==> forall i :: 0 <= i < |s| ==> IsWhite(s[i])
  {
    var a := TrimSlice(s);
    TrimEmptyIffWhite(s, a);
    TrimDropsOnlyWhite(s, a);
  }

  /** What `TrimStart` and `TrimEnd` drop around the slice is whitespace. */
  lemma TrimDropsOnlyWhite(s: string, a: nat)
    requires a == |s| - |TrimStart(s)| && OccursAt(s, Trim(s), a)
    ensures WhiteAround(s, Trim(s), a)
  {
    var t := TrimStart(s);
    TrimStartSuffix(s);
    TrimStartDropsWhite(s);
    TrimEndDropsWhite(t);
    forall i | a + |Trim(s)| <= i < |s| ensures IsWhite(s[i]) {
      assert s[i] == t[i - a];
    }
  }

  /** Skipping leading whitespace up to the first other character. */
  lemma {:induction false} TrimStartSkipsWhite(s: string, a: nat)
    requires a < |s| && !IsWhite(s[a]) && forall i :: 0 <= i < a ==> IsWhite(s[i])
    ensures TrimStart(s) == s[a..]
  {
    if a > 0 {
      TrimStartSkipsWhite(s[1..], a - 1);
      assert s[1..][a - 1..] == s[a..];
    }
  }

  /** Skipping trailing whitespace back to the last other character. */
  lemma {:induction false} TrimEndSkipsWhite(t: string, b: nat)
    requires 0 < b <= |t| && !IsWhite(t[b - 1]) && forall i :: b <= i < |t| ==> IsWhite(t[i])
    ensures TrimEnd(t) == t[..b]
    decreases |t|
  {
    if b < |t| {
      TrimEndSkipsWhite(t[..|t| - 1], b);
      assert t[..|t| - 1][..b] == t[..b];
    } else {
      assert t[..b] == t;
    }
  }

  /** `TrimSpec` determines `trim`: a trimmed slice with only whitespace around it is `Trim(s)`. */
  lemma TrimUnique(s: string, r: string, a: int)
    requires IsTrimmed(r) && WhiteAround(s, r, a)
    ensures Trim(s) == r
  {
    TrimSpec(s);
    if r != [] {
      assert s[a] == r[0];
      TrimStartSkipsWhite(s, a);
      var t := s[a..];
      assert t[|r| - 1] == r[|r| - 1];
      forall i | |r| <= i < |t| ensures IsWhite(t[i]) {
        assert t[i] == s[a + i];
      }
      TrimEndSkipsWhite(t, |r|);
      assert t[..|r|] == r;
    }
  }

  /** Where `Trim(s)` sits in `s`: after the leading whitespace `TrimStart` drops. */
  lemma TrimSlice(s: string) returns (a: nat)
    ensures a == |s| - |TrimStart(s)|
    ensures OccursAt(s, Trim(s), a) && IsTrimmed(Trim(s))
  {
    var t := TrimStart(s);
    TrimStartSuffix(s);
    TrimEndPrefix(t);
    a := |s| - |t|;
    SliceOfSuffix(s, t, TrimEnd(t), a);
    if TrimEnd(t) != [] {
      assert TrimEnd(t)[0] == t[0];
    }
  }

  lemma SliceOfSuffix(s: string, t: string, r: string, a: nat)
    requires a <= |s| && t == s[a..] && |r| <= |t| && r == t[..|r|]
    ensures OccursAt(s, r, a)
  {
    assert s[a..a + |r|] == r;
  }

  lemma TrimEmptyIffWhite(s: string, a: nat)
    requires a == |s| - |TrimStart(s)| && OccursAt(s, Trim(s), a)
    ensures Trim(s) == [] <==> forall i :: 0 <= i < |s| ==> IsWhite(s[i])
  {
    var t := TrimStart(s);
    var r := TrimEnd(t);
    TrimStartSuffix(s);
    TrimEndPrefix(t);
    TrimStartDropsWhite(s);
    TrimEndDropsWhite(t);
    if r == [] {
      assert t == [];
    } else {
      assert r[0] == t[0] == s[a];
    }
  }

  lemma TrimOfTrimmed(s: string)
    requires IsTrimmed(s)
    ensures Trim(s) == s
  {
  }

  lemma TrimIdempotent(s: string)
    ensures Trim(Trim(s)) == Trim(s)
  {
    TrimSpec(s);
    TrimOfTrimmed(Trim(s));
  }

  /** `trim` adds no character: one absent from `s` is absent from `Trim(s)`. */
  lemma TrimKeepsOut(s: string, c: char)
    requires c !in s
    ensures c !in Trim(s)
  {
    var a := TrimSlice(s);
    var r := Trim(s);
    forall i | 0 <= i < |r| ensures r[i] != c {
      assert r[i] == s[a + i];
    }
  }

  /** Lower-casing and trimming commute with each other's results. */
  lemma {:induction false} TrimOfLowerIsLower(s: string)
    requires IsLower(s)
    ensures IsLower(Trim(s))
  {
    TrimSpec(s);
    var r := Trim(s);
    var a := |s| - |TrimStart(s)|;
    forall i | 0 <= i < |r| ensures !IsUpper(r[i]) {
      assert r[i] == s[a + i];
    }
  }

  /** `haystack.includes(needle)`. */
  predicate Contains(haystack: string, needle: string)
    decreases |haystack|
  {
    |needle| <= |haystack| && (needle <= haystack || Contains(haystack[1..], needle))
  }

  /** `piece` is a contiguous slice of `whole`. */
  ghost predicate SliceOf(piece: string, whole: string)
  {
    exists a :: OccursAt(whole, piece, a)
  }

  /** Occurrence at an index, the reference reading of `includes`. */
  predicate OccursAt(haystack: string, needle: string, i: int)
  {
    0 <= i && i + |needle| <= |haystack| && haystack[i..i + |needle|] == needle
  }

  lemma {:induction false} ContainsIffOccurs(haystack: string, needle: string)
    ensures Contains(haystack, needle) <==> exists i :: OccursAt(haystack, needle, i)
    decreases |haystack|
  {
    if |needle| <= |haystack| {
      if needle <= haystack {
        assert OccursAt(haystack, needle, 0);
      } else {
        ContainsIffOccurs(haystack[1..], needle);
        if exists i :: OccursAt(haystack, needle, i) {
          var i :| OccursAt(haystack, needle, i);
          assert i != 0;
          assert haystack[1..][i - 1..i - 1 + |needle|] == haystack[i..i + |needle|];
          assert OccursAt(haystack[1..], needle, i - 1);
        }
        if exists i :: OccursAt(haystack[1..], needle, i) {
          var i :| OccursAt(haystack[1..], needle, i);
          assert haystack[1..][i..i + |needle|] == haystack[i + 1..i + 1 + |needle|];
          assert OccursAt(haystack, needle, i + 1);
        }
      }
    }
  }

  lemma ContainsEmpty(haystack: string)
    ensures Contains(haystack, "")
  {
    ContainsIffOccurs(haystack, "");
    assert OccursAt(haystack, "", 0);
  }

  lemma ContainsSelf(s: string)
    ensures Contains(s, s)
  {
  }

  /** A needle holding a character the haystack lacks never occurs in it. */
  lemma ContainsNeedsChar(haystack: string, needle: string, c: char)
    requires c in needle && c !in haystack
    ensures !Contains(haystack, needle)
  {
    ContainsIffOccurs(haystack, needle);
    var k :| 0 <= k < |needle| && needle[k] == c;
    forall i | 0 <= i
      ensures !OccursAt(haystack, needle, i)
    {
      if i + |needle| <= |haystack| {
        assert haystack[i..i + |needle|][k] == haystack[i + k] != c;
      }
    }
  }

  /** `x` is never immediately followed by `y` in `s`. */
  predicate NoAdjacent(s: string, x: char, y: char)
  {
    forall i :: 0 <= i < |s| - 1 ==> !(s[i] == x && s[i + 1] == y)
  }

  /** A needle with two adjacent characters the haystack never has side by side does not occur in it. */
  lemma ContainsNeedsPair(haystack: string, needle: string, k: nat)
    requires k + 1 < |needle| && NoAdjacent(haystack, needle[k], needle[k + 1])
    ensures !Contains(haystack, needle)
  {
    ContainsIffOccurs(haystack, needle);
    forall i | 0 <= i
      ensures !OccursAt(haystack, needle, i)
    {
      if i + |needle| <= |haystack| {
        var w := haystack[i..i + |needle|];
        assert w[k] == haystack[i + k] && w[k + 1] == haystack[i + k + 1];
      }
    }
  }

  /** An occurrence at a known index makes `includes` true. */
  lemma OccursContains(haystack: string, needle: string, i: int)
    requires OccursAt(haystack, needle, i)
    ensures Contains(haystack, needle)
  {
    ContainsIffOccurs(haystack, needle);
  }

  /** `s.startsWith(prefix)`. */
  predicate StartsWith(s: string, prefix: string)
  {
    prefix <= s
  }

  /** Two prefixes of one string: the shorter is a prefix of the longer. */
  lemma PrefixesNest(s: string, p: string, q: string)
    requires StartsWith(s, p) && StartsWith(s, q) && |p| <= |q|
    ensures StartsWith(q, p)
  {
    assert q[..|p|] == s[..|p|];
  }

  function DigitChar(d: nat): (c: char)
    requires d < 10
    ensures IsDigit(c)
  {
    (('0' as int) + d) as char
  }

  function DigitValue(c: char): (d: nat)
    requires IsDigit(c)
    ensures d < 10 && DigitChar(d) == c
  {
    (c as int) - ('0' as int)
  }

  predicate AllDigits(s: string)
  {
    forall i :: 0 <= i < |s| ==> IsDigit(s[i])
  }

  /** `String(n)` for a non-negative integer: no leading zeros. */
  function DecimalString(n: nat): (s: string)
    ensures |s| > 0 && AllDigits(s)
    ensures |s| > 1 ==> s[0] != '0'
  {
    if n < 10 then [DigitChar(n)] else DecimalString(n / 10) + [DigitChar(n % 10)]
  }

  /** Reads a run of decimal digits back as a number (the partner of DecimalString). */
  function DecimalValue(s: string): nat
    requires AllDigits(s)
  {
    if s == [] then 0 else DecimalValue(s[..|s| - 1]) * 10 + DigitValue(s[|s| - 1])
  }

  lemma {:induction false} DecimalRoundTrip(n: nat)
    ensures DecimalValue(DecimalString(n)) == n
  {
    if n >= 10 {
      var s := DecimalString(n);
      assert s[..|s| - 1] == DecimalString(n / 10);
      DecimalRoundTrip(n / 10);
    }
  }

  /** `s.padStart(width, fill)` with a one-character fill. */
  function PadStart(s: string, width: nat, fill: char): (r: string)
    ensures |r| == if |s| >= width then |s| else width
    ensures r[|r| - |s|..] == s
    ensures forall i :: 0 <= i < |r| - |s| ==> r[i] == fill
    decreases width - |s|
  {
    if |s| >= width then s else PadStart([fill] + s, width, fill)
  }
}
