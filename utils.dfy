/**
  The string helpers of the front-end's `lib/utils.ts`: `formatText`,
  `truncateText`, `slugify`, `isValidEmail`, and the width classification of
  `isMobile` and `getDeviceType`. The CPF helpers live in module `Cpf`.
*/
module Utils {
  import opened Wrappers
  import opened Text
  import opened Seqs

  /** `s.split(sep)`: the pieces between separators, always at least one. */
  function Split(s: string, sep: char): (r: seq<string>)
    ensures |r| >= 1
    ensures forall k :: 0 <= k < |r| ==> sep !in r[k]
  {
    if s == [] then [[]]
    else
      var rest := Split(s[1..], sep);
      if s[0] == sep then [[]] + rest else [[s[0]] + rest[0]] + rest[1..]
  }

  /** `pieces.join(sep)`. */
  function Join(pieces: seq<string>, sep: char): string
  {
    if pieces == [] then []
    else if |pieces| == 1 then pieces[0]
    else pieces[0] + [sep] + Join(pieces[1..], sep)
  }

  /** Joining the pieces of a split with the same separator gives the string back. */
  lemma {:induction false} SplitJoin(s: string, sep: char)
    ensures Join(Split(s, sep), sep) == s
  {
    if s != [] {
      SplitJoin(s[1..], sep);
      var rest := Split(s[1..], sep);
      var r := Split(s, sep);
      if s[0] == sep {
        assert r == [[]] + rest && r[1..] == rest;
        assert s == [sep] + s[1..];
      } else {
        assert r == [[s[0]] + rest[0]] + rest[1..];
        if |rest| > 1 {
          assert r[1..] == rest[1..];
          assert Join(rest, sep) == rest[0] + [sep] + Join(rest[1..], sep);
        }
        assert s == [s[0]] + s[1..];
      }
    }
  }

  lemma {:induction false} SplitWithoutSep(s: string, sep: char)
    requires sep !in s
    ensures Split(s, sep) == [s]
  {
    if s != [] {
      SplitWithoutSep(s[1..], sep);
      assert Split(s, sep) == [[s[0]] + s[1..]];
      assert [s[0]] + s[1..] == s;
    }
  }

  lemma {:induction false} JoinAvoids(pieces: seq<string>, sep: char, c: char)
    requires c != sep && forall k :: 0 <= k < |pieces| ==> c !in pieces[k]
    ensures c !in Join(pieces, sep)
  {
    if |pieces| > 1 {
      JoinAvoids(pieces[1..], sep, c);
    }
  }

  /** A join starts with its first piece and ends with its last. */
  lemma {:induction false} JoinEnds(pieces: seq<string>, sep: char)
    requires pieces != []
    ensures pieces[0] <= Join(pieces, sep)
    ensures var j := Join(pieces, sep); var l := pieces[|pieces| - 1];
            |l| <= |j| && j[|j| - |l|..] == l
  {
    if |pieces| > 1 {
      JoinEnds(pieces[1..], sep);
    }
  }

  predicate NonEmpty(line: string)
  {
    |line| > 0
  }

  /** `formatText`: trim every line, drop the blank ones, join the rest with single spaces. */
  function FormatText(text: string): string
  {
    Join(Filter(Map(Split(text, '\n'), Trim), NonEmpty), ' ')
  }

  /** Joining non-empty trimmed pieces gives a trimmed string, whatever the separator. */
  lemma JoinTrimmed(pieces: seq<string>, sep: char)
    requires forall k :: 0 <= k < |pieces| ==> pieces[k] != [] && IsTrimmed(pieces[k])
    ensures IsTrimmed(Join(pieces, sep))
  {
    if pieces != [] {
      JoinEnds(pieces, sep);
      var j := Join(pieces, sep);
      var l := pieces[|pieces| - 1];
      assert j[0] == pieces[0][0];
      assert j[|j| - 1] == j[|j| - |l|..][|l| - 1] == l[|l| - 1];
    }
  }

  /** Trimmed lines hold no newline and no whitespace at either end. */
  lemma TrimmedLines(pieces: seq<string>)
    requires forall k :: 0 <= k < |pieces| ==> '\n' !in pieces[k]
    ensures forall k :: 0 <= k < |pieces| ==> '\n' !in Map(pieces, Trim)[k] && IsTrimmed(Map(pieces, Trim)[k])
  {
    forall k | 0 <= k < |pieces| ensures '\n' !in Trim(pieces[k]) && IsTrimmed(Trim(pieces[k])) {
      TrimKeepsOut(pieces[k], '\n');
      TrimSpec(pieces[k]);
    }
  }

  /** The formatted text is one line with no whitespace at either end. */
  lemma FormatTextShape(text: string)
    ensures '\n' !in FormatText(text)
    ensures IsTrimmed(FormatText(text))
  {
    var lines := Map(Split(text, '\n'), Trim);
    TrimmedLines(Split(text, '\n'));
    var kept := Filter(lines, NonEmpty);
    forall k | 0 <= k < |kept| ensures '\n' !in kept[k] && IsTrimmed(kept[k]) && kept[k] != [] {
      FilterMember(lines, NonEmpty, kept[k]);
    }
    JoinAvoids(kept, ' ', '\n');
    JoinTrimmed(kept, ' ');
  }

  lemma FormatTextOfFormatted(r: string)
    requires '\n' !in r && IsTrimmed(r)
    ensures FormatText(r) == r
  {
    SplitWithoutSep(r, '\n');
    MapSingleton(r, Trim);
    TrimOfTrimmed(r);
    FilterSingleton(r, NonEmpty);
  }

  lemma FormatTextIdempotent(text: string)
    ensures FormatText(FormatText(text)) == FormatText(text)
  {
    FormatTextShape(text);
    FormatTextOfFormatted(FormatText(text));
  }

  /** Two formatted parts joined by one space; an empty part contributes nothing. */
  function Glue(a: string, b: string): string
  {
    if a == [] then b else if b == [] then a else a + " " + b
  }

  /** A text without a line break formats as its trimmed self. */
  lemma FormatTextLine(s: string)
    requires '\n' !in s
    ensures FormatText(s) == Trim(s)
  {
    SplitWithoutSep(s, '\n');
    MapSingleton(s, Trim);
    FilterSingleton(Trim(s), NonEmpty);
  }

  /** One step of `Split`: the first character either starts a new piece or joins the first one. */
  lemma SplitCons(c: char, t: string, sep: char)
    ensures Split([c] + t, sep) ==
              if c == sep then [[]] + Split(t, sep) else [[c] + Split(t, sep)[0]] + Split(t, sep)[1..]
  {
    assert ([c] + t)[0] == c;
    assert ([c] + t)[1..] == t;
  }

  lemma AppendAssoc<T>(a: seq<T>, b: seq<T>, c: seq<T>)
    ensures a + (b + c) == (a + b) + c
  {
  }

  /** Splitting at a separator splits the two sides separately. */
  lemma {:induction false} SplitAtSep(x: string, y: string, sep: char)
    ensures Split(x + [sep] + y, sep) == Split(x, sep) + Split(y, sep)
  {
    if x == [] {
      assert x + [sep] + y == [sep] + y;
      SplitCons(sep, y, sep);
    } else {
      var t := x[1..];
      SplitAtSep(t, y, sep);
      assert x + [sep] + y == [x[0]] + (t + [sep] + y);
      assert x == [x[0]] + t;
      SplitConsAppend(x[0], t + [sep] + y, t, Split(y, sep), sep);
    }
  }

  /** A character put in front of two texts whose splits differ by trailing pieces keeps that difference. */
  lemma SplitConsAppend(c: char, u: string, t: string, more: seq<string>, sep: char)
    requires Split(u, sep) == Split(t, sep) + more
    ensures Split([c] + u, sep) == Split([c] + t, sep) + more
  {
    SplitCons(c, u, sep);
    SplitCons(c, t, sep);
    var rt := Split(t, sep);
    if c == sep {
      AppendAssoc([[]], rt, more);
    } else {
      assert (rt + more)[0] == rt[0];
      assert (rt + more)[1..] == rt[1..] + more;
      AppendAssoc([[c] + rt[0]], rt[1..], more);
    }
  }

  /** Joining two lists of non-empty pieces: the separator appears only between two non-empty joins. */
  lemma {:induction false} JoinAppend(a: seq<string>, b: seq<string>, sep: char)
    requires forall k :: 0 <= k < |a| ==> a[k] != []
    requires forall k :: 0 <= k < |b| ==> b[k] != []
    ensures Join(a + b, sep) ==
              if Join(a, sep) == [] then Join(b, sep)
              else if Join(b, sep) == [] then Join(a, sep)
              else Join(a, sep) + [sep] + Join(b, sep)
  {
    if a != [] {
      JoinEnds(a, sep);
      assert (a + b)[0] == a[0];
    }
    if b != [] {
      JoinEnds(b, sep);
    }
    if a == [] {
      assert a + b == b;
    } else if |a| == 1 {
      assert (a + b)[1..] == b;
    } else {
      JoinAppend(a[1..], b, sep);
      assert (a + b)[1..] == a[1..] + b;
      JoinEnds(a[1..], sep);
    }
  }

  /** A line break joins the formatted texts on either side, a blank side contributing nothing. */
  lemma FormatTextNewline(x: string, y: string)
    ensures FormatText(x + "\n" + y) == Glue(FormatText(x), FormatText(y))
  {
    SplitAtSep(x, y, '\n');
    var px, py := Split(x, '\n'), Split(y, '\n');
    assert Map(px + py, Trim) == Map(px, Trim) + Map(py, Trim);
    var kx, ky := Filter(Map(px, Trim), NonEmpty), Filter(Map(py, Trim), NonEmpty);
    FilterAppend(Map(px, Trim), Map(py, Trim), NonEmpty);
    FilterKeepsOnly(Map(px, Trim), NonEmpty);
    FilterKeepsOnly(Map(py, Trim), NonEmpty);
    JoinAppend(kx, ky, ' ');
  }

  /** A blank line in the middle is dropped: "a\n\nb" formats as "a b". */
  lemma BlankLineDropped()
    ensures FormatText("a\n\nb") == "a b"
  {
    FormatTextLine("a");
    FormatTextLine("");
    FormatTextLine("b");
    TrimOfTrimmed("a");
    TrimOfTrimmed("b");
    TrimOfTrimmed("");
    FormatTextNewline("", "b");
    assert "" + "\n" + "b" == "\nb";
    FormatTextNewline("a", "\nb");
    assert "a" + "\n" + "\nb" == "a\n\nb";
  }

  /** `truncateText`; `text.substring(0, maxLength)` reads a negative length as 0. */
  function TruncateText(text: string, maxLength: int): string
  {
    if |text| <= maxLength then text
    else Trim(text[..if maxLength < 0 then 0 else maxLength]) + "..."
  }

  /**
    Text that fits comes back unchanged; longer text becomes a trimmed slice
    of its first `maxLength` characters followed by "...", at most three
    characters longer than the limit.
  */
  lemma TruncateTextSpec(text: string, maxLength: int)
    ensures |text| <= maxLength ==> TruncateText(text, maxLength) == text
    ensures |text| > maxLength ==>
              var r := TruncateText(text, maxLength);
              var n := if maxLength < 0 then 0 else maxLength;
              |r| >= 3 && r[|r| - 3..] == "..." && |r| <= n + 3
              && IsTrimmed(r[..|r| - 3]) && SliceOf(r[..|r| - 3], text[..n])
              && InnerSlice(r[..|r| - 3], text[..n])
  {
    if |text| > maxLength {
      var n := if maxLength < 0 then 0 else maxLength;
      var t := Trim(text[..n]);
      var a := TrimSlice(text[..n]);
      assert OccursAt(text[..n], t, a);
      TrimSpec(text[..n]);
      var r := t + "...";
      assert r[..|r| - 3] == t && r[|r| - 3..] == "...";
      assert WhiteAround(text[..n], r[..|r| - 3], a);
    }
  }

  /** The converse of the first clause fails: a long text can come back as itself. */
  lemma TruncateCanReturnLongerInput()
    ensures |"ab..."| > 2 && TruncateText("ab...", 2) == "ab..."
  {
    assert "ab..."[..2] == "ab";
    TrimOfTrimmed("ab");
  }

  /**
    `normalize('NFD')` followed by deleting U+0300..U+036F, on the Latin-1
    lower-case letters: each accented letter becomes its base letter.
  */
  function FoldAccent(c: char): (r: char)
    ensures r != c ==> 'a' <= r <= 'z'
  {
    if 'à' <= c <= 'å' then 'a'
    else if c == 'ç' then 'c'
    else if 'è' <= c <= 'ë' then 'e'
    else if 'ì' <= c <= 'ï' then 'i'
    else if c == 'ñ' then 'n'
    else if 'ò' <= c <= 'ö' then 'o'
    else if 'ù' <= c <= 'ü' then 'u'
    else if c == 'ý' || c == 'ÿ' then 'y'
    else c
  }

  /** Not a combining diacritical mark (U+0300..U+036F). */
  predicate NotMark(c: char)
  {
    !('\U{0300}' <= c <= '\U{036F}')
  }

  predicate IsSlugChar(c: char)
  {
    ('a' <= c <= 'z') || ('0' <= c <= '9')
  }

  /** Drops the leading run of characters outside [a-z0-9]. */
  function SkipRun(s: string): (r: string)
    ensures |r| <= |s|
    ensures r == [] || IsSlugChar(r[0])
  {
    if s != [] && !IsSlugChar(s[0]) then SkipRun(s[1..]) else s
  }

  /** `replace(/[^a-z0-9]+/g, '-')`: every run outside [a-z0-9] becomes one dash. */
  function DashRuns(s: string): (r: string)
    ensures forall i :: 0 <= i < |r| ==> IsSlugChar(r[i]) || r[i] == '-'
    ensures NoAdjacent(r, '-', '-')
    ensures s != [] && IsSlugChar(s[0]) ==> r != [] && r[0] == s[0]
    decreases |s|
  {
    if s == [] then []
    else if IsSlugChar(s[0]) then [s[0]] + DashRuns(s[1..])
    else
      var rest := DashRuns(SkipRun(s[1..]));
      assert rest == [] || IsSlugChar(rest[0]);
      ['-'] + rest
  }

  /**
    The same replacement read left to right: a character of [a-z0-9] is
    kept, and any other character becomes a dash exactly when it starts a
    run, that is when it comes first or follows a character of [a-z0-9].
  */
  function RunDashes(s: string, afterSlug: bool): string
  {
    if s == [] then []
    else (if IsSlugChar(s[0]) then [s[0]] else if afterSlug then "-" else [])
         + RunDashes(s[1..], IsSlugChar(s[0]))
  }

  /** Inside a run, skipping the rest of it emits nothing more. */
  lemma {:induction false} SkipRunEmitsNothing(t: string)
    ensures RunDashes(t, false) == RunDashes(SkipRun(t), true)
    decreases |t|
  {
    if t != [] && !IsSlugChar(t[0]) {
      SkipRunEmitsNothing(t[1..]);
    }
  }

  /** Each run outside [a-z0-9] becomes exactly one dash, and nothing else changes. */
  lemma {:induction false} DashRunsIsRunDashes(s: string)
    ensures DashRuns(s) == RunDashes(s, true)
    decreases |s|
  {
    if s != [] {
      if IsSlugChar(s[0]) {
        DashRunsIsRunDashes(s[1..]);
      } else {
        DashRunsIsRunDashes(SkipRun(s[1..]));
        SkipRunEmitsNothing(s[1..]);
      }
    }
  }

  lemma {:induction false} RunDashesKeepsSlugChars(s: string, afterSlug: bool)
    ensures Filter(RunDashes(s, afterSlug), IsSlugChar) == Filter(s, IsSlugChar)
    decreases |s|
  {
    if s != [] {
      var head := if IsSlugChar(s[0]) then [s[0]] else if afterSlug then "-" else [];
      RunDashesKeepsSlugChars(s[1..], IsSlugChar(s[0]));
      FilterAppend(head, RunDashes(s[1..], IsSlugChar(s[0])), IsSlugChar);
      FilterSingleton(s[0], IsSlugChar);
      FilterSingleton('-', IsSlugChar);
      assert Filter([], IsSlugChar) == [];
    }
  }

  /** The letters and digits survive the replacement, in order. */
  lemma DashRunsKeepsSlugChars(s: string)
    ensures Filter(DashRuns(s), IsSlugChar) == Filter(s, IsSlugChar)
  {
    DashRunsIsRunDashes(s);
    RunDashesKeepsSlugChars(s, true);
  }

  /** `replace(/(^-|-$)/g, '')`: a leading and a trailing dash are removed. */
  function TrimDashes(s: string): string
  {
    var a := if s != [] && s[0] == '-' then s[1..] else s;
    if a != [] && a[|a| - 1] == '-' then a[..|a| - 1] else a
  }

  function Slugify(text: string): string
  {
    TrimDashes(DashRuns(Filter(Map(Lower(text), FoldAccent), NotMark)))
  }

  /** A slug is made of [a-z0-9-], never starts or ends with '-', and never holds "--". */
  lemma SlugifyShape(text: string)
    ensures var r := Slugify(text);
            (forall i :: 0 <= i < |r| ==> IsSlugChar(r[i]) || r[i] == '-')
            && (r == [] || (r[0] != '-' && r[|r| - 1] != '-'))
            && NoAdjacent(r, '-', '-')
  {
    var d := DashRuns(Filter(Map(Lower(text), FoldAccent), NotMark));
    var a := if d != [] && d[0] == '-' then d[1..] else d;
    assert a == [] || a[0] != '-' by {
      if d != [] && d[0] == '-' && a != [] {
        assert d[1] == a[0];
      }
    }
    assert NoAdjacent(a, '-', '-') by {
      forall i | 0 <= i < |a| - 1 ensures !(a[i] == '-' && a[i + 1] == '-') {
        if d != [] && d[0] == '-' {
          assert a[i] == d[i + 1] && a[i + 1] == d[i + 2];
        }
      }
    }
    var r := TrimDashes(d);
    if a != [] && a[|a| - 1] == '-' && r != [] {
      assert r[|r| - 1] == a[|a| - 2];
    }
  }

  /** Dropping a leading and a trailing dash keeps every letter and digit. */
  lemma TrimDashesKeepsSlugChars(d: string)
    ensures Filter(TrimDashes(d), IsSlugChar) == Filter(d, IsSlugChar)
  {
    FilterSingleton('-', IsSlugChar);
    var a := if d != [] && d[0] == '-' then d[1..] else d;
    if d != [] && d[0] == '-' {
      assert d == ['-'] + a;
      FilterAppend(['-'], a, IsSlugChar);
    }
    if a != [] && a[|a| - 1] == '-' {
      assert a == a[..|a| - 1] + ['-'];
      FilterAppend(a[..|a| - 1], ['-'], IsSlugChar);
    }
  }

  /**
    The slug's letters and digits are exactly those of the lower-cased,
    accent-folded text, in order: only the characters outside [a-z0-9]
    are replaced or dropped.
  */
  lemma SlugifyKeepsSlugChars(text: string)
    ensures Filter(Slugify(text), IsSlugChar) == Filter(Filter(Map(Lower(text), FoldAccent), NotMark), IsSlugChar)
  {
    var folded := Filter(Map(Lower(text), FoldAccent), NotMark);
    DashRunsKeepsSlugChars(folded);
    TrimDashesKeepsSlugChars(DashRuns(folded));
  }

  /** `[^\s@]+` without the `+`: no whitespace and no '@'. */
  predicate PlainRun(s: string)
  {
    forall i :: 0 <= i < |s| ==> !IsWhite(s[i]) && s[i] != '@'
  }

  /** `email` reads as local '@' host '.' suffix with three non-empty plain runs. */
  predicate EmailSplitAt(email: string, at: int, dot: int)
  {
    0 < at && at + 1 < dot && dot + 1 < |email| && email[at] == '@' && email[dot] == '.'
    && PlainRun(email[..at]) && PlainRun(email[at + 1..dot]) && PlainRun(email[dot + 1..])
  }

  /** `isValidEmail`: `/^[^\s@]+@[^\s@]+\.[^\s@]+$/.test(email)`. */
  predicate IsValidEmail(email: string)
  {
    exists at, dot | 0 < at < dot < |email| :: EmailSplitAt(email, at, dot)
  }

  function IndexOf(s: string, c: char): (r: Option<nat>)
    ensures r.Some? ==> r.value < |s| && s[r.value] == c && c !in s[..r.value]
    ensures r.None? ==> c !in s
  {
    if s == [] then None
    else if s[0] == c then Some(0)
    else match IndexOf(s[1..], c)
      case Some(i) => (assert s[..i + 1] == [s[0]] + s[1..][..i]; Some(i + 1))
      case None => None
  }

  /**
    The same set described part by part: exactly one '@', a non-empty local
    part without whitespace, and a domain without whitespace holding a '.'
    that is neither its first nor its last character.
  */
  predicate EmailShape(email: string)
  {
    match IndexOf(email, '@')
    case None => false
    case Some(at) =>
      var domain := email[at + 1..];
      0 < at && PlainRun(email[..at]) && PlainRun(domain)
      && |domain| >= 3 && '.' in domain[1..|domain| - 1]
  }

  lemma IsValidEmailIff(email: string)
    ensures IsValidEmail(email) <==> EmailShape(email)
  {
    if IsValidEmail(email) {
      var at, dot :| 0 < at < dot < |email| && EmailSplitAt(email, at, dot);
      var k := IndexOf(email, '@');
      assert email[at] in email[..dot];
      assert k.Some?;
      var domain := email[at + 1..];
      assert domain[dot - at - 1] == '.';
      assert domain[1..|domain| - 1][dot - at - 2] == '.';
      forall i | 0 <= i < |domain| ensures !IsWhite(domain[i]) && domain[i] != '@' {
        if i < dot - at - 1 {
          assert domain[i] == email[at + 1..dot][i];
        } else if i > dot - at - 1 {
          assert domain[i] == email[dot + 1..][i - (dot - at)];
        }
      }
    }
    if EmailShape(email) {
      var at := IndexOf(email, '@').value;
      var domain := email[at + 1..];
      var k :| 0 <= k < |domain| - 2 && domain[1..|domain| - 1][k] == '.';
      var dot := at + 2 + k;
      assert email[dot] == domain[k + 1];
      assert email[at + 1..dot] == domain[..k + 1];
      assert email[dot + 1..] == domain[k + 2..];
      assert EmailSplitAt(email, at, dot);
    }
  }

  datatype DeviceType = Mobile | Tablet | Desktop

  /**
    `getDeviceType`, with `window.innerWidth` as a parameter: None stands for
    the server render, where `window` is undefined.
  */
  function GetDeviceType(width: Option<int>): DeviceType
  {
    match width
    case None => Desktop
    case Some(w) => if w < 768 then Mobile else if w < 1024 then Tablet else Desktop
  }

  /** `isMobile`, with the same width parameter. */
  predicate IsMobile(width: Option<int>)
  {
    width.Some? && width.value < 768
  }

  /** The two helpers agree on phones, and the device bands are [0,768), [768,1024) and the rest. */
  lemma DeviceBands(width: Option<int>)
    ensures IsMobile(width) <==> GetDeviceType(width) == Mobile
    ensures GetDeviceType(width) == Tablet <==> width.Some? && 768 <= width.value < 1024
    ensures GetDeviceType(width) == Desktop <==> width.None? || width.value >= 1024
  {
  }
}
