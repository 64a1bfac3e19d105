/**
 * The string primitives the scanner leans on, stated exactly:
 *  - `re.findall(pattern + ' (.*)', text)` for the robots.txt directives (seo.py:126, 129),
 *  - the substring test `'.pdf' in text` (seo.py:107),
 *  - Python's `int(str)` applied to the crawl delay (seo.py:159).
 */
module Text {
  import opened Wrappers

  // ---------------------------------------------------------------------------
  // Lines. In a regular expression `.` never matches '\n', and neither of the
  // scanner's patterns contains one, so every match lies within one line.

  /** The text cut at every '\n' (a text with k newlines has k + 1 lines). */
  function SplitLines(text: string): (lines: seq<string>)
    ensures |lines| >= 1
    ensures forall i :: 0 <= i < |lines| ==> '\n' !in lines[i]
  {
    if text == [] then [[]]
    else
      var rest := SplitLines(text[1..]);
      if text[0] == '\n' then [[]] + rest
      else ConsFirst(text[0], rest)
  }

  /** `c` put in front of the first of `lines`. */
  function ConsFirst(c: char, lines: seq<string>): (r: seq<string>)
    requires |lines| >= 1
    ensures |r| == |lines| && r[0] == [c] + lines[0] && r[1..] == lines[1..]
  {
    [[c] + lines[0]] + lines[1..]
  }

  lemma ConsFirstAppend(c: char, l1: seq<string>, l2: seq<string>)
    requires |l1| >= 1
    ensures ConsFirst(c, l1 + l2) == ConsFirst(c, l1) + l2
  {
    assert (l1 + l2)[0] == l1[0];
    assert (l1 + l2)[1..] == l1[1..] + l2;
  }

  /** A text without a line break is one line. */
  lemma {:induction false} SplitLinesSingle(s: string)
    requires '\n' !in s
    ensures SplitLines(s) == [s]
  {
    if s != [] {
      SplitLinesSingle(s[1..]);
      assert [s[0]] + s[1..] == s;
    }
  }

  /** The inverse of SplitLines: the lines put back together with '\n' between them. */
  function JoinLines(lines: seq<string>): string
    requires |lines| >= 1
  {
    if |lines| == 1 then lines[0] else lines[0] + "\n" + JoinLines(lines[1..])
  }

  lemma {:induction false} JoinSplitLines(text: string)
    ensures JoinLines(SplitLines(text)) == text
  {
    if text != [] {
      var rest := SplitLines(text[1..]);
      JoinSplitLines(text[1..]);
      if text[0] == '\n' {
        assert SplitLines(text)[1..] == rest;
      } else {
        var lines := SplitLines(text);
        assert lines[0] == [text[0]] + rest[0];
        if |rest| == 1 {
          assert text == [text[0]] + rest[0];
        } else {
          assert lines[1..] == rest[1..];
          assert JoinLines(rest) == rest[0] + "\n" + JoinLines(rest[1..]);
          assert text == [text[0]] + JoinLines(rest);
        }
      }
    }
  }

  /** Text joined at a line break splits into the lines of each side. */
  lemma {:induction false} SplitLinesAppend(a: string, b: string)
    ensures SplitLines(a + "\n" + b) == SplitLines(a) + SplitLines(b)
  {
    if a == [] {
      assert a + "\n" + b == ['\n'] + b;
      assert (['\n'] + b)[1..] == b;
    } else {
      assert (a + "\n" + b)[1..] == a[1..] + "\n" + b;
      SplitLinesAppend(a[1..], b);
      SplitLinesCons(a, b);
    }
  }

  /** The step of SplitLinesAppend: the first character of `a` goes where it goes in `a` alone. */
  lemma SplitLinesCons(a: string, b: string)
    requires a != [] && SplitLines(a[1..] + "\n" + b) == SplitLines(a[1..]) + SplitLines(b)
    ensures SplitLines(a + "\n" + b) == SplitLines(a) + SplitLines(b)
  {
    var x := a + "\n" + b;
    assert x[0] == a[0] && x[1..] == a[1..] + "\n" + b;
    if a[0] == '\n' {
      SplitLinesBreak(x, a, SplitLines(b));
    } else {
      SplitLinesChar(x, a, SplitLines(b));
    }
  }

  lemma SplitLinesBreak(x: string, a: string, lb: seq<string>)
    requires x != [] && a != [] && x[0] == '\n' && a[0] == '\n'
    requires SplitLines(x[1..]) == SplitLines(a[1..]) + lb
    ensures SplitLines(x) == SplitLines(a) + lb
  {
    PrependAppend([], SplitLines(a[1..]), lb);
  }

  lemma PrependAppend<T>(x: T, l1: seq<T>, l2: seq<T>)
    ensures [x] + (l1 + l2) == ([x] + l1) + l2
  {
  }

  lemma SplitLinesChar(x: string, a: string, lb: seq<string>)
    requires x != [] && a != [] && x[0] == a[0] != '\n'
    requires SplitLines(x[1..]) == SplitLines(a[1..]) + lb
    ensures SplitLines(x) == SplitLines(a) + lb
  {
    ConsFirstAppend(a[0], SplitLines(a[1..]), lb);
  }

  // ---------------------------------------------------------------------------
  // Patterns. A pattern made only of literal characters and character classes
  // is a sequence of sets of characters, one set per position.

  type Pattern = seq<set<char>>

  /** The pattern that matches exactly the characters of `s`. */
  function Literal(s: string): (p: Pattern)
    ensures |p| == |s|
    ensures forall k :: 0 <= k < |s| ==> p[k] == {s[k]}
  {
    seq(|s|, k requires 0 <= k < |s| => {s[k]})
  }

  /** The pattern matches `line` starting at position `i`. */
  predicate MatchesAt(line: string, p: Pattern, i: nat)
  {
    i + |p| <= |line| && forall k :: 0 <= k < |p| ==> line[i + k] in p[k]
  }

  /** The leftmost position at or after `from` where the pattern matches, as a regular-expression search finds it. */
  function Search(line: string, p: Pattern, from: nat): (r: Option<nat>)
    ensures r.Some? ==> from <= r.value && MatchesAt(line, p, r.value)
    ensures r.Some? ==> forall j :: from <= j < r.value ==> !MatchesAt(line, p, j)
    ensures r.None? ==> forall j :: from <= j ==> !MatchesAt(line, p, j)
    decreases |line| - from
  {
    if from + |p| > |line| then None
    else if MatchesAt(line, p, from) then Some(from)
    else Search(line, p, from + 1)
  }

  /**
   * What `pattern (.*)` captures in one line: everything after the leftmost
   * match of the pattern, up to the end of the line; None when it does not match.
   */
  function Capture(line: string, p: Pattern): Option<string>
  {
    match Search(line, p, 0)
    case None => None
    case Some(i) => Some(line[i + |p|..])
  }

  /** A line that starts with a match captures the rest of the line. */
  lemma CaptureAtStart(line: string, p: Pattern)
    requires MatchesAt(line, p, 0)
    ensures Capture(line, p) == Some(line[|p|..])
  {
  }

  /** A line yields a capture exactly when the pattern matches somewhere in it; the capture is the rest of the line after the leftmost match. */
  lemma CaptureMeaning(line: string, p: Pattern)
    ensures Capture(line, p).Some? <==> exists i: nat :: MatchesAt(line, p, i)
    ensures Capture(line, p).Some? ==>
      exists i: nat :: MatchesAt(line, p, i) && Capture(line, p).value == line[i + |p|..] &&
        forall j :: 0 <= j < i ==> !MatchesAt(line, p, j)
  {
  }

  /** What one line adds to the result of `re.findall`: its capture, if any. */
  function LineCaptures(line: string, p: Pattern): (caps: seq<string>)
    ensures |caps| <= 1
  {
    match Capture(line, p)
    case None => []
    case Some(c) => [c]
  }

  /** The captures of all lines that match, in line order, one per matching line. */
  function FindAllInLines(lines: seq<string>, p: Pattern): (caps: seq<string>)
    ensures |caps| <= |lines|
  {
    if lines == [] then [] else LineCaptures(lines[0], p) + FindAllInLines(lines[1..], p)
  }

  /** `re.findall(pattern + '(.*)', text)`. */
  function FindAll(text: string, p: Pattern): seq<string>
  {
    FindAllInLines(SplitLines(text), p)
  }

  lemma {:induction false} FindAllAppend(a: seq<string>, b: seq<string>, p: Pattern)
    ensures FindAllInLines(a + b, p) == FindAllInLines(a, p) + FindAllInLines(b, p)
  {
    if a != [] {
      assert (a + b)[0] == a[0];
      assert (a + b)[1..] == a[1..] + b;
      FindAllAppend(a[1..], b, p);
      calc {
        FindAllInLines(a + b, p);
        LineCaptures(a[0], p) + FindAllInLines(a[1..] + b, p);
        LineCaptures(a[0], p) + (FindAllInLines(a[1..], p) + FindAllInLines(b, p));
        (LineCaptures(a[0], p) + FindAllInLines(a[1..], p)) + FindAllInLines(b, p);
      }
    } else {
      assert a + b == b;
    }
  }

  /**
   * Each line contributes its own captures in place, between those of the lines
   * before it and those of the lines after it: nothing is reordered or merged,
   * so repeated captures are kept.
   */
  lemma FindAllAtLine(a: seq<string>, line: string, b: seq<string>, p: Pattern)
    ensures FindAllInLines(a + [line] + b, p) == FindAllInLines(a, p) + LineCaptures(line, p) + FindAllInLines(b, p)
  {
    FindAllSingleLine(line, p);
    FindAllAppend(a + [line], b, p);
    FindAllAppend(a, [line], p);
  }

  /** A single line yields its capture when it matches and nothing otherwise. */
  lemma FindAllSingleLine(line: string, p: Pattern)
    ensures FindAllInLines([line], p) == LineCaptures(line, p)
    ensures LineCaptures(line, p) == if Capture(line, p).Some? then [Capture(line, p).value] else []
  {
    assert [line][1..] == [];
  }

  /** No line matches the pattern. */
  predicate NoLineMatches(lines: seq<string>, p: Pattern)
  {
    forall k :: 0 <= k < |lines| ==> Capture(lines[k], p).None?
  }

  /** Nothing is found exactly when no line matches. */
  lemma {:induction false} FindAllEmpty(lines: seq<string>, p: Pattern)
    ensures FindAllInLines(lines, p) == [] <==> NoLineMatches(lines, p)
  {
    if lines != [] {
      FindAllEmpty(lines[1..], p);
      assert forall k :: 1 <= k < |lines| ==> lines[k] == lines[1..][k - 1];
    }
  }

  /** The first entry found is the capture of the first line that matches. */
  lemma {:induction false} FindAllFirst(lines: seq<string>, p: Pattern, k: nat)
    requires k < |lines| && Capture(lines[k], p).Some?
    requires forall j :: 0 <= j < k ==> Capture(lines[j], p).None?
    ensures FindAllInLines(lines, p) != []
    ensures FindAllInLines(lines, p)[0] == Capture(lines[k], p).value
  {
    if k > 0 {
      assert forall j :: 0 <= j < k - 1 ==> lines[1..][j] == lines[j + 1];
      FindAllFirst(lines[1..], p, k - 1);
    }
  }

  /** When something is found, the first entry is the capture of a line that matches, and no earlier line matches. */
  lemma {:induction false} FindAllHead(lines: seq<string>, p: Pattern)
    ensures FindAllInLines(lines, p) != [] ==>
      exists k :: 0 <= k < |lines| && Capture(lines[k], p) == Some(FindAllInLines(lines, p)[0]) &&
        forall j :: 0 <= j < k ==> Capture(lines[j], p).None?
  {
    if lines != [] && FindAllInLines(lines, p) != [] {
      if Capture(lines[0], p).Some? {
        assert Capture(lines[0], p) == Some(FindAllInLines(lines, p)[0]);
      } else {
        FindAllHead(lines[1..], p);
        var k :| 0 <= k < |lines[1..]| && Capture(lines[1..][k], p) == Some(FindAllInLines(lines[1..], p)[0]) &&
          forall j :: 0 <= j < k ==> Capture(lines[1..][j], p).None?;
        assert lines[k + 1] == lines[1..][k];
        assert forall j :: 1 <= j < k + 1 ==> lines[j] == lines[1..][j - 1];
      }
    }
  }

  /** Every entry found is the capture of some line. */
  lemma {:induction false} FindAllCaptures(lines: seq<string>, p: Pattern)
    ensures forall x :: x in FindAllInLines(lines, p) ==> exists k :: 0 <= k < |lines| && Capture(lines[k], p) == Some(x)
  {
    if lines != [] {
      FindAllCaptures(lines[1..], p);
      forall x | x in FindAllInLines(lines, p)
        ensures exists k :: 0 <= k < |lines| && Capture(lines[k], p) == Some(x)
      {
        if x in LineCaptures(lines[0], p) {
          assert Capture(lines[0], p) == Some(x);
        } else {
          var k :| 0 <= k < |lines[1..]| && Capture(lines[1..][k], p) == Some(x);
          assert lines[k + 1] == lines[1..][k];
        }
      }
    }
  }

  // ---------------------------------------------------------------------------
  // Substrings

  /** Python's `sub in s`. */
  predicate Contains(s: string, sub: string)
  {
    Search(s, Literal(sub), 0).Some?
  }

  /** `sub` stands in `s` at position `i`. */
  predicate OccursAt(s: string, sub: string, i: nat)
  {
    i + |sub| <= |s| && s[i..i + |sub|] == sub
  }

  lemma LiteralMatch(s: string, sub: string, i: nat)
    ensures MatchesAt(s, Literal(sub), i) <==> OccursAt(s, sub, i)
  {
    if i + |sub| <= |s| {
      var w := s[i..i + |sub|];
      assert forall k :: 0 <= k < |sub| ==> w[k] == s[i + k];
      if MatchesAt(s, Literal(sub), i) {
        assert forall k :: 0 <= k < |sub| ==> w[k] == sub[k];
      }
    }
  }

  /** `sub in s` holds exactly when `sub` occurs in `s` at some position. */
  lemma ContainsOccurs(s: string, sub: string)
    ensures Contains(s, sub) <==> exists i: nat :: OccursAt(s, sub, i)
  {
    if Contains(s, sub) {
      var i := Search(s, Literal(sub), 0).value;
      LiteralMatch(s, sub, i);
    }
    if exists i: nat :: OccursAt(s, sub, i) {
      var i: nat :| OccursAt(s, sub, i);
      LiteralMatch(s, sub, i);
    }
  }

  // ---------------------------------------------------------------------------
  // Python's int(str), base 10, for text made of ASCII characters

  /** The characters `str.strip()` and `int()` treat as white space, among the ASCII ones. */
  predicate IsSpace(c: char)
  {
    c == ' ' || c == '\t' || c == '\n' || c == '\r' || ('\U{0B}' <= c <= '\U{0C}') || ('\U{1C}' <= c <= '\U{1F}')
  }

  predicate IsDigit(c: char)
  {
    '0' <= c <= '9'
  }

  /** `s` without its leading white space. */
  function TrimStart(s: string): (r: string)
    ensures |r| <= |s| && r == s[|s| - |r|..]
    ensures forall k :: 0 <= k < |s| - |r| ==> IsSpace(s[k])
    ensures r != [] ==> !IsSpace(r[0])
  {
    if s != [] && IsSpace(s[0]) then TrimStart(s[1..]) else s
  }

  /** `s` without its trailing white space. */
  function TrimEnd(s: string): (r: string)
    ensures |r| <= |s| && r == s[..|r|]
    ensures forall k :: |r| <= k < |s| ==> IsSpace(s[k])
    ensures r != [] ==> !IsSpace(r[|r| - 1])
  {
    if s != [] && IsSpace(s[|s| - 1]) then TrimEnd(s[..|s| - 1]) else s
  }

  function Strip(s: string): string
  {
    TrimEnd(TrimStart(s))
  }

  /** Decimal digits, possibly grouped by single underscores that stand between two digits. */
  predicate ValidDigits(s: string)
  {
    |s| > 0 && IsDigit(s[0]) && ValidDigitsAfter(s[1..])
  }

  /** What may follow a digit: more digits, each possibly preceded by one underscore. */
  predicate ValidDigitsAfter(s: string)
  {
    if s == [] then true
    else if IsDigit(s[0]) then ValidDigitsAfter(s[1..])
    else s[0] == '_' && |s| >= 2 && IsDigit(s[1]) && ValidDigitsAfter(s[2..])
  }

  lemma {:induction false} ValidDigitsChars(s: string)
    requires ValidDigitsAfter(s)
    ensures forall k :: 0 <= k < |s| ==> IsDigit(s[k]) || s[k] == '_'
  {
    if s != [] {
      if IsDigit(s[0]) {
        ValidDigitsChars(s[1..]);
      } else {
        ValidDigitsChars(s[2..]);
      }
    }
  }

  /** `s` with its underscores removed, as `int()` reads a grouped numeral. */
  function DropUnderscores(s: string): (r: string)
    ensures |r| <= |s|
    ensures forall k :: 0 <= k < |r| ==> r[k] != '_' && r[k] in s
    ensures '_' !in s ==> r == s
  {
    if s == [] then []
    else
      var init := s[..|s| - 1];
      assert s == init + [s[|s| - 1]];
      if s[|s| - 1] == '_' then DropUnderscores(init)
      else DropUnderscores(init) + [s[|s| - 1]]
  }

  /** Removing underscores works piece by piece: every other character is kept, in order. */
  lemma {:induction false} DropUnderscoresAppend(a: string, b: string)
    ensures DropUnderscores(a + b) == DropUnderscores(a) + DropUnderscores(b)
    ensures DropUnderscores(['_']) == [] && (b != [] && b[0] != '_' ==> DropUnderscores([b[0]]) == [b[0]])
    decreases |b|
  {
    if b == [] {
      assert a + b == a;
    } else {
      var init := b[..|b| - 1];
      assert a + b == (a + init) + [b[|b| - 1]];
      assert (a + b)[..|a + b| - 1] == a + init;
      DropUnderscoresAppend(a, init);
      assert ['_'][..0] == [];
      assert [b[0]][..0] == [];
    }
  }

  function DigitValue(c: char): nat
    requires IsDigit(c)
  {
    c as int - '0' as int
  }

  /** The value of a string of decimal digits, most significant first. */
  function DigitsValue(s: string): nat
    requires forall k :: 0 <= k < |s| ==> IsDigit(s[k])
  {
    if s == [] then 0 else DigitsValue(s[..|s| - 1]) * 10 + DigitValue(s[|s| - 1])
  }

  /** The digits after an optional sign: None unless they form a valid, possibly underscore-grouped, numeral. */
  function ParseMagnitude(body: string): (r: Option<nat>)
    ensures r.Some? <==> ValidDigits(body)
  {
    if ValidDigits(body) then
      ValidDigitsChars(body[1..]);
      Some(DigitsValue(DropUnderscores(body)))
    else None
  }

  /** A grouped numeral is read digit by digit: one digit is its value, and a further digit, with or without an underscore before it, shifts the value one decimal place. */
  lemma MagnitudeExtend(a: string, d: char)
    requires IsDigit(d)
    ensures ParseMagnitude([d]) == Some(DigitValue(d))
    ensures ParseMagnitude(a).Some? ==> ParseMagnitude(a + [d]) == Some(ParseMagnitude(a).value * 10 + DigitValue(d))
    ensures ParseMagnitude(a).Some? ==> ParseMagnitude(a + ['_', d]) == Some(ParseMagnitude(a).value * 10 + DigitValue(d))
  {
    MagnitudeDigit(d);
    if ParseMagnitude(a).Some? {
      MagnitudeAppend(a, [d], d);
      DropUnderscoresAppend(['_'], [d]);
      assert ['_'] + [d] == ['_', d];
      MagnitudeAppend(a, ['_', d], d);
    }
  }

  lemma MagnitudeDigit(d: char)
    requires IsDigit(d)
    ensures ParseMagnitude([d]) == Some(DigitValue(d))
  {
    assert [d][1..] == [];
    assert ValidDigits([d]);
    assert DropUnderscores([d]) == [d];
    assert [d][..0] == [];
    assert DigitsValue([d]) == DigitsValue([]) * 10 + DigitValue(d);
  }

  /** The step of MagnitudeExtend for one tail, `[d]` or `['_', d]`. */
  lemma MagnitudeAppend(a: string, tail: string, d: char)
    requires IsDigit(d) && ValidDigits(a)
    requires tail == [d] || tail == ['_', d]
    requires DropUnderscores(tail) == [d]
    ensures ParseMagnitude(a + tail) == Some(ParseMagnitude(a).value * 10 + DigitValue(d))
  {
    ValidAppend(a, tail, d);
    ValidDigitsChars(a[1..]);
    var v := DropUnderscores(a);
    DropUnderscoresAppend(a, tail);
    assert DropUnderscores(a + tail) == v + [d];
    DigitsValueAppend(v, d);
    MagnitudeValue(a);
    MagnitudeValue(a + tail);
  }

  lemma MagnitudeValue(s: string)
    requires ValidDigits(s)
    ensures (forall k :: 0 <= k < |DropUnderscores(s)| ==> IsDigit(DropUnderscores(s)[k]))
    ensures ParseMagnitude(s) == Some(DigitsValue(DropUnderscores(s)))
  {
    ValidDigitsChars(s[1..]);
  }

  lemma ValidAppend(a: string, tail: string, d: char)
    requires IsDigit(d) && ValidDigits(a)
    requires tail == [d] || tail == ['_', d]
    ensures ValidDigits(a + tail)
  {
    ValidDigitsExtend(a[1..], d);
    assert (a + tail)[1..] == a[1..] + tail;
    assert (a + tail)[0] == a[0];
  }

  lemma DigitsValueAppend(v: string, d: char)
    requires IsDigit(d) && forall k :: 0 <= k < |v| ==> IsDigit(v[k])
    ensures DigitsValue(v + [d]) == DigitsValue(v) * 10 + DigitValue(d)
  {
    assert (v + [d])[..|v|] == v;
  }

  /** A valid digit sequence stays valid with one more digit, with or without an underscore before it. */
  lemma {:induction false} ValidDigitsExtend(s: string, d: char)
    requires IsDigit(d) && ValidDigitsAfter(s)
    ensures ValidDigitsAfter(s + [d]) && ValidDigitsAfter(s + ['_', d])
  {
    assert [d][1..] == [];
    assert ['_', d][2..] == [];
    if s != [] {
      if IsDigit(s[0]) {
        ValidDigitsExtend(s[1..], d);
        assert (s + [d])[1..] == s[1..] + [d];
        assert (s + ['_', d])[1..] == s[1..] + ['_', d];
      } else {
        ValidDigitsExtend(s[2..], d);
        assert (s + [d])[2..] == s[2..] + [d];
        assert (s + ['_', d])[2..] == s[2..] + ['_', d];
      }
    }
  }

  /** The text after an optional leading sign. */
  function Unsigned(t: string): string
  {
    if t != [] && (t[0] == '+' || t[0] == '-') then t[1..] else t
  }

  /** What `int()` accepts once the text is stripped: an optional sign, then digits grouped by single underscores. */
  predicate IsNumeral(t: string)
  {
    ValidDigits(Unsigned(t))
  }

  /** Python's `int(s)`: None where Python raises ValueError. */
  function ParseInt(s: string): (r: Option<int>)
    ensures var t := Strip(s);
      && (r.Some? <==> IsNumeral(t))
      && (r.Some? ==> t != [] && r.value == if t[0] == '-' then -(ParseMagnitude(Unsigned(t)).value as int) else ParseMagnitude(Unsigned(t)).value)
  {
    var t := Strip(s);
    match ParseMagnitude(Unsigned(t))
    case None => None
    case Some(magnitude) =>
      assert t != [];
      Some(if t[0] == '-' then -(magnitude as int) else magnitude)
  }

  /** Python's `str(n)` for a natural number. */
  function ShowNat(n: nat): (s: string)
    ensures |s| > 0 && forall k :: 0 <= k < |s| ==> IsDigit(s[k])
  {
    var d := ['0' + ((n % 10) as char)];
    if n < 10 then d else ShowNat(n / 10) + d
  }

  lemma {:induction false} DigitsValueShowNat(n: nat)
    ensures DigitsValue(ShowNat(n)) == n
  {
    var s := ShowNat(n);
    if n >= 10 {
      DigitsValueShowNat(n / 10);
      assert s[..|s| - 1] == ShowNat(n / 10);
    }
  }

  lemma StripUnspaced(s: string)
    requires s != [] && !IsSpace(s[0]) && !IsSpace(s[|s| - 1])
    ensures Strip(s) == s
  {
  }

  lemma {:induction false} DigitsAreValid(s: string)
    requires |s| > 0 && forall k :: 0 <= k < |s| ==> IsDigit(s[k])
    ensures ValidDigits(s)
  {
    DigitsFollow(s[1..]);
  }

  lemma {:induction false} DigitsFollow(s: string)
    requires forall k :: 0 <= k < |s| ==> IsDigit(s[k])
    ensures ValidDigitsAfter(s)
  {
    if s != [] {
      DigitsFollow(s[1..]);
    }
  }

  /** A non-empty run of decimal digits is a numeral worth its value. */
  lemma MagnitudeOfDigits(s: string)
    requires |s| > 0 && forall k :: 0 <= k < |s| ==> IsDigit(s[k])
    ensures ParseMagnitude(s) == Some(DigitsValue(s))
  {
    DigitsAreValid(s);
    assert '_' !in s by {
      forall k | 0 <= k < |s| ensures s[k] != '_' { assert IsDigit(s[k]); }
    }
  }

  /** A non-empty run of decimal digits reads as its value. */
  lemma ParseDigits(s: string)
    requires |s| > 0 && forall k :: 0 <= k < |s| ==> IsDigit(s[k])
    ensures ParseInt(s) == Some(DigitsValue(s))
  {
    StripUnspaced(s);
    assert IsDigit(s[0]) && Unsigned(s) == s;
    MagnitudeOfDigits(s);
  }

  /** int(str(n)) == n for a natural number. */
  lemma ParseShowNat(n: nat)
    ensures ParseInt(ShowNat(n)) == Some(n)
  {
    ParseDigits(ShowNat(n));
    DigitsValueShowNat(n);
  }

  /** int(str(n)) == n for every integer, sign included. */
  lemma ParseShowInt(n: int)
    ensures ParseInt(if n < 0 then "-" + ShowNat(-n) else ShowNat(n)) == Some(n)
  {
    if n >= 0 {
      ParseShowNat(n);
    } else {
      var digits := ShowNat(-n);
      var s := "-" + digits;
      assert s[|s| - 1] == digits[|digits| - 1];
      assert IsDigit(s[|s| - 1]);
      StripUnspaced(s);
      assert s[1..] == digits;
      MagnitudeOfDigits(digits);
      DigitsValueShowNat(-n);
    }
  }
}
