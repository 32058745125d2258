/** The package name check of agent/config.py. */
module PackageNames {

  const MAX_NAME := 255

  predicate Letter(c: char) { 'a' <= c <= 'z' || 'A' <= c <= 'Z' }

  predicate WordChar(c: char) { Letter(c) || '0' <= c <= '9' || c == '_' }

  /** The characters `str.strip` removes. */
  predicate Space(c: char) {
    || '\t' <= c <= '\r' || '\U{1C}' <= c <= ' ' || c == '\U{85}' || c == '\U{A0}' || c == '\U{1680}'
    || '\U{2000}' <= c <= '\U{200A}' || c == '\U{2028}' || c == '\U{2029}' || c == '\U{202F}' || c == '\U{205F}'
    || c == '\U{3000}'
  }

  function Strip(s: string): string {
    if s != "" && Space(s[0]) then Strip(s[1..])
    else if s != "" && Space(s[|s| - 1]) then Strip(s[..|s| - 1])
    else s
  }

  predicate Blank(s: string) { forall i | 0 <= i < |s| :: Space(s[i]) }

  /** The part of `s` between `i` and `j` is what is left when blanks are taken off both ends. */
  predicate Bare(s: string, i: nat, j: nat) {
    && i <= j <= |s| && Blank(s[..i]) && Blank(s[j..])
    && (i < j ==> !Space(s[i]) && !Space(s[j - 1]))
  }

  lemma BlankInFront(s: string, i: nat, j: nat)
    requires s != "" && Space(s[0]) && Bare(s[1..], i, j)
    ensures Bare(s, i + 1, j + 1) && s[1..][i..j] == s[i + 1..j + 1]
  {
    assert s[..i + 1] == [s[0]] + s[1..][..i] && s[j + 1..] == s[1..][j..];
  }

  lemma BlankBehind(s: string, i: nat, j: nat)
    requires s != "" && Space(s[|s| - 1]) && Bare(s[..|s| - 1], i, j)
    ensures Bare(s, i, j) && s[..|s| - 1][i..j] == s[i..j]
  {
    assert s[..i] == s[..|s| - 1][..i] && s[j..] == s[..|s| - 1][j..] + [s[|s| - 1]];
  }

  /** What is stripped is blank, and what is left begins and ends with a character that is not. */
  lemma {:induction false} StripMeans(s: string) returns (i: nat, j: nat)
    ensures Bare(s, i, j) && Strip(s) == s[i..j]
    decreases |s|
  {
    if s != "" && Space(s[0]) {
      i, j := StripMeans(s[1..]);
      BlankInFront(s, i, j);
      i, j := i + 1, j + 1;
    } else if s != "" && Space(s[|s| - 1]) {
      i, j := StripMeans(s[..|s| - 1]);
      BlankBehind(s, i, j);
    } else {
      i, j := 0, |s|;
    }
  }

  // ---------------------------------------------------------------- the pattern

  /** `[A-Za-z][A-Za-z0-9_]*` */
  predicate Segment(s: string) { s != "" && Letter(s[0]) && forall i | 0 <= i < |s| :: WordChar(s[i]) }

  /** `(\.[A-Za-z][A-Za-z0-9_]*)*` */
  predicate DottedSegments(s: string) {
    s == "" || exists k | 1 < k <= |s| :: s[0] == '.' && Segment(s[1..k]) && DottedSegments(s[k..])
  }

  /** `PACKAGE_NAME_REGEX`, matched against the whole string: one segment and at least one dotted one. */
  predicate Pattern(s: string) {
    exists k | 0 < k < |s| :: Segment(s[..k]) && DottedSegments(s[k..])
  }

  predicate ValidName(s: string) { |s| <= MAX_NAME && Pattern(s) }

  // ---------------------------------------------------------------- what it means

  /** The character may stand behind `previous`: a letter behind a dot, else a word character or a dot. */
  predicate Follows(previous: char, c: char) {
    if previous == '.' then Letter(c) else WordChar(c) || c == '.'
  }

  /** Every character of the string may stand where it does, behind `before`. */
  predicate Fits(before: char, s: string)
    decreases |s|
  {
    s == "" || (Follows(before, s[0]) && Fits(s[0], s[1..]))
  }

  /** A string that fits and does not end in a dot. */
  predicate Closed(before: char, s: string) { Fits(before, s) && (s == "" || s[|s| - 1] != '.') }

  lemma {:induction false} FitsAppend(before: char, a: string, b: string)
    requires a != ""
    ensures Fits(before, a + b) <==> Fits(before, a) && Fits(a[|a| - 1], b)
    decreases |a|
  {
    assert (a + b)[1..] == a[1..] + b;
    if |a| == 1 {
      assert a[1..] + b == b;
    } else {
      FitsAppend(a[0], a[1..], b);
    }
  }

  lemma {:induction false} WordsFit(before: char, s: string)
    requires s != "" && before != '.' && forall i :: 0 <= i < |s| ==> WordChar(s[i])
    ensures Fits(before, s)
    decreases |s|
  {
    if |s| > 1 { WordsFit(s[0], s[1..]); }
  }

  lemma SegmentFits(s: string)
    requires Segment(s)
    ensures Fits('.', s) && WordChar(s[|s| - 1])
  {
    if |s| > 1 { WordsFit(s[0], s[1..]); }
  }

  /** All that matters of the character in front is whether it is a dot. */
  lemma FitsBehindWord(a: char, b: char, s: string)
    requires a != '.' && b != '.'
    ensures Fits(a, s) <==> Fits(b, s)
  {
  }

  /** The end of the word characters at the start of a string. */
  function WordEnd(s: string): (k: nat)
    ensures k <= |s| && (forall i | 0 <= i < k :: WordChar(s[i])) && (k < |s| ==> !WordChar(s[k]))
  {
    if s == "" || !WordChar(s[0]) then 0 else 1 + WordEnd(s[1..])
  }

  /** Cutting the first segment off a string that fits behind a dot. */
  lemma FirstSegment(s: string)
    requires s != "" && Closed('.', s)
    ensures var k := WordEnd(s);
            && 0 < k && Segment(s[..k]) && Closed('a', s[k..])
            && (k < |s| ==> s[k] == '.')
  {
    var k := WordEnd(s);
    assert s == s[..k] + s[k..];
    FitsAppend('.', s[..k], s[k..]);
    FitsBehindWord(s[k - 1], 'a', s[k..]);
  }

  lemma SegmentThen(a: string, b: string)
    requires Segment(a)
    ensures Closed('.', a + b) <==> Closed('a', b)
  {
    SegmentFits(a);
    FitsAppend('.', a, b);
    FitsBehindWord(a[|a| - 1], 'a', b);
  }

  lemma DotThen(s: string)
    requires s != "" && s[0] == '.'
    ensures Closed('a', s) <==> s[1..] != "" && Closed('.', s[1..])
  {
  }

  lemma DottedHead(s: string, k: nat)
    requires 1 < k <= |s| && s[0] == '.' && Segment(s[1..k])
    ensures Closed('a', s) <==> Closed('a', s[k..])
  {
    DotThen(s);
    assert s[1..] == s[1..k] + s[k..];
    SegmentThen(s[1..k], s[k..]);
  }

  lemma DottedFirst(s: string)
    requires s != "" && s[0] == '.' && Closed('a', s)
    ensures var k := 1 + WordEnd(s[1..]);
            1 < k <= |s| && Segment(s[1..k]) && (k < |s| ==> s[k] == '.')
  {
    DotThen(s);
    FirstSegment(s[1..]);
    assert s[1..][..WordEnd(s[1..])] == s[1..1 + WordEnd(s[1..])];
  }

  lemma {:induction false} DottedMeans(s: string)
    ensures DottedSegments(s) <==> s == "" || (s[0] == '.' && Closed('a', s))
    decreases |s|
  {
    if s != "" && s[0] == '.' {
      if Closed('a', s) {
        var k := 1 + WordEnd(s[1..]);
        DottedFirst(s);
        DottedHead(s, k);
        DottedMeans(s[k..]);
      }
      if DottedSegments(s) {
        var k :| 1 < k <= |s| && s[0] == '.' && Segment(s[1..k]) && DottedSegments(s[k..]);
        DottedMeans(s[k..]);
        DottedHead(s, k);
      }
    }
  }

  lemma PatternFits(s: string, k: nat)
    requires 0 < k < |s| && Segment(s[..k]) && DottedSegments(s[k..])
    ensures '.' in s && Closed('.', s)
  {
    DottedMeans(s[k..]);
    assert s == s[..k] + s[k..] && s[k] == '.';
    SegmentThen(s[..k], s[k..]);
  }

  lemma FitsPattern(s: string)
    requires '.' in s && Closed('.', s)
    ensures Pattern(s)
  {
    FirstSegment(s);
    DottedMeans(s[WordEnd(s)..]);
  }

  /** A valid name, said of its characters: it has a dot, does not end in one, and every character may stand where
      it does when the string stands behind a dot. */
  lemma PatternMeans(s: string)
    ensures Pattern(s) <==> '.' in s && Closed('.', s)
    ensures ValidName(s) <==> |s| <= 255 && '.' in s && Closed('.', s)
  {
    if Pattern(s) {
      var k :| 0 < k < |s| && Segment(s[..k]) && DottedSegments(s[k..]);
      PatternFits(s, k);
    }
    if '.' in s && Closed('.', s) { FitsPattern(s); }
  }

  /** A name without a dot is refused. */
  lemma PlainNameIsInvalid()
    ensures Strip(" roblox ") == "roblox" && !ValidName(Strip(" roblox "))
  {
    assert " roblox "[1..] == "roblox " && "roblox "[..6] == "roblox";
    PatternMeans("roblox");
  }
}
