/** Character classes and the string scanning that the program's regular expressions rely on.

    The classes are those of Python's str: they are a parameter, constrained only by the facts in
    `Lawful`, so every result holds for full Unicode text and not just for ASCII. */
module Text {
  import opened Options

  /** `lower` maps a character to its lower-case form, which may be more than one character. */
  datatype Alphabet = Alphabet(isWord: char -> bool, isSpace: char -> bool, isUpper: char -> bool,
                               lower: char -> string)

  predicate AsciiAlnum(ch: char) { 'a' <= ch <= 'z' || 'A' <= ch <= 'Z' || '0' <= ch <= '9' }

  ghost predicate Lawful(a: Alphabet) {
    && (forall ch :: a.isSpace(ch) ==> !a.isWord(ch))
    && (forall ch :: AsciiAlnum(ch) ==> a.isWord(ch))
    && (forall ch :: 'a' <= ch <= 'z' ==> !a.isUpper(ch))
    && a.isSpace(' ') && a.isSpace('\n')
    && !a.isWord('"') && !a.isSpace('"')
    && !a.isSpace('.') && !a.isSpace('!') && !a.isSpace('?') && !a.isSpace(',')
    && !a.isWord('.') && !a.isWord(',') && !a.isWord('?') && !a.isWord('\'')
    && !a.isWord('!') && !a.isWord('\U{2026}') && !a.isWord(';') && !a.isWord(':')
    && !a.isSpace('\'') && !a.isSpace('(') && !a.isSpace('\U{201C}') && !a.isSpace('\U{2018}')
    && (forall ch, k: nat :: a.isSpace(ch) && k < |a.lower(ch)| ==> !AsciiAlnum(a.lower(ch)[k]))
  }

  /** Plain ASCII text is an instance, so what is assumed of an alphabet can be met. */
  const ASCII := Alphabet(
    ch => AsciiAlnum(ch) || ch == '_',
    ch => ch in " \t\n\r",
    ch => 'A' <= ch <= 'Z',
    ch => if 'A' <= ch <= 'Z' then [(ch as int + 32) as char] else [ch])

  lemma AsciiIsLawful()
    ensures Lawful(ASCII)
  {}

  ghost predicate AllSpace(a: Alphabet, s: string) { forall k | 0 <= k < |s| :: a.isSpace(s[k]) }

  ghost predicate AllWord(a: Alphabet, s: string) { forall k | 0 <= k < |s| :: a.isWord(s[k]) }

  // ---- runs ------------------------------------------------------------

  /** The end of the longest run of whitespace starting at i. */
  function SkipSpaces(a: Alphabet, s: string, i: nat): (e: nat)
    requires i <= |s|
    ensures i <= e <= |s| && AllSpace(a, s[i..e])
    ensures e < |s| ==> !a.isSpace(s[e])
    decreases |s| - i
  {
    if i < |s| && a.isSpace(s[i]) then
      var e := SkipSpaces(a, s, i + 1);
      assert s[i..e] == [s[i]] + s[i + 1..e];
      e
    else i
  }

  /** The end of the longest run of word characters starting at i. */
  function SkipWord(a: Alphabet, s: string, i: nat): (e: nat)
    requires i <= |s|
    ensures i <= e <= |s| && AllWord(a, s[i..e])
    ensures e < |s| ==> !a.isWord(s[e])
    ensures i < |s| && a.isWord(s[i]) ==> i < e
    decreases |s| - i
  {
    if i < |s| && a.isWord(s[i]) then
      var e := SkipWord(a, s, i + 1);
      assert s[i..e] == [s[i]] + s[i + 1..e];
      e
    else i
  }

  /** The start of the longest run of whitespace ending at i. */
  function BackSpaces(a: Alphabet, s: string, i: nat): (b: nat)
    requires i <= |s|
    ensures b <= i && AllSpace(a, s[b..i])
    ensures b > 0 ==> !a.isSpace(s[b - 1])
  {
    if i > 0 && a.isSpace(s[i - 1]) then
      var b := BackSpaces(a, s, i - 1);
      assert s[b..i] == s[b..i - 1] + [s[i - 1]];
      b
    else i
  }

  /** The start of the longest run of word characters ending at i. */
  function BackWord(a: Alphabet, s: string, i: nat): (b: nat)
    requires i <= |s|
    ensures b <= i && AllWord(a, s[b..i])
    ensures i > 0 && a.isWord(s[i - 1]) ==> b < i
  {
    if i > 0 && a.isWord(s[i - 1]) then
      var b := BackWord(a, s, i - 1);
      assert s[b..i] == s[b..i - 1] + [s[i - 1]];
      b
    else i
  }

  // ---- what determines a run -------------------------------------------

  lemma SpacesWithin(a: Alphabet, t: string, i: nat, e: nat)
    requires i <= e <= |t| && AllSpace(a, t[i..e])
    ensures forall k | i <= k < e :: a.isSpace(t[k])
  {
    assert forall k | i <= k < e :: t[i..e][k - i] == t[k];
  }

  lemma {:induction false} SpacesEnd(a: Alphabet, t: string, i: nat, e: nat)
    requires i <= e <= |t| && (forall k | i <= k < e :: a.isSpace(t[k])) && (e == |t| || !a.isSpace(t[e]))
    ensures SkipSpaces(a, t, i) == e
    decreases e - i
  {
    if i < e {
      SpacesEnd(a, t, i + 1, e);
    }
  }

  lemma {:induction false} WordEnd(a: Alphabet, t: string, i: nat, e: nat)
    requires i <= e <= |t| && (forall k | i <= k < e :: a.isWord(t[k])) && (e == |t| || !a.isWord(t[e]))
    ensures SkipWord(a, t, i) == e
    decreases e - i
  {
    if i < e {
      WordEnd(a, t, i + 1, e);
    }
  }

  // ---- anchors ---------------------------------------------------------

  /** The regular expression \b at position i. */
  predicate Edge(a: Alphabet, s: string, i: nat)
    requires i <= |s|
  {
    (i > 0 && a.isWord(s[i - 1])) != (i < |s| && a.isWord(s[i]))
  }

  /** The literal lit starts at position i. */
  predicate At(s: string, i: nat, lit: string) {
    i + |lit| <= |s| && s[i..i + |lit|] == lit
  }

  lemma AtPrefix(t: string, i: nat, x: string, y: string)
    ensures At(t, i, x + y) ==> At(t, i, x)
  {
    assert At(t, i, x + y) ==> t[i..i + |x|] == t[i..i + |x + y|][..|x|];
  }

  lemma AtChars(t: string, i: nat, lit: string)
    requires At(t, i, lit)
    ensures forall k | i <= k < i + |lit| :: t[k] == lit[k - i]
  {
    var u := t[i..i + |lit|];
    assert forall k | i <= k < i + |lit| :: t[k] == u[k - i];
  }

  lemma AtWithin(x: string, s: string, y: string, k: nat, lit: string)
    requires At(x + s + y, |x| + k, lit) && k + |lit| <= |s|
    ensures At(s, k, lit)
  {
    assert (x + s + y)[|x| + k..|x| + k + |lit|] == s[k..k + |lit|];
  }

  ghost predicate Contains(s: string, lit: string) { exists i: nat :: At(s, i, lit) }

  predicate EndsWith(s: string, suffix: string)
    ensures EndsWith(s, suffix) && suffix != "" ==> s != "" && s[|s| - 1] == suffix[|suffix| - 1]
  {
    |suffix| <= |s| && s[|s| - |suffix|..] == suffix
  }

  /** The first position at or after i that holds ch, or |s|. */
  function IndexOf(s: string, ch: char, i: nat): (k: nat)
    requires i <= |s|
    ensures i <= k <= |s|
    ensures k < |s| ==> s[k] == ch
    ensures forall j | i <= j < k :: s[j] != ch
    decreases |s| - i
  {
    if i < |s| && s[i] != ch then IndexOf(s, ch, i + 1) else i
  }

  /** The first position at or after i where lit starts, or None. */
  function Find(s: string, lit: string, i: nat): (k: Option<nat>)
    ensures k.Some? ==> i <= k.value && At(s, k.value, lit) && forall j | i <= j < k.value :: !At(s, j, lit)
    ensures k.None? ==> forall j: nat | i <= j :: !At(s, j, lit)
    decreases |s| - i
  {
    if i > |s| then None
    else if At(s, i, lit) then Some(i)
    else Find(s, lit, i + 1)
  }

  // ---- trimming --------------------------------------------------------

  function TrimStart(a: Alphabet, s: string): string { s[SkipSpaces(a, s, 0)..] }

  function TrimEnd(a: Alphabet, s: string): string { s[..BackSpaces(a, s, |s|)] }

  /** str.strip */
  function Trim(a: Alphabet, s: string): string { TrimEnd(a, TrimStart(a, s)) }

  ghost predicate Blank(a: Alphabet, s: string) { AllSpace(a, s) }

  function Lower(a: Alphabet, s: string): string {
    if s == "" then "" else a.lower(s[0]) + Lower(a, s[1..])
  }

  // ---- trimming facts --------------------------------------------------

  /** Trimming cuts whitespace off both ends and nothing else, and leaves none there. */
  lemma TrimShape(a: Alphabet, s: string) returns (i: nat, j: nat)
    ensures i <= j <= |s| && Trim(a, s) == s[i..j]
    ensures forall k | 0 <= k < i || j <= k < |s| :: a.isSpace(s[k])
    ensures i < j ==> !a.isSpace(s[i]) && !a.isSpace(s[j - 1])
  {
    i := SkipSpaces(a, s, 0);
    var u := s[i..];
    var b := BackSpaces(a, u, |u|);
    j := i + b;
    assert s[i..j] == u[..b];
    assert forall k | 0 <= k < i :: s[k] == s[0..i][k];
    assert forall k | j <= k < |s| :: s[k] == u[b..|u|][k - j];
    assert i < j ==> u[b - 1] == s[j - 1];
  }

  /** Trimming is determined by its shape. */
  lemma TrimIs(a: Alphabet, x: string, m: string, y: string)
    requires AllSpace(a, x) && AllSpace(a, y)
    requires m == "" || (!a.isSpace(m[0]) && !a.isSpace(m[|m| - 1]))
    ensures Trim(a, x + m + y) == m
  {
    hide Trim;
    var s := x + m + y;
    var i, j := TrimShape(a, s);
    assert forall k | 0 <= k < |x| || |x| + |m| <= k < |s| :: a.isSpace(s[k]);
    assert m != "" ==> s[|x|] == m[0] && s[|x| + |m| - 1] == m[|m| - 1];
    assert s[|x|..|x| + |m|] == m;
  }

  lemma TrimOfTrimmed(a: Alphabet, s: string)
    ensures Trim(a, Trim(a, s)) == Trim(a, s)
  {
    var i, j := TrimShape(a, s);
    TrimIs(a, "", s[i..j], "");
    assert "" + s[i..j] + "" == s[i..j];
  }
}
