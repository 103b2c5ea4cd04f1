/** What no pass of the rewriter may touch: the punctuation skeleton of a text, that is its characters
    other than letters, digits, underscores, whitespace, apostrophes and those of the name itself. */
module PovSkeleton {
  import opened Text
  import opened PovWords
  import opened PovPasses

  predicate Guarded(c: Ctx, ch: char) {
    !c.abc.isWord(ch) && !c.abc.isSpace(ch) && ch != '\'' && ch !in c.name
  }

  function Skeleton(c: Ctx, s: string): string {
    if s == "" then "" else (if Guarded(c, s[0]) then [s[0]] else "") + Skeleton(c, s[1..])
  }

  ghost predicate Plain(c: Ctx, s: string) { forall k | 0 <= k < |s| :: !Guarded(c, s[k]) }

  ghost predicate PlainBetween(c: Ctx, t: string, i: nat, j: nat)
    requires i <= j <= |t|
  {
    forall k | i <= k < j :: !Guarded(c, t[k])
  }

  lemma {:induction false} SkeletonAppend(c: Ctx, x: string, y: string)
    ensures Skeleton(c, x + y) == Skeleton(c, x) + Skeleton(c, y)
  {
    if x == "" {
      assert x + y == y;
    } else {
      assert (x + y)[1..] == x[1..] + y;
      SkeletonAppend(c, x[1..], y);
    }
  }

  lemma {:induction false} SkeletonOfPlain(c: Ctx, s: string)
    requires Plain(c, s)
    ensures Skeleton(c, s) == ""
  {
    if s != "" {
      SkeletonOfPlain(c, s[1..]);
    }
  }

  // ---- plain stretches -------------------------------------------------

  lemma PlainSpaces(c: Ctx, t: string, i: nat, e: nat)
    requires i <= e <= |t| && AllSpace(c.abc, t[i..e])
    ensures PlainBetween(c, t, i, e)
  {
    SpacesWithin(c.abc, t, i, e);
  }

  lemma PlainWord(c: Ctx, t: string, i: nat, e: nat)
    requires i <= e <= |t| && AllWord(c.abc, t[i..e])
    ensures PlainBetween(c, t, i, e) && Plain(c, t[i..e])
  {
    assert forall k | i <= k < e :: t[i..e][k - i] == t[k];
  }

  lemma PlainAt(c: Ctx, t: string, i: nat, lit: string)
    requires At(t, i, lit) && Plain(c, lit)
    ensures PlainBetween(c, t, i, i + |lit|)
  {
    assert forall k | i <= k < i + |lit| :: t[i..i + |lit|][k - i] == t[k];
  }

  lemma NameIsPlain(c: Ctx)
    ensures Plain(c, c.name)
  {}

  ghost predicate Lettered(s: string) { forall k | 0 <= k < |s| :: AsciiAlnum(s[k]) || s[k] == ' ' || s[k] == '\'' }

  lemma PlainLetters(c: Ctx, s: string)
    requires Lawful(c.abc) && Lettered(s)
    ensures Plain(c, s)
  {}

  lemma PlainConjugate(c: Ctx, word: string)
    requires Lawful(c.abc) && AllWord(c.abc, word)
    ensures Plain(c, Conjugate(c.abc, word))
  {
    ConjugateIsWord(c.abc, word);
  }

  // ---- one match -------------------------------------------------------

  /** Up to g the match and its replacement agree; beyond g neither holds a guarded character. */
  ghost predicate SplitsAt(c: Ctx, t: string, i: nat, h: Hit, g: nat) {
    && h.Hit? && i <= g <= h.end <= |t| && g - i <= |h.text|
    && h.text[..g - i] == t[i..g]
    && PlainBetween(c, t, g, h.end) && Plain(c, h.text[g - i..])
  }

  lemma PlainSplit(c: Ctx, t: string, i: nat, h: Hit)
    requires h.Hit? && i <= h.end <= |t| && PlainBetween(c, t, i, h.end) && Plain(c, h.text)
    ensures SplitsAt(c, t, i, h, i)
  {
    assert h.text[0..] == h.text && h.text[..0] == t[i..i];
  }

  lemma PossessiveNamePlain(c: Ctx, t: string, i: nat)
    requires Lawful(c.abc) && i < |t| && c.name != "" && PossessiveNameAt(c, t, i).Hit?
    ensures SplitsAt(c, t, i, PossessiveNameAt(c, t, i), i)
  {
    hide SentenceStart, Predicative, Edge;
    var h := PossessiveNameAt(c, t, i);
    PlainLetters(c, h.text);
    assert Plain(c, c.name + "'s") by { PlainLetters(c, "'s"); }
    PlainAt(c, t, i, c.name + "'s");
    PlainSplit(c, t, i, h);
  }

  lemma SubjectNamePlain(c: Ctx, t: string, i: nat)
    requires Lawful(c.abc) && i < |t| && c.name != "" && SubjectNameAt(c, t, i).Hit?
    requires SubjectNameAt(c, t, i).edits > 0
    ensures SplitsAt(c, t, i, SubjectNameAt(c, t, i), i)
  {
    hide Guarded, SkipSpaces, SkipWord, SplitsAt, SentenceStart, Fragment, Edge, Conjugate, LooksLikeVerb;
    var h := SubjectNameAt(c, t, i);
    var n := i + |c.name|;
    var v := SkipSpaces(c.abc, t, n);
    NameIsPlain(c);
    PlainAt(c, t, i, c.name);
    PlainSpaces(c, t, n, v);
    PlainWord(c, t, v, h.end);
    PlainConjugate(c, t[v..h.end]);
    PlainLetters(c, You(SentenceStart(c, t, i)) + " ");
    PlainSplit(c, t, i, h);
  }

  lemma BareNamePlain(c: Ctx, t: string, i: nat)
    requires Lawful(c.abc) && i < |t| && c.name != "" && BareNameAt(c, t, i).Hit? && BareNameAt(c, t, i).edits > 0
    ensures SplitsAt(c, t, i, BareNameAt(c, t, i), i)
  {
    hide Guarded, SplitsAt, SentenceStart, Fragment, Edge;
    var h := BareNameAt(c, t, i);
    NameIsPlain(c);
    PlainAt(c, t, i, c.name);
    PlainLetters(c, h.text);
    PlainSplit(c, t, i, h);
  }

  lemma InterrupterPlain(c: Ctx, t: string, i: nat) returns (g: nat)
    requires Lawful(c.abc) && i < |t| && InterrupterAt(c, t, i).Hit? && InterrupterAt(c, t, i).edits > 0
    ensures SplitsAt(c, t, i, InterrupterAt(c, t, i), g)
  {
    hide Guarded, SkipSpaces, SkipWord, Edge, Conjugate, InterruptionEnd, LooksLikeVerb;
    var h := InterrupterAt(c, t, i);
    g := InterruptionEnd(c, t, SkipSpaces(c.abc, t, 0) + 3);
    var v := SkipSpaces(c.abc, t, g);
    PlainSpaces(c, t, g, v);
    PlainWord(c, t, v, h.end);
    PlainConjugate(c, t[v..h.end]);
    PlainLetters(c, " ");
    var rest := " " + Conjugate(c.abc, t[v..h.end]);
    assert h.text == t[..g] + rest;
    assert h.text[g..] == rest && h.text[..g] == t[0..g];
  }

  lemma LiteralPlain(c: Ctx, t: string, i: nat, lit: string, text: string)
    requires Lawful(c.abc) && At(t, i, lit) && Lettered(lit) && Lettered(text)
    ensures PlainBetween(c, t, i, i + |lit|) && Plain(c, text)
  {
    PlainLetters(c, lit);
    PlainAt(c, t, i, lit);
    PlainLetters(c, text);
  }

  lemma CoordinatedPlain(c: Ctx, t: string, i: nat, j: nat, lead: string, comma: bool)
    requires Lawful(c.abc) && i < j <= |t| && lead == t[i..j]
    requires Coordinated(c, t, i, j, lead, comma).Hit? && Coordinated(c, t, i, j, lead, comma).edits > 0
    ensures SplitsAt(c, t, i, Coordinated(c, t, i, j, lead, comma), j)
  {
    hide Guarded, SkipSpaces, SkipWord, Conjugate, LooksLikeVerb, IsPronoun, IsSkippableAdverb;
    var h := Coordinated(c, t, i, j, lead, comma);
    var s1 := SkipSpaces(c.abc, t, j);
    var e1 := SkipWord(c.abc, t, s1);
    var s2 := SkipSpaces(c.abc, t, e1);
    var e2 := SkipWord(c.abc, t, s2);
    PlainSpaces(c, t, j, s1);
    PlainWord(c, t, s1, e1);
    PlainSpaces(c, t, e1, s2);
    PlainWord(c, t, s2, e2);
    PlainConjugate(c, t[s1..e1]);
    PlainConjugate(c, t[s2..e2]);
    PlainLetters(c, " ");
    var w1, w2 := t[s1..e1], t[s2..e2];
    var first := " " + Conjugate(c.abc, w1);
    var both := first + (" " + w2);
    var second := " " + w1 + " " + Conjugate(c.abc, w2);
    assert Plain(c, first) && Plain(c, both) && Plain(c, second);
    assert first + "" == first;
    var rest := if h.text == lead + first then first else if h.text == lead + both then both else second;
    assert h.text == lead + rest;
    assert h.text[..|lead|] == lead && h.text[|lead|..] == rest;
  }

  lemma ThenVerbPlain(c: Ctx, t: string, i: nat)
    requires Lawful(c.abc) && i < |t| && ThenVerbAt(c, t, i).Hit? && ThenVerbAt(c, t, i).edits > 0
    ensures SplitsAt(c, t, i, ThenVerbAt(c, t, i), i)
  {
    hide Guarded, SkipSpaces, SkipWord, SplitsAt, Conjugate, LooksLikeVerb, IsPronoun, Edge;
    var h := ThenVerbAt(c, t, i);
    var v := SkipSpaces(c.abc, t, i + 4);
    LiteralPlain(c, t, i, "then", "then ");
    PlainSpaces(c, t, i + 4, v);
    PlainWord(c, t, v, h.end);
    PlainConjugate(c, t[v..h.end]);
    PlainSplit(c, t, i, h);
  }

  lemma SubjectPronounPlain(c: Ctx, t: string, i: nat)
    requires Lawful(c.abc) && i < |t| && SubjectPronounAt(c, t, i).Hit?
    ensures SplitsAt(c, t, i, SubjectPronounAt(c, t, i), i)
  {
    hide Guarded, SkipSpaces, SkipWord, SplitsAt, SentenceStart, Conjugate, LooksLikeVerb, IsPronoun, Edge;
    var h := SubjectPronounAt(c, t, i);
    var form := c.pronouns.Subject();
    var v := SkipSpaces(c.abc, t, i + |form|);
    var e := SkipWord(c.abc, t, v);
    FormsAreLetters(c.pronouns);
    LiteralPlain(c, t, i, form, You(SentenceStart(c, t, i)) + " ");
    LiteralPlain(c, t, i, form, You(SentenceStart(c, t, i)));
    hide Pronouns.Subject;
    PlainSpaces(c, t, i + |form|, v);
    PlainWord(c, t, v, e);
    PlainConjugate(c, t[v..e]);
    PlainSplit(c, t, i, h);
  }

  lemma InvertedAuxiliaryPlain(c: Ctx, t: string, i: nat)
    requires Lawful(c.abc) && i < |t| && InvertedAuxiliaryAt(c, t, i).Hit? && InvertedAuxiliaryAt(c, t, i).edits > 0
    ensures SplitsAt(c, t, i, InvertedAuxiliaryAt(c, t, i), i)
  {
    hide Guarded, SkipSpaces, SkipWord, SplitsAt, Conjugate, Irregular, Edge;
    var h := InvertedAuxiliaryAt(c, t, i);
    var w := SkipWord(c.abc, t, i);
    var y := SkipSpaces(c.abc, t, w);
    PlainWord(c, t, i, w);
    PlainSpaces(c, t, w, y);
    PlainConjugate(c, t[i..w]);
    var you := if At(t, y, "you") then "you" else "You";
    assert At(t, y, you) && h.end == y + 3 && t[y..y + 3] == you;
    LiteralPlain(c, t, y, you, " " + you);
    assert h.text == Conjugate(c.abc, t[i..w]) + (" " + you);
    hide At, InvertedAuxiliaryAt;
    PlainSplit(c, t, i, h);
  }

  /** The lower-case pronoun forms are letters only. */
  lemma FormsAreLetters(p: Pronouns)
    ensures Lettered(p.Subject()) && Lettered(p.Object()) && Lettered(p.Possessive())
    ensures forall k | 0 <= k < |p.Reflexives()| :: Lettered(p.Reflexives()[k])
  {}

  ghost predicate ProperPass(p: Pass) { p.Reflexive? ==> Lettered(p.form) }

  lemma SimplePlain(c: Ctx, t: string, i: nat, p: Pass)
    requires Lawful(c.abc) && i < |t| && c.name != "" && ProperPass(p)
    requires p.Reflexive? || p.PossessivePronoun? || p.ObjectPronoun?
    requires HitAt(p, c, t, i).Hit?
    ensures SplitsAt(c, t, i, HitAt(p, c, t, i), i)
  {
    hide Guarded, SplitsAt, SentenceStart, Edge, WordAhead;
    var h := HitAt(p, c, t, i);
    FormsAreLetters(c.pronouns);
    match p {
      case Reflexive(form) => LiteralPlain(c, t, i, form, h.text);
      case PossessivePronoun => LiteralPlain(c, t, i, c.pronouns.Possessive(), h.text);
      case ObjectPronoun => LiteralPlain(c, t, i, c.pronouns.Object(), h.text);
    }
    PlainSplit(c, t, i, h);
  }

  lemma HitSplits(p: Pass, c: Ctx, t: string, i: nat) returns (g: nat)
    requires Lawful(c.abc) && i < |t| && c.name != "" && ProperPass(p)
    requires HitAt(p, c, t, i).Hit? && HitAt(p, c, t, i).edits > 0
    ensures SplitsAt(c, t, i, HitAt(p, c, t, i), g)
  {
    hide SplitsAt, PossessiveNameAt, SubjectNameAt, BareNameAt, InterrupterAt, ReflexiveAt, Coordinated, ThenVerbAt;
    hide PossessivePronounAt, SubjectPronounAt, ObjectPronounAt, InvertedAuxiliaryAt;
    g := i;
    match p
    case PossessiveName => PossessiveNamePlain(c, t, i);
    case SubjectName => SubjectNamePlain(c, t, i);
    case BareName => BareNamePlain(c, t, i);
    case Interrupter => g := InterrupterPlain(c, t, i);
    case Reflexive(_) => SimplePlain(c, t, i, p);
    case AndVerb => g := i + 3; CoordinatedPlain(c, t, i, g, "and", false);
    case CommaVerb => g := i + 1; CoordinatedPlain(c, t, i, g, ",", true);
    case ThenVerb => ThenVerbPlain(c, t, i);
    case PossessivePronoun => SimplePlain(c, t, i, p);
    case SubjectPronoun => SubjectPronounPlain(c, t, i);
    case ObjectPronoun => SimplePlain(c, t, i, p);
    case InvertedAuxiliary => InvertedAuxiliaryPlain(c, t, i);
  }

  /** No match of any pass adds, drops or reorders guarded characters. */
  lemma HitKeepsSkeleton(p: Pass, c: Ctx, t: string, i: nat)
    requires Lawful(c.abc) && i < |t| && c.name != "" && ProperPass(p) && HitAt(p, c, t, i).Hit?
    ensures Skeleton(c, HitAt(p, c, t, i).text) == Skeleton(c, t[i..HitAt(p, c, t, i).end])
  {
    hide HitAt;
    var h := HitAt(p, c, t, i);
    if h.edits > 0 {
      var g := HitSplits(p, c, t, i);
      var x, y, z := t[i..g], h.text[g - i..], t[g..h.end];
      assert h.text == x + y && t[i..h.end] == x + z;
      assert Plain(c, z) by { assert forall k | 0 <= k < |z| :: z[k] == t[g + k]; }
      SkeletonAppend(c, x, y);
      SkeletonAppend(c, x, z);
      SkeletonOfPlain(c, y);
      SkeletonOfPlain(c, z);
    }
  }
}
