/** The whole clause pipeline on sentences described by their words: one for every kind of pass, so that each gate,
    each step and its place in the order shows in a result. */
module PovSentence {
  import opened Text
  import opened PovWords
  import opened PovPasses
  import opened PovReadings
  import opened PovClause

  ghost predicate Word(a: Alphabet, w: string) { w != "" && AllWord(a, w) }

  /** Nothing of a word reaches across the start of s. */
  ghost predicate Apart(a: Alphabet, s: string) { s == "" || !a.isWord(s[0]) }

  // ---- standalone words of a concatenation -----------------------------

  /** A standalone word of x + y, where x is a word and y lies apart, is x itself or a standalone word of y. */
  lemma StandaloneAfterWord(c: Ctx, x: string, y: string, i: nat, lit: string)
    requires Word(c.abc, x) && Apart(c.abc, y) && Word(c.abc, lit)
    requires i <= |x + y| && Standalone(c, x + y, i, lit)
    ensures (i == 0 && lit == x) || (|x| <= i && Standalone(c, y, i - |x|, lit))
  {
    var a, t, n, e := c.abc, x + y, |x|, i + |lit|;
    AtChars(t, i, lit);
    assert t[i] == lit[0] && t[e - 1] == lit[|lit| - 1];
    if i < n {
      assert t[..n] == x;
    } else {
      assert i > n;
      assert t[i..e] == y[i - n..e - n];
      assert t[i - 1] == y[i - n - 1];
    }
  }

  /** A character that is no part of a word can be dropped from the front. */
  lemma StandaloneAfterGap(c: Ctx, ch: char, y: string, i: nat, lit: string)
    requires !c.abc.isWord(ch) && Word(c.abc, lit)
    requires i <= |[ch] + y| && Standalone(c, [ch] + y, i, lit)
    ensures i > 0 && Standalone(c, y, i - 1, lit)
  {
    var t, e := [ch] + y, i + |lit|;
    AtChars(t, i, lit);
    assert t[i] == lit[0] && t[e - 1] == lit[|lit| - 1];
    assert i > 0;
    assert t[i..e] == y[i - 1..e - 1];
  }

  /** Word, space, word and more. */
  function Told(w1: string, w2: string, tail: string): string { w1 + ([' '] + (w2 + tail)) }

  /** The standalone words of such a clause are its two words and those of the tail. */
  lemma StandaloneInTold(c: Ctx, w1: string, w2: string, tail: string, i: nat, lit: string)
    requires Lawful(c.abc) && Word(c.abc, w1) && Word(c.abc, w2) && Apart(c.abc, tail) && Word(c.abc, lit)
    requires i <= |Told(w1, w2, tail)| && Standalone(c, Told(w1, w2, tail), i, lit)
    ensures (i == 0 && lit == w1) || (i == |w1| + 1 && lit == w2)
         || (|w1| + 1 + |w2| <= i && Standalone(c, tail, i - |w1| - 1 - |w2|, lit))
  {
    hide Standalone, Word;
    StandaloneAfterWord(c, w1, [' '] + (w2 + tail), i, lit);
    if |w1| <= i && Standalone(c, [' '] + (w2 + tail), i - |w1|, lit) {
      StandaloneAfterGap(c, ' ', w2 + tail, i - |w1|, lit);
      StandaloneAfterWord(c, w2, tail, i - |w1| - 1, lit);
    }
  }

  // ---- quiet text ------------------------------------------------------

  function Forms(p: Pronouns): seq<string> {
    [p.Subject(), p.Object(), p.Possessive(), "and", "then"] + p.Reflexives()
  }

  /** The words that some pass looks for once the name has been swapped. */
  function Sought(c: Ctx): seq<string> { [c.name] + Forms(c.pronouns) }

  /** An ASCII word that does not begin like "you". */
  predicate Ordinary(w: string) {
    w != "" && w[0] != 'y' && w[0] != 'Y' && forall k | 0 <= k < |w| :: AsciiAlnum(w[k])
  }

  lemma HeForms()
    ensures forall k | 0 <= k < |Forms(HeHim)| :: Ordinary(Forms(HeHim)[k])
  {}

  lemma SheForms()
    ensures forall k | 0 <= k < |Forms(SheHer)| :: Ordinary(Forms(SheHer)[k])
  {}

  lemma TheyForms()
    ensures forall k | 0 <= k < |Forms(TheyThem)| :: Ordinary(Forms(TheyThem)[k])
  {}

  lemma FormsAreOrdinary(p: Pronouns)
    ensures forall w | w in Forms(p) :: Ordinary(w)
  {
    hide Forms, Ordinary;
    match p
    case HeHim => HeForms();
    case SheHer => SheForms();
    case TheyThem => TheyForms();
  }

  /** No sought word stands in t, and no comma or question mark. */
  ghost predicate Quiet(c: Ctx, t: string) {
    && (forall i, lit | 0 <= i <= |t| && lit in Sought(c) :: !Standalone(c, t, i, lit))
    && ',' !in t && '?' !in t
  }

  lemma SoughtAreWords(c: Ctx)
    requires Lawful(c.abc) && Word(c.abc, c.name)
    ensures forall lit | lit in Sought(c) :: Word(c.abc, lit)
  {
    hide Forms;
    FormsAreOrdinary(c.pronouns);
  }

  lemma QuietTold(c: Ctx, w1: string, w2: string, tail: string)
    requires Lawful(c.abc) && Word(c.abc, w1) && Word(c.abc, w2) && Word(c.abc, c.name)
    requires Apart(c.abc, tail) && Quiet(c, tail) && w1 !in Sought(c) && w2 !in Sought(c)
    ensures Quiet(c, Told(w1, w2, tail))
  {
    hide Sought, Standalone;
    var t := Told(w1, w2, tail);
    SoughtAreWords(c);
    forall i, lit | 0 <= i <= |t| && lit in Sought(c)
      ensures !Standalone(c, t, i, lit)
    {
      if Standalone(c, t, i, lit) {
        StandaloneInTold(c, w1, w2, tail, i, lit);
      }
    }
  }

  // ---- passes without their key ----------------------------------------

  /** The passes that look for one word, or for a comma. */
  predicate Keyed(c: Ctx, p: Pass) {
    match p
    case Interrupter => false
    case InvertedAuxiliary => false
    case Reflexive(form) => form in c.pronouns.Reflexives()
    case _ => true
  }

  function KeyOf(c: Ctx, p: Pass): string {
    match p
    case Reflexive(form) => form
    case AndVerb => "and"
    case ThenVerb => "then"
    case PossessivePronoun => c.pronouns.Possessive()
    case SubjectPronoun => c.pronouns.Subject()
    case ObjectPronoun => c.pronouns.Object()
    case _ => c.name
  }

  predicate KeyAt(c: Ctx, p: Pass, t: string, i: nat)
    requires i < |t|
  {
    if p == CommaVerb then t[i] == ',' else Standalone(c, t, i, KeyOf(c, p))
  }

  /** The possessive name holds the standalone name. */
  lemma PossessiveHoldsName(c: Ctx, t: string, i: nat)
    requires Lawful(c.abc) && Word(c.abc, c.name) && i <= |t| && Standalone(c, t, i, c.name + "'s")
    ensures Standalone(c, t, i, c.name) && t[i + |c.name|] == '\''
  {
    var lit, n := c.name + "'s", i + |c.name|;
    AtPrefix(t, i, c.name, "'s");
    AtChars(t, i, lit);
    assert t[n] == lit[|c.name|] && t[n - 1] == lit[|c.name| - 1] == c.name[|c.name| - 1];
  }

  /** A lead-in followed by whitespace stands alone. */
  lemma LeadStandsAlone(c: Ctx, t: string, i: nat, lead: string)
    requires Lawful(c.abc) && Word(c.abc, lead) && i <= |t| && Edge(c.abc, t, i) && At(t, i, lead)
    requires SkipSpaces(c.abc, t, i + |lead|) > i + |lead|
    ensures Standalone(c, t, i, lead)
  {
    var j := i + |lead|;
    AtChars(t, i, lead);
    assert t[j - 1] == lead[|lead| - 1];
  }

  lemma KeyIsSought(c: Ctx, p: Pass)
    requires Keyed(c, p)
    ensures KeyOf(c, p) in Sought(c)
  {}

  lemma MissWithoutKey(c: Ctx, p: Pass, t: string, i: nat)
    requires Lawful(c.abc) && Word(c.abc, c.name) && i < |t| && Keyed(c, p) && !KeyAt(c, p, t, i)
    ensures HitAt(p, c, t, i) == Miss
  {
    hide Edge, SkipSpaces, SkipWord, Fragment, SentenceStart, Predicative, Conjugate, WordAhead, Word;
    LeadsAreWords(c.abc);
    match p
    case PossessiveName =>
      if Standalone(c, t, i, c.name + "'s") {
        PossessiveHoldsName(c, t, i);
      }
    case SubjectName =>
    case BareName =>
    case Reflexive(form) =>
    case AndVerb =>
      if Edge(c.abc, t, i) && At(t, i, "and") && SkipSpaces(c.abc, t, i + 3) > i + 3 {
        LeadStandsAlone(c, t, i, "and");
      }
    case CommaVerb =>
    case ThenVerb =>
      if Edge(c.abc, t, i) && At(t, i, "then") && SkipSpaces(c.abc, t, i + 4) > i + 4 {
        LeadStandsAlone(c, t, i, "then");
      }
    case PossessivePronoun =>
    case SubjectPronoun =>
    case ObjectPronoun =>
  }

  lemma LeadsAreWords(a: Alphabet)
    requires Lawful(a)
    ensures Word(a, "and") && Word(a, "then")
  {
    assert forall k | 0 <= k < 3 :: AsciiAlnum("and"[k]);
    assert forall k | 0 <= k < 4 :: AsciiAlnum("then"[k]);
  }

  // ---- runs of passes --------------------------------------------------

  lemma {:induction false} CopiesUntil(p: Pass, c: Ctx, t: string, j: nat, i: nat)
    requires c.name != "" && j <= i <= |t| && forall k | j <= k < i :: HitAt(p, c, t, k) == Miss
    ensures var r := SubFrom(p, c, t, i);
            SubFrom(p, c, t, j) == Rewrite(t[j..i] + r.text, r.count, r.gates)
    decreases i - j
  {
    hide HitAt;
    if j < i {
      CopiesUntil(p, c, t, j + 1, i);
      assert t[j..i] == [t[j]] + t[j + 1..i];
    } else {
      assert t[j..i] == "";
    }
  }

  lemma IdlePass(p: Pass, c: Ctx, t: string, i: nat)
    requires c.name != "" && i <= |t| && forall k | i <= k < |t| :: HitAt(p, c, t, k) == Miss
    ensures SubFrom(p, c, t, i) == Rewrite(t[i..], 0, SHUT)
  {
    hide HitAt;
    CopiesUntil(p, c, t, i, |t|);
    assert t[i..|t|] == t[i..];
  }

  /** A pass that matches once replaces that match. */
  lemma OneHit(p: Pass, c: Ctx, t: string, i: nat)
    requires c.name != "" && i < |t| && HitAt(p, c, t, i).Hit?
    requires forall k | 0 <= k < i || HitAt(p, c, t, i).end <= k < |t| :: HitAt(p, c, t, k) == Miss
    ensures var h := HitAt(p, c, t, i);
            SubFrom(p, c, t, 0) == Rewrite(t[..i] + h.text + t[h.end..], h.edits, h.gates)
  {
    hide HitAt;
    var h := HitAt(p, c, t, i);
    CopiesUntil(p, c, t, 0, i);
    IdlePass(p, c, t, h.end);
    assert t[0..i] == t[..i];
    assert t[..i] + (h.text + t[h.end..]) == t[..i] + h.text + t[h.end..];
  }

  lemma KeylessPass(c: Ctx, p: Pass, r: Rewrite)
    requires Lawful(c.abc) && Word(c.abc, c.name) && Keyed(c, p)
    requires forall i | 0 <= i < |r.text| :: !KeyAt(c, p, r.text, i)
    ensures Run(p, c, r) == r
  {
    hide HitAt, KeyAt, Keyed;
    forall i | 0 <= i < |r.text|
      ensures HitAt(p, c, r.text, i) == Miss
    {
      MissWithoutKey(c, p, r.text, i);
    }
    IdlePass(p, c, r.text, 0);
    assert r.text[0..] == r.text;
  }

  lemma {:induction false} IdlePasses(ps: seq<Pass>, c: Ctx, r: Rewrite)
    requires c.name != "" && forall l | 0 <= l < |ps| :: Run(ps[l], c, r) == r
    ensures RunAll(ps, c, r) == r
  {
    hide Run;
    if ps != [] {
      IdlePasses(ps[..|ps| - 1], c, r);
    }
  }

  /** If the passes before the j-th change nothing, nor those after it, the j-th does all. */
  lemma {:induction false} OnlyRuns(ps: seq<Pass>, j: nat, c: Ctx, r: Rewrite)
    requires c.name != "" && j < |ps| && forall l | 0 <= l < j :: Run(ps[l], c, r) == r
    requires var s := Run(ps[j], c, r); forall l | j < l < |ps| :: Run(ps[l], c, s) == s
    ensures RunAll(ps, c, r) == Run(ps[j], c, r)
  {
    hide Run;
    var n := |ps| - 1;
    if j == n {
      IdlePasses(ps[..n], c, r);
    } else {
      OnlyRuns(ps[..n], j, c, r);
      assert Run(ps[n], c, Run(ps[j], c, r)) == Run(ps[j], c, r);
    }
  }

  // ---- the subject -----------------------------------------------------

  ghost predicate Nameless(c: Ctx, s: string) { forall i | 0 <= i <= |s| :: !Standalone(c, s, i, c.name) }

  lemma QuietIsNameless(c: Ctx, s: string)
    requires Quiet(c, s)
    ensures Nameless(c, s)
  {
    assert c.name in Sought(c);
  }

  /** The possessive pass leaves the original clause alone. */
  lemma NoPossessive(c: Ctx, v: string, tail: string, i: nat)
    requires Lawful(c.abc) && Word(c.abc, c.name) && Word(c.abc, v) && Apart(c.abc, tail) && Nameless(c, tail)
    requires v == c.name ==> !At(tail, 0, "'s")
    requires i < |Told(c.name, v, tail)|
    ensures HitAt(PossessiveName, c, Told(c.name, v, tail), i) == Miss
  {
    hide SentenceStart, Predicative;
    var t := Told(c.name, v, tail);
    PossessiveAfterGap(c, tail);
    assert t[|c.name|] == ' ';
    hide Told;
    if Standalone(c, t, i, c.name + "'s") {
      PossessiveHoldsName(c, t, i);
      StandaloneInTold(c, c.name, v, tail, i, c.name);
    }
  }

  lemma PossessiveAfterGap(c: Ctx, tail: string)
    ensures At(Told(c.name, c.name, tail), |c.name| + 1, c.name + "'s") ==> At(tail, 0, "'s")
  {
    var t, i := Told(c.name, c.name, tail), |c.name| + 1;
    if At(t, i, c.name + "'s") {
      var e := i + |c.name|;
      assert t[e..e + 2] == t[i..e + 2][|c.name|..];
      assert tail[0..2] == t[e..e + 2];
    }
  }

  /** How such a clause reads: the standalone name, one space, and a maximal word. */
  lemma ToldReads(c: Ctx, v: string, tail: string)
    requires Lawful(c.abc) && Word(c.abc, c.name) && Word(c.abc, v) && Apart(c.abc, tail)
    ensures var t, n, e := Told(c.name, v, tail), |c.name|, |c.name| + 1 + |v|;
            && e <= |t| && t[n + 1..e] == v && t[e..] == tail && t[n + 1] == v[0]
            && Standalone(c, t, 0, c.name) && c.abc.isSpace(t[n]) && (e == |t| || !c.abc.isWord(t[e]))
            && forall k | n + 1 <= k < e :: c.abc.isWord(t[k])
  {
    var t, n, e := Told(c.name, v, tail), |c.name|, |c.name| + 1 + |v|;
    assert t[0..n] == c.name && t[n] == ' ' && t[n + 1..e] == v && t[e..] == tail;
    assert t[n - 1] == c.name[n - 1] && t[0] == c.name[0];
    assert forall k | n + 1 <= k < e :: t[k] == v[k - n - 1];
    assert e < |t| ==> t[e] == tail[0];
  }

  lemma SubjectHit(c: Ctx, v: string, tail: string)
    requires Lawful(c.abc) && Word(c.abc, c.name) && Word(c.abc, v) && Apart(c.abc, tail)
    requires !c.abc.isUpper(v[0]) && LooksLikeVerb(c.abc, v)
    ensures var h := HitAt(SubjectName, c, Told(c.name, v, tail), 0);
            && h.Hit? && h.end == |c.name| + 1 + |v| && h.edits > 0
            && h.text == You(c.first) + " " + Conjugate(c.abc, v) && h.gates == Gates(true, true, c.first, true)
  {
    hide Told, Conjugate, LooksLikeVerb, Fragment, SubjectNameAt, Standalone, Lawful, Apart;
    var t, n, e := Told(c.name, v, tail), |c.name|, |c.name| + 1 + |v|;
    ToldReads(c, v, tail);
    SubjectNameReads(c, t, 0, n + 1, e);
    VerbAhead(c, t, n);
  }

  /** A word that is not capitalised follows: the name at the start of the clause is no fragment. */
  lemma VerbAhead(c: Ctx, t: string, n: nat)
    requires Lawful(c.abc) && n + 1 < |t| && c.abc.isSpace(t[n]) && c.abc.isWord(t[n + 1]) && !c.abc.isUpper(t[n + 1])
    ensures !Fragment(c, t, 0, n)
  {
    SpacesEnd(c.abc, t, n, n + 1);
  }

  /** The subject pass on such a clause swaps the subject, conjugates the verb and copies the tail. */
  lemma SubjectPass(c: Ctx, v: string, tail: string)
    requires Lawful(c.abc) && Word(c.abc, c.name) && Word(c.abc, v) && Apart(c.abc, tail) && Nameless(c, tail)
    requires !c.abc.isUpper(v[0]) && LooksLikeVerb(c.abc, v)
    ensures var r := SubFrom(SubjectName, c, Told(c.name, v, tail), 0);
            && r.text == Told(You(c.first), Conjugate(c.abc, v), tail) && r.count > 0
            && r.gates == Gates(true, true, c.first, true)
  {
    hide Told, Conjugate, LooksLikeVerb, HitAt, Nameless, Standalone, Lawful;
    var t := Told(c.name, v, tail);
    ToldReads(c, v, tail);
    SubjectHit(c, v, tail);
    TailMisses(c, v, tail);
    OneHit(SubjectName, c, t, 0);
    assert t[..0] == "";
    ToldIs(You(c.first), Conjugate(c.abc, v), tail);
  }

  lemma TailMisses(c: Ctx, v: string, tail: string)
    requires Lawful(c.abc) && Word(c.abc, c.name) && Word(c.abc, v) && Apart(c.abc, tail) && Nameless(c, tail)
    ensures var t := Told(c.name, v, tail);
            forall k | |c.name| + 1 + |v| <= k < |t| :: HitAt(SubjectName, c, t, k) == Miss
  {
    var t := Told(c.name, v, tail);
    assert |t| == |c.name| + 1 + |v| + |tail|;
    hide Told, Standalone, HitAt, Keyed;
    forall k | |c.name| + 1 + |v| <= k < |t|
      ensures HitAt(SubjectName, c, t, k) == Miss
    {
      if Standalone(c, t, k, c.name) {
        StandaloneInTold(c, c.name, v, tail, k, c.name);
      }
      NamesAreKeyed(c);
      MissWithoutKey(c, SubjectName, t, k);
    }
  }

  lemma NamesAreKeyed(c: Ctx)
    ensures Keyed(c, PossessiveName) && Keyed(c, SubjectName) && Keyed(c, BareName)
  {}

  lemma ToldIs(w1: string, w2: string, tail: string)
    ensures Told(w1, w2, tail) == w1 + " " + w2 + tail
  {}

  lemma NamePassesInOrder(c: Ctx, r: Rewrite)
    requires c.name != ""
    ensures RunAll(NAME_PASSES, c, r) == Run(BareName, c, Run(SubjectName, c, Run(PossessiveName, c, r)))
  {
    RunAllSnoc([], PossessiveName, c, r);
    assert [] + [PossessiveName] == [PossessiveName];
    RunAllSnoc([PossessiveName], SubjectName, c, r);
    assert [PossessiveName] + [SubjectName] == [PossessiveName, SubjectName];
    RunAllSnoc([PossessiveName, SubjectName], BareName, c, r);
    assert [PossessiveName, SubjectName] + [BareName] == NAME_PASSES;
  }

  lemma YouIsUnsought(c: Ctx)
    requires Lawful(c.abc) && c.name != You(c.first)
    ensures Word(c.abc, You(c.first)) && You(c.first) !in Sought(c)
  {
    hide Forms;
    FormsAreOrdinary(c.pronouns);
    assert forall k | 0 <= k < 3 :: AsciiAlnum(You(c.first)[k]);
  }

  /** The clause opens with the name and a lower-case verb, which its conjugation does not turn into a sought word. */
  ghost predicate Opening(c: Ctx, v: string) {
    && Lawful(c.abc) && Word(c.abc, c.name) && c.name != You(c.first)
    && Word(c.abc, v) && !c.abc.isUpper(v[0]) && LooksLikeVerb(c.abc, v)
    && Conjugate(c.abc, v) != "" && Conjugate(c.abc, v) !in Sought(c)
  }

  lemma OpeningWords(c: Ctx, v: string)
    requires Opening(c, v)
    ensures var y, w := You(c.first), Conjugate(c.abc, v);
            Word(c.abc, y) && y !in Sought(c) && Word(c.abc, w) && w !in Sought(c)
  {
    hide Sought, Conjugate, LooksLikeVerb;
    YouIsUnsought(c);
    ConjugateIsWord(c.abc, v);
  }

  /** The name passes on "Name verb tail", for a tail that does not name the target. */
  lemma Swapped(c: Ctx, v: string, tail: string)
    requires Opening(c, v) && Apart(c.abc, tail) && Nameless(c, tail) && (v == c.name ==> !At(tail, 0, "'s"))
    ensures var r := RunAll(NAME_PASSES, c, Rewrite(Told(c.name, v, tail), 0, SHUT));
            && r.text == Told(You(c.first), Conjugate(c.abc, v), tail) && r.count > 0
            && r.gates == Gates(true, true, c.first, true)
  {
    var t, y, w := Told(c.name, v, tail), You(c.first), Conjugate(c.abc, v);
    var u, r0 := Told(y, w, tail), Rewrite(t, 0, SHUT);
    OpeningWords(c, v);
    assert c.name in Sought(c);
    forall i | 0 <= i < |t|
      ensures HitAt(PossessiveName, c, t, i) == Miss
    {
      NoPossessive(c, v, tail, i);
    }
    SubjectPass(c, v, tail);
    hide HitAt, Told, Conjugate, LooksLikeVerb, SubFrom, Sought, Keyed, Standalone;
    IdlePass(PossessiveName, c, t, 0);
    assert t[0..] == t;
    NamePassesInOrder(c, r0);
    var swapped := Run(SubjectName, c, r0);
    assert swapped.text == u;
    forall i | 0 <= i < |u|
      ensures !KeyAt(c, BareName, u, i)
    {
      if Standalone(c, u, i, c.name) {
        StandaloneInTold(c, y, w, tail, i, c.name);
      }
    }
    NamesAreKeyed(c);
    KeylessPass(c, BareName, swapped);
  }

  /** What follows a swapped subject before a verb: the reflexives, the coordinated verbs, the pronouns. */
  lemma PlanIs(c: Ctx)
    ensures Plan(c, Gates(true, true, c.first, true))
         == (match c.pronouns
             case HeHim => [Reflexive("himself")]
             case SheHer => [Reflexive("herself")]
             case TheyThem => [Reflexive("themself"), Reflexive("themselves")])
            + [AndVerb, CommaVerb, ThenVerb, PossessivePronoun, SubjectPronoun, ObjectPronoun]
  {}

  lemma ReflexivePassesIff(c: Ctx, p: Pass)
    ensures p in ReflexivePasses(c.pronouns) <==> p.Reflexive? && p.form in c.pronouns.Reflexives()
  {
    var fs := c.pronouns.Reflexives();
    hide Pronouns.Reflexives;
    if p.Reflexive? && p.form in fs {
      var i :| 0 <= i < |fs| && fs[i] == p.form;
      assert ReflexivePasses(c.pronouns)[i] == p;
    }
  }

  /** Which gate lets which pass through. */
  lemma PlanIff(c: Ctx, g: Gates, p: Pass)
    ensures p in Plan(c, g) <==>
              match p
              case Interrupter => g.start && !g.verb
              case Reflexive(form) => g.subject && form in c.pronouns.Reflexives()
              case AndVerb => g.subject
              case CommaVerb => g.subject
              case ThenVerb => g.subject
              case PossessivePronoun => g.name
              case SubjectPronoun => g.name
              case ObjectPronoun => g.name
              case _ => false
  {
    ReflexivePassesIff(c, p);
    hide ReflexivePasses, Pronouns.Reflexives;
  }

  lemma PlanIsKeyed(c: Ctx, p: Pass)
    requires p in Plan(c, Gates(true, true, c.first, true))
    ensures Keyed(c, p)
  {
    PlanIff(c, Gates(true, true, c.first, true), p);
  }

  lemma QuietPass(c: Ctx, p: Pass, r: Rewrite)
    requires Lawful(c.abc) && Word(c.abc, c.name) && Quiet(c, r.text) && Keyed(c, p)
    ensures Run(p, c, r) == r
  {
    hide Standalone, Sought;
    KeyIsSought(c, p);
    KeylessPass(c, p, r);
  }

  /** "Name verb tail" becomes "You verb' tail" with the verb conjugated and the tail copied, for any tail that
      holds no sought word, comma or question mark: the name passes rewrite the opening, and none of the gated
      passes, which the swap lets through, disturbs the result. */
  lemma SimpleSentence(c: Ctx, v: string, tail: string)
    requires Opening(c, v) && Apart(c.abc, tail) && Quiet(c, tail) && (v == c.name ==> !At(tail, 0, "'s"))
    ensures RewriteOf(c, Told(c.name, v, tail)).text == Told(You(c.first), Conjugate(c.abc, v), tail)
    ensures RewriteOf(c, Told(c.name, v, tail)).count > 0
  {
    hide Told, Conjugate, LooksLikeVerb, Sought, Plan, Standalone, Quiet, Run;
    QuietIsNameless(c, tail);
    Swapped(c, v, tail);
    OpeningWords(c, v);
    QuietTold(c, You(c.first), Conjugate(c.abc, v), tail);
    var r := RunAll(NAME_PASSES, c, Rewrite(Told(c.name, v, tail), 0, SHUT));
    var plan := Plan(c, r.gates);
    forall l | 0 <= l < |plan|
      ensures Run(plan[l], c, r) == r
    {
      PlanIsKeyed(c, plan[l]);
      QuietPass(c, plan[l], r);
    }
    IdlePasses(plan, c, r);
    NoQuestion(c, r.text);
  }

  lemma NoQuestion(c: Ctx, t: string)
    requires Quiet(c, t)
    ensures '?' !in t
  {}
}
