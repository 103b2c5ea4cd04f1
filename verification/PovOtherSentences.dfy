/** The pipeline on sentences where the swap is not a subject before a verb: possessive and bare names, questions and
    interrupted subjects; and on coordination by a comma. */
module PovOtherSentences {
  import opened Text
  import opened PovWords
  import opened PovPasses
  import opened PovReadings
  import opened PovClause
  import opened PovSentence
  import opened PovPassSentences

  // ---- texts without sought words --------------------------------------

  ghost predicate Unsought(c: Ctx, s: string) {
    forall i, lit | 0 <= i <= |s| && lit in Sought(c) :: !Standalone(c, s, i, lit)
  }

  lemma UnsoughtGap(c: Ctx, ch: char, y: string)
    requires Lawful(c.abc) && Word(c.abc, c.name) && !c.abc.isWord(ch) && Unsought(c, y)
    ensures Unsought(c, [ch] + y) && Apart(c.abc, [ch] + y)
  {
    hide Sought, Standalone;
    SoughtAreWords(c);
    forall i, lit | 0 <= i <= |[ch] + y| && lit in Sought(c)
      ensures !Standalone(c, [ch] + y, i, lit)
    {
      if Standalone(c, [ch] + y, i, lit) {
        StandaloneAfterGap(c, ch, y, i, lit);
      }
    }
  }

  lemma UnsoughtWord(c: Ctx, x: string, y: string)
    requires Lawful(c.abc) && Word(c.abc, c.name) && Word(c.abc, x) && x !in Sought(c) && Apart(c.abc, y) && Unsought(c, y)
    ensures Unsought(c, x + y)
  {
    hide Sought, Standalone;
    SoughtAreWords(c);
    forall i, lit | 0 <= i <= |x + y| && lit in Sought(c)
      ensures !Standalone(c, x + y, i, lit)
    {
      if Standalone(c, x + y, i, lit) {
        StandaloneAfterWord(c, x, y, i, lit);
      }
    }
  }

  /** Where nothing sought stands, no keyed pass but the comma's does anything. */
  lemma UnsoughtPass(c: Ctx, p: Pass, r: Rewrite)
    requires Lawful(c.abc) && Word(c.abc, c.name) && Keyed(c, p) && p != CommaVerb && Unsought(c, r.text)
    ensures Run(p, c, r) == r
  {
    hide Sought, Standalone, Keyed, Run, KeyOf;
    KeyIsSought(c, p);
    KeylessPass(c, p, r);
  }

  /** The name stands at the start of x + y only, where y holds nothing sought. */
  lemma NameAtFront(c: Ctx, y: string, i: nat)
    requires Lawful(c.abc) && Word(c.abc, c.name) && Apart(c.abc, y) && Unsought(c, y) && i <= |c.name + y|
    ensures Standalone(c, c.name + y, i, c.name) ==> i == 0
  {
    hide Standalone;
    assert c.name in Sought(c);
    hide Sought;
    if Standalone(c, c.name + y, i, c.name) {
      StandaloneAfterWord(c, c.name, y, i, c.name);
    }
  }

  /** A name pass that matches at the front of name + y, or not at all. */
  lemma NamePassAtFront(c: Ctx, p: Pass, y: string, h: Hit)
    requires Lawful(c.abc) && Word(c.abc, c.name) && Apart(c.abc, y) && Unsought(c, y) && p in NAME_PASSES
    requires Finds(c, p, c.name + y, 0, h) && (h.Hit? ==> h.end <= |c.name + y|)
    ensures SubFrom(p, c, c.name + y, 0)
         == if h.Miss? then Rewrite(c.name + y, 0, SHUT) else Rewrite(h.text + (c.name + y)[h.end..], h.edits, h.gates)
  {
    var t := c.name + y;
    NamesAreKeyed(c);
    hide HitAt, Standalone, Keyed, SubFrom, Sought;
    forall k | 0 < k < |t|
      ensures HitAt(p, c, t, k) == Miss
    {
      NameAtFront(c, y, k);
      MissWithoutKey(c, p, t, k);
    }
    if h.Miss? {
      IdlePass(p, c, t, 0);
      assert t[0..] == t;
    } else {
      OneHit(p, c, t, 0);
      assert t[..0] + h.text == h.text;
    }
  }

  /** The passes let through when no subject was swapped. */
  lemma NarrowPlan(c: Ctx, start: bool)
    ensures Plan(c, Gates(false, true, false, false)) == [PossessivePronoun, SubjectPronoun, ObjectPronoun]
    ensures Plan(c, Gates(false, true, true, false)) == [Interrupter, PossessivePronoun, SubjectPronoun, ObjectPronoun]
  {}

  lemma PronounPassesIdle(c: Ctx, r: Rewrite)
    requires Lawful(c.abc) && Word(c.abc, c.name) && Unsought(c, r.text)
    ensures Run(PossessivePronoun, c, r) == r && Run(SubjectPronoun, c, r) == r && Run(ObjectPronoun, c, r) == r
  {
    hide Unsought, Run;
    FormKeys(c);
    hide Keyed;
    UnsoughtPass(c, PossessivePronoun, r);
    UnsoughtPass(c, SubjectPronoun, r);
    UnsoughtPass(c, ObjectPronoun, r);
  }

  lemma ThreeIdle(c: Ctx, r: Rewrite)
    requires Lawful(c.abc) && Word(c.abc, c.name) && Unsought(c, r.text)
    ensures RunAll([PossessivePronoun, SubjectPronoun, ObjectPronoun], c, r) == r
  {
    hide Unsought, Run;
    PronounPassesIdle(c, r);
    IdlePasses([PossessivePronoun, SubjectPronoun, ObjectPronoun], c, r);
  }

  // ---- the possessive name ---------------------------------------------

  /** "Name's sword gleams." becomes "Your sword gleams." */
  lemma PossessiveNameSentence(c: Ctx, x: string, tail: string)
    requires Lawful(c.abc) && Word(c.abc, c.name) && c.name !in ["Your", "your", "s"]
    requires Word(c.abc, x) && x !in Sought(c) && x !in ["and", "or", "but", "nor", "so", "yet"]
    requires Apart(c.abc, tail) && Unsought(c, tail) && '?' !in x + tail
    ensures RewriteOf(c, c.name + ("'s" + Then(x, tail))).text == (if c.first then "Your" else "your") + Then(x, tail)
  {
    var rest, your := Then(x, tail), if c.first then "Your" else "your";
    var y := "'s" + rest;
    var t, u := c.name + y, your + rest;
    PossessiveTexts(c, x, tail);
    FindsPossessiveName(c, x, tail);
    NamesAreKeyed(c);
    assert t[|c.name| + 2..] == rest;
    hide Standalone, Sought, Keyed, Plan, Run, SubFrom, Finds, Unsought, Then;
    NamePassAtFront(c, PossessiveName, y, Hit(|c.name| + 2, your, 1, Gates(false, true, false, false)));
    var r := RunPossessive(c, t, u);
    UnsoughtPass(c, SubjectName, r);
    UnsoughtPass(c, BareName, r);
    NamePassesInOrder(c, Rewrite(t, 0, SHUT));
    NarrowPlan(c, false);
    ThreeIdle(c, r);
  }

  lemma RunPossessive(c: Ctx, t: string, u: string) returns (r: Rewrite)
    requires c.name != "" && SubFrom(PossessiveName, c, t, 0) == Rewrite(u, 1, Gates(false, true, false, false))
    ensures r == Run(PossessiveName, c, Rewrite(t, 0, SHUT)) && r.text == u && r.gates == Gates(false, true, false, false)
  {
    hide SubFrom;
    r := Run(PossessiveName, c, Rewrite(t, 0, SHUT));
  }

  lemma PossessiveTexts(c: Ctx, x: string, tail: string)
    requires Lawful(c.abc) && Word(c.abc, c.name) && c.name !in ["Your", "your", "s"]
    requires Word(c.abc, x) && x !in Sought(c) && Apart(c.abc, tail) && Unsought(c, tail) && '?' !in x + tail
    ensures var rest, your := Then(x, tail), if c.first then "Your" else "your";
            && Apart(c.abc, "'s" + rest) && Unsought(c, "'s" + rest) && Unsought(c, your + rest) && '?' !in your + rest
  {
    hide Sought, Standalone, Unsought;
    var rest, your := Then(x, tail), if c.first then "Your" else "your";
    UnsoughtWord(c, x, tail);
    UnsoughtGap(c, ' ', x + tail);
    YourIsUnsought(c, your);
    UnsoughtWord(c, your, rest);
    SIsUnsought(c);
    UnsoughtWord(c, "s", rest);
    UnsoughtGap(c, '\'', "s" + rest);
    assert "'s" + rest == ['\''] + ("s" + rest);
  }

  lemma YourIsUnsought(c: Ctx, your: string)
    requires Lawful(c.abc) && c.name != your && your in ["Your", "your"]
    ensures your !in Sought(c) && Word(c.abc, your)
  {
    hide Forms;
    FormsAreOrdinary(c.pronouns);
    assert forall k | 0 <= k < 4 :: AsciiAlnum(your[k]);
  }

  lemma SIsUnsought(c: Ctx)
    requires Lawful(c.abc) && c.name != "s"
    ensures "s" !in Sought(c) && Word(c.abc, "s")
  {
    assert AsciiAlnum("s"[0]);
    match c.pronouns
    case HeHim =>
    case SheHer =>
    case TheyThem =>
  }

  lemma PossessiveStands(c: Ctx, x: string, tail: string)
    requires Lawful(c.abc) && Word(c.abc, c.name) && Word(c.abc, x)
    ensures var t, e := c.name + ("'s" + Then(x, tail)), |c.name| + 2;
            e < |t| && Standalone(c, t, 0, c.name + "'s") && t[e..] == Then(x, tail)
  {
    var t, e := c.name + ("'s" + Then(x, tail)), |c.name| + 2;
    assert t[0..e] == c.name + "'s" && t[e..] == Then(x, tail);
    assert t[e] == ' ' && t[e - 1] == 's' && t[0] == c.name[0] && AsciiAlnum('s');
  }

  lemma FindsPossessiveAt(c: Ctx, u: string, i: nat)
    requires c.name != "" && i < |u|
    ensures Finds(c, PossessiveName, u, i, PossessiveNameAt(c, u, i))
  {
    hide PossessiveNameAt;
  }

  lemma FindsPossessiveName(c: Ctx, x: string, tail: string)
    requires Lawful(c.abc) && Word(c.abc, c.name) && Word(c.abc, x) && x !in ["and", "or", "but", "nor", "so", "yet"]
    requires Apart(c.abc, tail)
    ensures Finds(c, PossessiveName, c.name + ("'s" + Then(x, tail)), 0,
                  Hit(|c.name| + 2, if c.first then "Your" else "your", 1, Gates(false, true, false, false)))
  {
    hide SentenceStart, Then, StandsAlone, Finds, PossessiveNameAt, Standalone;
    var t := c.name + ("'s" + Then(x, tail));
    PossessiveStands(c, x, tail);
    PossessiveNameReads(c, t, 0);
    NotAlone(c, x, tail);
    StartOfClause(c, t);
    FindsPossessiveAt(c, t, 0);
  }

  lemma StartOfClause(c: Ctx, t: string)
    ensures SentenceStart(c, t, 0) == c.first
  {}

  lemma NotAlone(c: Ctx, x: string, tail: string)
    requires Lawful(c.abc) && Word(c.abc, x) && x !in ["and", "or", "but", "nor", "so", "yet"] && Apart(c.abc, tail)
    ensures !StandsAlone(c, Then(x, tail))
  {
    var rest, r := Then(x, tail), x + tail;
    assert rest[1..] == r;
    assert !Ending(c, r) by { NoEnding(c, x, tail); }
    hide Ending;
    if k: nat :| k <= |rest| && (forall j | 0 <= j < k :: c.abc.isSpace(rest[j]))
                 && (k == |rest| || !c.abc.isSpace(rest[k])) && Ending(c, rest[k..]) {
      assert rest[0] == ' ' && rest[1] == x[0];
    }
  }

  lemma NoEnding(c: Ctx, x: string, tail: string)
    requires Lawful(c.abc) && Word(c.abc, x) && x !in ["and", "or", "but", "nor", "so", "yet"] && Apart(c.abc, tail)
    ensures !Ending(c, x + tail)
  {
    var r := x + tail;
    assert r[0] == x[0];
    hide Standalone;
    NotStandalone(c, x, tail, "and");
    NotStandalone(c, x, tail, "or");
    NotStandalone(c, x, tail, "but");
    NotStandalone(c, x, tail, "nor");
    NotStandalone(c, x, tail, "so");
    NotStandalone(c, x, tail, "yet");
    SolidWord(c.abc, x[0]);
  }

  lemma SolidWord(a: Alphabet, ch: char)
    requires Lawful(a) && a.isWord(ch)
    ensures ch != '.' && ch != '!' && ch != '?' && ch != ',' && ch != ';' && ch != ':' && ch != '\U{2026}'
  {}

  lemma NotStandalone(c: Ctx, x: string, tail: string, w: string)
    requires Lawful(c.abc) && Word(c.abc, x) && Apart(c.abc, tail) && x != w
    requires w in ["and", "or", "but", "nor", "so", "yet"]
    ensures !Standalone(c, x + tail, 0, w)
  {
    ConjunctionIsWord(c.abc, w);
    hide Standalone;
    if Standalone(c, x + tail, 0, w) {
      StandaloneAfterWord(c, x, tail, 0, w);
    }
  }

  lemma ConjunctionIsWord(a: Alphabet, w: string)
    requires Lawful(a) && w in ["and", "or", "but", "nor", "so", "yet"]
    ensures Word(a, w)
  {
    assert forall k | 0 <= k < |w| :: AsciiAlnum(w[k]);
  }

  // ---- the interrupted subject -----------------------------------------

  /** ", a, v tail" */
  function Aside(a: string, v: string, tail: string): string { [','] + Then(a, [','] + Then(v, tail)) }

  lemma UnsoughtAside(c: Ctx, a: string, v: string, tail: string)
    requires Lawful(c.abc) && Word(c.abc, c.name) && Word(c.abc, a) && a !in Sought(c) && Word(c.abc, v) && v !in Sought(c)
    requires Apart(c.abc, tail) && Unsought(c, tail)
    ensures Unsought(c, Aside(a, v, tail)) && Apart(c.abc, Aside(a, v, tail))
  {
    hide Unsought, Sought;
    UnsoughtWord(c, v, tail);
    UnsoughtGap(c, ' ', v + tail);
    UnsoughtGap(c, ',', Then(v, tail));
    UnsoughtWord(c, a, [','] + Then(v, tail));
    UnsoughtGap(c, ' ', a + ([','] + Then(v, tail)));
    UnsoughtGap(c, ',', Then(a, [','] + Then(v, tail)));
  }

  /** The name passes on "Name, ...": the bare pass alone swaps it, at the start of the sentence. */
  lemma FrontName(c: Ctx, y: string)
    requires Lawful(c.abc) && Word(c.abc, c.name) && c.name != "You" && c.first
    requires Apart(c.abc, y) && y != "" && y[0] == ',' && Unsought(c, y)
    ensures var r := RunAll(NAME_PASSES, c, Rewrite(c.name + y, 0, SHUT));
            r.text == "You" + y && r.gates == Gates(false, true, true, false) && r.count > 0
  {
    var t, n := c.name + y, |c.name|;
    var r0, g := Rewrite(t, 0, SHUT), Gates(false, true, true, false);
    FrontFinds(c, y);
    assert t[n..] == y;
    hide Standalone, Sought, Unsought, SubFrom, Finds;
    NamePassAtFront(c, PossessiveName, y, Miss);
    NamePassAtFront(c, SubjectName, y, Miss);
    NamePassAtFront(c, BareName, y, Hit(n, "You", 1, g));
    NamePassesInOrder(c, r0);
  }

  lemma FrontFinds(c: Ctx, y: string)
    requires Lawful(c.abc) && Word(c.abc, c.name) && c.first && y != "" && y[0] == ','
    ensures Finds(c, PossessiveName, c.name + y, 0, Miss) && Finds(c, SubjectName, c.name + y, 0, Miss)
    ensures Finds(c, BareName, c.name + y, 0, Hit(|c.name|, "You", 1, Gates(false, true, true, false)))
  {
    var t, n := c.name + y, |c.name|;
    assert t[0..n] == c.name && t[n] == ',' && t[n - 1] == c.name[n - 1] && t[0] == c.name[0];
    CommaIsSolid(c);
    NoNextStands(c, t, n);
    assert Standalone(c, t, 0, c.name);
    if At(t, 0, c.name + "'s") {
      AtChars(t, 0, c.name + "'s");
    }
    FragmentIff(c, t, 0, n);
    assert !Followed(c, t, n) && !Preceded(c, t, 0);
    hide Fragment, SentenceStart, Followed, Preceded, NoNext;
    SubjectNameNeedsWord(c, t, 0);
    PossessiveNameReads(c, t, 0);
    BareNameReads(c, t, 0);
    StartOfClause(c, t);
  }

  lemma CommaIsSolid(c: Ctx)
    requires Lawful(c.abc)
    ensures !c.abc.isSpace(',') && !c.abc.isWord(',')
  {}

  /** "Name, smiling, opens the door." becomes "You, smiling, open the door." */
  lemma InterruptedSentence(c: Ctx, a: string, v: string, tail: string)
    requires Lawful(c.abc) && Word(c.abc, c.name) && c.name != "You" && c.first
    requires Word(c.abc, a) && a !in Sought(c) && Word(c.abc, v) && v !in Sought(c)
    requires Conjugate(c.abc, v) != "" && Conjugate(c.abc, v) !in Sought(c)
    requires Apart(c.abc, tail) && Unsought(c, tail) && '?' !in tail
    ensures RewriteOf(c, c.name + Aside(a, v, tail)).text == "You" + Aside(a, Conjugate(c.abc, v), tail)
  {
    var y, w := Aside(a, v, tail), Conjugate(c.abc, v);
    var u2 := "You" + Aside(a, w, tail);
    ConjugateIsWord(c.abc, v);
    UnsoughtAside(c, a, v, tail);
    UnsoughtAside(c, a, w, tail);
    YouAside(c, a, w, tail);
    hide Conjugate, Sought, Unsought, Aside, Run, Plan, RunAll, RewriteOf;
    FrontName(c, y);
    var r := RunAll(NAME_PASSES, c, Rewrite(c.name + y, 0, SHUT));
    InterrupterRuns(c, a, v, tail, r);
    var s := Run(Interrupter, c, r);
    NarrowPlan(c, true);
    InterrupterOnly(c, r, s);
    NoQuestionPass(c, c.name + y, r, s);
  }

  lemma InterrupterOnly(c: Ctx, r: Rewrite, s: Rewrite)
    requires Lawful(c.abc) && Word(c.abc, c.name) && s == Run(Interrupter, c, r) && Unsought(c, s.text)
    ensures RunAll([Interrupter, PossessivePronoun, SubjectPronoun, ObjectPronoun], c, r) == s
  {
    hide Unsought, Run;
    PronounPassesIdle(c, s);
    OnlyRuns([Interrupter, PossessivePronoun, SubjectPronoun, ObjectPronoun], 0, c, r);
  }

  lemma NoQuestionPass(c: Ctx, t: string, r: Rewrite, s: Rewrite)
    requires c.name != "" && r == RunAll(NAME_PASSES, c, Rewrite(t, 0, SHUT))
    requires RunAll(Plan(c, r.gates), c, r) == s && '?' !in s.text
    ensures RewriteOf(c, t) == s
  {
    hide RunAll, Plan;
  }

  lemma YouAside(c: Ctx, a: string, w: string, tail: string)
    requires Lawful(c.abc) && Word(c.abc, c.name) && c.name != "You" && Word(c.abc, a) && Word(c.abc, w)
    requires Apart(c.abc, Aside(a, w, tail)) && Unsought(c, Aside(a, w, tail)) && '?' !in tail
    ensures Unsought(c, "You" + Aside(a, w, tail)) && '?' !in "You" + Aside(a, w, tail)
  {
    QuestionIsNoWord(c.abc, a);
    QuestionIsNoWord(c.abc, w);
    YouIsUnsought(c.(first := true));
    assert Sought(c.(first := true)) == Sought(c);
    hide Sought, Unsought;
    assert '?' !in "You" + Aside(a, w, tail);
    hide Aside;
    UnsoughtWord(c, "You", Aside(a, w, tail));
  }

  lemma QuestionIsNoWord(a: Alphabet, w: string)
    requires Lawful(a) && Word(a, w)
    ensures '?' !in w && ',' !in w
  {}

  /** How "You, a, v tail" reads. */
  lemma AsideReads(c: Ctx, a: string, v: string, tail: string)
    requires Lawful(c.abc) && Word(c.abc, a) && Word(c.abc, v) && Apart(c.abc, tail)
    ensures var u, k := "You" + Aside(a, v, tail), 5 + |a|;
            && |u| == k + 2 + |v| + |tail| && At(u, 0, "You") && Edge(c.abc, u, 3)
            && u[3] == ',' && u[k] == ',' && (forall j | 3 < j < k :: u[j] != ',')
            && u[k + 1..] == Then(v, tail) && u[..k + 1] == "You" + ([','] + Then(a, [',']))
  {
    var u, k := "You" + Aside(a, v, tail), 5 + |a|;
    assert u == "You" + [',', ' '] + a + [',', ' '] + v + tail;
    assert u[0..3] == "You" && AsciiAlnum(u[2]);
    QuestionIsNoWord(c.abc, a);
    assert forall j | 5 <= j < k :: u[j] == a[j - 5];
  }

  lemma AsideIs(a: string, v: string, tail: string)
    ensures "You" + Aside(a, v, tail) == ("You, " + a + ",") + " " + v + tail
  {
    assert "You" + [',', ' '] == "You, ";
  }

  /** Replacing the word after a front. */
  lemma JoinFront(front: string, v: string, w: string, tail: string, u: string, h: Hit)
    requires u == front + " " + v + tail && h.Hit? && h.end == |front| + 1 + |v|
    requires h.text == front + " " + w
    ensures u[..0] + h.text + u[h.end..] == front + " " + w + tail
  {}

  lemma AsideFront(a: string, v: string, tail: string, u: string)
    requires u == "You" + Aside(a, v, tail)
    ensures 7 + |a| + |v| <= |u| && u[..6 + |a|] == "You, " + a + "," && u[0..7 + |a| + |v|] == ("You, " + a + ",") + " " + v
  {
    AsideIs(a, v, tail);
    hide Aside;
  }

  lemma FindsInterrupter(c: Ctx, u: string, i: nat)
    requires c.name != "" && i < |u|
    ensures Finds(c, Interrupter, u, i, InterrupterAt(c, u, i))
    ensures Finds(c, InvertedAuxiliary, u, i, InvertedAuxiliaryAt(c, u, i))
  {
    hide InterrupterAt, InvertedAuxiliaryAt;
  }

  lemma FindsInterruption(c: Ctx, a: string, v: string, tail: string, u: string) returns (h: Hit)
    requires Lawful(c.abc) && c.name != "" && Word(c.abc, a) && Word(c.abc, v) && Apart(c.abc, tail)
    requires u == "You" + Aside(a, v, tail)
    ensures Finds(c, Interrupter, u, 0, h)
    ensures h.Hit? && h.end == 7 + |a| + |v| <= |u| && h.text == ("You, " + a + ",") + " " + Conjugate(c.abc, v)
  {
    hide Conjugate, LooksLikeVerb, Aside, InterrupterAt, InterruptionEnd, Edge, Next, At, Finds, Then, NoNext;
    var k := 5 + |a|;
    var g, e := k + 1, k + 2 + |v|;
    AsideReads(c, a, v, tail);
    NextStands(c, u, g, v, tail);
    CommaInterruption(c, u, 3, k);
    AsideFront(a, v, tail, u);
    InterrupterText(c, u, g, e, "You, " + a + ",", v);
    h := InterrupterAt(c, u, 0);
    FindsInterrupter(c, u, 0);
  }

  lemma InterrupterText(c: Ctx, u: string, g: nat, e: nat, front: string, v: string)
    requires Lawful(c.abc) && At(u, 0, "You") && Edge(c.abc, u, 3) && 3 < g <= |u| && Next(c, u, g, g + 1, e)
    requires InterruptionEnd(c, u, 3) == g && e <= |u| && g + 1 <= e
    requires u[..g] == front && u[g + 1..e] == v && u[0..e] == front + " " + v
    ensures var h := InterrupterAt(c, u, 0);
            h.Hit? && h.end == e && h.text == front + " " + Conjugate(c.abc, v)
  {
    if Conjugate(c.abc, v) != v {
      ChangedWordsLookLikeVerbs(c.abc, v);
    }
    hide Conjugate, LooksLikeVerb, InterrupterAt, InterruptionEnd, Edge, Next, At;
    InterrupterReads(c, u, g, g + 1, e);
  }

  lemma InterrupterRuns(c: Ctx, a: string, v: string, tail: string, r: Rewrite)
    requires Lawful(c.abc) && c.name != "" && Word(c.abc, a) && Word(c.abc, v) && Apart(c.abc, tail)
    requires r.text == "You" + Aside(a, v, tail)
    ensures Run(Interrupter, c, r).text == "You" + Aside(a, Conjugate(c.abc, v), tail)
  {
    hide Conjugate, Aside, SubFrom, InterrupterAt;
    var u, front := r.text, "You, " + a + ",";
    var h := FindsInterruption(c, a, v, tail, u);
    forall i | 0 < i < |u|
      ensures HitAt(Interrupter, c, u, i) == Miss
    {
      InterrupterNeedsYou(c, u, i);
    }
    OneHit(Interrupter, c, u, 0);
    AsideIs(a, v, tail);
    AsideIs(a, Conjugate(c.abc, v), tail);
    JoinFront(front, v, Conjugate(c.abc, v), tail, u, h);
  }

  // ---- the bare name, and questions ------------------------------------

  /** No "you" stands in s. */
  ghost predicate Youless(c: Ctx, s: string) {
    forall i | 0 <= i <= |s| :: !Standalone(c, s, i, "you") && !Standalone(c, s, i, "You")
  }

  /** The name after another word, before something that is neither a word nor whitespace. */
  ghost predicate Addressed(c: Ctx, aux: string, tail: string) {
    && Lawful(c.abc) && Word(c.abc, c.name) && c.name != "you" && Word(c.abc, aux) && aux !in Sought(c) && aux !in ["you", "You"]
    && (c.first || !c.abc.isUpper(aux[0]))
    && tail != "" && !c.abc.isWord(tail[0]) && !c.abc.isSpace(tail[0]) && tail[0] != '\'' && Unsought(c, tail) && Youless(c, tail)
  }

  lemma NameInMiddle(c: Ctx, aux: string, tail: string, i: nat)
    requires Addressed(c, aux, tail) && i <= |Told(aux, c.name, tail)|
    ensures Standalone(c, Told(aux, c.name, tail), i, c.name) <==> i == |aux| + 1
  {
    var t, n := Told(aux, c.name, tail), |aux| + 1;
    assert c.name in Sought(c);
    assert t[n..n + |c.name|] == c.name && t[n - 1] == ' ' && t[n] == c.name[0];
    assert t[n + |c.name| - 1] == c.name[|c.name| - 1] && t[n + |c.name|] == tail[0];
    assert Standalone(c, t, n, c.name);
    hide Standalone, Sought, Told;
    if Standalone(c, t, i, c.name) {
      StandaloneInTold(c, aux, c.name, tail, i, c.name);
    }
  }

  lemma AddressedStands(c: Ctx, aux: string, tail: string)
    requires Addressed(c, aux, tail)
    ensures var t, n := Told(aux, c.name, tail), |aux| + 1;
            && n + |c.name| < |t| && c.name != "" && Standalone(c, t, n, c.name) && NoNext(c, t, n + |c.name|)
            && !At(t, n, c.name + "'s") && !SentenceStart(c, t, n)
  {
    var t, n := Told(aux, c.name, tail), |aux| + 1;
    var e := n + |c.name|;
    assert t[e] == tail[0] && t[n - 1] == ' ' && t[n - 2] == aux[|aux| - 1];
    NameInMiddle(c, aux, tail, n);
    hide Told, Standalone, SentenceStart, Unsought, Youless;
    NoNextStands(c, t, e);
    MidSentence(c, t, n);
    if At(t, n, c.name + "'s") {
      AtChars(t, n, c.name + "'s");
    }
  }

  lemma FindsNames(c: Ctx, u: string, i: nat)
    requires c.name != "" && i < |u|
    ensures Finds(c, SubjectName, u, i, SubjectNameAt(c, u, i)) && Finds(c, BareName, u, i, BareNameAt(c, u, i))
  {
    hide SubjectNameAt, BareNameAt;
  }

  lemma AddressedFinds(c: Ctx, aux: string, tail: string)
    requires Addressed(c, aux, tail)
    ensures var t, n := Told(aux, c.name, tail), |aux| + 1;
            && Finds(c, PossessiveName, t, n, Miss) && Finds(c, SubjectName, t, n, Miss)
            && Finds(c, BareName, t, n, Hit(n + |c.name|, "you", 1, Gates(false, true, false, false)))
  {
    AddressedBasics(c, aux, tail);
    hide Told, Fragment, SentenceStart, NoNext, Standalone, Addressed, Finds, SubjectNameAt, BareNameAt, PossessiveNameAt, At;
    var t, n := Told(aux, c.name, tail), |aux| + 1;
    AddressedStands(c, aux, tail);
    NoLongerName(c, aux, tail);
    SubjectNameNeedsWord(c, t, n);
    NoPossessiveAt(c, t, n);
    BareNameReads(c, t, n);
    FindsNames(c, t, n);
    FindsPossessiveAt(c, t, n);
  }

  lemma AddressedBasics(c: Ctx, aux: string, tail: string)
    requires Addressed(c, aux, tail)
    ensures Lawful(c.abc) && Word(c.abc, c.name)
  {}

  lemma NoPossessiveAt(c: Ctx, t: string, n: nat)
    requires c.name != "" && n < |t| && !At(t, n, c.name + "'s")
    ensures PossessiveNameAt(c, t, n) == Miss
  {
    hide SentenceStart, Predicative, Edge;
  }

  lemma PrecedingIsFirst(c: Ctx, aux: string, tail: string, b: nat, w: nat)
    requires Addressed(c, aux, tail) && Ends(c, Told(aux, c.name, tail), b, w) && Gap(c, Told(aux, c.name, tail), w, |aux| + 1)
    ensures b == 0
  {
    var t, n := Told(aux, c.name, tail), |aux| + 1;
    assert forall k | 0 <= k < |aux| :: t[k] == aux[k];
    assert t[n - 1] == ' ';
    hide Told, Unsought, Youless;
    BackSpacesIs(c, t, n, w);
    BackSpacesIs(c, t, n, n - 1);
    BackWordIs(c, t, n - 1, b);
    BackWordIs(c, t, n - 1, 0);
  }

  /** A word at the very start that opens the sentence does not make the name part of a longer one. */
  lemma NoLongerName(c: Ctx, aux: string, tail: string)
    requires Addressed(c, aux, tail)
    ensures var n := |aux| + 1; !Fragment(c, Told(aux, c.name, tail), n, n + |c.name|)
  {
    var t, n := Told(aux, c.name, tail), |aux| + 1;
    assert t[n + |c.name|] == tail[0] && t[0] == aux[0];
    NoNextStands(c, t, n + |c.name|);
    FragmentIff(c, t, n, n + |c.name|);
    StartOfClause(c, t);
    hide SentenceStart, Fragment, Told, Standalone, Unsought;
    if b: nat, w: nat :| Ends(c, t, b, w) && Gap(c, t, w, n) && c.abc.isUpper(t[b]) && !SentenceStart(c, t, b) {
      PrecedingIsFirst(c, aux, tail, b, w);
    }
  }

  lemma AddressedIdle(c: Ctx, aux: string, tail: string, p: Pass)
    requires Addressed(c, aux, tail) && (p == PossessiveName || p == SubjectName)
    ensures SubFrom(p, c, Told(aux, c.name, tail), 0) == Rewrite(Told(aux, c.name, tail), 0, SHUT)
  {
    hide Addressed, SubFrom, Told, HitAt;
    var t := Told(aux, c.name, tail);
    AddressedFinds(c, aux, tail);
    OtherNameMisses(c, aux, tail, p);
    IdlePass(p, c, t, 0);
    assert t[0..] == t;
  }

  lemma AddressedBare(c: Ctx, aux: string, tail: string)
    requires Addressed(c, aux, tail)
    ensures SubFrom(BareName, c, Told(aux, c.name, tail), 0)
         == Rewrite(Told(aux, "you", tail), 1, Gates(false, true, false, false))
  {
    hide Addressed, SubFrom, Told, HitAt;
    var t, n := Told(aux, c.name, tail), |aux| + 1;
    AddressedFinds(c, aux, tail);
    OtherNameMisses(c, aux, tail, BareName);
    ToldSwap(aux, c.name, "you", tail);
    NotEmpty(c, aux, tail);
    OneHit(BareName, c, t, n);
  }

  lemma NotEmpty(c: Ctx, aux: string, tail: string)
    requires Addressed(c, aux, tail)
    ensures c.name != ""
  {}

  lemma ToldSwap(w: string, x: string, x2: string, tail: string)
    ensures var t, n := Told(w, x, tail), |w| + 1;
            n + |x| <= |t| && t[..n] + x2 + t[n + |x|..] == Told(w, x2, tail)
  {
    ToldIs(w, x, tail);
    ToldIs(w, x2, tail);
    hide Told;
    var t, n := Told(w, x, tail), |w| + 1;
    assert t[..n] == w + " " && t[n + |x|..] == tail;
  }

  /** The three name passes on "Aux Name tail". */
  lemma AddressedSwaps(c: Ctx, aux: string, tail: string)
    requires Addressed(c, aux, tail)
    ensures var r := RunAll(NAME_PASSES, c, Rewrite(Told(aux, c.name, tail), 0, SHUT));
            r.text == Told(aux, "you", tail) && r.gates == Gates(false, true, false, false)
  {
    var t := Told(aux, c.name, tail);
    NamePassesInOrder(c, Rewrite(t, 0, SHUT));
    hide Told, Addressed, SubFrom;
    AddressedIdle(c, aux, tail, PossessiveName);
    AddressedIdle(c, aux, tail, SubjectName);
    AddressedBare(c, aux, tail);
  }

  lemma OtherNameMisses(c: Ctx, aux: string, tail: string, p: Pass)
    requires Addressed(c, aux, tail) && p in NAME_PASSES
    ensures var t := Told(aux, c.name, tail);
            forall i | 0 <= i < |t| && i != |aux| + 1 :: HitAt(p, c, t, i) == Miss
  {
    hide Told, HitAt, Standalone, Unsought, Youless, Sought;
    NamesAreKeyed(c);
    hide Keyed;
    var t := Told(aux, c.name, tail);
    forall i | 0 <= i < |t| && i != |aux| + 1
      ensures HitAt(p, c, t, i) == Miss
    {
      NameInMiddle(c, aux, tail, i);
      MissWithoutKey(c, p, t, i);
    }
  }

  /** The auxiliary of a question agrees if it is an irregular form. */
  function Inverted(a: Alphabet, aux: string): string {
    if Irregular(Lower(a, aux)).Some? then Conjugate(a, aux) else aux
  }

  /** "The troll sees Name." becomes "... you."; "Is Name?" becomes "Are you?", and the auxiliary changes in questions
      only. */
  lemma AddressedSentence(c: Ctx, aux: string, tail: string)
    requires Addressed(c, aux, tail)
    ensures RewriteOf(c, Told(aux, c.name, tail)).text
         == Told(if '?' in tail then Inverted(c.abc, aux) else aux, "you", tail)
  {
    var u := Told(aux, "you", tail);
    AddressedTexts(c, aux, tail);
    hide Told, Addressed, Run, Plan, Unsought;
    AddressedSwaps(c, aux, tail);
    var r := RunAll(NAME_PASSES, c, Rewrite(Told(aux, c.name, tail), 0, SHUT));
    NarrowPlan(c, false);
    ThreeIdle(c, r);
    if '?' in tail {
      InvertedRuns(c, aux, tail, r);
    }
  }

  lemma AddressedTexts(c: Ctx, aux: string, tail: string)
    requires Addressed(c, aux, tail)
    ensures Unsought(c, Told(aux, "you", tail)) && ('?' in Told(aux, "you", tail) <==> '?' in tail)
  {
    QuestionIsNoWord(c.abc, aux);
    SecondPersonWords(c.abc);
    YouIsUnsought(c.(first := false));
    assert Sought(c.(first := false)) == Sought(c);
    hide Sought, Unsought, Youless;
    UnsoughtWord(c, "you", tail);
    UnsoughtGap(c, ' ', "you" + tail);
    UnsoughtWord(c, aux, [' '] + ("you" + tail));
  }

  lemma InvertedText(aux: string, aux2: string, tail: string, u: string, h: Hit)
    requires u == Told(aux, "you", tail) && h.Hit? && h.end == |aux| + 4 <= |u| && h.text == aux2 + " " + "you"
    ensures u[..0] + h.text + u[h.end..] == Told(aux2, "you", tail)
  {
    ToldIs(aux, "you", tail);
    ToldIs(aux2, "you", tail);
    hide Told;
    assert u[h.end..] == tail;
  }

  lemma InvertedRuns(c: Ctx, aux: string, tail: string, r: Rewrite)
    requires Addressed(c, aux, tail) && r.text == Told(aux, "you", tail)
    ensures Run(InvertedAuxiliary, c, r).text == Told(Inverted(c.abc, aux), "you", tail)
  {
    hide HitAt, SubFrom, Told, Inverted, Addressed;
    var u := r.text;
    NotEmpty(c, aux, tail);
    var h := FindsInverted(c, aux, tail, u);
    forall i | 0 < i < |u|
      ensures HitAt(InvertedAuxiliary, c, u, i) == Miss
    {
      NoOtherYou(c, aux, tail, i);
    }
    InvertedText(aux, Inverted(c.abc, aux), tail, u, h);
    OneHit(InvertedAuxiliary, c, u, 0);
  }

  lemma InvertedShape(c: Ctx, aux: string, tail: string, u: string)
    requires Lawful(c.abc) && Word(c.abc, aux) && tail != "" && !c.abc.isWord(tail[0]) && u == Told(aux, "you", tail)
    ensures var n := |aux|;
            && n + 4 < |u| && Span(c, u, 0, n) && Gap(c, u, n, n + 1) && Edge(c.abc, u, 0) && Edge(c.abc, u, n + 4)
            && At(u, n + 1, "you") && u[n + 1..n + 4] == "you" && u[0..n] == aux && u[0..n + 4] == aux + " " + "you"
  {
    var n := |aux|;
    assert u == aux + " " + "you" + tail;
    assert u[n] == ' ' && u[n + 4] == tail[0] && u[n + 3] == 'u' && AsciiAlnum('u');
    assert forall k | 0 <= k < n :: u[k] == aux[k];
  }

  lemma FindsInverted(c: Ctx, aux: string, tail: string, u: string) returns (h: Hit)
    requires Addressed(c, aux, tail) && u == Told(aux, "you", tail)
    ensures Finds(c, InvertedAuxiliary, u, 0, h) && h.Hit? && h.end == |aux| + 4 <= |u|
    ensures h.text == Inverted(c.abc, aux) + " " + "you"
  {
    hide Conjugate, Irregular, InvertedAuxiliaryAt, Edge, Span, Gap, Unsought, Youless, Lower, Finds, Told, At;
    InvertedShape(c, aux, tail, u);
    InvertedAuxiliaryReads(c, u, 0, |aux|, |aux| + 1);
    h := InvertedAuxiliaryAt(c, u, 0);
    FindsInterrupter(c, u, 0);
  }

  /** A "you" after whitespace stands alone. */
  lemma YouStands(c: Ctx, t: string, e: nat, y: nat, you: string)
    requires Lawful(c.abc) && Gap(c, t, e, y) && you in ["you", "You"] && At(t, y, you) && Edge(c.abc, t, y + 3)
    ensures Standalone(c, t, y, you)
  {
    YouIsSolid(c, t, y);
    assert c.abc.isSpace(t[y - 1]);
  }

  /** "you" stands nowhere else, so the question pass matches nowhere else. */
  lemma NoOtherYou(c: Ctx, aux: string, tail: string, i: nat)
    requires Addressed(c, aux, tail) && 0 < i < |Told(aux, "you", tail)|
    ensures HitAt(InvertedAuxiliary, c, Told(aux, "you", tail), i) == Miss
  {
    var t := Told(aux, "you", tail);
    SecondPersonWords(c.abc);
    YouWord(c.abc);
    hide Told, Unsought, Sought, InvertedAuxiliaryAt, Standalone, Edge, Span, Gap, At;
    InvertedAuxiliaryNeedsYou(c, t, i);
    if InvertedAuxiliaryAt(c, t, i).Hit? {
      var e: nat, y: nat :| Span(c, t, i, e) && Gap(c, t, e, y) && (At(t, y, "you") || At(t, y, "You")) && Edge(c.abc, t, y + 3);
      var you := if At(t, y, "you") then "you" else "You";
      YouStands(c, t, e, y, you);
      YouInTold(c, aux, tail, y, you);
      WordEndsBefore(c, aux, tail, i, e, y);
    }
  }

  lemma YouInTold(c: Ctx, aux: string, tail: string, y: nat, you: string)
    requires Addressed(c, aux, tail) && you in ["you", "You"] && y <= |Told(aux, "you", tail)|
    requires Standalone(c, Told(aux, "you", tail), y, you)
    ensures y == |aux| + 1
  {
    SecondPersonWords(c.abc);
    YouWord(c.abc);
    hide Standalone, Unsought, Sought, Told;
    StandaloneInTold(c, aux, "you", tail, y, you);
  }

  lemma YouWord(a: Alphabet)
    requires Lawful(a)
    ensures Word(a, "You")
  {
    assert forall k | 0 <= k < 3 :: AsciiAlnum("You"[k]);
  }

  lemma WordEndsBefore(c: Ctx, aux: string, tail: string, i: nat, e: nat, y: nat)
    requires Lawful(c.abc) && Word(c.abc, aux) && i <= |Told(aux, "you", tail)| && y == |aux| + 1
    requires Edge(c.abc, Told(aux, "you", tail), i) && Span(c, Told(aux, "you", tail), i, e) && Gap(c, Told(aux, "you", tail), e, y)
    ensures i == 0
  {
    var t := Told(aux, "you", tail);
    assert forall k | 0 <= k < |aux| :: t[k] == aux[k];
    assert t[|aux|] == ' ';
    assert e <= |aux|;
  }

  // ---- coordination by a comma -----------------------------------------

  /** ", x tail" */
  function Comma(x: string, tail: string): string { [','] + Then(x, tail) }

  ghost predicate Coordinates(c: Ctx, x: string, tail: string) {
    && Lawful(c.abc) && Word(c.abc, c.name) && Word(c.abc, x) && x !in Sought(c) && Apart(c.abc, tail) && Unsought(c, tail)
    && ',' !in tail && '?' !in tail && (tail == "" || !c.abc.isSpace(tail[0]))
  }

  lemma UnsoughtComma(c: Ctx, x: string, tail: string)
    requires Coordinates(c, x, tail)
    ensures Unsought(c, Comma(x, tail)) && Apart(c.abc, Comma(x, tail)) && Nameless(c, Comma(x, tail))
    ensures !At(Comma(x, tail), 0, "'s")
  {
    if At(Comma(x, tail), 0, "'s") {
      AtChars(Comma(x, tail), 0, "'s");
    }
    assert c.name in Sought(c);
    hide Sought, Standalone;
    UnsoughtWord(c, x, tail);
    UnsoughtGap(c, ' ', x + tail);
    UnsoughtGap(c, ',', Then(x, tail));
  }

  /** The swapped clause: nothing sought stands in it, and its only comma is the one after the verb. */
  lemma CommaLine(c: Ctx, y: string, w: string, x: string, tail: string)
    requires Coordinates(c, x, tail) && Word(c.abc, y) && y !in Sought(c) && Word(c.abc, w) && w !in Sought(c)
    ensures var u, n := Told(y, w, Comma(x, tail)), |y| + 1 + |w|;
            && Unsought(c, u) && '?' !in u && n < |u| && u[n] == ',' && u[n + 1..] == Then(x, tail)
            && (forall i | 0 <= i < |u| && i != n :: u[i] != ',')
            && u == (y + " " + w) + (", " + x) + tail
  {
    UnsoughtComma(c, x, tail);
    CommaMarks(c, y, w, x, tail);
    hide Sought, Unsought, Coordinates, Comma;
    var s := Comma(x, tail);
    CommaBasics(c, x, tail);
    UnsoughtWord(c, w, s);
    UnsoughtGap(c, ' ', w + s);
    UnsoughtWord(c, y, [' '] + (w + s));
  }

  lemma CommaBasics(c: Ctx, x: string, tail: string)
    requires Coordinates(c, x, tail)
    ensures Lawful(c.abc) && Word(c.abc, c.name)
  {}

  lemma CommaMarks(c: Ctx, y: string, w: string, x: string, tail: string)
    requires Lawful(c.abc) && Word(c.abc, y) && Word(c.abc, w) && Word(c.abc, x) && ',' !in tail && '?' !in tail
    ensures var u, n := Told(y, w, Comma(x, tail)), |y| + 1 + |w|;
            && '?' !in u && n < |u| && u[n] == ',' && u[n + 1..] == Then(x, tail)
            && (forall i | 0 <= i < |u| && i != n :: u[i] != ',')
            && u == (y + " " + w) + (", " + x) + tail
  {
    var u, n := Told(y, w, Comma(x, tail)), |y| + 1 + |w|;
    QuestionIsNoWord(c.abc, y);
    QuestionIsNoWord(c.abc, w);
    QuestionIsNoWord(c.abc, x);
    assert u == (y + " " + w) + (", " + x) + tail;
    assert u[..n] == y + " " + w && u[n + 1..] == Then(x, tail);
    assert forall i | 0 <= i < n :: u[i] == u[..n][i];
    assert forall i | n < i < |u| :: u[i] == u[n + 1..][i - n - 1];
  }

  lemma FindsComma(c: Ctx, u: string, n: nat, x: string, tail: string, front: string) returns (h: Hit)
    requires Coordinates(c, x, tail) && n < |u| && u[n] == ',' && u[n + 1..] == Then(x, tail) && Lower(c.abc, x) != "and"
    requires u == front + (", " + x) + tail && |front| == n
    ensures Finds(c, CommaVerb, u, n, h) && h.Hit? && h.end == n + 2 + |x| <= |u|
    ensures h.text == ", " + Agreed(c.abc, x)
  {
    hide Agreed, Lower, CommaVerbAt, Next, NoNext, Unsought, Sought;
    NextStands(c, u, n + 1, x, tail);
    assert u[n..n + 2 + |x|] == ", " + x;
    CommaVerbReads(c, u, n, n + 2, n + 2 + |x|);
    h := CommaVerbAt(c, u, n);
  }

  lemma CommaRuns(c: Ctx, y: string, w: string, x: string, tail: string, r: Rewrite)
    requires Coordinates(c, x, tail) && Lower(c.abc, x) != "and"
    requires Word(c.abc, y) && y !in Sought(c) && Word(c.abc, w) && w !in Sought(c)
    requires r.text == Told(y, w, Comma(x, tail))
    ensures Run(CommaVerb, c, r).text == Told(y, w, Comma(Agreed(c.abc, x), tail))
  {
    var u, n, front := r.text, |y| + 1 + |w|, y + " " + w;
    CommaLine(c, y, w, x, tail);
    var h := FindsComma(c, u, n, x, tail, front);
    CommaText(front, x, Agreed(c.abc, x), tail, u, h);
    CommaTold(y, w, Agreed(c.abc, x), tail);
    CommaBasics(c, x, tail);
    hide Agreed, Lower, Told, Comma, SubFrom, CommaVerbAt, Unsought, Sought, Coordinates;
    forall i | 0 <= i < |u| && i != n
      ensures HitAt(CommaVerb, c, u, i) == Miss
    {
      CommaVerbReads(c, u, i, 0, 0);
    }
    OneHit(CommaVerb, c, u, n);
  }

  lemma CommaText(front: string, x: string, x2: string, tail: string, u: string, h: Hit)
    requires u == front + (", " + x) + tail && h.Hit? && h.end == |front| + 2 + |x| && h.text == ", " + x2
    ensures u[..|front|] + h.text + u[h.end..] == front + (", " + x2) + tail
  {}

  lemma CommaTold(y: string, w: string, x: string, tail: string)
    ensures Told(y, w, Comma(x, tail)) == (y + " " + w) + (", " + x) + tail
  {}

  /** "Name turns, smiles." becomes "You turn, smile." */
  lemma CommaSentence(c: Ctx, v: string, x: string, tail: string)
    requires Opening(c, v) && Coordinates(c, x, tail) && Lower(c.abc, x) != "and"
    requires Agreed(c.abc, x) != "" && Agreed(c.abc, x) !in Sought(c)
    ensures RewriteOf(c, Told(c.name, v, Comma(x, tail))).text
         == Told(You(c.first), Conjugate(c.abc, v), Comma(Agreed(c.abc, x), tail))
  {
    var y, w, x2 := You(c.first), Conjugate(c.abc, v), Agreed(c.abc, x);
    CommaBasics(c, x, tail);
    UnsoughtComma(c, x, tail);
    OpeningWords(c, v);
    AgreedIsWord(c.abc, x);
    assert Coordinates(c, x2, tail);
    hide Conjugate, LooksLikeVerb, Sought, Agreed, Lower, Comma, Coordinates, Unsought, Run, Told, Plan, Nameless, At;
    Swapped(c, v, Comma(x, tail));
    var r := RunAll(NAME_PASSES, c, Rewrite(Told(c.name, v, Comma(x, tail)), 0, SHUT));
    CommaLine(c, y, w, x, tail);
    CommaLine(c, y, w, x2, tail);
    CommaRuns(c, y, w, x, tail, r);
    CommaOnly(c, r);
  }

  /** Where nothing sought stands before or after, the comma pass does all. */
  lemma CommaOnly(c: Ctx, r: Rewrite)
    requires Lawful(c.abc) && Word(c.abc, c.name) && Unsought(c, r.text) && Unsought(c, Run(CommaVerb, c, r).text)
    ensures RunAll(FullPlan(c), c, r) == Run(CommaVerb, c, r)
  {
    var plan := FullPlan(c);
    var j := PlanHas(c, CommaVerb);
    CommaOnce(c, j);
    hide Unsought, Run, Plan;
    var s := Run(CommaVerb, c, r);
    forall l | 0 <= l < |plan| && l != j
      ensures Run(plan[l], c, r) == r && Run(plan[l], c, s) == s
    {
      PlanIsKeyed(c, plan[l]);
      UnsoughtPass(c, plan[l], r);
      UnsoughtPass(c, plan[l], s);
    }
    OnlyRuns(plan, j, c, r);
  }

  lemma CommaOnce(c: Ctx, j: nat)
    requires j < |FullPlan(c)| && FullPlan(c)[j] == CommaVerb
    ensures forall l | 0 <= l < |FullPlan(c)| && l != j :: FullPlan(c)[l] != CommaVerb
  {
    PlanIs(c);
    hide Plan;
    match c.pronouns
    case HeHim =>
    case SheHer =>
    case TheyThem =>
  }
}
