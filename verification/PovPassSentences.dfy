/** For each gated pass, the whole clause pipeline on a sentence that needs it: whatever the name, the verb, the other
    words and the rest of the clause, the result is the sentence in the second person. */
module PovPassSentences {
  import opened Text
  import opened PovWords
  import opened PovPasses
  import opened PovReadings
  import opened PovClause
  import opened PovSentence

  // ---- three words and a rest ------------------------------------------

  function Line(w1: string, w2: string, w3: string, rest: string): string { Told(w1, w2, [' '] + (w3 + rest)) }

  lemma StandaloneInLine(c: Ctx, w1: string, w2: string, w3: string, rest: string, i: nat, lit: string)
    requires Lawful(c.abc) && Word(c.abc, w1) && Word(c.abc, w2) && Word(c.abc, w3) && Apart(c.abc, rest) && Word(c.abc, lit)
    requires i <= |Line(w1, w2, w3, rest)| && Standalone(c, Line(w1, w2, w3, rest), i, lit)
    ensures var n := |w1| + 1 + |w2| + 1;
            || (i == 0 && lit == w1) || (i == |w1| + 1 && lit == w2) || (i == n && lit == w3)
            || (n + |w3| <= i && Standalone(c, rest, i - n - |w3|, lit))
  {
    hide Standalone, Told, Word;
    var tail := [' '] + (w3 + rest);
    StandaloneInTold(c, w1, w2, tail, i, lit);
    var off := |w1| + 1 + |w2|;
    ToldLength(w1, w2, tail);
    if off <= i && Standalone(c, tail, i - off, lit) {
      StandaloneAfterGap(c, ' ', w3 + rest, i - off, lit);
      StandaloneAfterWord(c, w3, rest, i - off - 1, lit);
    }
  }

  lemma ToldLength(w1: string, w2: string, tail: string)
    ensures |Told(w1, w2, tail)| == |w1| + 1 + |w2| + |tail|
  {}

  lemma LineChars(c: Ctx, w1: string, w2: string, w3: string, rest: string)
    requires Lawful(c.abc) && Word(c.abc, w1) && Word(c.abc, w2) && Word(c.abc, w3)
    ensures var t, n := Line(w1, w2, w3, rest), |w1| + 1 + |w2| + 1;
            && |t| == n + |w3| + |rest| && t[..n] == w1 + " " + w2 + " " && t[n..n + |w3|] == w3 && t[n + |w3|..] == rest
            && t[n - 1] == ' ' && c.abc.isWord(t[n - 2]) && t[n] == w3[0] && t[n + |w3| - 1] == w3[|w3| - 1]
            && Line(w1, w2, w3, rest) == w1 + " " + w2 + " " + w3 + rest
  {
    var t, n := Line(w1, w2, w3, rest), |w1| + 1 + |w2| + 1;
    assert t == w1 + " " + w2 + " " + w3 + rest;
    assert t[n - 2] == w2[|w2| - 1];
  }

  /** A word after a word and one space does not open a sentence. */
  lemma MidSentence(c: Ctx, t: string, i: nat)
    requires Lawful(c.abc) && 2 <= i <= |t| && t[i - 1] == ' ' && c.abc.isWord(t[i - 2])
    ensures !SentenceStart(c, t, i)
  {
    BackSpacesIs(c, t, i, i - 1);
    SentenceStartIff(c, t, i);
  }

  /** No pass finds its key in a line none of whose words is the key and whose rest is quiet. */
  lemma KeylessLine(c: Ctx, p: Pass, w1: string, w2: string, w3: string, rest: string)
    requires Lawful(c.abc) && Word(c.abc, w1) && Word(c.abc, w2) && Word(c.abc, w3) && Word(c.abc, c.name)
    requires Apart(c.abc, rest) && Quiet(c, rest) && Keyed(c, p)
    requires p != CommaVerb ==> KeyOf(c, p) !in [w1, w2, w3]
    ensures var t := Line(w1, w2, w3, rest);
            forall i | 0 <= i < |t| :: !KeyAt(c, p, t, i)
  {
    var t := Line(w1, w2, w3, rest);
    if p == CommaVerb {
      NoComma(c, w1, w2, w3, rest);
    } else {
      hide Sought, Standalone, Line, Keyed;
      SoughtAreWords(c);
      KeyIsSought(c, p);
      LineChars(c, w1, w2, w3, rest);
      forall i | 0 <= i < |t|
        ensures !KeyAt(c, p, t, i)
      {
        if Standalone(c, t, i, KeyOf(c, p)) {
          StandaloneInLine(c, w1, w2, w3, rest, i, KeyOf(c, p));
        }
      }
    }
  }

  lemma NoComma(c: Ctx, w1: string, w2: string, w3: string, rest: string)
    requires Lawful(c.abc) && Word(c.abc, w1) && Word(c.abc, w2) && Word(c.abc, w3) && ',' !in rest
    ensures ',' !in Line(w1, w2, w3, rest)
    ensures '?' !in rest ==> '?' !in Line(w1, w2, w3, rest)
  {}

  // ---- one active pass -------------------------------------------------

  /** What pass p finds at i. */
  ghost predicate Finds(c: Ctx, p: Pass, t: string, i: nat, h: Hit) { c.name != "" && i < |t| && HitAt(p, c, t, i) == h }

  /** The text with the match replaced. */
  function Replaced(t: string, i: nat, h: Hit): string
    requires h.Hit? && i <= h.end <= |t|
  {
    t[..i] + h.text + t[h.end..]
  }

  /** The key k stands after the verb and before a quiet rest, pass j of the plan is the first that matches it, and
      its replacement gives k2 and rest2, in which no later pass finds a key: that is the rewritten clause. */
  lemma KeyedSentence(c: Ctx, v: string, k: string, rest: string, plan: seq<Pass>, j: nat, n: nat, h: Hit,
                      k2: string, rest2: string)
    requires Opening(c, v) && Word(c.abc, k) && k != c.name && Apart(c.abc, rest) && Quiet(c, rest)
    requires Word(c.abc, k2) && k2 != c.name && Apart(c.abc, rest2) && Quiet(c, rest2)
    requires plan == Plan(c, Gates(true, true, c.first, true)) && j < |plan| && plan[j] != CommaVerb
    requires n == |You(c.first)| + 1 + |Conjugate(c.abc, v)| + 1
    requires forall l | 0 <= l < j ::
               || plan[l] == CommaVerb || KeyOf(c, plan[l]) != k
               || Finds(c, plan[l], Line(You(c.first), Conjugate(c.abc, v), k, rest), n, Miss)
    requires forall l | j < l < |plan| :: plan[l] == CommaVerb || KeyOf(c, plan[l]) != k2
    requires Finds(c, plan[j], Line(You(c.first), Conjugate(c.abc, v), k, rest), n, h) && h.Hit?
    requires n <= h.end <= |Line(You(c.first), Conjugate(c.abc, v), k, rest)|
    requires Replaced(Line(You(c.first), Conjugate(c.abc, v), k, rest), n, h)
          == Line(You(c.first), Conjugate(c.abc, v), k2, rest2)
    ensures RewriteOf(c, Line(c.name, v, k, rest)).text == Line(You(c.first), Conjugate(c.abc, v), k2, rest2)
  {
    var y, w := You(c.first), Conjugate(c.abc, v);
    var tail := [' '] + (k + rest);
    OpeningWords(c, v);
    TailOfLine(c, k, rest);
    Swapped(c, v, tail);
    var r := RunAll(NAME_PASSES, c, Rewrite(Told(c.name, v, tail), 0, SHUT));
    assert r.text == Line(y, w, k, rest) && Line(c.name, v, k, rest) == Told(c.name, v, tail);
    hide Finds, Replaced, Conjugate, LooksLikeVerb, Sought, Plan, Quiet, Run, Line, Told, KeyOf, You, Opening;
    forall l | 0 <= l < j
      ensures Run(plan[l], c, r) == r
    {
      PlanIsKeyed(c, plan[l]);
      EarlierIdle(c, plan[l], y, w, k, rest, n, r);
    }
    PlanIsKeyed(c, plan[j]);
    ActiveRun(c, plan[j], y, w, k, rest, n, h, r);
    var s := Run(plan[j], c, r);
    forall l | j < l < |plan|
      ensures Run(plan[l], c, s) == s
    {
      PlanIsKeyed(c, plan[l]);
      LaterIdle(c, plan[l], y, w, k2, rest2, s);
    }
    OnlyRuns(plan, j, c, r);
    QuietMarks(c, rest2);
    NoComma(c, y, w, k2, rest2);
  }

  lemma QuietMarks(c: Ctx, s: string)
    requires Quiet(c, s)
    ensures ',' !in s && '?' !in s
  {}

  lemma TailOfLine(c: Ctx, k: string, rest: string)
    requires Lawful(c.abc) && Word(c.abc, c.name) && Word(c.abc, k) && k != c.name && Apart(c.abc, rest) && Quiet(c, rest)
    ensures var tail := [' '] + (k + rest); Apart(c.abc, tail) && Nameless(c, tail) && !At(tail, 0, "'s")
  {
    var tail := [' '] + (k + rest);
    QuietIsNameless(c, rest);
    hide Standalone, Sought;
    forall i | 0 <= i <= |tail|
      ensures !Standalone(c, tail, i, c.name)
    {
      if Standalone(c, tail, i, c.name) {
        StandaloneAfterGap(c, ' ', k + rest, i, c.name);
        StandaloneAfterWord(c, k, rest, i - 1, c.name);
      }
    }
    if At(tail, 0, "'s") {
      AtChars(tail, 0, "'s");
    }
  }

  lemma LaterIdle(c: Ctx, p: Pass, w1: string, w2: string, w3: string, rest: string, r: Rewrite)
    requires Lawful(c.abc) && Word(c.abc, w1) && Word(c.abc, w2) && Word(c.abc, w3) && Word(c.abc, c.name)
    requires Apart(c.abc, rest) && Quiet(c, rest) && Keyed(c, p) && w1 !in Sought(c) && w2 !in Sought(c)
    requires (p == CommaVerb || KeyOf(c, p) != w3) && r.text == Line(w1, w2, w3, rest)
    ensures Run(p, c, r) == r
  {
    hide Sought, Line, Keyed, Quiet, KeyAt, Run, KeyOf;
    KeyIsSought(c, p);
    KeylessLine(c, p, w1, w2, w3, rest);
    KeylessPass(c, p, r);
  }

  lemma EarlierIdle(c: Ctx, p: Pass, w1: string, w2: string, w3: string, rest: string, n: nat, r: Rewrite)
    requires Lawful(c.abc) && Word(c.abc, w1) && Word(c.abc, w2) && Word(c.abc, w3) && Word(c.abc, c.name)
    requires Apart(c.abc, rest) && Quiet(c, rest) && Keyed(c, p) && w1 !in Sought(c) && w2 !in Sought(c)
    requires r.text == Line(w1, w2, w3, rest) && n == |w1| + 1 + |w2| + 1
    requires p == CommaVerb || KeyOf(c, p) != w3 || Finds(c, p, r.text, n, Miss)
    ensures Run(p, c, r) == r
  {
    hide HitAt, Line, Sought, Quiet, Keyed, KeyOf, SubFrom;
    if p == CommaVerb || KeyOf(c, p) != w3 {
      LaterIdle(c, p, w1, w2, w3, rest, r);
    } else {
      OnlyKey(c, p, w1, w2, w3, rest, n);
      forall i | 0 <= i < |r.text|
        ensures HitAt(p, c, r.text, i) == Miss
      {
        assert Finds(c, p, r.text, i, Miss);
      }
      IdlePass(p, c, r.text, 0);
      assert r.text[0..] == r.text;
    }
  }

  /** A pass whose key is not the first or second word can match at the third only. */
  lemma OnlyKey(c: Ctx, p: Pass, w1: string, w2: string, w3: string, rest: string, n: nat)
    requires Lawful(c.abc) && Word(c.abc, w1) && Word(c.abc, w2) && Word(c.abc, w3) && Word(c.abc, c.name)
    requires Apart(c.abc, rest) && Quiet(c, rest) && Keyed(c, p) && w1 !in Sought(c) && w2 !in Sought(c)
    requires p != CommaVerb && n == |w1| + 1 + |w2| + 1
    ensures var t := Line(w1, w2, w3, rest);
            forall i | 0 <= i < |t| && i != n :: Finds(c, p, t, i, Miss)
  {
    var t := Line(w1, w2, w3, rest);
    hide Sought, Standalone, Line, Keyed, HitAt, KeyOf;
    KeyIsSought(c, p);
    SoughtAreWords(c);
    LineChars(c, w1, w2, w3, rest);
    forall i | 0 <= i < |t| && i != n
      ensures Finds(c, p, t, i, Miss)
    {
      if Standalone(c, t, i, KeyOf(c, p)) {
        StandaloneInLine(c, w1, w2, w3, rest, i, KeyOf(c, p));
      }
      MissWithoutKey(c, p, t, i);
    }
  }

  lemma ActiveRun(c: Ctx, p: Pass, w1: string, w2: string, w3: string, rest: string, n: nat, h: Hit, r: Rewrite)
    requires Lawful(c.abc) && Word(c.abc, w1) && Word(c.abc, w2) && Word(c.abc, w3) && Word(c.abc, c.name)
    requires Apart(c.abc, rest) && Quiet(c, rest) && Keyed(c, p) && w1 !in Sought(c) && w2 !in Sought(c)
    requires p != CommaVerb && r.text == Line(w1, w2, w3, rest) && n == |w1| + 1 + |w2| + 1
    requires h.Hit? && Finds(c, p, r.text, n, h) && n <= h.end <= |r.text|
    ensures Run(p, c, r).text == Replaced(r.text, n, h)
  {
    hide HitAt, Line, Sought, Quiet, Keyed, SubFrom, KeyOf;
    OnlyKey(c, p, w1, w2, w3, rest, n);
    forall i | 0 <= i < n || h.end <= i < |r.text|
      ensures HitAt(p, c, r.text, i) == Miss
    {
      assert Finds(c, p, r.text, i, Miss);
    }
    OneHit(p, c, r.text, n);
  }

  // ---- keys of the plan ------------------------------------------------

  function FullPlan(c: Ctx): seq<Pass> { Plan(c, Gates(true, true, c.first, true)) }

  lemma PlanHas(c: Ctx, p: Pass) returns (j: nat)
    requires Keyed(c, p) && p !in NAME_PASSES
    ensures j < |FullPlan(c)| && FullPlan(c)[j] == p
  {
    PlanIff(c, Gates(true, true, c.first, true), p);
    j :| j < |FullPlan(c)| && FullPlan(c)[j] == p;
  }

  /** Two passes of the plan share a key only where "her" is both possessive and object. */
  lemma KeysDiffer(c: Ctx, l: nat, j: nat)
    requires l < j < |FullPlan(c)| && FullPlan(c)[l] != CommaVerb && FullPlan(c)[j] != CommaVerb
    ensures KeyOf(c, FullPlan(c)[l]) != KeyOf(c, FullPlan(c)[j])
         || (c.pronouns == SheHer && FullPlan(c)[l] == PossessivePronoun && FullPlan(c)[j] == ObjectPronoun)
  {
    PlanIs(c);
    hide Plan;
    match c.pronouns
    case HeHim =>
    case SheHer =>
    case TheyThem =>
  }

  /** No pass looks for a word beginning with y. */
  lemma NoYouKey(c: Ctx, l: nat, w: string)
    requires l < |FullPlan(c)| && w != "" && w[0] == 'y'
    ensures KeyOf(c, FullPlan(c)[l]) != w || FullPlan(c)[l] == CommaVerb
  {
    var p := FullPlan(c)[l];
    PlanIff(c, Gates(true, true, c.first, true), p);
    hide Plan, Forms;
    FormsAreOrdinary(c.pronouns);
    if p != CommaVerb {
      KeyIsForm(c, p);
    }
  }

  lemma KeyIsForm(c: Ctx, p: Pass)
    requires Keyed(c, p) && p !in NAME_PASSES && p != CommaVerb
    ensures KeyOf(c, p) in Forms(c.pronouns)
  {}

  // ---- what stands where -----------------------------------------------

  lemma KeyStands(c: Ctx, w1: string, w2: string, w3: string, rest: string, n: nat)
    requires Lawful(c.abc) && Word(c.abc, w1) && Word(c.abc, w2) && Word(c.abc, w3) && Apart(c.abc, rest)
    requires n == |w1| + 1 + |w2| + 1
    ensures n < |Line(w1, w2, w3, rest)|
    ensures Standalone(c, Line(w1, w2, w3, rest), n, w3) && !SentenceStart(c, Line(w1, w2, w3, rest), n)
  {
    var t := Line(w1, w2, w3, rest);
    LineChars(c, w1, w2, w3, rest);
    hide Line, SentenceStart;
    MidSentence(c, t, n);
    assert n + |w3| < |t| ==> t[n + |w3|..][0] == t[n + |w3|];
  }

  /** The word x after one space, in a line that goes on with it. */
  function Then(x: string, tail: string): string { [' '] + (x + tail) }

  lemma QuietThen(c: Ctx, x: string, tail: string)
    requires Lawful(c.abc) && Word(c.abc, c.name) && Word(c.abc, x) && x !in Sought(c) && Apart(c.abc, tail) && Quiet(c, tail)
    ensures Quiet(c, Then(x, tail)) && Apart(c.abc, Then(x, tail))
  {
    hide Sought, Standalone;
    var s := Then(x, tail);
    SoughtAreWords(c);
    forall i, lit | 0 <= i <= |s| && lit in Sought(c)
      ensures !Standalone(c, s, i, lit)
    {
      if Standalone(c, s, i, lit) {
        StandaloneAfterGap(c, ' ', x + tail, i, lit);
        StandaloneAfterWord(c, x, tail, i - 1, lit);
      }
    }
  }

  lemma NextStands(c: Ctx, t: string, n: nat, x: string, tail: string)
    requires Lawful(c.abc) && Word(c.abc, x) && Apart(c.abc, tail) && n <= |t| && t[n..] == Then(x, tail)
    ensures var v, e := n + 1, n + 1 + |x|;
            && e <= |t| && Next(c, t, n, v, e) && t[v..e] == x && t[e..] == tail
            && ((tail == "" || !c.abc.isSpace(tail[0])) ==> NoNext(c, t, e))
  {
    var v, e, s := n + 1, n + 1 + |x|, t[n..];
    assert |s| == 1 + |x| + |tail|;
    assert forall k | n <= k < |t| :: t[k] == s[k - n];
    assert t[v..e] == s[1..1 + |x|] == x && t[e..] == s[1 + |x|..] == tail;
  }

  lemma NoNextStands(c: Ctx, t: string, n: nat)
    requires n <= |t| && (n == |t| || !c.abc.isSpace(t[n]))
    ensures NoNext(c, t, n)
  {}

  /** "yourself", "your" and "you" are words that nothing looks for. */
  lemma SecondPersonWords(a: Alphabet)
    requires Lawful(a)
    ensures Word(a, "you") && Word(a, "your") && Word(a, "yourself")
  {
    assert forall k | 0 <= k < 3 :: AsciiAlnum("you"[k]);
    assert forall k | 0 <= k < 4 :: AsciiAlnum("your"[k]);
    assert forall k | 0 <= k < 8 :: AsciiAlnum("yourself"[k]);
  }

  lemma ReplacedIs(w1: string, w2: string, w3: string, rest: string, n: nat, h: Hit, k2: string, rest2: string, done: string, left: string)
    requires n == |w1| + 1 + |w2| + 1 && h.Hit? && rest == done + left && h.end == n + |w3| + |done|
    requires h.text + left == k2 + rest2
    ensures h.end <= |Line(w1, w2, w3, rest)| && Replaced(Line(w1, w2, w3, rest), n, h) == Line(w1, w2, k2, rest2)
  {
    var t := Line(w1, w2, w3, rest);
    var front := w1 + " " + w2 + " ";
    assert t == front + w3 + done + left && |front| == n;
    assert t[..n] == front && t[h.end..] == left;
    assert front + h.text + left == front + (h.text + left);
    assert Line(w1, w2, k2, rest2) == front + (k2 + rest2);
  }

  // ---- the sentences ---------------------------------------------------

  /** A sentence whose only sought word after the verb is the key of q, which q turns into k2. */
  lemma ByPass(c: Ctx, v: string, q: Pass, rest: string, n: nat, h: Hit, k2: string, rest2: string, done: string, left: string)
    requires Opening(c, v) && Keyed(c, q) && q !in NAME_PASSES && q != CommaVerb
    requires n == |You(c.first)| + 1 + |Conjugate(c.abc, v)| + 1
    requires c.name != KeyOf(c, q) && c.name != k2 && Word(c.abc, k2)
    requires Apart(c.abc, rest) && Quiet(c, rest) && Apart(c.abc, rest2) && Quiet(c, rest2)
    requires rest == done + left && h.Hit? && h.end == n + |KeyOf(c, q)| + |done| && h.text + left == k2 + rest2
    requires Finds(c, q, Line(You(c.first), Conjugate(c.abc, v), KeyOf(c, q), rest), n, h)
    requires k2[0] == 'y' || k2 == KeyOf(c, q)
    requires q == ObjectPronoun && c.pronouns == SheHer ==>
               Finds(c, PossessivePronoun, Line(You(c.first), Conjugate(c.abc, v), KeyOf(c, q), rest), n, Miss)
    requires q == PossessivePronoun && c.pronouns == SheHer ==> k2[0] == 'y'
    ensures RewriteOf(c, Line(c.name, v, KeyOf(c, q), rest)).text == Line(You(c.first), Conjugate(c.abc, v), k2, rest2)
  {
    hide Conjugate, LooksLikeVerb, Quiet, Line, Plan, Standalone, Finds, KeyOf, RewriteOf, Replaced, Sought, Keyed;
    var y, w, k := You(c.first), Conjugate(c.abc, v), KeyOf(c, q);
    var j := PlanHas(c, q);
    OpeningWords(c, v);
    SoughtAreWords(c);
    KeyIsSought(c, q);
    ReplacedIs(y, w, k, rest, n, h, k2, rest2, done, left);
    forall l | 0 <= l < |FullPlan(c)|
      ensures l < j ==> FullPlan(c)[l] == CommaVerb || KeyOf(c, FullPlan(c)[l]) != k
                        || Finds(c, FullPlan(c)[l], Line(y, w, k, rest), n, Miss)
      ensures l > j ==> FullPlan(c)[l] == CommaVerb || KeyOf(c, FullPlan(c)[l]) != k2
    {
      if FullPlan(c)[l] != CommaVerb {
        if l < j { KeysDiffer(c, l, j); }
        if l > j { KeysDiffer(c, j, l); }
      }
      if k2[0] == 'y' { NoYouKey(c, l, k2); }
    }
    KeyedSentence(c, v, k, rest, FullPlan(c), j, n, h, k2, rest2);
  }

  lemma FormKeys(c: Ctx)
    ensures KeyOf(c, PossessivePronoun) == PossessiveForm(c.pronouns)
    ensures KeyOf(c, SubjectPronoun) == SubjectForm(c.pronouns)
    ensures KeyOf(c, ObjectPronoun) == ObjectForm(c.pronouns)
    ensures KeyOf(c, AndVerb) == "and" && KeyOf(c, ThenVerb) == "then"
    ensures forall form :: KeyOf(c, Reflexive(form)) == form
    ensures Keyed(c, PossessivePronoun) && Keyed(c, SubjectPronoun) && Keyed(c, ObjectPronoun)
    ensures Keyed(c, AndVerb) && Keyed(c, ThenVerb)
    ensures forall form | form in c.pronouns.Reflexives() :: Keyed(c, Reflexive(form))
  {}

  /** The facts about a sentence's line that every case below starts from. */
  lemma LineStands(c: Ctx, v: string, q: Pass, rest: string, n: nat)
    requires Opening(c, v) && Keyed(c, q) && Apart(c.abc, rest) && n == |You(c.first)| + 1 + |Conjugate(c.abc, v)| + 1
    ensures var u, k := Line(You(c.first), Conjugate(c.abc, v), KeyOf(c, q), rest), KeyOf(c, q);
            && n + |k| <= |u| && n < |u| && u[n + |k|..] == rest && u[n..n + |k|] == k
            && Standalone(c, u, n, k) && !SentenceStart(c, u, n)
  {
    hide Conjugate, LooksLikeVerb, Line, Standalone, KeyOf, Sought, Keyed, SentenceStart;
    var y, w, k := You(c.first), Conjugate(c.abc, v), KeyOf(c, q);
    OpeningWords(c, v);
    SoughtAreWords(c);
    KeyIsSought(c, q);
    LineChars(c, y, w, k, rest);
    KeyStands(c, y, w, k, rest, n);
  }

  // What the pass finds at the key.

  lemma FindsReflexive(c: Ctx, u: string, n: nat, form: string)
    requires c.name != "" && n < |u| && form != "" && Standalone(c, u, n, form)
    ensures Finds(c, Reflexive(form), u, n, Hit(n + |form|, "yourself", 1, SHUT))
  {
    hide Standalone;
    ReflexiveReads(c, u, n, form);
  }

  lemma FindsPossessive(c: Ctx, u: string, n: nat, v: nat, e: nat)
    requires Lawful(c.abc) && c.name != "" && n < |u|
    requires Standalone(c, u, n, PossessiveForm(c.pronouns)) && !SentenceStart(c, u, n)
    ensures c.pronouns != SheHer || Next(c, u, n + |PossessiveForm(c.pronouns)|, v, e) ==>
              Finds(c, PossessivePronoun, u, n, Hit(n + |PossessiveForm(c.pronouns)|, "your", 1, SHUT))
    ensures c.pronouns == SheHer && NoNext(c, u, n + 3) ==> Finds(c, PossessivePronoun, u, n, Miss)
  {
    hide Standalone, SentenceStart, Next, NoNext, PossessivePronounAt;
    PossessivePronounReads(c, u, n, v, e);
    PronounGates(c, u, n);
  }

  lemma FindsObject(c: Ctx, u: string, n: nat)
    requires Lawful(c.abc) && c.name != "" && n < |u|
    requires Standalone(c, u, n, ObjectForm(c.pronouns)) && !SentenceStart(c, u, n)
    requires c.pronouns == SheHer ==> NoNext(c, u, n + 3)
    ensures Finds(c, ObjectPronoun, u, n, Hit(n + |ObjectForm(c.pronouns)|, "you", 1, SHUT))
  {
    hide Standalone, SentenceStart, Next, NoNext, ObjectPronounAt;
    ObjectPronounReads(c, u, n, 0, 0);
    PronounGates(c, u, n);
  }

  /** The pronoun passes open no gate. */
  lemma PronounGates(c: Ctx, t: string, i: nat)
    requires i < |t|
    ensures PossessivePronounAt(c, t, i).Hit? ==> PossessivePronounAt(c, t, i).gates == SHUT
    ensures ObjectPronounAt(c, t, i).Hit? ==> ObjectPronounAt(c, t, i).gates == SHUT
    ensures SubjectPronounAt(c, t, i).Hit? ==> SubjectPronounAt(c, t, i).gates == SHUT
  {
    hide Standalone, SentenceStart, WordAhead, Conjugate, LooksLikeVerb, IsPronoun;
  }

  lemma FindsSubject(c: Ctx, u: string, n: nat, v: nat, e: nat) returns (h: Hit)
    requires Lawful(c.abc) && c.name != "" && n < |u|
    requires Standalone(c, u, n, SubjectForm(c.pronouns)) && !SentenceStart(c, u, n)
    requires Next(c, u, n + |SubjectForm(c.pronouns)|, v, e)
    ensures h.Hit? && h.end == e && h.text == "you" + " " + Agreed(c.abc, u[v..e]) && Finds(c, SubjectPronoun, u, n, h)
  {
    hide Standalone, SentenceStart, Next, SubjectPronounAt, Agreed;
    SubjectPronounReads(c, u, n, v, e);
    h := SubjectPronounAt(c, u, n);
  }

  /** The scanners by name. */
  lemma FindsLead(c: Ctx, u: string, n: nat)
    requires c.name != "" && n < |u|
    ensures Finds(c, AndVerb, u, n, AndVerbAt(c, u, n)) && Finds(c, ThenVerb, u, n, ThenVerbAt(c, u, n))
  {
    hide AndVerbAt, ThenVerbAt;
  }

  /** A lead-in, one space and a word. */
  lemma LeadText(u: string, n: nat, lead: string, e: nat)
    requires At(u, n, lead) && n + |lead| + 1 <= e <= |u| && u[n + |lead|] == ' '
    ensures u[n..e] == lead + " " + u[n + |lead| + 1..e]
  {
    var m := n + |lead|;
    assert u[n..e] == u[n..m] + [u[m]] + u[m + 1..e];
  }

  lemma FindsAnd(c: Ctx, u: string, n: nat, v: nat, e: nat) returns (h: Hit)
    requires Lawful(c.abc) && c.name != "" && n < |u| && Standalone(c, u, n, "and")
    requires Next(c, u, n + 3, v, e) && v == n + 4 <= e <= |u| && NoNext(c, u, e) && u[n + 3] == ' '
    ensures h.Hit? && h.end == e && h.text == "and" + " " + Agreed(c.abc, u[v..e]) && Finds(c, AndVerb, u, n, h)
  {
    hide Edge, Next, NoNext, AndVerbAt, Agreed, Finds, At;
    LeadText(u, n, "and", e);
    AndVerbReads(c, u, n, v, e);
    h := AndVerbAt(c, u, n);
    FindsLead(c, u, n);
    assert "and" + " " == "and ";
  }

  lemma FindsThen(c: Ctx, u: string, n: nat, v: nat, e: nat) returns (h: Hit)
    requires Lawful(c.abc) && c.name != "" && n < |u| && Standalone(c, u, n, "then")
    requires Next(c, u, n + 4, v, e) && v == n + 5 <= e <= |u| && u[n + 4] == ' '
    ensures h.Hit? && h.end == e && h.text == "then" + " " + Agreed(c.abc, u[v..e]) && Finds(c, ThenVerb, u, n, h)
  {
    hide Edge, Next, NoNext, ThenVerbAt, Agreed, Finds, At;
    LeadText(u, n, "then", e);
    ThenVerbReads(c, u, n, v, e);
    h := ThenVerbAt(c, u, n);
    FindsLead(c, u, n);
    assert "then" + " " == "then ";
  }

  /** "Name steadies himself." becomes "You steady yourself." */
  lemma ReflexiveSentence(c: Ctx, v: string, form: string, rest: string)
    requires Opening(c, v) && form in c.pronouns.Reflexives() && c.name !in [form, "yourself"]
    requires Apart(c.abc, rest) && Quiet(c, rest)
    ensures RewriteOf(c, Line(c.name, v, form, rest)).text == Line(You(c.first), Conjugate(c.abc, v), "yourself", rest)
  {
    hide Conjugate, LooksLikeVerb, Quiet, Line, Standalone, KeyOf, RewriteOf, Sought, Keyed, SentenceStart, Finds;
    var n := |You(c.first)| + 1 + |Conjugate(c.abc, v)| + 1;
    var u, h := Line(You(c.first), Conjugate(c.abc, v), form, rest), Hit(n + |form|, "yourself", 1, SHUT);
    FormKeys(c);
    LineStands(c, v, Reflexive(form), rest, n);
    SecondPersonWords(c.abc);
    FindsReflexive(c, u, n, form);
    ByPass(c, v, Reflexive(form), rest, n, h, "yourself", rest, "", rest);
  }

  lemma PossessiveLine(c: Ctx, v: string, x: string, tail: string, n: nat)
    requires Opening(c, v) && Word(c.abc, x) && Apart(c.abc, tail) && Apart(c.abc, Then(x, tail))
    requires n == |You(c.first)| + 1 + |Conjugate(c.abc, v)| + 1
    ensures var k := PossessiveForm(c.pronouns);
            Finds(c, PossessivePronoun, Line(You(c.first), Conjugate(c.abc, v), k, Then(x, tail)), n, Hit(n + |k|, "your", 1, SHUT))
  {
    hide Conjugate, LooksLikeVerb, Line, Standalone, KeyOf, Sought, Keyed, SentenceStart, Then, Finds, Next;
    var k := PossessiveForm(c.pronouns);
    var u := Line(You(c.first), Conjugate(c.abc, v), k, Then(x, tail));
    FormKeys(c);
    LineStands(c, v, PossessivePronoun, Then(x, tail), n);
    NextStands(c, u, n + |k|, x, tail);
    FindsPossessive(c, u, n, n + |k| + 1, n + |k| + 1 + |x|);
  }

  /** "Name presses her palm." becomes "You press your palm." */
  lemma PossessiveSentence(c: Ctx, v: string, x: string, tail: string)
    requires Opening(c, v) && c.name !in [PossessiveForm(c.pronouns), "your"]
    requires Word(c.abc, x) && x !in Sought(c) && Apart(c.abc, tail) && Quiet(c, tail)
    ensures RewriteOf(c, Line(c.name, v, PossessiveForm(c.pronouns), Then(x, tail))).text
         == Line(You(c.first), Conjugate(c.abc, v), "your", Then(x, tail))
  {
    hide Conjugate, LooksLikeVerb, Quiet, Line, Standalone, KeyOf, RewriteOf, Sought, Keyed, Then, Finds, PossessiveForm;
    var n, k, rest := |You(c.first)| + 1 + |Conjugate(c.abc, v)| + 1, PossessiveForm(c.pronouns), Then(x, tail);
    FormKeys(c);
    QuietThen(c, x, tail);
    SecondPersonWords(c.abc);
    PossessiveLine(c, v, x, tail, n);
    ByPass(c, v, PossessivePronoun, rest, n, Hit(n + |k|, "your", 1, SHUT), "your", rest, "", rest);
  }

  /** "Name fears what sees him." ends in "you."; "her" is taken for the object where no word follows. */
  lemma ObjectSentence(c: Ctx, v: string, rest: string)
    requires Opening(c, v) && c.name !in [ObjectForm(c.pronouns), "you"]
    requires Apart(c.abc, rest) && Quiet(c, rest)
    requires c.pronouns == SheHer ==> rest == "" || !c.abc.isSpace(rest[0])
    ensures RewriteOf(c, Line(c.name, v, ObjectForm(c.pronouns), rest)).text
         == Line(You(c.first), Conjugate(c.abc, v), "you", rest)
  {
    hide Conjugate, LooksLikeVerb, Quiet, Line, Standalone, KeyOf, RewriteOf, Sought, Keyed, SentenceStart, Finds, NoNext, Next;
    var n, k := |You(c.first)| + 1 + |Conjugate(c.abc, v)| + 1, ObjectForm(c.pronouns);
    var u, h := Line(You(c.first), Conjugate(c.abc, v), k, rest), Hit(n + |k|, "you", 1, SHUT);
    FormKeys(c);
    LineStands(c, v, ObjectPronoun, rest, n);
    SecondPersonWords(c.abc);
    if c.pronouns == SheHer {
      assert n + |k| < |u| ==> u[n + |k|..][0] == u[n + |k|];
      NoNextStands(c, u, n + |k|);
      FindsPossessive(c, u, n, 0, 0);
    }
    FindsObject(c, u, n);
    ByPass(c, v, ObjectPronoun, rest, n, h, "you", rest, "", rest);
  }

  /** "Name knows she wins." becomes "You know you win." */
  lemma SubjectSentence(c: Ctx, v: string, x: string, tail: string)
    requires Opening(c, v) && c.name !in [SubjectForm(c.pronouns), "you"] && Apart(c.abc, tail) && Quiet(c, tail)
    requires Word(c.abc, x) && x !in Sought(c) && Agreed(c.abc, x) != "" && Agreed(c.abc, x) !in Sought(c)
    ensures RewriteOf(c, Line(c.name, v, SubjectForm(c.pronouns), Then(x, tail))).text
         == Line(You(c.first), Conjugate(c.abc, v), "you", Then(Agreed(c.abc, x), tail))
  {
    hide Conjugate, LooksLikeVerb, Quiet, Line, Standalone, KeyOf, RewriteOf, Sought, Keyed, SentenceStart, Finds, Next, Agreed;
    var n, k, rest := |You(c.first)| + 1 + |Conjugate(c.abc, v)| + 1, SubjectForm(c.pronouns), Then(x, tail);
    var u, x2 := Line(You(c.first), Conjugate(c.abc, v), k, rest), Agreed(c.abc, x);
    FormKeys(c);
    AgreedIsWord(c.abc, x);
    QuietThen(c, x, tail);
    QuietThen(c, x2, tail);
    LineStands(c, v, SubjectPronoun, rest, n);
    SecondPersonWords(c.abc);
    NextStands(c, u, n + |k|, x, tail);
    var h := FindsSubject(c, u, n, n + |k| + 1, n + |k| + 1 + |x|);
    assert h.text + tail == "you" + Then(x2, tail) && rest == Then(x, "") + tail;
    ByPass(c, v, SubjectPronoun, rest, n, h, "you", Then(x2, tail), Then(x, ""), tail);
  }

  lemma AgreedIsWord(a: Alphabet, x: string)
    requires Lawful(a) && Word(a, x) && Agreed(a, x) != ""
    ensures Word(a, Agreed(a, x))
  {
    hide Conjugate;
    ConjugateIsWord(a, x);
  }

  /** "Name turns and smiles." becomes "You turn and smile." */
  lemma AndSentence(c: Ctx, v: string, x: string, tail: string)
    requires Opening(c, v) && c.name != "and" && Apart(c.abc, tail) && Quiet(c, tail) && (tail == "" || !c.abc.isSpace(tail[0]))
    requires Word(c.abc, x) && x !in Sought(c) && Agreed(c.abc, x) != "" && Agreed(c.abc, x) !in Sought(c)
    ensures RewriteOf(c, Line(c.name, v, "and", Then(x, tail))).text
         == Line(You(c.first), Conjugate(c.abc, v), "and", Then(Agreed(c.abc, x), tail))
  {
    hide Conjugate, LooksLikeVerb, Quiet, Line, Standalone, KeyOf, RewriteOf, Sought, Keyed, SentenceStart, Finds, Next, Agreed, NoNext;
    var n, rest := |You(c.first)| + 1 + |Conjugate(c.abc, v)| + 1, Then(x, tail);
    var u, x2 := Line(You(c.first), Conjugate(c.abc, v), "and", rest), Agreed(c.abc, x);
    FormKeys(c);
    AgreedIsWord(c.abc, x);
    QuietThen(c, x, tail);
    QuietThen(c, x2, tail);
    LineStands(c, v, AndVerb, rest, n);
    LeadsAreWords(c.abc);
    NextStands(c, u, n + 3, x, tail);
    assert u[n + 3] == u[n + 3..][0] == ' ';
    var h := FindsAnd(c, u, n, n + 4, n + 4 + |x|);
    assert h.text + tail == "and" + Then(x2, tail) && rest == Then(x, "") + tail;
    ByPass(c, v, AndVerb, rest, n, h, "and", Then(x2, tail), Then(x, ""), tail);
  }

  /** "Name waits then leaps." becomes "You wait then leap." */
  lemma ThenSentence(c: Ctx, v: string, x: string, tail: string)
    requires Opening(c, v) && c.name != "then" && Apart(c.abc, tail) && Quiet(c, tail)
    requires Word(c.abc, x) && x !in Sought(c) && Agreed(c.abc, x) != "" && Agreed(c.abc, x) !in Sought(c)
    ensures RewriteOf(c, Line(c.name, v, "then", Then(x, tail))).text
         == Line(You(c.first), Conjugate(c.abc, v), "then", Then(Agreed(c.abc, x), tail))
  {
    hide Conjugate, LooksLikeVerb, Quiet, Line, Standalone, KeyOf, RewriteOf, Sought, Keyed, SentenceStart, Finds, Next, Agreed, NoNext;
    var n, rest := |You(c.first)| + 1 + |Conjugate(c.abc, v)| + 1, Then(x, tail);
    var u, x2 := Line(You(c.first), Conjugate(c.abc, v), "then", rest), Agreed(c.abc, x);
    FormKeys(c);
    AgreedIsWord(c.abc, x);
    QuietThen(c, x, tail);
    QuietThen(c, x2, tail);
    LineStands(c, v, ThenVerb, rest, n);
    LeadsAreWords(c.abc);
    NextStands(c, u, n + 4, x, tail);
    assert u[n + 4] == u[n + 4..][0] == ' ';
    var h := FindsThen(c, u, n, n + 5, n + 5 + |x|);
    assert h.text + tail == "then" + Then(x2, tail) && rest == Then(x, "") + tail;
    ByPass(c, v, ThenVerb, rest, n, h, "then", Then(x2, tail), Then(x, ""), tail);
  }
}
