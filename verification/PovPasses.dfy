/** The rewriting passes of the second-person rewriter, as scanners (sidequest/agents/pov_swap.py:267-313
    and 432-852). A pass is one re.sub: at each position its pattern matches or not, and a match is
    replaced by what its callback returns. Each scanner follows its pattern; spaces and words are
    disjoint, so greedy runs are the only way a pattern can match. */
module PovPasses {
  import opened Text
  import opened PovWords

  datatype Pronouns = HeHim | SheHer | TheyThem {
    function Subject(): string { match this case HeHim => "he" case SheHer => "she" case TheyThem => "they" }

    function Object(): string { match this case HeHim => "him" case SheHer => "her" case TheyThem => "them" }

    function Possessive(): string { match this case HeHim => "his" case SheHer => "her" case TheyThem => "their" }

    function Reflexives(): seq<string> {
      match this
      case HeHim => ["himself"]
      case SheHer => ["herself"]
      case TheyThem => ["themself", "themselves"]
    }

    /** Whether one surface form is both possessive and object. */
    predicate Ambiguous() { Possessive() == Object() }
  }

  /** What is fixed while one clause is rewritten. */
  datatype Ctx = Ctx(abc: Alphabet, name: string, pronouns: Pronouns, first: bool)

  /** The clause's gate flags: a subject swap happened; some name swap happened; a swap happened at a
      sentence start; the word after a swapped subject was already a verb. */
  datatype Gates = Gates(subject: bool, name: bool, start: bool, verb: bool) {
    function Or(g: Gates): Gates { Gates(subject || g.subject, name || g.name, start || g.start, verb || g.verb) }
  }

  const SHUT := Gates(false, false, false, false)

  /** A pattern match ending at `end`, its replacement, the edits it counts and the gates it opens. */
  datatype Hit = Miss | Hit(end: nat, text: string, edits: nat, gates: Gates)

  /** A match consumes at least one character; one that counts no edit changes nothing and opens no gate. */
  ghost predicate Honest(t: string, i: nat, h: Hit) {
    h.Hit? ==> i < h.end <= |t| && (h.edits == 0 ==> h.text == t[i..h.end] && h.gates == SHUT)
  }

  datatype Pass =
    | PossessiveName
    | SubjectName
    | BareName
    | Interrupter
    | Reflexive(form: string)
    | AndVerb
    | CommaVerb
    | ThenVerb
    | PossessivePronoun
    | SubjectPronoun
    | ObjectPronoun
    | InvertedAuxiliary

  // ---- context tests ---------------------------------------------------

  predicate BlankLine(t: string, k: int) { 0 <= k && k + 2 <= |t| && t[k] == '\n' && t[k + 1] == '\n' }

  /** The last blank line of t at or below k, or -1. */
  function LastBreak(t: string, k: int): (r: int)
    requires k + 2 <= |t|
    ensures -1 <= r && (r >= 0 ==> r <= k && BlankLine(t, r))
    ensures forall j | r < j <= k :: !BlankLine(t, j)
  {
    if k < 0 then -1
    else if BlankLine(t, k) then k
    else LastBreak(t, k - 1)
  }

  predicate AfterBreak(a: Alphabet, t: string, i: nat)
    requires i <= |t|
  {
    var k := LastBreak(t[..i], i - 2);
    k >= 0 && SkipSpaces(a, t[..i], k + 2) == i
  }

  predicate SentenceStart(c: Ctx, t: string, i: nat)
    requires i <= |t|
  {
    if i == 0 then c.first
    else if AfterBreak(c.abc, t, i) then true
    else
      var j := BackSpaces(c.abc, t, i);
      if j == 0 then c.first else t[j - 1] in ".!?\U{2026}"
  }

  /** Whether the name at t[s..e] is part of a longer proper noun: a capitalised word follows, or a
      capitalised word that does not open a sentence precedes. */
  predicate Fragment(c: Ctx, t: string, s: nat, e: nat)
    requires s <= e <= |t|
  {
    var n := SkipSpaces(c.abc, t, e);
    || (e < n < |t| && c.abc.isWord(t[n]) && c.abc.isUpper(t[n]))
    || (var w := BackSpaces(c.abc, t, s);
        var b := BackWord(c.abc, t, w);
        w < s && b < w && c.abc.isUpper(t[b]) && !SentenceStart(c, t, b))
  }

  function You(start: bool): string { if start then "You" else "you" }

  /** \b lit \b at i */
  predicate Standalone(c: Ctx, t: string, i: nat, lit: string)
    requires i <= |t|
  {
    Edge(c.abc, t, i) && At(t, i, lit) && Edge(c.abc, t, i + |lit|)
  }

  /** \s+\w at i */
  predicate WordAhead(c: Ctx, t: string, i: nat)
    requires i <= |t|
  {
    var n := SkipSpaces(c.abc, t, i);
    i < n < |t| && c.abc.isWord(t[n])
  }

  // ---- name passes -----------------------------------------------------

  predicate Predicative(c: Ctx, rest: string) {
    var r := TrimStart(c.abc, rest);
    r == "" || r[0] in ".!?,;:\U{2026}" || exists w | w in ["and", "or", "but", "nor", "so", "yet"] :: Standalone(c, r, 0, w)
  }

  function PossessiveNameAt(c: Ctx, t: string, i: nat): (h: Hit)
    requires i < |t| && c.name != ""
    ensures Honest(t, i, h)
  {
    if !Standalone(c, t, i, c.name + "'s") then Miss
    else
      var e := i + |c.name| + 2;
      var start := SentenceStart(c, t, i);
      Hit(e, if Predicative(c, t[e..]) then (if start then "Yours" else "yours") else (if start then "Your" else "your"),
          1, SHUT.(name := true))
  }

  function SubjectNameAt(c: Ctx, t: string, i: nat): (h: Hit)
    requires i < |t| && c.name != ""
    ensures Honest(t, i, h)
  {
    if !Standalone(c, t, i, c.name) then Miss
    else
      var n := i + |c.name|;
      var v := SkipSpaces(c.abc, t, n);
      var e := SkipWord(c.abc, t, v);
      if v == n || e == v then Miss
      else if Fragment(c, t, i, n) then Hit(e, t[i..e], 0, SHUT)
      else
        var verb := t[v..e];
        var start := SentenceStart(c, t, i);
        Hit(e, You(start) + " " + Conjugate(c.abc, verb),
            if Conjugate(c.abc, verb) != verb then 2 else 1,
            Gates(true, true, start, LooksLikeVerb(c.abc, verb)))
  }

  function BareNameAt(c: Ctx, t: string, i: nat): (h: Hit)
    requires i < |t| && c.name != ""
    ensures Honest(t, i, h)
  {
    if !Standalone(c, t, i, c.name) then Miss
    else
      var n := i + |c.name|;
      if Fragment(c, t, i, n) then Hit(n, t[i..n], 0, SHUT)
      else Hit(n, You(SentenceStart(c, t, i)), 1, Gates(false, true, SentenceStart(c, t, i), false))
  }

  // ---- passes gated on the name passes ---------------------------------

  predicate Dash(ch: char) { ch == '\U{2014}' || ch == '\U{2013}' || ch == '-' }

  function NextDash(t: string, i: nat): (k: nat)
    requires i <= |t|
    ensures i <= k <= |t|
    decreases |t| - i
  {
    if i < |t| && !Dash(t[i]) then NextDash(t, i + 1) else i
  }

  /** The end of the interruption that starts at y, right after "You": an appositive between commas,
      a parenthesis between dashes or brackets, or one word. y itself means there is none. */
  function InterruptionEnd(c: Ctx, t: string, y: nat): (g: nat)
    requires y <= |t|
    ensures y <= g <= |t|
  {
    var d := SkipSpaces(c.abc, t, y);
    if y < |t| && t[y] == ',' then
      var k := IndexOf(t, ',', y + 1);
      if k < |t| then k + 1 else y
    else if d < |t| && Dash(t[d]) then
      var k := NextDash(t, d + 1);
      if k < |t| then k + 1 else y
    else if y < d < |t| && t[d] == '(' then
      var k := IndexOf(t, ')', d + 1);
      if k < |t| then k + 1 else y
    else if y < d then
      var w := SkipWord(c.abc, t, d);
      if d < w then w else y
    else y
  }

  /** Anchored at the start of the clause and tried once. */
  function InterrupterAt(c: Ctx, t: string, i: nat): (h: Hit)
    requires i < |t|
    ensures Honest(t, i, h)
  {
    var s := SkipSpaces(c.abc, t, 0);
    if i != 0 || !At(t, s, "You") || !Edge(c.abc, t, s + 3) then Miss
    else
      var g := InterruptionEnd(c, t, s + 3);
      var v := SkipSpaces(c.abc, t, g);
      var e := SkipWord(c.abc, t, v);
      if g == s + 3 || v == g || e == v then Miss
      else
        var verb := t[v..e];
        if !LooksLikeVerb(c.abc, verb) || Conjugate(c.abc, verb) == verb then Hit(e, t[i..e], 0, SHUT)
        else Hit(e, t[..g] + " " + Conjugate(c.abc, verb), 1, SHUT)
  }

  function ReflexiveAt(c: Ctx, t: string, i: nat, form: string): (h: Hit)
    requires i < |t|
    ensures Honest(t, i, h)
  {
    if form != "" && Standalone(c, t, i, form) then Hit(i + |form|, "yourself", 1, SHUT) else Miss
  }

  predicate Conjugable(a: Alphabet, word: string) {
    LooksLikeVerb(a, word) && !IsPronoun(a, word) && Conjugate(a, word) != word
  }

  /** The shared tail of the "and" and comma passes: \s+(\w+)(?:\s+(\w+))? from j, where the lead-in
      t[i..j] has matched and is printed as `lead`. */
  function Coordinated(c: Ctx, t: string, i: nat, j: nat, lead: string, comma: bool): (h: Hit)
    requires i < j <= |t|
    ensures Honest(t, i, h)
  {
    var a := c.abc;
    var s1 := SkipSpaces(a, t, j);
    var e1 := SkipWord(a, t, s1);
    if s1 == j || e1 == s1 then Miss
    else
      var s2 := SkipSpaces(a, t, e1);
      var e2 := SkipWord(a, t, s2);
      var two := e1 < s2 < e2;
      var e := if two then e2 else e1;
      var w1, w2 := t[s1..e1], t[s2..e2];
      if comma && (Lower(a, w1) == "and" || (two && Lower(a, w2) == "and")) then Hit(e, t[i..e], 0, SHUT)
      else if LooksLikeVerb(a, w1) && !IsPronoun(a, w1) then
        if Conjugate(a, w1) == w1 then Hit(e, t[i..e], 0, SHUT)
        else Hit(e, lead + (" " + Conjugate(a, w1) + (if two then " " + w2 else "")), 1, SHUT)
      else if two && IsSkippableAdverb(a, w1) && Conjugable(a, w2) then
        Hit(e, lead + (" " + w1 + " " + Conjugate(a, w2)), 1, SHUT)
      else Hit(e, t[i..e], 0, SHUT)
  }

  function AndVerbAt(c: Ctx, t: string, i: nat): (h: Hit)
    requires i < |t|
    ensures Honest(t, i, h)
  {
    if Edge(c.abc, t, i) && At(t, i, "and") then Coordinated(c, t, i, i + 3, "and", false) else Miss
  }

  function CommaVerbAt(c: Ctx, t: string, i: nat): (h: Hit)
    requires i < |t|
    ensures Honest(t, i, h)
  {
    if t[i] == ',' then Coordinated(c, t, i, i + 1, ",", true) else Miss
  }

  function ThenVerbAt(c: Ctx, t: string, i: nat): (h: Hit)
    requires i < |t|
    ensures Honest(t, i, h)
  {
    if !(Edge(c.abc, t, i) && At(t, i, "then")) then Miss
    else
      var v := SkipSpaces(c.abc, t, i + 4);
      var e := SkipWord(c.abc, t, v);
      if v == i + 4 || e == v then Miss
      else if !Conjugable(c.abc, t[v..e]) then Hit(e, t[i..e], 0, SHUT)
      else Hit(e, "then " + Conjugate(c.abc, t[v..e]), 1, SHUT)
  }

  function PossessivePronounAt(c: Ctx, t: string, i: nat): (h: Hit)
    requires i < |t|
    ensures Honest(t, i, h)
  {
    var form := c.pronouns.Possessive();
    if Standalone(c, t, i, form) && (c.pronouns.Ambiguous() ==> WordAhead(c, t, i + |form|)) then
      Hit(i + |form|, if SentenceStart(c, t, i) then "Your" else "your", 1, SHUT)
    else Miss
  }

  function SubjectPronounAt(c: Ctx, t: string, i: nat): (h: Hit)
    requires i < |t|
    ensures Honest(t, i, h)
  {
    var form := c.pronouns.Subject();
    if !Standalone(c, t, i, form) then Miss
    else
      var n := i + |form|;
      var you := You(SentenceStart(c, t, i));
      var v := SkipSpaces(c.abc, t, n);
      var e := SkipWord(c.abc, t, v);
      if v == n || e == v then Hit(n, you, 1, SHUT)
      else if Conjugable(c.abc, t[v..e]) then Hit(e, you + " " + Conjugate(c.abc, t[v..e]), 2, SHUT)
      else Hit(e, you + " " + t[v..e], 1, SHUT)
  }

  function ObjectPronounAt(c: Ctx, t: string, i: nat): (h: Hit)
    requires i < |t|
    ensures Honest(t, i, h)
  {
    var form := c.pronouns.Object();
    if Standalone(c, t, i, form) && (c.pronouns.Ambiguous() ==> !WordAhead(c, t, i + |form|)) then
      Hit(i + |form|, You(SentenceStart(c, t, i)), 1, SHUT)
    else Miss
  }

  function InvertedAuxiliaryAt(c: Ctx, t: string, i: nat): (h: Hit)
    requires i < |t|
    ensures Honest(t, i, h)
  {
    if !(Edge(c.abc, t, i) && c.abc.isWord(t[i])) then Miss
    else
      var w := SkipWord(c.abc, t, i);
      var y := SkipSpaces(c.abc, t, w);
      if y == w || !(At(t, y, "you") || At(t, y, "You")) || !Edge(c.abc, t, y + 3) then Miss
      else
        var aux := t[i..w];
        if Irregular(Lower(c.abc, aux)).None? || Conjugate(c.abc, aux) == aux then Hit(y + 3, t[i..y + 3], 0, SHUT)
        else Hit(y + 3, Conjugate(c.abc, aux) + " " + t[y..y + 3], 1, SHUT)
  }

  // ---- one table -------------------------------------------------------

  function HitAt(p: Pass, c: Ctx, t: string, i: nat): (h: Hit)
    requires i < |t| && c.name != ""
    ensures Honest(t, i, h)
  {
    match p
    case PossessiveName => PossessiveNameAt(c, t, i)
    case SubjectName => SubjectNameAt(c, t, i)
    case BareName => BareNameAt(c, t, i)
    case Interrupter => InterrupterAt(c, t, i)
    case Reflexive(form) => ReflexiveAt(c, t, i, form)
    case AndVerb => AndVerbAt(c, t, i)
    case CommaVerb => CommaVerbAt(c, t, i)
    case ThenVerb => ThenVerbAt(c, t, i)
    case PossessivePronoun => PossessivePronounAt(c, t, i)
    case SubjectPronoun => SubjectPronounAt(c, t, i)
    case ObjectPronoun => ObjectPronounAt(c, t, i)
    case InvertedAuxiliary => InvertedAuxiliaryAt(c, t, i)
  }

  /** The name passes need the name: where it does not start, they do not match. */
  lemma NamePassNeedsName(p: Pass, c: Ctx, t: string, i: nat)
    requires i < |t| && c.name != "" && p in {PossessiveName, SubjectName, BareName}
    requires !At(t, i, c.name)
    ensures HitAt(p, c, t, i) == Miss
  {
    hide Fragment, SentenceStart, Predicative, Conjugate, At;
    AtPrefix(t, i, c.name, "'s");
  }

  // ---- declarative readings --------------------------------------------

  /** The loop and the rsplit agree with one reading: a position opens a sentence when the whitespace
      before it holds a blank line, or reaches back to the start of a first clause, or follows a
      terminator. */
  lemma SentenceStartIff(c: Ctx, t: string, i: nat)
    requires Lawful(c.abc) && i <= |t|
    ensures SentenceStart(c, t, i)
       <==> (|| (exists k | BackSpaces(c.abc, t, i) <= k <= i - 2 :: BlankLine(t, k))
             || (if BackSpaces(c.abc, t, i) == 0 then c.first else t[BackSpaces(c.abc, t, i) - 1] in ".!?\U{2026}"))
  {
    hide AfterBreak;
    AfterBreakIff(c.abc, t, i);
  }

  lemma AfterBreakIff(a: Alphabet, t: string, i: nat)
    requires Lawful(a) && i <= |t|
    ensures AfterBreak(a, t, i) <==> exists k | BackSpaces(a, t, i) <= k <= i - 2 :: BlankLine(t, k)
  {
    hide SkipSpaces, BackSpaces, LastBreak;
    var b, u := BackSpaces(a, t, i), t[..i];
    var r := LastBreak(u, i - 2);
    SpacesWithin(a, t, b, i);
    if AfterBreak(a, t, i) {
      SpacesWithin(a, u, r + 2, i);
      assert BlankLine(t, r);
    }
    if k :| b <= k <= i - 2 && BlankLine(t, k) {
      assert BlankLine(u, k);
      SpacesEnd(a, u, r + 2, i);
    }
  }

  /** The subject pass on any text that reads, at i, as the standalone name, the whitespace t[n..v] and the
      maximal word t[v..e]: a fragment of a longer proper noun is left alone, anything else becomes the
      second-person subject (capitalised exactly at a sentence start), one space, and the word conjugated. */
  lemma SubjectNameReads(c: Ctx, t: string, i: nat, v: nat, e: nat)
    requires Lawful(c.abc) && c.name != "" && i < |t| && Standalone(c, t, i, c.name)
    requires i + |c.name| < v < e <= |t| && (e == |t| || !c.abc.isWord(t[e]))
    requires forall k | i + |c.name| <= k < v :: c.abc.isSpace(t[k])
    requires forall k | v <= k < e :: c.abc.isWord(t[k])
    ensures var h := SubjectNameAt(c, t, i);
            && h.Hit? && h.end == e
            && h.text == (if Fragment(c, t, i, i + |c.name|) then t[i..e]
                          else You(SentenceStart(c, t, i)) + " " + Conjugate(c.abc, t[v..e]))
            && (h.edits == 0 <==> Fragment(c, t, i, i + |c.name|))
            && h.gates == (if Fragment(c, t, i, i + |c.name|) then SHUT
                           else Gates(true, true, SentenceStart(c, t, i), LooksLikeVerb(c.abc, t[v..e])))
  {
    hide Fragment, SentenceStart, Conjugate, LooksLikeVerb, Edge, SkipSpaces, SkipWord;
    SpacesEnd(c.abc, t, i + |c.name|, v);
    WordEnd(c.abc, t, v, e);
  }
}
