/** What each rewriting pass does, on texts described by words and whitespace
    (sidequest/agents/pov_swap.py:267-313 and 432-852). */
module PovReadings {
  import opened Text
  import opened PovWords
  import opened PovPasses

  /** Whitespace t[n..v], not empty. */
  ghost predicate Gap(c: Ctx, t: string, n: nat, v: nat) {
    n < v <= |t| && forall k | n <= k < v :: c.abc.isSpace(t[k])
  }

  /** A whole word t[v..e]. */
  ghost predicate Span(c: Ctx, t: string, v: nat, e: nat) {
    v < e <= |t| && (forall k | v <= k < e :: c.abc.isWord(t[k])) && (e == |t| || !c.abc.isWord(t[e]))
  }

  /** From n the text goes on with whitespace and a word. */
  ghost predicate Next(c: Ctx, t: string, n: nat, v: nat, e: nat) { Gap(c, t, n, v) && Span(c, t, v, e) }

  ghost predicate NoNext(c: Ctx, t: string, n: nat) { forall v: nat, e: nat :: !Next(c, t, n, v, e) }

  lemma NextIs(c: Ctx, t: string, n: nat, v: nat, e: nat)
    requires Lawful(c.abc) && n <= |t| && Next(c, t, n, v, e)
    ensures SkipSpaces(c.abc, t, n) == v && SkipWord(c.abc, t, v) == e && n < v < e
    ensures WordAhead(c, t, n)
  {
    SpacesEnd(c.abc, t, n, v);
    WordEnd(c.abc, t, v, e);
  }

  lemma NoNextIs(c: Ctx, t: string, n: nat)
    requires Lawful(c.abc) && n <= |t| && NoNext(c, t, n)
    ensures !WordAhead(c, t, n)
    ensures var v := SkipSpaces(c.abc, t, n);
            v == n || SkipWord(c.abc, t, v) == v
  {
    var v := SkipSpaces(c.abc, t, n);
    var e := SkipWord(c.abc, t, v);
    if n < v < e {
      SpacesWithin(c.abc, t, n, v);
      assert forall k | v <= k < e :: t[v..e][k - v] == t[k];
      assert Next(c, t, n, v, e);
    }
    assert n < v < |t| && c.abc.isWord(t[v]) ==> v < e;
  }

  // ---- pronouns --------------------------------------------------------

  function SubjectForm(p: Pronouns): string { match p case HeHim => "he" case SheHer => "she" case TheyThem => "they" }

  function ObjectForm(p: Pronouns): string { match p case HeHim => "him" case SheHer => "her" case TheyThem => "them" }

  function PossessiveForm(p: Pronouns): string {
    match p case HeHim => "his" case SheHer => "her" case TheyThem => "their"
  }

  /** The possessive form becomes "your", capitalised at a sentence start; "her" only where a word follows. */
  lemma PossessivePronounReads(c: Ctx, t: string, i: nat, v: nat, e: nat)
    requires Lawful(c.abc) && i < |t|
    ensures var h, form := PossessivePronounAt(c, t, i), PossessiveForm(c.pronouns);
            && (h.Hit? ==> Standalone(c, t, i, form) && h.end == i + |form| && h.edits == 1
                           && h.text == (if SentenceStart(c, t, i) then "Your" else "your"))
            && (Standalone(c, t, i, form) && (c.pronouns != SheHer || Next(c, t, i + |form|, v, e)) ==> h.Hit?)
            && (Standalone(c, t, i, form) && c.pronouns == SheHer && NoNext(c, t, i + |form|) ==> h.Miss?)
  {
    hide Edge, SentenceStart, WordAhead, NoNext, Next;
    var n := i + |PossessiveForm(c.pronouns)|;
    if Standalone(c, t, i, PossessiveForm(c.pronouns)) {
      if Next(c, t, n, v, e) { NextIs(c, t, n, v, e); }
      if NoNext(c, t, n) { NoNextIs(c, t, n); }
    }
  }

  /** The object form becomes "you"; "her" only where no word follows. */
  lemma ObjectPronounReads(c: Ctx, t: string, i: nat, v: nat, e: nat)
    requires Lawful(c.abc) && i < |t|
    ensures var h, form := ObjectPronounAt(c, t, i), ObjectForm(c.pronouns);
            && (h.Hit? ==> Standalone(c, t, i, form) && h.end == i + |form| && h.edits == 1
                           && h.text == (if SentenceStart(c, t, i) then "You" else "you"))
            && (Standalone(c, t, i, form) && (c.pronouns != SheHer || NoNext(c, t, i + |form|)) ==> h.Hit?)
            && (Standalone(c, t, i, form) && c.pronouns == SheHer && Next(c, t, i + |form|, v, e) ==> h.Miss?)
  {
    hide Edge, SentenceStart, WordAhead, NoNext, Next;
    var n := i + |ObjectForm(c.pronouns)|;
    if Standalone(c, t, i, ObjectForm(c.pronouns)) {
      if Next(c, t, n, v, e) { NextIs(c, t, n, v, e); }
      if NoNext(c, t, n) { NoNextIs(c, t, n); }
    }
  }

  /** The word after a pronoun or a lead-in, conjugated if it looks like a verb and is no pronoun. */
  function Agreed(a: Alphabet, word: string): string {
    if LooksLikeVerb(a, word) && !IsPronoun(a, word) then Conjugate(a, word) else word
  }

  /** The subject form becomes "you" and the word after it, if any, agrees. */
  lemma SubjectPronounReads(c: Ctx, t: string, i: nat, v: nat, e: nat)
    requires Lawful(c.abc) && i < |t|
    ensures var h, form, you := SubjectPronounAt(c, t, i), SubjectForm(c.pronouns), if SentenceStart(c, t, i) then "You" else "you";
            && (h.Hit? <==> Standalone(c, t, i, form))
            && (h.Hit? ==> h.edits > 0)
            && (h.Hit? && Next(c, t, i + |form|, v, e) ==> h.end == e && h.text == you + " " + Agreed(c.abc, t[v..e]))
            && (h.Hit? && NoNext(c, t, i + |form|) ==> h.end == i + |form| && h.text == you)
  {
    hide Edge, SentenceStart, WordAhead, NoNext, Next, Conjugate, LooksLikeVerb, IsPronoun, SkipSpaces, SkipWord;
    var n := i + |SubjectForm(c.pronouns)|;
    if Standalone(c, t, i, SubjectForm(c.pronouns)) {
      if Next(c, t, n, v, e) { NextIs(c, t, n, v, e); }
      if NoNext(c, t, n) { NoNextIs(c, t, n); }
    }
  }

  lemma ReflexiveReads(c: Ctx, t: string, i: nat, form: string)
    requires i < |t| && form != ""
    ensures ReflexiveAt(c, t, i, form)
         == if Standalone(c, t, i, form) then Hit(i + |form|, "yourself", 1, SHUT) else Miss
    ensures HeHim.Reflexives() == ["himself"] && SheHer.Reflexives() == ["herself"]
    ensures TheyThem.Reflexives() == ["themself", "themselves"]
  {}

  // ---- the name --------------------------------------------------------

  /** A name that is not part of a longer proper noun becomes "you". */
  lemma BareNameReads(c: Ctx, t: string, i: nat)
    requires i < |t| && c.name != ""
    ensures var h, n := BareNameAt(c, t, i), i + |c.name|;
            && (h.Hit? <==> Standalone(c, t, i, c.name))
            && (h.Hit? && Fragment(c, t, i, n) ==> h.end == n && h.text == c.name && h.gates == SHUT)
            && (h.Hit? && !Fragment(c, t, i, n) ==>
                && h.end == n && h.edits == 1 && h.text == (if SentenceStart(c, t, i) then "You" else "you")
                && h.gates == Gates(false, true, SentenceStart(c, t, i), false))
  {
    hide Fragment, SentenceStart, Edge;
  }

  /** Nothing, punctuation or a conjunction. */
  ghost predicate Ending(c: Ctx, r: string) {
    || r == ""
    || r[0] == '.' || r[0] == '!' || r[0] == '?' || r[0] == ',' || r[0] == ';' || r[0] == ':' || r[0] == '\U{2026}'
    || Standalone(c, r, 0, "and") || Standalone(c, r, 0, "or") || Standalone(c, r, 0, "but")
    || Standalone(c, r, 0, "nor") || Standalone(c, r, 0, "so") || Standalone(c, r, 0, "yet")
  }

  /** After whitespace, if any, an ending comes next. */
  ghost predicate StandsAlone(c: Ctx, rest: string) {
    exists k: nat | k <= |rest| ::
      && (forall j | 0 <= j < k :: c.abc.isSpace(rest[j])) && (k == |rest| || !c.abc.isSpace(rest[k]))
      && Ending(c, rest[k..])
  }

  lemma EndingIff(c: Ctx, rest: string)
    ensures Predicative(c, rest) <==> Ending(c, TrimStart(c.abc, rest))
  {
    hide Standalone, TrimStart;
    var r := TrimStart(c.abc, rest);
    if w :| w in ["and", "or", "but", "nor", "so", "yet"] && Standalone(c, r, 0, w) {
      assert w == "and" || w == "or" || w == "but" || w == "nor" || w == "so" || w == "yet";
    }
  }

  lemma StandsAloneIff(c: Ctx, rest: string)
    ensures Predicative(c, rest) <==> StandsAlone(c, rest)
  {
    hide Ending, Predicative, SkipSpaces;
    EndingIff(c, rest);
    var s := SkipSpaces(c.abc, rest, 0);
    assert forall j | 0 <= j < s :: rest[0..s][j] == rest[j];
    if k: nat :| k <= |rest| && (forall j | 0 <= j < k :: c.abc.isSpace(rest[j]))
                 && (k == |rest| || !c.abc.isSpace(rest[k])) && Ending(c, rest[k..]) {
      SpacesEnd(c.abc, rest, 0, k);
    }
  }

  /** The possessive name becomes "your", or "yours" where it stands alone. */
  lemma PossessiveNameReads(c: Ctx, t: string, i: nat)
    requires i < |t| && c.name != ""
    ensures var h, e := PossessiveNameAt(c, t, i), i + |c.name| + 2;
            && (h.Hit? <==> Standalone(c, t, i, c.name + "'s"))
            && (h.Hit? ==>
                && h.end == e && h.edits == 1 && h.gates == Gates(false, true, false, false)
                && h.text == (if SentenceStart(c, t, i) then (if StandsAlone(c, t[e..]) then "Yours" else "Your")
                              else if StandsAlone(c, t[e..]) then "yours" else "your"))
  {
    hide SentenceStart, Predicative, StandsAlone, Edge;
    if Standalone(c, t, i, c.name + "'s") {
      StandsAloneIff(c, t[i + |c.name| + 2..]);
    }
  }

  /** Part of a longer proper noun: a capitalised word follows, or one precedes that does not open a sentence. */
  lemma FragmentIff(c: Ctx, t: string, s: nat, e: nat)
    requires Lawful(c.abc) && s <= e <= |t|
    ensures Fragment(c, t, s, e) <==> Followed(c, t, e) || Preceded(c, t, s)
  {
    hide SentenceStart, SkipSpaces, SkipWord, BackSpaces, BackWord, Followed, Preceded;
    FollowedIff(c, t, e);
    PrecededIff(c, t, s);
  }

  /** A whole word t[b..w], seen from behind. */
  ghost predicate Ends(c: Ctx, t: string, b: nat, w: nat) {
    b < w <= |t| && (forall k | b <= k < w :: c.abc.isWord(t[k])) && (b == 0 || !c.abc.isWord(t[b - 1]))
  }

  ghost predicate Followed(c: Ctx, t: string, e: nat) {
    exists v: nat, x: nat :: Next(c, t, e, v, x) && c.abc.isUpper(t[v])
  }

  lemma FollowedIff(c: Ctx, t: string, e: nat)
    requires Lawful(c.abc) && e <= |t|
    ensures var n := SkipSpaces(c.abc, t, e);
            Followed(c, t, e) <==> e < n < |t| && c.abc.isWord(t[n]) && c.abc.isUpper(t[n])
  {
    hide SkipSpaces, SkipWord;
    var n := SkipSpaces(c.abc, t, e);
    if v: nat, x: nat :| Next(c, t, e, v, x) && c.abc.isUpper(t[v]) {
      NextIs(c, t, e, v, x);
    }
    if e < n < |t| && c.abc.isWord(t[n]) && c.abc.isUpper(t[n]) {
      WordFollows(c, t, e, n);
    }
  }

  lemma WordFollows(c: Ctx, t: string, e: nat, n: nat)
    requires e < n < |t| && n == SkipSpaces(c.abc, t, e) && c.abc.isWord(t[n])
    ensures Next(c, t, e, n, SkipWord(c.abc, t, n))
  {
    hide SkipSpaces, SkipWord;
    var x := SkipWord(c.abc, t, n);
    SpacesWithin(c.abc, t, e, n);
    assert forall k | n <= k < x :: t[n..x][k - n] == t[k];
  }

  ghost predicate Preceded(c: Ctx, t: string, s: nat) {
    exists b: nat, w: nat :: Ends(c, t, b, w) && Gap(c, t, w, s) && c.abc.isUpper(t[b]) && !SentenceStart(c, t, b)
  }

  lemma PrecededIff(c: Ctx, t: string, s: nat)
    requires Lawful(c.abc) && s <= |t|
    ensures var w := BackSpaces(c.abc, t, s);
            var b := BackWord(c.abc, t, w);
            Preceded(c, t, s) <==> w < s && b < w && c.abc.isUpper(t[b]) && !SentenceStart(c, t, b)
  {
    hide SentenceStart, BackSpaces, BackWord;
    var w := BackSpaces(c.abc, t, s);
    var b := BackWord(c.abc, t, w);
    if b': nat, w': nat :| Ends(c, t, b', w') && Gap(c, t, w', s) && c.abc.isUpper(t[b']) && !SentenceStart(c, t, b') {
      BackSpacesIs(c, t, s, w');
      BackWordIs(c, t, w, b');
    }
    if w < s && b < w && c.abc.isUpper(t[b]) && !SentenceStart(c, t, b) {
      WordPrecedes(c, t, s);
    }
  }

  lemma WordPrecedes(c: Ctx, t: string, s: nat)
    requires s <= |t|
    ensures var w := BackSpaces(c.abc, t, s);
            var b := BackWord(c.abc, t, w);
            w < s && b < w ==> Ends(c, t, b, w) && Gap(c, t, w, s)
  {
    hide BackSpaces, BackWord;
    var w := BackSpaces(c.abc, t, s);
    var b := BackWord(c.abc, t, w);
    SpacesWithin(c.abc, t, w, s);
    assert forall k | b <= k < w :: t[b..w][k - b] == t[k];
    BackWordStops(c, t, w);
  }

  lemma {:induction false} BackSpacesIs(c: Ctx, t: string, s: nat, w: nat)
    requires w <= s <= |t| && (forall k | w <= k < s :: c.abc.isSpace(t[k])) && (w == 0 || !c.abc.isSpace(t[w - 1]))
    ensures BackSpaces(c.abc, t, s) == w
  {
    if w < s {
      BackSpacesIs(c, t, s - 1, w);
    }
  }

  lemma {:induction false} BackWordIs(c: Ctx, t: string, w: nat, b: nat)
    requires b <= w <= |t| && (forall k | b <= k < w :: c.abc.isWord(t[k])) && (b == 0 || !c.abc.isWord(t[b - 1]))
    ensures BackWord(c.abc, t, w) == b
  {
    if b < w {
      BackWordIs(c, t, w - 1, b);
    }
  }

  lemma {:induction false} BackWordStops(c: Ctx, t: string, w: nat)
    requires w <= |t|
    ensures var b := BackWord(c.abc, t, w);
            b == 0 || !c.abc.isWord(t[b - 1])
  {
    if w > 0 && c.abc.isWord(t[w - 1]) {
      BackWordStops(c, t, w - 1);
    }
  }

  /** The subject pass needs whitespace and a word after the name. */
  lemma SubjectNameNeedsWord(c: Ctx, t: string, i: nat)
    requires Lawful(c.abc) && i < |t| && c.name != ""
    ensures SubjectNameAt(c, t, i).Hit? ==> Standalone(c, t, i, c.name) && !NoNext(c, t, i + |c.name|)
  {
    hide Fragment, SentenceStart, Conjugate, NoNext, Edge, LooksLikeVerb;
    if Standalone(c, t, i, c.name) && NoNext(c, t, i + |c.name|) {
      NoNextIs(c, t, i + |c.name|);
    }
  }

  // ---- coordinated verbs -----------------------------------------------

  lemma CoordinatedOne(c: Ctx, t: string, i: nat, j: nat, lead: string, comma: bool, v: nat, e: nat)
    requires Lawful(c.abc) && i < j <= |t| && Next(c, t, j, v, e) && NoNext(c, t, e)
    ensures var h, w := Coordinated(c, t, i, j, lead, comma), t[v..e];
            && h.Hit? && h.end == e
            && (if Agreed(c.abc, w) != w && !(comma && Lower(c.abc, w) == "and")
                then h.text == lead + " " + Agreed(c.abc, w) && h.edits == 1
                else h.text == t[i..e] && h.edits == 0)
  {
    hide NoNext, Next, Conjugate, LooksLikeVerb, IsPronoun, IsSkippableAdverb, SkipSpaces, SkipWord, Lower;
    NextIs(c, t, j, v, e);
    NoNextIs(c, t, e);
  }

  lemma CoordinatedTwo(c: Ctx, t: string, i: nat, j: nat, lead: string, comma: bool, v: nat, e: nat, v2: nat, e2: nat)
    requires Lawful(c.abc) && i < j <= |t| && Next(c, t, j, v, e) && Next(c, t, e, v2, e2)
    ensures var h, w, w2 := Coordinated(c, t, i, j, lead, comma), t[v..e], t[v2..e2];
            && h.Hit? && h.end == e2
            && (if comma && (Lower(c.abc, w) == "and" || Lower(c.abc, w2) == "and") then h.text == t[i..e2] && h.edits == 0
                else if LooksLikeVerb(c.abc, w) && !IsPronoun(c.abc, w) then
                  if Conjugate(c.abc, w) == w then h.text == t[i..e2] && h.edits == 0
                  else h.text == lead + " " + Conjugate(c.abc, w) + " " + w2 && h.edits == 1
                else if IsSkippableAdverb(c.abc, w) && Agreed(c.abc, w2) != w2 then
                  h.text == lead + " " + w + " " + Agreed(c.abc, w2) && h.edits == 1
                else h.text == t[i..e2] && h.edits == 0)
  {
    hide Next, Conjugate, LooksLikeVerb, IsPronoun, IsSkippableAdverb, SkipSpaces, SkipWord, Lower;
    NextIs(c, t, j, v, e);
    NextIs(c, t, e, v2, e2);
    var h, w, w2 := Coordinated(c, t, i, j, lead, comma), t[v..e], t[v2..e2];
    assert lead + (" " + Conjugate(c.abc, w) + " " + w2) == lead + " " + Conjugate(c.abc, w) + " " + w2;
    assert lead + (" " + Conjugate(c.abc, w) + (" " + w2)) == lead + " " + Conjugate(c.abc, w) + " " + w2;
    assert lead + (" " + w + " " + Conjugate(c.abc, w2)) == lead + " " + w + " " + Conjugate(c.abc, w2);
  }

  lemma CoordinatedNone(c: Ctx, t: string, i: nat, j: nat, lead: string, comma: bool)
    requires Lawful(c.abc) && i < j <= |t| && NoNext(c, t, j)
    ensures Coordinated(c, t, i, j, lead, comma) == Miss
  {
    hide NoNext, Conjugate, LooksLikeVerb, IsPronoun, IsSkippableAdverb, Lower;
    NoNextIs(c, t, j);
  }

  /** "and" and a word: the word agrees. */
  lemma AndVerbReads(c: Ctx, t: string, i: nat, v: nat, e: nat)
    requires Lawful(c.abc) && i < |t|
    ensures var h, led := AndVerbAt(c, t, i), Edge(c.abc, t, i) && At(t, i, "and");
            && (!led || NoNext(c, t, i + 3) ==> h.Miss?)
            && (led && Next(c, t, i + 3, v, e) && NoNext(c, t, e) ==>
                && h.Hit? && h.end == e && h.text == (if h.edits > 0 then "and " + Agreed(c.abc, t[v..e]) else t[i..e])
                && (h.edits > 0 <==> Agreed(c.abc, t[v..e]) != t[v..e]))
  {
    hide Edge, NoNext, Next, Coordinated, Agreed;
    if Edge(c.abc, t, i) && At(t, i, "and") {
      if NoNext(c, t, i + 3) { CoordinatedNone(c, t, i, i + 3, "and", false); }
      if Next(c, t, i + 3, v, e) && NoNext(c, t, e) {
        CoordinatedOne(c, t, i, i + 3, "and", false, v, e);
        assert "and" + " " == "and ";
      }
    }
  }

  /** "and" and two words: the first agrees if it is a verb; if it is an adverb the second does. */
  lemma AndTwoReads(c: Ctx, t: string, i: nat, v: nat, e: nat, v2: nat, e2: nat)
    requires Lawful(c.abc) && i < |t| && Edge(c.abc, t, i) && At(t, i, "and")
    requires Next(c, t, i + 3, v, e) && Next(c, t, e, v2, e2)
    ensures var h, w, w2 := AndVerbAt(c, t, i), t[v..e], t[v2..e2];
            && h.Hit? && h.end == e2
            && (Agreed(c.abc, w) != w ==> h.text == "and" + " " + Agreed(c.abc, w) + " " + w2)
            && (!LooksLikeVerb(c.abc, w) && IsSkippableAdverb(c.abc, w) && Agreed(c.abc, w2) != w2 ==>
                h.text == "and" + " " + w + " " + Agreed(c.abc, w2))
            && (!LooksLikeVerb(c.abc, w) && !IsSkippableAdverb(c.abc, w) ==> h.text == t[i..e2] && h.edits == 0)
  {
    hide Edge, Next, Coordinated, LooksLikeVerb, IsSkippableAdverb, IsPronoun, Conjugate;
    CoordinatedTwo(c, t, i, i + 3, "and", false, v, e, v2, e2);
  }

  /** A comma and a word that is not "and": the word agrees. */
  lemma CommaVerbReads(c: Ctx, t: string, i: nat, v: nat, e: nat)
    requires Lawful(c.abc) && i < |t|
    ensures var h := CommaVerbAt(c, t, i);
            && (t[i] != ',' || NoNext(c, t, i + 1) ==> h.Miss?)
            && (t[i] == ',' && Next(c, t, i + 1, v, e) && NoNext(c, t, e) ==>
                && h.Hit? && h.end == e && h.text == (if h.edits > 0 then ", " + Agreed(c.abc, t[v..e]) else t[i..e])
                && (h.edits > 0 <==> Agreed(c.abc, t[v..e]) != t[v..e] && Lower(c.abc, t[v..e]) != "and"))
  {
    hide NoNext, Next, Coordinated, Agreed;
    if t[i] == ',' {
      if NoNext(c, t, i + 1) { CoordinatedNone(c, t, i, i + 1, ",", true); }
      if Next(c, t, i + 1, v, e) && NoNext(c, t, e) {
        CoordinatedOne(c, t, i, i + 1, ",", true, v, e);
        assert "," + " " == ", ";
      }
    }
  }

  /** A comma and two words neither of which is "and": as after "and". */
  lemma CommaTwoReads(c: Ctx, t: string, i: nat, v: nat, e: nat, v2: nat, e2: nat)
    requires Lawful(c.abc) && i < |t| && t[i] == ',' && Next(c, t, i + 1, v, e) && Next(c, t, e, v2, e2)
    ensures var h, w, w2 := CommaVerbAt(c, t, i), t[v..e], t[v2..e2];
            && h.Hit? && h.end == e2
            && (Lower(c.abc, w) == "and" || Lower(c.abc, w2) == "and" ==> h.text == t[i..e2] && h.edits == 0)
            && (Lower(c.abc, w) != "and" && Lower(c.abc, w2) != "and" ==>
                && (Agreed(c.abc, w) != w ==> h.text == "," + " " + Agreed(c.abc, w) + " " + w2)
                && (!LooksLikeVerb(c.abc, w) && IsSkippableAdverb(c.abc, w) && Agreed(c.abc, w2) != w2 ==>
                    h.text == "," + " " + w + " " + Agreed(c.abc, w2)))
  {
    hide Next, Coordinated, LooksLikeVerb, IsSkippableAdverb, IsPronoun, Conjugate, Lower;
    CoordinatedTwo(c, t, i, i + 1, ",", true, v, e, v2, e2);
  }

  /** After "then" the word agrees. */
  lemma ThenVerbReads(c: Ctx, t: string, i: nat, v: nat, e: nat)
    requires Lawful(c.abc) && i < |t|
    ensures var h := ThenVerbAt(c, t, i);
            && (!(Edge(c.abc, t, i) && At(t, i, "then")) ==> h.Miss?)
            && (Edge(c.abc, t, i) && At(t, i, "then") && NoNext(c, t, i + 4) ==> h.Miss?)
            && (Edge(c.abc, t, i) && At(t, i, "then") && Next(c, t, i + 4, v, e) ==>
                && h.Hit? && h.end == e
                && (if Agreed(c.abc, t[v..e]) == t[v..e] then h.text == t[i..e] && h.edits == 0
                    else h.text == "then " + Agreed(c.abc, t[v..e]) && h.edits == 1))
  {
    hide Edge, NoNext, Next, Conjugate, LooksLikeVerb, IsPronoun, SkipSpaces, SkipWord;
    if At(t, i, "then") {
      if Next(c, t, i + 4, v, e) { NextIs(c, t, i + 4, v, e); }
      if NoNext(c, t, i + 4) { NoNextIs(c, t, i + 4); }
    }
  }

  // ---- interruptions and questions -------------------------------------

  /** "You" opens the clause, an interruption ends at g, and a word follows: the word agrees. */
  lemma InterrupterReads(c: Ctx, t: string, g: nat, v: nat, e: nat)
    requires Lawful(c.abc) && At(t, 0, "You") && Edge(c.abc, t, 3) && 3 < g <= |t| && Next(c, t, g, v, e)
    requires InterruptionEnd(c, t, 3) == g
    ensures var h, w := InterrupterAt(c, t, 0), t[v..e];
            && h.Hit? && h.end == e
            && (if LooksLikeVerb(c.abc, w) && Conjugate(c.abc, w) != w then h.text == t[..g] + " " + Conjugate(c.abc, w) && h.edits == 1
                else h.text == t[0..e] && h.edits == 0)
  {
    hide Edge, Next, Conjugate, LooksLikeVerb, SkipWord, InterruptionEnd;
    SkipNone(c, t);
    NextIs(c, t, g, v, e);
    hide SkipSpaces;
  }

  /** It is tried at the start of the clause only, and needs "You" there, after whitespace if any. */
  lemma InterrupterNeedsYou(c: Ctx, t: string, i: nat)
    requires i < |t|
    ensures InterrupterAt(c, t, i).Hit? ==>
              i == 0 && exists s: nat :: At(t, s, "You") && AllSpace(c.abc, t[..s]) && Edge(c.abc, t, s + 3)
  {
    hide Conjugate, LooksLikeVerb, InterruptionEnd, SkipWord, Edge;
    var s := SkipSpaces(c.abc, t, 0);
    assert t[0..s] == t[..s];
  }

  /** The question pass needs a word, whitespace and "you". */
  lemma InvertedAuxiliaryNeedsYou(c: Ctx, t: string, i: nat)
    requires i < |t|
    ensures InvertedAuxiliaryAt(c, t, i).Hit? ==>
              && Edge(c.abc, t, i)
              && exists e: nat, y: nat :: Span(c, t, i, e) && Gap(c, t, e, y) && (At(t, y, "you") || At(t, y, "You"))
                                          && Edge(c.abc, t, y + 3)
  {
    hide Conjugate, Irregular, Edge, SkipSpaces, SkipWord;
    if InvertedAuxiliaryAt(c, t, i).Hit? {
      var e := SkipWord(c.abc, t, i);
      var y := SkipSpaces(c.abc, t, e);
      SpacesWithin(c.abc, t, e, y);
      assert forall k | i <= k < e :: t[i..e][k - i] == t[k];
      assert Span(c, t, i, e) && Gap(c, t, e, y);
    }
  }

  lemma SkipNone(c: Ctx, t: string)
    requires Lawful(c.abc) && At(t, 0, "You")
    ensures SkipSpaces(c.abc, t, 0) == 0
  {
    assert t[0..3][0] == t[0];
    assert AsciiAlnum(t[0]);
  }

  /** An appositive ends past the second of two commas. */
  lemma CommaInterruption(c: Ctx, t: string, y: nat, k: nat)
    requires y < k < |t| && t[y] == ',' && t[k] == ',' && forall j | y < j < k :: t[j] != ','
    ensures InterruptionEnd(c, t, y) == k + 1
  {
    hide SkipSpaces, SkipWord;
    assert IndexOf(t, ',', y + 1) == k;
  }

  /** A parenthesis ends past its closing bracket. */
  lemma BracketInterruption(c: Ctx, t: string, y: nat, v: nat, k: nat)
    requires Lawful(c.abc) && Gap(c, t, y, v) && v < k < |t| && t[v] == '(' && t[k] == ')' && forall j | v < j < k :: t[j] != ')'
    requires t[y] != ','
    ensures InterruptionEnd(c, t, y) == k + 1
  {
    hide SkipSpaces, SkipWord;
    SpacesEnd(c.abc, t, y, v);
    assert IndexOf(t, ')', v + 1) == k;
  }

  /** A parenthesis between dashes, spaced or not, ends past the second dash. */
  lemma DashInterruption(c: Ctx, t: string, y: nat, v: nat, k: nat)
    requires Lawful(c.abc) && (v == y || Gap(c, t, y, v)) && v < k < |t| && t[y] != ','
    requires t[v] in "\U{2014}\U{2013}-" && t[k] in "\U{2014}\U{2013}-" && !c.abc.isSpace(t[v])
    requires forall j | v < j < k :: t[j] !in "\U{2014}\U{2013}-"
    ensures InterruptionEnd(c, t, y) == k + 1
  {
    hide SkipSpaces, SkipWord;
    SpacesEnd(c.abc, t, y, v);
    NextDashIs(t, v + 1, k);
  }

  lemma {:induction false} NextDashIs(t: string, i: nat, k: nat)
    requires i <= k < |t| && Dash(t[k]) && forall j | i <= j < k :: !Dash(t[j])
    ensures NextDash(t, i) == k
    decreases k - i
  {
    if i < k {
      NextDashIs(t, i + 1, k);
    }
  }

  /** One word is an interruption too. */
  lemma WordInterruption(c: Ctx, t: string, y: nat, v: nat, e: nat)
    requires Lawful(c.abc) && y <= |t| && Next(c, t, y, v, e) && t[y] != ',' && t[v] !in "\U{2014}\U{2013}-("
    ensures InterruptionEnd(c, t, y) == e
  {
    NextIs(c, t, y, v, e);
    hide SkipSpaces, SkipWord;
  }

  /** A word before "you" that is an irregular form agrees. */
  lemma InvertedAuxiliaryReads(c: Ctx, t: string, i: nat, e: nat, y: nat)
    requires Lawful(c.abc) && i < |t| && Edge(c.abc, t, i) && Span(c, t, i, e) && Gap(c, t, e, y)
    requires (At(t, y, "you") || At(t, y, "You")) && Edge(c.abc, t, y + 3)
    ensures var h, w := InvertedAuxiliaryAt(c, t, i), t[i..e];
            && h.Hit? && h.end == y + 3
            && (if Irregular(Lower(c.abc, w)).Some? && Conjugate(c.abc, w) != w
                then h.text == Conjugate(c.abc, w) + " " + t[y..y + 3] && h.edits == 1
                else h.text == t[i..y + 3] && h.edits == 0)
  {
    hide Conjugate, Irregular, Lower, SkipSpaces, SkipWord;
    WordEnd(c.abc, t, i, e);
    YouIsSolid(c, t, y);
    SpacesEnd(c.abc, t, e, y);
  }

  lemma YouIsSolid(c: Ctx, t: string, y: nat)
    requires Lawful(c.abc) && (At(t, y, "you") || At(t, y, "You"))
    ensures y < |t| && c.abc.isWord(t[y]) && !c.abc.isSpace(t[y])
  {
    assert t[y..y + 3][0] == t[y];
    assert AsciiAlnum(t[y]);
  }
}
