/** Word-level judgements of the second-person rewriter (sidequest/agents/pov_swap.py:128-264). */
module PovWords {
  import opened Options
  import opened Text

  /** The irregular third-person forms, contraction stems included. */
  function Irregular(lower: string): (r: Option<string>)
    ensures r.Some? ==> 0 < |r.value| && forall k | 0 <= k < |r.value| :: 'a' <= r.value[k] <= 'z'
    ensures r.Some? ==> |r.value| + 1 != |lower|
    ensures r.Some? && EndsWith(lower, "es") ==> |lower| == 4 && lower[1] == 'o'
  {
    if lower == "has" then Some("have")
    else if lower == "is" then Some("are")
    else if lower == "was" then Some("were")
    else if lower == "does" then Some("do")
    else if lower == "goes" then Some("go")
    else if lower == "doesn" then Some("don")
    else if lower == "wasn" then Some("weren")
    else if lower == "isn" then Some("aren")
    else if lower == "hasn" then Some("haven")
    else None
  }

  function Capital(s: string): (r: string)
    requires 0 < |s| && forall k | 0 <= k < |s| :: 'a' <= s[k] <= 'z'
    ensures |r| == |s| && forall k | 0 <= k < |r| :: AsciiAlnum(r[k])
  {
    [(s[0] as int - 32) as char] + s[1..]
  }

  function DropLast(s: string, n: nat): string { if |s| < n then "" else s[..|s| - n] }

  predicate SibilantEs(lower: string) {
    EndsWith(lower, "sses") || EndsWith(lower, "shes") || EndsWith(lower, "ches")
    || EndsWith(lower, "xes") || EndsWith(lower, "zes")
  }

  predicate SingleS(lower: string) { EndsWith(lower, "s") && !EndsWith(lower, "ss") }

  /** Third-person singular to second person. */
  function Conjugate(a: Alphabet, verb: string): string {
    if verb == "" then verb
    else
      var lower := Lower(a, verb);
      if Irregular(lower).Some? then
        if a.isUpper(verb[0]) then Capital(Irregular(lower).value) else Irregular(lower).value
      else if EndsWith(lower, "ies") && |lower| > 3 then DropLast(verb, 3) + "y"
      else if SibilantEs(lower) then DropLast(verb, 2)
      else if SingleS(lower) then DropLast(verb, 1)
      else verb
  }

  predicate LooksLikeVerb(a: Alphabet, word: string) {
    word != "" && (Irregular(Lower(a, word)).Some? || SingleS(Lower(a, word)))
  }

  predicate IsPronoun(a: Alphabet, word: string) {
    word != "" && Lower(a, word) in {"he", "him", "his", "she", "her", "they", "them", "their", "i", "me", "we", "us",
                                     "you", "it", "its", "hers", "ours", "yours", "theirs", "mine"}
  }

  predicate IsSkippableAdverb(a: Alphabet, word: string) {
    word != "" && (Lower(a, word) == "then" || (EndsWith(Lower(a, word), "ly") && |Lower(a, word)| > 2))
  }

  /** The conjugation is conservative: a word it changes is one the verb test accepts. */
  lemma ChangedWordsLookLikeVerbs(a: Alphabet, word: string)
    requires Conjugate(a, word) != word
    ensures LooksLikeVerb(a, word)
  {
    var lower := Lower(a, word);
    EsIsSingleS(lower);
  }

  lemma EsIsSingleS(s: string)
    ensures EndsWith(s, "ies") || SibilantEs(s) ==> SingleS(s)
  {
    if EndsWith(s, "ies") || SibilantEs(s) {
      assert s[|s| - 1] == 's' && s[|s| - 2] == 'e';
    }
    assert EndsWith(s, "ss") ==> s[|s| - 2] == 's';
    assert EndsWith(s, "s") <==> s != "" && s[|s| - 1] == 's';
  }

  /** Conjugating a word yields a word. */
  lemma ConjugateIsWord(a: Alphabet, word: string)
    requires Lawful(a) && AllWord(a, word)
    ensures AllWord(a, Conjugate(a, word))
  {}

  lemma IrregularTable()
    ensures Irregular("has") == Some("have") && Irregular("is") == Some("are") && Irregular("was") == Some("were")
    ensures Irregular("does") == Some("do") && Irregular("goes") == Some("go") && Irregular("doesn") == Some("don")
    ensures Irregular("wasn") == Some("weren") && Irregular("isn") == Some("aren") && Irregular("hasn") == Some("haven")
  {}

  /** An irregular form becomes its second person, keeping a capital. */
  lemma IrregularForms(a: Alphabet, w: string)
    requires w != "" && Irregular(Lower(a, w)).Some?
    ensures var r, form := Conjugate(a, w), Irregular(Lower(a, w)).value;
            if a.isUpper(w[0]) then r != "" && r[0] as int == form[0] as int - 32 && r[1..] == form[1..] else r == form
  {
    hide Irregular;
  }

  /** What passes for a verb: an irregular form, or a word in a single -s. */
  lemma LooksLikeVerbIff(a: Alphabet, w: string)
    ensures var l := Lower(a, w);
            LooksLikeVerb(a, w) <==>
              && w != ""
              && (|| l in ["has", "is", "was", "does", "goes", "doesn", "wasn", "isn", "hasn"]
                  || (l != "" && l[|l| - 1] == 's' && !(|l| > 1 && l[|l| - 2] == 's')))
  {
    var l := Lower(a, w);
    SingleSIs(l);
    hide SingleS, Lower;
  }

  lemma SingleSIs(l: string)
    ensures SingleS(l) <==> l != "" && l[|l| - 1] == 's' && !(|l| > 1 && l[|l| - 2] == 's')
  {
    assert EndsWith(l, "s") <==> l != "" && l[|l| - 1] == 's';
    assert EndsWith(l, "ss") <==> |l| > 1 && l[|l| - 1] == 's' && l[|l| - 2] == 's';
  }

  /** What is never conjugated, and what may stand between a lead-in and its verb. */
  lemma PronounsAndAdverbs(a: Alphabet, w: string)
    ensures var l := Lower(a, w);
            && (IsPronoun(a, w) <==>
                w != "" && l in ["he", "him", "his", "she", "her", "hers", "they", "them", "their", "theirs", "it", "its",
                                 "you", "yours", "we", "us", "ours", "i", "me", "mine"])
            && (IsSkippableAdverb(a, w) <==>
                w != "" && (l == "then" || (|l| > 2 && l[|l| - 2] == 'l' && l[|l| - 1] == 'y')))
  {
    var l := Lower(a, w);
    assert EndsWith(l, "ly") <==> |l| > 1 && l[|l| - 2] == 'l' && l[|l| - 1] == 'y';
  }

  // ---- undoing regular inflection --------------------------------------

  /** The ways English spells a regular third person: "runs", "echoes", "carries", "quizzes". Which of them a verb
      takes is usage, so the results below are about all four. */
  datatype Spelling = PlainS | PlainEs | YToIes | Doubled

  function Inflect(base: string, how: Spelling): string
    requires base != ""
  {
    match how
    case PlainS => base + "s"
    case PlainEs => base + "es"
    case YToIes => base[..|base| - 1] + "ies"
    case Doubled => base + [base[|base| - 1]] + "es"
  }

  /** Where the suffix rules read a spelling back correctly. -s: not on a base in -s, in -ie ("tie"), in -sse, -she,
      -che, -xe or -ze ("ache", "gaze"), nor where an irregular form is spelt alike. -es: only on a base in -ss, -sh,
      -ch, -x or -z, and on "do" and "go" ("focuses" and "echoes" fail). Doubled: never. */
  predicate Recoverable(base: string, how: Spelling)
    requires base != ""
  {
    match how
    case PlainS =>
      && !EndsWith(base, "s") && !(EndsWith(base, "ie") && |base| > 2)
      && !(EndsWith(base, "sse") || EndsWith(base, "she") || EndsWith(base, "che")
           || EndsWith(base, "xe") || EndsWith(base, "ze"))
      && Irregular(base + "s").None?
    case PlainEs =>
      base == "do" || base == "go" || EndsWith(base, "ss") || EndsWith(base, "sh") || EndsWith(base, "ch")
      || EndsWith(base, "x") || EndsWith(base, "z")
    case YToIes => |base| > 1
    case Doubled => false
  }

  /** One more letter on both sides of a suffix test. */
  lemma Grow(s: string, t: string, c: char, suffix: string)
    requires suffix == t + [c]
    ensures EndsWith(s + [c], suffix) <==> EndsWith(s, t)
  {
    var w := s + [c];
    if |t| <= |s| {
      assert w[|w| - |suffix|..] == s[|s| - |t|..] + [c];
      assert (s[|s| - |t|..] + [c])[..|t|] == s[|s| - |t|..];
      assert (t + [c])[..|t|] == t;
    }
  }

  lemma GrowS(s: string)
    ensures EndsWith(s + "s", "sses") <==> EndsWith(s, "sse")
    ensures EndsWith(s + "s", "shes") <==> EndsWith(s, "she")
    ensures EndsWith(s + "s", "ches") <==> EndsWith(s, "che")
    ensures EndsWith(s + "s", "xes") <==> EndsWith(s, "xe")
    ensures EndsWith(s + "s", "zes") <==> EndsWith(s, "ze")
    ensures EndsWith(s + "s", "ies") <==> EndsWith(s, "ie")
    ensures EndsWith(s + "s", "ss") <==> EndsWith(s, "s")
    ensures EndsWith(s + "s", "es") <==> EndsWith(s, "e")
    ensures EndsWith(s + "s", "s")
  {
    hide EndsWith;
    Grow(s, "sse", 's', "sses");
    Grow(s, "she", 's', "shes");
    Grow(s, "che", 's', "ches");
    Grow(s, "xe", 's', "xes");
    Grow(s, "ze", 's', "zes");
    Grow(s, "ie", 's', "ies");
    Grow(s, "s", 's', "ss");
    Grow(s, "e", 's', "es");
    Grow(s, "", 's', "s");
    EndsWithNothing(s);
  }

  lemma GrowE(s: string)
    ensures EndsWith(s + "e", "sse") <==> EndsWith(s, "ss")
    ensures EndsWith(s + "e", "she") <==> EndsWith(s, "sh")
    ensures EndsWith(s + "e", "che") <==> EndsWith(s, "ch")
    ensures EndsWith(s + "e", "xe") <==> EndsWith(s, "x")
    ensures EndsWith(s + "e", "ze") <==> EndsWith(s, "z")
    ensures EndsWith(s + "e", "ie") <==> EndsWith(s, "i")
    ensures EndsWith(s + "e", "e")
  {
    hide EndsWith;
    Grow(s, "ss", 'e', "sse");
    Grow(s, "sh", 'e', "she");
    Grow(s, "ch", 'e', "che");
    Grow(s, "x", 'e', "xe");
    Grow(s, "z", 'e', "ze");
    Grow(s, "i", 'e', "ie");
    Grow(s, "", 'e', "e");
    EndsWithNothing(s);
  }

  lemma EndsWithNothing(s: string)
    ensures EndsWith(s, "")
  {}

  lemma EndsWithChar(s: string, c: char)
    requires s != ""
    ensures EndsWith(s, [c]) <==> s[|s| - 1] == c
  {}

  /** Conjugation undoes each regular spelling exactly on the recoverable bases. */
  lemma ConjugateInvertsInflectionIff(a: Alphabet, base: string, how: Spelling)
    requires Lawful(a) && base != "" && (how == YToIes ==> base[|base| - 1] == 'y')
    requires Lower(a, Inflect(base, how)) == Inflect(base, how)
    ensures Conjugate(a, Inflect(base, how)) == base <==> Recoverable(base, how)
  {
    hide Conjugate, Recoverable;
    match how
    case PlainS => UndoS(a, base);
    case PlainEs => UndoEs(a, base);
    case YToIes => UndoIes(a, base);
    case Doubled => UndoDoubled(a, base);
  }

  lemma UndoS(a: Alphabet, base: string)
    requires base != "" && Lower(a, base + "s") == base + "s"
    ensures Conjugate(a, base + "s") == base <==> Recoverable(base, PlainS)
  {
    hide EndsWith, Irregular;
    var w := base + "s";
    GrowS(base);
    EndsWithChar(base, 's');
    assert DropLast(w, 1) == base;
  }

  lemma EsSuffixes(base: string)
    requires base != ""
    ensures var w := base + "es";
            && (SibilantEs(w) <==> EndsWith(base, "ss") || EndsWith(base, "sh") || EndsWith(base, "ch")
                                   || EndsWith(base, "x") || EndsWith(base, "z"))
            && (EndsWith(w, "ies") <==> EndsWith(base, "i")) && SingleS(w)
  {
    hide EndsWith;
    var u := base + "e";
    assert base + "es" == u + "s";
    GrowS(u);
    GrowE(base);
    EndsWithChar(u, 's');
  }

  lemma IrregularEs(base: string)
    ensures Irregular(base + "es") == if base == "do" || base == "go" then Some(base) else None
  {
    var w := base + "es";
    assert Irregular(w).Some? ==> |w| == 4;
    assert w[..|base|] == base;
  }

  lemma DropsEs(base: string)
    requires base != ""
    ensures var w := base + "es";
            DropLast(w, 3) == base[..|base| - 1] && DropLast(w, 2) == base && DropLast(w, 1) == base + "e" && w[0] == base[0]
  {}

  lemma DoAndGoAreLower(a: Alphabet, base: string)
    requires Lawful(a) && base != ""
    ensures base == "do" || base == "go" ==> !a.isUpper(base[0])
  {}

  /** What becomes of any word in -es. */
  lemma ConjugateEs(a: Alphabet, base: string)
    requires Lawful(a) && base != "" && Lower(a, base + "es") == base + "es"
    ensures var r := Conjugate(a, base + "es");
            if base == "do" || base == "go" then r == base
            else if EndsWith(base, "i") && |base| > 1 then r == base[..|base| - 1] + "y"
            else if EndsWith(base, "ss") || EndsWith(base, "sh") || EndsWith(base, "ch")
                    || EndsWith(base, "x") || EndsWith(base, "z") then r == base
            else r == base + "e"
  {
    DoAndGoAreLower(a, base);
    hide EndsWith, Irregular, SibilantEs, SingleS, DropLast, Lower, Lawful, Capital;
    IrregularEs(base);
    EsSuffixes(base);
    DropsEs(base);
  }

  lemma UndoEs(a: Alphabet, base: string)
    requires Lawful(a) && base != "" && Lower(a, base + "es") == base + "es"
    ensures Conjugate(a, base + "es") == base <==> Recoverable(base, PlainEs)
  {
    ConjugateEs(a, base);
    hide EndsWith, Conjugate;
    EndsWithChar(base, 'i');
    var r := Conjugate(a, base + "es");
    assert |base + "e"| != |base|;
  }

  lemma UndoIes(a: Alphabet, base: string)
    requires Lawful(a) && base != "" && base[|base| - 1] == 'y'
    requires Lower(a, Inflect(base, YToIes)) == Inflect(base, YToIes)
    ensures Conjugate(a, Inflect(base, YToIes)) == base <==> Recoverable(base, YToIes)
  {
    var stem := base[..|base| - 1];
    var b := stem + "i";
    assert base == stem + "y" && Inflect(base, YToIes) == b + "es";
    ConjugateEs(a, b);
    hide EndsWith, Conjugate;
    EndsWithChar(b, 'i');
    assert b[..|b| - 1] == stem && b[|b| - 1] == 'i';
  }

  lemma UndoDoubled(a: Alphabet, base: string)
    requires Lawful(a) && base != "" && Lower(a, Inflect(base, Doubled)) == Inflect(base, Doubled)
    ensures Conjugate(a, Inflect(base, Doubled)) != base && !Recoverable(base, Doubled)
  {
    var b := base + [base[|base| - 1]];
    ConjugateEs(a, b);
    hide EndsWith, Conjugate;
    assert |b| > |base|;
  }

  /** The bug the condition shuts out, on two of its words: "gazes" comes back as "gaz", "echoes" as "echoe". */
  lemma GazesIsMisread(a: Alphabet)
    requires Lawful(a) && Lower(a, "gazes") == "gazes" && Lower(a, "echoes") == "echoes"
    ensures Inflect("gaze", PlainS) == "gazes" && Conjugate(a, "gazes") == "gaz"
    ensures Inflect("echo", PlainEs) == "echoes" && Conjugate(a, "echoes") == "echoe"
  {
    assert "gaz" + "es" == "gazes" && "echo" + "es" == "echoes";
    ConjugateEs(a, "gaz");
    ConjugateEs(a, "echo");
    hide Conjugate;
  }
}
