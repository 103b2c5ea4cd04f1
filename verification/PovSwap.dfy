/** The whole second-person rewriter (sidequest/agents/pov_swap.py:316-379 and 855-1007): text is cut
    into dialogue and prose, prose into sentences, sentences into clauses at semicolons; each clause is
    rewritten on its own and everything is joined again. */
module PovSwap {
  import opened Options
  import opened Text
  import opened PovPasses
  import opened PovSkeleton
  import opened PovClause

  // ---- the specification: a flat list of pieces ------------------------

  /** A quoted span with its quotes; a clause, marked when it opens its sentence; a semicolon. */
  datatype Piece = Spoken(text: string) | Clause(text: string, first: bool) | Semicolon

  function TextOf(p: Piece): string { if p.Semicolon? then ";" else p.text }

  function Flat(ps: seq<Piece>): string { if ps == [] then "" else TextOf(ps[0]) + Flat(ps[1..]) }

  function Clauses(s: string, first: bool): seq<Piece>
    decreases |s|
  {
    var k := IndexOf(s, ';', 0);
    if k == |s| then [Clause(s, first)] else [Clause(s[..k], first), Semicolon] + Clauses(s[k + 1..], false)
  }

  /** The end of the sentence under way at j: past the whitespace that follows a terminator. */
  function SentenceEnd(a: Alphabet, s: string, j: nat): (e: nat)
    requires 0 < j <= |s|
    ensures j <= e <= |s|
    decreases |s| - j
  {
    if j == |s| then j
    else if s[j - 1] in ".!?" && a.isSpace(s[j]) then SkipSpaces(a, s, j)
    else SentenceEnd(a, s, j + 1)
  }

  function ProsePieces(a: Alphabet, s: string): seq<Piece>
    decreases |s|
  {
    if s == "" then []
    else
      var e := SentenceEnd(a, s, 1);
      Clauses(s[..e], true) + ProsePieces(a, s[e..])
  }

  /** The end of the first quoted span, or None when fewer than two quotes remain. */
  function SpanEnd(t: string): (e: Option<nat>)
    ensures e.Some? ==> var q := IndexOf(t, '"', 0);
                        q + 2 <= e.value <= |t| && t[e.value - 1] == '"' && IndexOf(t, '"', q + 1) == e.value - 1
    ensures e.None? ==> IndexOf(t, '"', 0) == |t| || IndexOf(t, '"', IndexOf(t, '"', 0) + 1) == |t|
  {
    var q := IndexOf(t, '"', 0);
    if q == |t| then None
    else
      var r := IndexOf(t, '"', q + 1);
      if r == |t| then None else Some(r + 1)
  }

  function Pieces(a: Alphabet, t: string): seq<Piece>
    decreases |t|
  {
    match SpanEnd(t)
    case None => ProsePieces(a, t)
    case Some(e) =>
      var q := IndexOf(t, '"', 0);
      ProsePieces(a, t[..q]) + [Spoken(t[q..e])] + Pieces(a, t[e..])
  }

  /** What one piece becomes, and the substitutions it counts. */
  function Image(c: Ctx, p: Piece): Rewrite
    requires c.name != ""
  {
    match p
    case Spoken(text) => Rewrite(text, 0, SHUT)
    case Semicolon => Rewrite(";", 0, SHUT)
    case Clause(text, first) => RewriteOf(c.(first := first), text)
  }

  datatype Swapped = Swapped(text: string, count: nat)

  function Apply(c: Ctx, ps: seq<Piece>): Swapped
    requires c.name != ""
  {
    if ps == [] then Swapped("", 0)
    else
      var r := Apply(c, ps[1..]);
      Swapped(Image(c, ps[0]).text + r.text, Image(c, ps[0]).count + r.count)
  }

  function Swap(c: Ctx, t: string): Swapped
    requires c.name != ""
  {
    Apply(c, Pieces(c.abc, t))
  }

  lemma {:induction false} ApplyAppend(c: Ctx, ps: seq<Piece>, qs: seq<Piece>)
    requires c.name != ""
    ensures Apply(c, ps + qs)
         == Swapped(Apply(c, ps).text + Apply(c, qs).text, Apply(c, ps).count + Apply(c, qs).count)
  {
    hide Image;
    if ps == [] {
      assert ps + qs == qs;
      assert "" + Apply(c, qs).text == Apply(c, qs).text;
    } else {
      assert (ps + qs)[0] == ps[0] && (ps + qs)[1..] == ps[1..] + qs;
      ApplyAppend(c, ps[1..], qs);
      assert Image(c, ps[0]).text + (Apply(c, ps[1..]).text + Apply(c, qs).text)
          == (Image(c, ps[0]).text + Apply(c, ps[1..]).text) + Apply(c, qs).text;
    }
  }

  lemma {:induction false} FlatAppend(ps: seq<Piece>, qs: seq<Piece>)
    ensures Flat(ps + qs) == Flat(ps) + Flat(qs)
  {
    if ps == [] {
      assert ps + qs == qs;
    } else {
      assert (ps + qs)[0] == ps[0] && (ps + qs)[1..] == ps[1..] + qs;
      FlatAppend(ps[1..], qs);
    }
  }

  // ---- the program: nested loops ---------------------------------------

  method RewriteSentence(c: Ctx, sentence: string) returns (out: string, total: nat)
    requires c.name != ""
    ensures Swapped(out, total) == Apply(c, Clauses(sentence, true))
  {
    hide Image, RewriteOf;
    out, total := "", 0;
    var rest, first, more := sentence, true, true;
    ghost var spec := Apply(c, Clauses(sentence, true));
    while more
      invariant more ==> out + Apply(c, Clauses(rest, first)).text == spec.text
                         && total + Apply(c, Clauses(rest, first)).count == spec.count
      invariant !more ==> Swapped(out, total) == spec
      decreases more, |rest|
    {
      var k := IndexOf(rest, ';', 0);
      var text, n := RewriteClause(c.(first := first), rest[..k]);
      ImageOfClause(c, rest[..k], first);
      if k == |rest| {
        assert rest[..k] == rest;
        ApplyOne(c, Clause(rest, first));
        out, total, more := out + text, total + n, false;
      } else {
        ApplyTwo(c, Clause(rest[..k], first), Semicolon, Clauses(rest[k + 1..], false));
        ImageOfSemicolon(c);
        assert out + (text + ";" + Apply(c, Clauses(rest[k + 1..], false)).text)
            == (out + text + ";") + Apply(c, Clauses(rest[k + 1..], false)).text;
        out, total := out + text + ";", total + n;
        rest, first := rest[k + 1..], false;
      }
    }
  }

  lemma ImageOfClause(c: Ctx, text: string, first: bool)
    requires c.name != ""
    ensures Image(c, Clause(text, first)) == RewriteOf(c.(first := first), text)
  {}

  lemma ImageOfSemicolon(c: Ctx)
    requires c.name != ""
    ensures Image(c, Semicolon) == Rewrite(";", 0, SHUT)
  {}

  lemma ApplyOne(c: Ctx, p: Piece)
    requires c.name != ""
    ensures Apply(c, [p]) == Swapped(Image(c, p).text, Image(c, p).count)
  {
    assert Image(c, p).text + "" == Image(c, p).text;
  }

  lemma ApplyTwo(c: Ctx, p: Piece, q: Piece, ps: seq<Piece>)
    requires c.name != ""
    ensures Apply(c, [p, q] + ps)
         == Swapped(Image(c, p).text + Image(c, q).text + Apply(c, ps).text,
                    Image(c, p).count + Image(c, q).count + Apply(c, ps).count)
  {
    hide Image;
    ApplyAppend(c, [p, q], ps);
    ApplyAppend(c, [p], [q]);
    assert [p] + [q] == [p, q];
    ApplyOne(c, p);
    ApplyOne(c, q);
  }

  method RewriteProse(c: Ctx, prose: string) returns (out: string, total: nat)
    requires c.name != ""
    ensures Swapped(out, total) == Apply(c, ProsePieces(c.abc, prose))
  {
    hide Image, Clauses;
    out, total := "", 0;
    var rest := prose;
    ghost var spec := Apply(c, ProsePieces(c.abc, prose));
    while rest != ""
      invariant out + Apply(c, ProsePieces(c.abc, rest)).text == spec.text
      invariant total + Apply(c, ProsePieces(c.abc, rest)).count == spec.count
      decreases |rest|
    {
      var e := SentenceEnd(c.abc, rest, 1);
      var text, n := RewriteSentence(c, rest[..e]);
      ApplyAppend(c, Clauses(rest[..e], true), ProsePieces(c.abc, rest[e..]));
      assert out + (text + Apply(c, ProsePieces(c.abc, rest[e..])).text)
          == (out + text) + Apply(c, ProsePieces(c.abc, rest[e..])).text;
      out, total, rest := out + text, total + n, rest[e..];
    }
    assert out + "" == out;
  }

  datatype Result = Ok(swapped: Swapped) | ValueError(message: string)

  function ParsePronouns(s: string): Option<Pronouns> {
    if s == "he/him" then Some(HeHim)
    else if s == "she/her" then Some(SheHer)
    else if s == "they/them" then Some(TheyThem)
    else None
  }

  /** The public entry point. It fails on an empty name or unsupported pronouns and otherwise computes
      the piecewise specification. */
  method SwapToSecondPerson(a: Alphabet, text: string, name: string, pronouns: string) returns (r: Result)
    ensures r.ValueError? <==> name == "" || ParsePronouns(pronouns).None?
    ensures r.Ok? ==> r.swapped == Swap(Ctx(a, name, ParsePronouns(pronouns).value, true), text)
  {
    hide Apply, ProsePieces, Swap, SpanEnd, IndexOf;
    if name == "" {
      return ValueError("target_name must be non-empty");
    }
    if ParsePronouns(pronouns).None? {
      return ValueError("unsupported pronouns");
    }
    var c := Ctx(a, name, ParsePronouns(pronouns).value, true);
    var out, total, rest := "", 0, text;
    while SpanEnd(rest).Some?
      invariant out + Swap(c, rest).text == Swap(c, text).text
      invariant total + Swap(c, rest).count == Swap(c, text).count
      decreases |rest|
    {
      var q, e := IndexOf(rest, '"', 0), SpanEnd(rest).value;
      var prose, n := RewriteProse(c, rest[..q]);
      SwapSpan(c, rest);
      assert out + (prose + rest[q..e] + Swap(c, rest[e..]).text) == (out + prose + rest[q..e]) + Swap(c, rest[e..]).text;
      out, total, rest := out + prose + rest[q..e], total + n, rest[e..];
    }
    var prose, n := RewriteProse(c, rest);
    SwapRest(c, rest);
    return Ok(Swapped(out + prose, total + n));
  }

  lemma SwapRest(c: Ctx, t: string)
    requires c.name != "" && SpanEnd(t).None?
    ensures Swap(c, t) == Apply(c, ProsePieces(c.abc, t))
  {}

  lemma SwapSpan(c: Ctx, t: string)
    requires c.name != "" && SpanEnd(t).Some?
    ensures var q, e := IndexOf(t, '"', 0), SpanEnd(t).value;
            var prose, rest := Apply(c, ProsePieces(c.abc, t[..q])), Swap(c, t[e..]);
            Swap(c, t) == Swapped(prose.text + t[q..e] + rest.text, prose.count + rest.count)
  {
    hide ProsePieces, Apply;
    var q, e := IndexOf(t, '"', 0), SpanEnd(t).value;
    var ps := ProsePieces(c.abc, t[..q]);
    var said := Spoken(t[q..e]);
    ApplyAppend(c, ps + [said], Pieces(c.abc, t[e..]));
    ApplyAppend(c, ps, [said]);
    ApplyOne(c, said);
  }

  // ---- tiling ----------------------------------------------------------

  lemma {:induction false} ClausesTile(s: string, first: bool)
    ensures Flat(Clauses(s, first)) == s
    decreases |s|
  {
    var k := IndexOf(s, ';', 0);
    if k == |s| {
      assert Flat([Clause(s, first)]) == s + "";
    } else {
      ClausesTile(s[k + 1..], false);
      var head := [Clause(s[..k], first), Semicolon];
      FlatAppend(head, Clauses(s[k + 1..], false));
      assert head[1..] == [Semicolon] && [Semicolon][1..] == [];
      assert Flat([Semicolon]) == ";" + "";
      assert Flat(head) == s[..k] + ";";
      assert s == s[..k] + ";" + s[k + 1..];
    }
  }

  lemma {:induction false} ProseTiles(a: Alphabet, s: string)
    ensures Flat(ProsePieces(a, s)) == s
    decreases |s|
  {
    if s != "" {
      var e := SentenceEnd(a, s, 1);
      ClausesTile(s[..e], true);
      ProseTiles(a, s[e..]);
      FlatAppend(Clauses(s[..e], true), ProsePieces(a, s[e..]));
    }
  }

  /** The dialogue, sentence and clause cuts together lose nothing: the pieces concatenate to the text. */
  lemma {:induction false} PiecesTile(a: Alphabet, t: string)
    ensures Flat(Pieces(a, t)) == t
    decreases |t|
  {
    hide Flat, ProsePieces;
    match SpanEnd(t)
    case None => ProseTiles(a, t);
    case Some(e) =>
      var q := IndexOf(t, '"', 0);
      var ps, said := ProsePieces(a, t[..q]), Spoken(t[q..e]);
      ProseTiles(a, t[..q]);
      PiecesTile(a, t[e..]);
      FlatAppend(ps + [said], Pieces(a, t[e..]));
      FlatAppend(ps, [said]);
      FlatOne(said);
      assert t == t[..q] + t[q..e] + t[e..];
  }

  lemma FlatOne(p: Piece)
    ensures Flat([p]) == TextOf(p)
  {
    assert TextOf(p) + "" == TextOf(p);
  }

  // ---- locality --------------------------------------------------------

  ghost predicate Untouched(c: Ctx, p: Piece)
    requires c.name != ""
  {
    Image(c, p) == Rewrite(TextOf(p), 0, SHUT)
  }

  /** Spoken pieces, semicolons, and clauses without the name come out as they went in and count nothing,
      whatever the other pieces of the text do: the output is the concatenation of the pieces' images. */
  lemma ClauseLocality(c: Ctx, t: string, i: nat)
    requires c.name != "" && i < |Pieces(c.abc, t)|
    requires var p := Pieces(c.abc, t)[i]; p.Clause? ==> !Contains(p.text, c.name)
    ensures Untouched(c, Pieces(c.abc, t)[i])
    ensures var ps := Pieces(c.abc, t);
            && Flat(ps) == t
            && Swap(c, t).text == Apply(c, ps[..i]).text + TextOf(ps[i]) + Apply(c, ps[i + 1..]).text
            && Swap(c, t).count == Apply(c, ps[..i]).count + Apply(c, ps[i + 1..]).count
  {
    hide Apply, Pieces, RewriteOf;
    var ps := Pieces(c.abc, t);
    PiecesTile(c.abc, t);
    if ps[i].Clause? {
      ClauseWithoutName(c.(first := ps[i].first), ps[i].text);
    }
    assert ps == ps[..i] + [ps[i]] + ps[i + 1..];
    ApplyAppend(c, ps[..i] + [ps[i]], ps[i + 1..]);
    ApplyAppend(c, ps[..i], [ps[i]]);
    ApplyOne(c, ps[i]);
  }

  lemma {:induction false} ApplyUntouched(c: Ctx, ps: seq<Piece>)
    requires c.name != "" && forall k | 0 <= k < |ps| :: Untouched(c, ps[k])
    ensures Apply(c, ps) == Swapped(Flat(ps), 0)
  {
    hide Image;
    if ps != [] {
      ApplyUntouched(c, ps[1..]);
    }
  }

  /** A text none of whose clauses holds the name is a fixed point with count zero. */
  lemma FixedPoint(c: Ctx, t: string)
    requires c.name != ""
    requires forall i | 0 <= i < |Pieces(c.abc, t)| ::
               Pieces(c.abc, t)[i].Clause? ==> !Contains(Pieces(c.abc, t)[i].text, c.name)
    ensures Swap(c, t) == Swapped(t, 0)
  {
    hide Apply, Pieces;
    var ps := Pieces(c.abc, t);
    PiecesTile(c.abc, t);
    forall k | 0 <= k < |ps|
      ensures Untouched(c, ps[k])
    {
      ClauseLocality(c, t, k);
    }
    ApplyUntouched(c, ps);
  }

  // ---- honesty ---------------------------------------------------------

  lemma {:induction false} ApplyHonest(c: Ctx, ps: seq<Piece>)
    requires c.name != ""
    ensures Apply(c, ps).count == 0 ==> Apply(c, ps).text == Flat(ps)
  {
    hide RewriteOf;
    if ps != [] {
      ApplyHonest(c, ps[1..]);
      if ps[0].Clause? {
        ClauseHonest(c.(first := ps[0].first), ps[0].text);
      }
    }
  }

  /** A swap count of zero means the text is returned unchanged. */
  lemma HonestCount(c: Ctx, t: string)
    requires c.name != ""
    ensures Swap(c, t).count == 0 ==> Swap(c, t).text == t
  {
    hide Apply, Pieces, Flat;
    ApplyHonest(c, Pieces(c.abc, t));
    PiecesTile(c.abc, t);
  }

  // ---- the skeleton and dialogue ---------------------------------------

  lemma {:induction false} ApplyKeepsSkeleton(c: Ctx, ps: seq<Piece>)
    requires Lawful(c.abc) && c.name != ""
    ensures Skeleton(c, Apply(c, ps).text) == Skeleton(c, Flat(ps))
  {
    hide Skeleton, RewriteOf;
    if ps != [] {
      ApplyKeepsSkeleton(c, ps[1..]);
      SkeletonAppend(c, TextOf(ps[0]), Flat(ps[1..]));
      SkeletonAppend(c, Image(c, ps[0]).text, Apply(c, ps[1..]).text);
      if ps[0].Clause? {
        var d := c.(first := ps[0].first);
        ClauseKeepsSkeleton(d, ps[0].text);
        SkeletonIgnoresPlace(c, d, ps[0].text);
        SkeletonIgnoresPlace(c, d, Image(c, ps[0]).text);
      }
    }
  }

  lemma {:induction false} SkeletonIgnoresPlace(c: Ctx, d: Ctx, s: string)
    requires c.abc == d.abc && c.name == d.name
    ensures Skeleton(c, s) == Skeleton(d, s)
  {
    if s != "" {
      SkeletonIgnoresPlace(c, d, s[1..]);
    }
  }

  /** Rewriting keeps every guarded character of the text, in order. */
  lemma SwapKeepsSkeleton(c: Ctx, t: string)
    requires Lawful(c.abc) && c.name != ""
    ensures Skeleton(c, Swap(c, t).text) == Skeleton(c, t)
  {
    hide Apply, Pieces, Skeleton;
    PiecesTile(c.abc, t);
    ApplyKeepsSkeleton(c, Pieces(c.abc, t));
  }

  /** The contents of the quoted spans, trimmed, empty ones dropped. */
  function SpokenLines(a: Alphabet, t: string): seq<string>
    decreases |t|
  {
    match SpanEnd(t)
    case None => []
    case Some(e) =>
      Line(a, t[IndexOf(t, '"', 0)..e]) + SpokenLines(a, t[e..])
  }

  function Line(a: Alphabet, span: string): seq<string>
    requires |span| >= 2
  {
    var line := Trim(a, span[1..|span| - 1]);
    if line != "" then [line] else []
  }

  method ExtractSpokenLines(a: Alphabet, text: string) returns (lines: seq<string>)
    ensures lines == SpokenLines(a, text)
  {
    hide Line, IndexOf, SpanEnd;
    lines := [];
    var rest := text;
    while SpanEnd(rest).Some?
      invariant lines + SpokenLines(a, rest) == SpokenLines(a, text)
      decreases |rest|
    {
      var q, e := IndexOf(rest, '"', 0), SpanEnd(rest).value;
      ghost var said, later := Line(a, rest[q..e]), SpokenLines(a, rest[e..]);
      assert SpokenLines(a, rest) == said + later;
      assert lines + (said + later) == (lines + said) + later;
      lines := lines + Line(a, rest[q..e]);
      rest := rest[e..];
    }
    assert lines + [] == lines;
  }

  function Quotes(s: string): nat { if s == "" then 0 else (if s[0] == '"' then 1 else 0) + Quotes(s[1..]) }

  lemma {:induction false} QuotesOfSkeleton(c: Ctx, s: string)
    requires Guarded(c, '"')
    ensures Quotes(Skeleton(c, s)) == Quotes(s)
  {
    if s != "" {
      QuotesOfSkeleton(c, s[1..]);
      if Guarded(c, s[0]) {
        assert Skeleton(c, s)[1..] == Skeleton(c, s[1..]);
      } else {
        assert Skeleton(c, s) == Skeleton(c, s[1..]);
      }
    }
  }

  lemma {:induction false} QuotesAppend(x: string, y: string)
    ensures Quotes(x + y) == Quotes(x) + Quotes(y)
  {
    if x == "" {
      assert x + y == y;
    } else {
      assert (x + y)[1..] == x[1..] + y;
      QuotesAppend(x[1..], y);
    }
  }

  lemma {:induction false} NoQuotes(s: string)
    ensures Quotes(s) == 0 <==> forall k | 0 <= k < |s| :: s[k] != '"'
  {
    if s != "" {
      NoQuotes(s[1..]);
      assert forall k | 1 <= k < |s| :: s[k] == s[1..][k - 1];
    }
  }

  /** Rewritten prose holds exactly as many quotes as it did. */
  lemma ProseKeepsQuotes(c: Ctx, s: string)
    requires Lawful(c.abc) && c.name != "" && '"' !in c.name
    ensures Quotes(Apply(c, ProsePieces(c.abc, s)).text) == Quotes(s)
  {
    hide Apply, ProsePieces, Skeleton, Flat;
    var u := Apply(c, ProsePieces(c.abc, s)).text;
    ProseTiles(c.abc, s);
    ApplyKeepsSkeleton(c, ProsePieces(c.abc, s));
    QuotesOfSkeleton(c, s);
    QuotesOfSkeleton(c, u);
  }

  lemma SpanHasTwo(t: string)
    requires SpanEnd(t).Some?
    ensures Quotes(t) >= 2
  {
    var q, e := IndexOf(t, '"', 0), SpanEnd(t).value;
    assert t == t[..q] + [t[q]] + t[q + 1..e - 1] + [t[e - 1]] + t[e..];
    QuotesAppend(t[..q] + [t[q]] + t[q + 1..e - 1] + [t[e - 1]], t[e..]);
    QuotesAppend(t[..q] + [t[q]] + t[q + 1..e - 1], [t[e - 1]]);
    QuotesAppend(t[..q] + [t[q]], t[q + 1..e - 1]);
    QuotesAppend(t[..q], [t[q]]);
  }

  /** With fewer than two quotes there is no span. */
  lemma NoSpan(t: string)
    requires Quotes(t) <= 1
    ensures SpanEnd(t).None?
  {
    if SpanEnd(t).Some? {
      SpanHasTwo(t);
    }
  }

  lemma FewQuotes(t: string)
    requires SpanEnd(t).None?
    ensures Quotes(t) <= 1
  {
    var q := IndexOf(t, '"', 0);
    if q == |t| {
      NoQuotes(t);
    } else {
      NoQuotes(t[..q]);
      NoQuotes(t[q + 1..]);
      assert t == t[..q] + [t[q]] + t[q + 1..];
      QuotesAppend(t[..q] + [t[q]], t[q + 1..]);
      QuotesAppend(t[..q], [t[q]]);
    }
  }

  /** The first quote of s is at q when nothing before q is one. */
  lemma {:induction false} FirstQuote(s: string, i: nat, q: nat)
    requires i <= q <= |s| && (forall k | i <= k < q :: s[k] != '"') && (q < |s| ==> s[q] == '"')
    ensures IndexOf(s, '"', i) == q
  {}

  lemma SpanAt(t: string, q: nat, e: nat)
    requires q + 2 <= e <= |t| && t[q] == '"' && t[e - 1] == '"'
    requires forall k | 0 <= k < q || q < k < e - 1 :: t[k] != '"'
    ensures IndexOf(t, '"', 0) == q && SpanEnd(t) == Some(e)
  {
    FirstQuote(t, 0, q);
    FirstQuote(t, q + 1, e - 1);
  }

  ghost predicate Quoted(d: string) {
    |d| >= 2 && d[0] == '"' && d[|d| - 1] == '"' && forall k | 0 < k < |d| - 1 :: d[k] != '"'
  }

  lemma FirstSpanIsQuoted(t: string)
    requires SpanEnd(t).Some?
    ensures Quoted(t[IndexOf(t, '"', 0)..SpanEnd(t).value]) && Quotes(t[..IndexOf(t, '"', 0)]) == 0
  {
    hide IndexOf, SpanEnd;
    var q, e := IndexOf(t, '"', 0), SpanEnd(t).value;
    NoQuotes(t[..q]);
    var d := t[q..e];
    assert forall k | 0 <= k < |d| :: d[k] == t[q + k];
  }

  /** After quote-free prose, the first span is the one that follows. */
  lemma SpanAfterProse(x: string, d: string, y: string)
    requires Quotes(x) == 0 && Quoted(d)
    ensures IndexOf(x + d + y, '"', 0) == |x| && SpanEnd(x + d + y) == Some(|x| + |d|)
  {
    hide IndexOf, SpanEnd;
    var u := x + d + y;
    NoQuotes(x);
    assert forall k | 0 <= k < |x| :: u[k] == x[k];
    assert forall k | |x| <= k < |x| + |d| :: u[k] == d[k - |x|];
    SpanAt(u, |x|, |x| + |d|);
  }

  lemma LinesAfterProse(a: Alphabet, x: string, d: string, y: string)
    requires Quotes(x) == 0 && Quoted(d)
    ensures SpokenLines(a, x + d + y) == Line(a, d) + SpokenLines(a, y)
  {
    hide IndexOf, SpanEnd, Line, Quotes;
    SpanAfterProse(x, d, y);
    var u := x + d + y;
    assert u[|x|..|x| + |d|] == d && u[|x| + |d|..] == y;
  }

  /** Dialogue invariance: the spoken lines of the rewritten text are those of the original, for every
      text (unmatched quotes included) and every name that holds no double quote. */
  lemma {:induction false} DialogueInvariance(c: Ctx, t: string)
    requires Lawful(c.abc) && c.name != "" && '"' !in c.name
    ensures SpokenLines(c.abc, Swap(c, t).text) == SpokenLines(c.abc, t)
    decreases |t|
  {
    hide Apply, ProsePieces, Quotes, Line, IndexOf, SpanEnd, SpokenLines, Quoted;
    match SpanEnd(t)
    case None =>
      FewQuotes(t);
      ProseKeepsQuotes(c, t);
      NoLines(c.abc, t);
      NoLines(c.abc, Swap(c, t).text);
    case Some(e) =>
      var q := IndexOf(t, '"', 0);
      var x, d, y := Apply(c, ProsePieces(c.abc, t[..q])).text, t[q..e], Swap(c, t[e..]).text;
      SwapSpan(c, t);
      FirstSpanIsQuoted(t);
      ProseKeepsQuotes(c, t[..q]);
      LinesAfterProse(c.abc, x, d, y);
      LinesAfterProse(c.abc, t[..q], d, t[e..]);
      assert t == t[..q] + d + t[e..];
      DialogueInvariance(c, t[e..]);
  }

  lemma NoLines(a: Alphabet, t: string)
    requires Quotes(t) <= 1
    ensures SpokenLines(a, t) == []
  {
    NoSpan(t);
  }

  // ---- where the cuts fall ---------------------------------------------

  /** A terminator stands before i and whitespace at i. */
  ghost predicate Stop(a: Alphabet, s: string, i: int) {
    0 < i < |s| && (s[i - 1] == '.' || s[i - 1] == '!' || s[i - 1] == '?') && a.isSpace(s[i])
  }

  /** The first stop from j on is at i, and its whitespace ends at e. */
  ghost predicate StopsAt(a: Alphabet, s: string, j: nat, i: nat, e: nat) {
    && j <= i < e <= |s| && Stop(a, s, i) && (forall k | j <= k < i :: !Stop(a, s, k))
    && (forall k | i <= k < e :: a.isSpace(s[k])) && (e == |s| || !a.isSpace(s[e]))
  }

  ghost predicate NoStop(a: Alphabet, s: string, j: nat) { forall i | j <= i :: !Stop(a, s, i) }

  ghost predicate EndsSentence(a: Alphabet, s: string, j: nat, e: nat) {
    (e == |s| && NoStop(a, s, j)) || exists i: nat :: StopsAt(a, s, j, i, e)
  }

  /** A sentence ends past the whitespace at its first stop, or else at the end of the prose. */
  lemma {:induction false} SentenceEndIs(a: Alphabet, s: string, j: nat)
    requires 0 < j <= |s|
    ensures EndsSentence(a, s, j, SentenceEnd(a, s, j))
    decreases |s| - j
  {
    hide SkipSpaces;
    var e := SentenceEnd(a, s, j);
    if j < |s| {
      if s[j - 1] in ".!?" && a.isSpace(s[j]) {
        SpacesWithin(a, s, j, e);
        FirstSpace(a, s, j);
        assert StopsAt(a, s, j, j, e);
      } else {
        var next := j + 1;
        SentenceEndIs(a, s, next);
        assert !Stop(a, s, j);
        if i: nat :| StopsAt(a, s, next, i, e) {
          assert StopsAt(a, s, j, i, e);
        }
      }
    }
  }

  lemma FirstSpace(a: Alphabet, s: string, j: nat)
    requires j < |s| && a.isSpace(s[j])
    ensures j < SkipSpaces(a, s, j)
  {}

  /** A clause is marked as opening its sentence exactly if no semicolon stands before it. */
  ghost predicate Flagged(ps: seq<Piece>) { forall k | 0 <= k < |ps| :: FlaggedAt(ps, k) }

  ghost predicate FlaggedAt(ps: seq<Piece>, k: nat)
    requires k < |ps|
  {
    ps[k].Clause? ==> (ps[k].first <==> k == 0 || ps[k - 1] != Semicolon)
  }

  /** No clause holds a semicolon; a spoken piece runs from one quote to the next. */
  ghost predicate Cut(ps: seq<Piece>) {
    forall k | 0 <= k < |ps| ::
      && (ps[k].Clause? ==> ';' !in ps[k].text)
      && (ps[k].Spoken? ==> var s := ps[k].text;
                            |s| >= 2 && s[0] == '"' && s[|s| - 1] == '"' && '"' !in s[1..|s| - 1])
  }

  /** Every clause but the first follows a semicolon and is not marked. */
  ghost predicate Continues(ps: seq<Piece>) {
    forall k | 0 < k < |ps| && ps[k].Clause? :: !ps[k].first && ps[k - 1] == Semicolon
  }

  lemma {:induction false} ClausesAreCut(s: string, first: bool)
    ensures var ps := Clauses(s, first);
            ps != [] && ps[0].Clause? && ps[0].first == first && ps[|ps| - 1].Clause? && Cut(ps) && Continues(ps)
    decreases |s|
  {
    hide Cut, Continues;
    var k := IndexOf(s, ';', 0);
    if k == |s| {
      ClauseIsCut(s, first);
    } else {
      ClausesAreCut(s[k + 1..], false);
      ClauseIsCut(s[..k], first);
      ClausesGrow(s[..k], first, Clauses(s[k + 1..], false));
    }
  }

  lemma ClauseIsCut(x: string, first: bool)
    requires ';' !in x
    ensures Cut([Clause(x, first)]) && Continues([Clause(x, first)])
  {}

  lemma ClausesGrow(x: string, first: bool, rest: seq<Piece>)
    requires ';' !in x && rest != [] && rest[0].Clause? && !rest[0].first && Cut(rest) && Continues(rest)
    ensures Cut([Clause(x, first), Semicolon] + rest) && Continues([Clause(x, first), Semicolon] + rest)
  {
    var ps := [Clause(x, first), Semicolon] + rest;
    forall j | 0 < j < |ps| && ps[j].Clause?
      ensures !ps[j].first && ps[j - 1] == Semicolon
    {
      if j > 2 {
        assert ps[j] == rest[j - 2] && ps[j - 1] == rest[j - 3];
      }
    }
    assert forall j | 2 <= j < |ps| :: ps[j] == rest[j - 2];
  }

  /** Appending pieces after one that is no semicolon. */
  lemma CutAppend(ps: seq<Piece>, qs: seq<Piece>)
    requires Cut(ps) && Flagged(ps) && Cut(qs) && Flagged(qs) && (ps == [] || ps[|ps| - 1] != Semicolon)
    ensures Cut(ps + qs) && Flagged(ps + qs)
    ensures qs != [] ==> (ps + qs)[|ps + qs| - 1] == qs[|qs| - 1]
  {
    var all, n := ps + qs, |ps|;
    forall k | 0 <= k < |all|
      ensures FlaggedAt(all, k)
    {
      if k < n {
        assert FlaggedAt(ps, k);
        assert all[k] == ps[k] && (k > 0 ==> all[k - 1] == ps[k - 1]);
      } else {
        assert FlaggedAt(qs, k - n);
        assert all[k] == qs[k - n] && (k > n ==> all[k - 1] == qs[k - n - 1]);
        assert k == n > 0 ==> all[k - 1] == ps[n - 1];
      }
    }
    assert forall k | 0 <= k < n :: all[k] == ps[k];
    assert forall k | n <= k < |all| :: all[k] == qs[k - n];
  }

  lemma {:induction false} ProseIsCut(a: Alphabet, s: string)
    ensures var ps := ProsePieces(a, s);
            Cut(ps) && Flagged(ps) && (ps != [] ==> ps[|ps| - 1] != Semicolon)
    decreases |s|
  {
    hide Cut, Flagged, Clauses;
    if s == "" {
      NothingCut();
    } else {
      var e := SentenceEnd(a, s, 1);
      ProseIsCut(a, s[e..]);
      SentenceFlagged(s[..e]);
      CutAppend(Clauses(s[..e], true), ProsePieces(a, s[e..]));
    }
  }

  lemma SentenceFlagged(s: string)
    ensures var ps := Clauses(s, true);
            Cut(ps) && Flagged(ps) && ps != [] && ps[|ps| - 1] != Semicolon
  {
    hide Clauses, Cut;
    ClausesAreCut(s, true);
  }

  lemma NothingCut()
    ensures Cut([]) && Flagged([])
  {}

  lemma SpanIsCut(t: string)
    requires SpanEnd(t).Some?
    ensures var s := t[IndexOf(t, '"', 0)..SpanEnd(t).value];
            Cut([Spoken(s)]) && Flagged([Spoken(s)])
  {
    hide Cut, Flagged, SpanEnd, IndexOf;
    var q, e := IndexOf(t, '"', 0), SpanEnd(t).value;
    var s := t[q..e];
    assert s[0] == t[q] && s[|s| - 1] == t[e - 1];
    assert forall k | 1 <= k < |s| - 1 :: s[k] == t[q + k];
    SpokenIsCut(s);
  }

  lemma SpokenIsCut(s: string)
    requires |s| >= 2 && s[0] == '"' && s[|s| - 1] == '"' && '"' !in s[1..|s| - 1]
    ensures Cut([Spoken(s)]) && Flagged([Spoken(s)])
  {}

  /** The pieces of any text: clauses without semicolons, marked where they open a sentence, and quoted spans. */
  lemma {:induction false} PiecesAreCut(a: Alphabet, t: string)
    ensures var ps := Pieces(a, t);
            Cut(ps) && Flagged(ps) && (ps != [] ==> ps[|ps| - 1] != Semicolon)
    decreases |t|
  {
    hide Cut, Flagged, ProsePieces, IndexOf, SpanEnd;
    match SpanEnd(t)
    case None => ProseIsCut(a, t);
    case Some(e) =>
      var q := IndexOf(t, '"', 0);
      var s := t[q..e];
      ProseIsCut(a, t[..q]);
      SpanIsCut(t);
      PiecesAreCut(a, t[e..]);
      CutAppend(ProsePieces(a, t[..q]), [Spoken(s)]);
      CutAppend(ProsePieces(a, t[..q]) + [Spoken(s)], Pieces(a, t[e..]));
  }

  /** Prose in front of a quoted span holds no quote, and text without a quoted span holds at most one. */
  lemma {:induction false} ProseHoldsNoSpeech(a: Alphabet, t: string)
    ensures SpanEnd(t).Some? ==> '"' !in t[..IndexOf(t, '"', 0)]
    ensures SpanEnd(t).None? ==> forall i, j | 0 <= i < j < |t| :: !(t[i] == '"' && t[j] == '"')
    ensures SpanEnd(t).None? ==> Pieces(a, t) == ProsePieces(a, t)
  {
    hide ProsePieces;
  }

  /** A text of one clause is rewritten as that clause, at the start of its sentence. */
  lemma OneClauseText(c: Ctx, t: string)
    requires c.name != "" && t != "" && '"' !in t && ';' !in t && NoStop(c.abc, t, 1)
    ensures Swap(c, t).text == RewriteOf(c.(first := true), t).text
  {
    hide RewriteOf;
    assert SpanEnd(t).None?;
    SentenceEndIs(c.abc, t, 1);
    assert SentenceEnd(c.abc, t, 1) == |t|;
    assert t[..|t|] == t && t[|t|..] == "";
    assert IndexOf(t, ';', 0) == |t|;
    assert Clauses(t, true) == [Clause(t, true)];
    assert ProsePieces(c.abc, "") == [];
    assert Pieces(c.abc, t) == [Clause(t, true)];
    ApplyOne(c, Clause(t, true));
  }
}
