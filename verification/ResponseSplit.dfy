/** Splitting a narrator response into prose and its fenced patch (sidequest/agents/orchestrator.py:1038-1098)
    and stripping leaked preambles (sidequest/agents/narration_hygiene.py:118-167). JSON parsing and the
    preamble patterns are parameters. */
module ResponseSplit {
  import opened Options
  import opened Text

  const TICKS := "```"
  const PATCH := "```game_patch"
  const JSON := "```json"
  const CLOSE := "\n```"

  // ---- extraction ------------------------------------------------------

  /** The trimmed text between the first `opener` and the next triple backtick. */
  function FencedBody(a: Alphabet, raw: string, opener: string): Option<string> {
    match Find(raw, opener, 0)
    case None => None
    case Some(i) =>
      match Find(raw, TICKS, i + |opener|)
      case None => None
      case Some(e) => Some(Trim(a, raw[i + |opener|..e]))
  }

  /** The game patch, else the json block, else None for the empty patch; `parse` yields only JSON objects. */
  function ExtractPatch<J>(a: Alphabet, parse: string -> Option<J>, raw: string): Option<J> {
    var patch := FencedBody(a, raw, PATCH);
    if patch.Some? && parse(patch.value).Some? then parse(patch.value)
    else
      var json := FencedBody(a, raw, JSON);
      if json.Some? then parse(json.value) else None
  }

  // ---- stripping -------------------------------------------------------

  /** From p: whitespace up to a newline, then anything up to a closing fence. */
  predicate BlockFrom(a: Alphabet, t: string, p: nat) {
    p <= |t| && var n := IndexOf(t, '\n', p);
                n < |t| && n < SkipSpaces(a, t, p) && Find(t, CLOSE, n + 1).Some?
  }

  predicate FenceAt(a: Alphabet, t: string, i: nat) {
    At(t, i, TICKS)
    && (BlockFrom(a, t, i + 3) || (At(t, i + 3, "json") && BlockFrom(a, t, i + 7))
        || (At(t, i + 3, "game_patch") && BlockFrom(a, t, i + 13)))
  }

  function FirstFence(a: Alphabet, t: string, i: nat): (r: Option<nat>)
    ensures r.Some? ==> i <= r.value <= |t| && FenceAt(a, t, r.value)
                        && forall j | i <= j < r.value :: !FenceAt(a, t, j)
    decreases |t| - i
  {
    if i > |t| then None else if FenceAt(a, t, i) then Some(i) else FirstFence(a, t, i + 1)
  }

  /** The prose before the first fenced block, trimmed. */
  function StripFence(a: Alphabet, t: string): string {
    match FirstFence(a, t, 0)
    case Some(i) => Trim(a, t[..i])
    case None => Trim(a, t)
  }

  /** The pattern's own reading: some whitespace ending in some newline, and some closing fence after it. */
  ghost predicate BlockReads(a: Alphabet, t: string, p: nat, n: nat, m: nat) {
    p <= n < m && n < |t| && AllSpace(a, t[p..n]) && t[n] == '\n' && At(t, m, CLOSE)
  }

  /** The scan for the nearest newline finds a block exactly when the pattern has any way to match. */
  lemma BlockFromIff(a: Alphabet, t: string, p: nat)
    requires Lawful(a)
    ensures BlockFrom(a, t, p) <==> exists n: nat, m: nat :: BlockReads(a, t, p, n, m)
  {
    if n: nat, m: nat :| BlockReads(a, t, p, n, m) {
      var k := IndexOf(t, '\n', p);
      assert k <= n;
      SpacesWithin(a, t, p, n);
      var e := SkipSpaces(a, t, p);
      assert a.isSpace(t[n]);
      assert k < e;
      assert At(t, m, CLOSE);
    }
    if BlockFrom(a, t, p) {
      var k := IndexOf(t, '\n', p);
      var e := SkipSpaces(a, t, p);
      SpacesWithin(a, t, p, e);
      assert forall j | 0 <= j < k - p :: t[p..k][j] == t[p + j];
      assert BlockReads(a, t, p, k, Find(t, CLOSE, k + 1).value);
    }
  }

  ghost predicate BlockAfter(a: Alphabet, t: string, p: nat) { exists n: nat, m: nat :: BlockReads(a, t, p, n, m) }

  /** A fence as the pattern reads it: backticks, perhaps one of the two labels, and a block. */
  ghost predicate FenceReads(a: Alphabet, t: string, i: nat) {
    && At(t, i, "```")
    && (|| BlockAfter(a, t, i + 3)
        || (At(t, i + 3, "json") && BlockAfter(a, t, i + 7))
        || (At(t, i + 3, "game_patch") && BlockAfter(a, t, i + 13)))
  }

  lemma FenceAtIff(a: Alphabet, t: string, i: nat)
    requires Lawful(a)
    ensures FenceAt(a, t, i) <==> FenceReads(a, t, i)
  {
    hide BlockFrom, BlockReads, At;
    BlockFromIff(a, t, i + 3);
    BlockFromIff(a, t, i + 7);
    BlockFromIff(a, t, i + 13);
  }

  /** Stripping keeps what stands before the first fence, trimmed, or everything. */
  lemma StripsAtFirstFence(a: Alphabet, t: string, i: nat)
    requires Lawful(a)
    ensures i <= |t| && FenceReads(a, t, i) && (forall j: nat | j < i :: !FenceReads(a, t, j)) ==>
              StripFence(a, t) == Trim(a, t[..i])
    ensures (forall j: nat :: !FenceReads(a, t, j)) ==> StripFence(a, t) == Trim(a, t)
  {
    hide FenceAt, FenceReads, Trim;
    forall j: nat
      ensures FenceAt(a, t, j) <==> FenceReads(a, t, j)
    {
      FenceAtIff(a, t, j);
    }
    if i <= |t| && FenceReads(a, t, i) && forall j: nat | j < i :: !FenceReads(a, t, j) {
      FirstFenceIs(a, t, 0, i);
    }
  }

  // ---- the round trip --------------------------------------------------

  /** A response as the narrator is asked to write it. */
  function Print(prose: string, body: string): string { prose + "\n\n" + PATCH + "\n" + body + CLOSE }

  lemma NoTicksInside(x: string, s: string, y: string, j: nat)
    requires !Contains(s, TICKS) && |x| <= j && j + 3 <= |x| + |s|
    ensures !At(x + s + y, j, TICKS)
  {
    hide At;
    if At(x + s + y, j, TICKS) {
      AtWithin(x, s, y, j - |x|, TICKS);
    }
  }

  lemma TicksAreTicks(t: string, j: nat)
    requires At(t, j, TICKS)
    ensures t[j] == '`' && t[j + 1] == '`' && t[j + 2] == '`'
  {
    assert t[j] == t[j..j + 3][0] && t[j + 1] == t[j..j + 3][1] && t[j + 2] == t[j..j + 3][2];
  }

  /** The characters of a printed response that rule out a triple backtick around them. */
  lemma PrintedMarks(prose: string, body: string)
    ensures var t, f := Print(prose, body), |prose| + 2;
            && t[f - 2] == '\n' && t[f - 1] == '\n' && t[f + 3] == 'g' && t[f + 6] == 'e' && t[f + 9] == 'a'
            && t[f + 12] == 'h' && t[f + 13] == '\n' && t[f + 14 + |body|] == '\n'
  {}

  /** Triple backticks occur in a printed response at the fence and at its close only. */
  lemma TicksInPrint(prose: string, body: string, j: nat)
    requires !Contains(prose, TICKS) && !Contains(body, TICKS)
    requires At(Print(prose, body), j, TICKS)
    ensures j == |prose| + 2 || j == |prose| + 17 + |body|
  {
    var t, f, b := Print(prose, body), |prose| + 2, |prose| + 16;
    var x, y := prose + "\n\n" + PATCH + "\n", "\n\n" + PATCH + "\n" + body + CLOSE;
    assert t == "" + prose + y && t == x + body + CLOSE && |x| == b;
    hide At, Print, Contains;
    TicksAreTicks(t, j);
    PrintedMarks(prose, body);
    if j + 3 <= |prose| {
      NoTicksInside("", prose, y, j);
    } else if b <= j && j + 3 <= b + |body| {
      NoTicksInside(x, body, CLOSE, j);
    }
  }

  lemma PrintShape(prose: string, body: string)
    ensures var t, f, b := Print(prose, body), |prose| + 2, |prose| + 16;
            && |t| == b + |body| + 4
            && At(t, f, PATCH) && At(t, f, TICKS) && At(t, f + 3, "game_patch") && t[f + 13] == '\n'
            && At(t, b + |body|, CLOSE) && At(t, b + |body| + 1, TICKS)
            && t[..f] == prose + "\n\n" && t[f + 13..b + |body| + 1] == "\n" + body + "\n"
            && !At(t, f, JSON) && !At(t, b + |body| + 1, JSON)
  {
    hide At, Print;
    PrintOpens(prose, body);
    PrintCloses(prose, body);
  }

  lemma PrintOpens(prose: string, body: string)
    ensures var t, f, b := Print(prose, body), |prose| + 2, |prose| + 16;
            && |t| == b + |body| + 4
            && At(t, f, PATCH) && At(t, f, TICKS) && At(t, f + 3, "game_patch") && t[f + 13] == '\n'
            && t[..f] == prose + "\n\n" && !At(t, f, JSON)
  {
    var t, f := Print(prose, body), |prose| + 2;
    assert t[..f] == prose + "\n\n" && t[f..f + 13] == PATCH && t[f + 13] == '\n';
    assert PATCH == TICKS + "game_patch";
    hide Print;
    AtPrefix(t, f, TICKS, "game_patch");
    AtRest(t, f, TICKS, "game_patch");
    NotJson(t, f);
  }

  lemma PrintCloses(prose: string, body: string)
    ensures var t, f, e := Print(prose, body), |prose| + 2, |prose| + 16 + |body|;
            && At(t, e, CLOSE) && At(t, e + 1, TICKS) && !At(t, e + 1, JSON)
            && |t| == e + 4 && t[f + 13..e + 1] == "\n" + body + "\n"
  {
    var t, f, e := Print(prose, body), |prose| + 2, |prose| + 16 + |body|;
    assert |t| == e + 4 && t[e..] == CLOSE && t[e..e + 4] == t[e..];
    assert t[f + 13..e + 1] == "\n" + body + "\n";
    assert CLOSE == "\n" + TICKS;
    hide Print;
    AtRest(t, e, "\n", TICKS);
  }

  lemma AtRest(t: string, i: nat, x: string, y: string)
    ensures At(t, i, x + y) ==> At(t, i + |x|, y)
  {
    assert At(t, i, x + y) ==> t[i + |x|..i + |x| + |y|] == t[i..i + |x + y|][|x|..];
  }

  lemma AtChar(t: string, i: nat, lit: string, k: nat)
    requires k < |lit|
    ensures At(t, i, lit) ==> t[i + k] == lit[k]
  {
    if At(t, i, lit) {
      AtChars(t, i, lit);
    }
  }

  lemma NotJson(t: string, f: nat)
    requires At(t, f + 3, "game_patch")
    ensures !At(t, f, JSON)
  {
    AtChar(t, f, JSON, 3);
    AtChar(t, f + 3, "game_patch", 0);
  }

  lemma TrimPadded(a: Alphabet, x: string, s: string, y: string)
    requires AllSpace(a, x) && AllSpace(a, y)
    ensures Trim(a, x + s + y) == Trim(a, s)
  {
    hide Trim;
    var i, j := TrimShape(a, s);
    assert x + s + y == (x + s[..i]) + s[i..j] + (s[j..] + y);
    TrimIs(a, x + s[..i], s[i..j], s[j..] + y);
  }

  /** Printing prose and a patch and splitting the response again gives back the trimmed prose and hands the
      parser exactly the trimmed body, whatever the parser makes of it. */
  lemma FenceRoundTrip<J>(a: Alphabet, parse: string -> Option<J>, prose: string, body: string)
    requires Lawful(a) && !Contains(prose, TICKS) && !Contains(body, TICKS)
    ensures StripFence(a, Print(prose, body)) == Trim(a, prose)
    ensures FencedBody(a, Print(prose, body), PATCH) == Some(Trim(a, body))
    ensures ExtractPatch(a, parse, Print(prose, body)) == parse(Trim(a, body))
  {
    hide Print, Trim, At, Contains;
    StripsPrinted(a, prose, body);
    ReadsPrinted(a, prose, body);
    NoJsonInPrint(a, prose, body);
  }

  lemma StripsPrinted(a: Alphabet, prose: string, body: string)
    requires Lawful(a) && !Contains(prose, TICKS) && !Contains(body, TICKS)
    ensures StripFence(a, Print(prose, body)) == Trim(a, prose)
  {
    hide Print, Trim, At, Contains, BlockFrom;
    var t, f, b := Print(prose, body), |prose| + 2, |prose| + 16;
    PrintShape(prose, body);
    BlockReadsPrinted(a, prose, body);
    forall j: nat | j < f
      ensures !FenceAt(a, t, j)
    {
      if At(t, j, TICKS) {
        TicksInPrint(prose, body, j);
      }
    }
    assert FenceAt(a, t, f);
    TrimPadded(a, "", prose, "\n\n");
    assert "" + prose + "\n\n" == prose + "\n\n";
    FirstFenceIs(a, t, 0, f);
  }

  lemma {:induction false} FirstFenceIs(a: Alphabet, t: string, i: nat, f: nat)
    requires i <= f <= |t| && FenceAt(a, t, f) && forall j | i <= j < f :: !FenceAt(a, t, j)
    ensures FirstFence(a, t, i) == Some(f)
    decreases f - i
  {
    hide FenceAt;
    if i < f {
      FirstFenceIs(a, t, i + 1, f);
    }
  }

  lemma BlockReadsPrinted(a: Alphabet, prose: string, body: string)
    requires Lawful(a)
    ensures BlockFrom(a, Print(prose, body), |prose| + 15)
  {
    hide Print, BlockFrom;
    var t, p, m := Print(prose, body), |prose| + 15, |prose| + 16 + |body|;
    PrintShape(prose, body);
    assert t[p..p] == "";
    assert BlockReads(a, t, p, p, m);
    BlockFromIff(a, t, p);
  }

  lemma ReadsPrinted(a: Alphabet, prose: string, body: string)
    requires Lawful(a) && !Contains(prose, TICKS) && !Contains(body, TICKS)
    ensures FencedBody(a, Print(prose, body), PATCH) == Some(Trim(a, body))
  {
    hide Print, Trim, At, Contains, Find;
    var t, f, b := Print(prose, body), |prose| + 2, |prose| + 16;
    PrintShape(prose, body);
    forall j: nat | At(t, j, PATCH)
      ensures f <= j
    {
      AtPrefix(t, j, TICKS, "game_patch");
      assert PATCH == TICKS + "game_patch";
      TicksInPrint(prose, body, j);
    }
    forall j: nat | f + 13 <= j && At(t, j, TICKS)
      ensures b + |body| + 1 <= j
    {
      TicksInPrint(prose, body, j);
    }
    assert Find(t, PATCH, 0) == Some(f);
    assert Find(t, TICKS, f + 13) == Some(b + |body| + 1);
    TrimPadded(a, "\n", body, "\n");
  }

  lemma NoJsonInPrint(a: Alphabet, prose: string, body: string)
    requires !Contains(prose, TICKS) && !Contains(body, TICKS)
    ensures FencedBody(a, Print(prose, body), JSON) == None
  {
    hide Print, At, Contains, Find;
    var t := Print(prose, body);
    PrintShape(prose, body);
    forall j: nat
      ensures !At(t, j, JSON)
    {
      AtPrefix(t, j, TICKS, "json");
      assert TICKS + "json" == JSON;
      if At(t, j, TICKS) {
        TicksInPrint(prose, body, j);
      }
    }
  }

  // ---- responses of other shapes ---------------------------------------

  /** A response without triple backticks is all prose and no patch. */
  lemma PlainResponse<J>(a: Alphabet, parse: string -> Option<J>, raw: string)
    requires !Contains(raw, TICKS)
    ensures StripFence(a, raw) == Trim(a, raw) && ExtractPatch(a, parse, raw) == None
  {
    hide Trim, Find, BlockFrom;
    forall j: nat
      ensures !At(raw, j, TICKS) && !At(raw, j, PATCH) && !At(raw, j, JSON)
    {
      assert PATCH == TICKS + "game_patch" && JSON == TICKS + "json";
      AtPrefix(raw, j, TICKS, "game_patch");
      AtPrefix(raw, j, TICKS, "json");
    }
    NoFence(a, raw, 0);
  }

  lemma {:induction false} NoFence(a: Alphabet, t: string, i: nat)
    requires forall j: nat :: !At(t, j, TICKS)
    ensures FirstFence(a, t, i) == None
    decreases |t| + 1 - i
  {
    hide BlockFrom, At;
    if i <= |t| {
      NoFence(a, t, i + 1);
    }
  }

  /** The text t[i..e] is the first block opened by `opener`: no earlier opening, closed by the next backticks. */
  ghost predicate FirstBlock(t: string, opener: string, i: nat, e: nat) {
    && At(t, i, opener) && (forall j: nat | j < i :: !At(t, j, opener))
    && i + |opener| <= e && At(t, e, TICKS) && forall j: nat | i + |opener| <= j < e :: !At(t, j, TICKS)
  }

  lemma BlockIsRead(a: Alphabet, t: string, opener: string, i: nat, e: nat)
    requires FirstBlock(t, opener, i, e)
    ensures FencedBody(a, t, opener) == Some(Trim(a, t[i + |opener|..e]))
  {
    hide Trim, At, Find;
    assert Find(t, opener, 0) == Some(i);
    assert Find(t, TICKS, i + |opener|) == Some(e);
  }

  /** The patch is read from the first game_patch block if that parses; failing that, from the first json block. */
  lemma PatchThenJson<J>(a: Alphabet, parse: string -> Option<J>, t: string, i: nat, e: nat, k: nat, f: nat)
    requires FirstBlock(t, PATCH, i, e)
    ensures var patch := parse(Trim(a, t[i + 13..e]));
            && (patch.Some? ==> ExtractPatch(a, parse, t) == patch)
            && (patch.None? && FirstBlock(t, JSON, k, f) ==>
                ExtractPatch(a, parse, t) == parse(Trim(a, t[k + 7..f])))
  {
    hide Trim, FencedBody, FirstBlock;
    BlockIsRead(a, t, PATCH, i, e);
    if FirstBlock(t, JSON, k, f) {
      BlockIsRead(a, t, JSON, k, f);
    }
  }

  lemma JsonAlone<J>(a: Alphabet, parse: string -> Option<J>, t: string, k: nat, f: nat)
    requires (forall j: nat :: !At(t, j, PATCH)) && FirstBlock(t, JSON, k, f)
    ensures ExtractPatch(a, parse, t) == parse(Trim(a, t[k + 7..f]))
  {
    hide Trim, At, Find;
    BlockIsRead(a, t, JSON, k, f);
    assert Find(t, PATCH, 0) == None;
  }

  // ---- preamble hygiene ------------------------------------------------

  const REASONING_BLOCK_WINDOW := 800
  const LEADING_WINDOW := 400

  /** Where a pattern matched. */
  datatype Span = Span(start: nat, end: nat)

  datatype Scrub = Scrub(cleaned: string, stripped: bool, fragment: string, found: bool)

  predicate SentenceEnd(ch: char) { ch == '.' || ch == '!' || ch == '?' || ch == '\n' }

  ghost predicate Within(s: Option<Span>, prose: string) { s.Some? ==> s.value.start <= s.value.end <= |prose| }

  /** What was cut: everything up to k, and the whitespace after it. */
  ghost predicate Cuts(a: Alphabet, prose: string, r: Scrub, k: nat) {
    k <= |prose| && r.cleaned == TrimStart(a, prose[k..]) && r.fragment == Trim(a, prose[..k])
  }

  /** A horizontal rule early enough, after a block that tells; it decides alone, markers are not consulted. */
  predicate RuleDecides(rule: Option<Span>, tells: bool) {
    rule.Some? && rule.value.start <= REASONING_BLOCK_WINDOW && tells
  }

  /** A rule that starts within the first 800 characters and whose block tells. */
  ghost predicate TellingRule(rule: Option<Span>, tells: bool) { rule.Some? && rule.value.start <= 800 && tells }

  ghost predicate Ends(ch: char) { ch == '.' || ch == '!' || ch == '?' || ch == '\n' }

  /** Where a preamble ends: at the deciding rule, or just after the first sentence end following a leading marker. */
  ghost predicate PreambleEnds(prose: string, rule: Option<Span>, tells: bool, marker: Option<Span>, k: nat) {
    if TellingRule(rule, tells) then k == rule.value.end <= |prose|
    else
      && marker.Some? && marker.value.start <= 400 && marker.value.end < k <= |prose|
      && Ends(prose[k - 1])
      && forall i | marker.value.end <= i < k - 1 :: !Ends(prose[i])
  }

  /** The strip core, for any position of the horizontal rule, of the marker, and whether the block before the
      rule tells. It strips exactly when a preamble ends somewhere and something is left after it, it cuts
      there, it returns a suffix of its input, and it never blanks non-blank prose. */
  method StripPreamble(a: Alphabet, prose: string, rule: Option<Span>, tells: bool, marker: Option<Span>)
    returns (r: Scrub)
    requires Within(rule, prose) && Within(marker, prose)
    ensures r.stripped <==> exists k: nat :: PreambleEnds(prose, rule, tells, marker, k) && !Blank(a, prose[k..])
    ensures r.stripped ==> exists k: nat :: PreambleEnds(prose, rule, tells, marker, k) && Cuts(a, prose, r, k)
    ensures r.stripped ==> r.cleaned != "" && !a.isSpace(r.cleaned[0])
    ensures !r.stripped ==> r.cleaned == prose && r.fragment == ""
    ensures r.found <==> prose != "" && (TellingRule(rule, tells) || marker.Some?)
    ensures EndsWith(prose, r.cleaned)
    ensures !Blank(a, prose) ==> !Blank(a, r.cleaned)
  {
    hide Trim, TrimStart, Blank;
    var kept := Scrub(prose, false, "", false);
    assert prose[0..] == prose;
    if prose == "" {
      NothingLeft(a);
      return kept;
    }
    if RuleDecides(rule, tells) {
      var end := rule.value.end;
      var remainder := TrimStart(a, prose[end..]);
      Remainder(a, prose, end);
      assert PreambleEnds(prose, rule, tells, marker, end);
      if remainder != "" {
        r := Scrub(remainder, true, Trim(a, prose[..end]), true);
        assert Cuts(a, prose, r, end);
        return;
      }
      return kept.(found := true);
    }
    if marker.None? {
      return kept;
    }
    if marker.value.start > LEADING_WINDOW {
      return kept.(found := true);
    }
    var i := marker.value.end;
    while i < |prose| && !SentenceEnd(prose[i])
      invariant marker.value.end <= i <= |prose|
      invariant forall k | marker.value.end <= k < i :: !SentenceEnd(prose[k])
    {
      i := i + 1;
    }
    if i == |prose| {
      return kept.(found := true);
    }
    var remainder := TrimStart(a, prose[i + 1..]);
    Remainder(a, prose, i + 1);
    assert PreambleEnds(prose, rule, tells, marker, i + 1);
    assert forall k: nat | PreambleEnds(prose, rule, tells, marker, k) :: k == i + 1;
    if remainder == "" {
      return kept.(found := true);
    }
    r := Scrub(remainder, true, Trim(a, prose[..i + 1]), true);
    assert Cuts(a, prose, r, i + 1);
  }

  lemma NothingLeft(a: Alphabet)
    ensures Blank(a, "")
  {}

  lemma Remainder(a: Alphabet, prose: string, k: nat)
    requires k <= |prose|
    ensures var rest := TrimStart(a, prose[k..]);
            && EndsWith(prose, rest) && (rest != "" ==> !a.isSpace(rest[0]) && !Blank(a, rest))
            && (rest == "" <==> Blank(a, prose[k..]))
  {
    var u := prose[k..];
    var e := SkipSpaces(a, u, 0);
    assert prose[k + e..] == u[e..];
    assert u[0..e] == u[..e];
    assert e == |u| ==> u[..e] == u;
  }
}
