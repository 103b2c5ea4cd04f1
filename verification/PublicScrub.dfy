/** The public-prose scrubber (sidequest/agents/orchestrator.py:1133-1262): cut at the first labelled
    private aside, then drop every sentence that nearly repeats a private segment. The aside pattern is
    a parameter: the position where it first matches, if it does. */
module PublicScrub {
  import opened Options
  import opened Text

  // ---- sentences -------------------------------------------------------

  predicate Terminator(ch: char) { ch in ".!?" }

  predicate Opener(ch: char) { ch in "\"'(\U{201C}\U{2018}" || 'A' <= ch <= 'Z' || '0' <= ch <= '9' }

  /** The separator pattern starts at j: whitespace after a terminator and before an opener. */
  predicate SplitAt(a: Alphabet, s: string, j: nat) {
    && 0 < j < |s| && Terminator(s[j - 1]) && a.isSpace(s[j])
    && var e := SkipSpaces(a, s, j);
       e < |s| && Opener(s[e])
  }

  function FirstSplit(a: Alphabet, s: string, j: nat): (k: nat)
    requires j <= |s|
    ensures j <= k <= |s| && (k < |s| ==> SplitAt(a, s, k))
    ensures forall i | j <= i < k :: !SplitAt(a, s, i)
    ensures k == |s| ==> forall i: nat | j <= i :: !SplitAt(a, s, i)
    decreases |s| - j
  {
    if j == |s| || SplitAt(a, s, j) then j else FirstSplit(a, s, j + 1)
  }

  /** re.split on the separator pattern: never empty. */
  function Sentences(a: Alphabet, s: string): (ps: seq<string>)
    ensures ps != []
    decreases |s|
  {
    var j := FirstSplit(a, s, 0);
    if j == |s| then [s] else [s[..j]] + Sentences(a, s[SkipSpaces(a, s, j)..])
  }

  // ---- overlap ---------------------------------------------------------

  predicate TokenChar(ch: char) { 'a' <= ch <= 'z' || '0' <= ch <= '9' }

  function TokenEnd(u: string, i: nat): (e: nat)
    requires i <= |u|
    ensures i <= e <= |u| && (e < |u| ==> !TokenChar(u[e])) && forall k | i <= k < e :: TokenChar(u[k])
    decreases |u| - i
  {
    if i < |u| && TokenChar(u[i]) then TokenEnd(u, i + 1) else i
  }

  /** The maximal runs of token characters. */
  function Runs(u: string): set<string>
    decreases |u|
  {
    if u == "" then {}
    else
      var e := TokenEnd(u, 0);
      if e == 0 then Runs(u[1..]) else {u[..e]} + Runs(u[e..])
  }

  const STOP_WORDS := {"you", "your", "yours", "yourself", "he", "his", "him", "himself", "she", "her", "hers",
                       "herself", "they", "their", "them", "i", "me", "my", "mine", "myself", "the", "a", "an",
                       "of", "to", "is", "it", "its", "and", "as", "at", "in", "on", "no", "not"}

  function Tokens(a: Alphabet, s: string): set<string> { Runs(Lower(a, s)) - STOP_WORDS }

  /** Jaccard overlap of at least one half. */
  predicate Overlaps(st: set<string>, ts: set<string>) { st != {} && 2 * |st * ts| >= |st + ts| }

  predicate Repeats(a: Alphabet, segments: seq<set<string>>, sentence: string) {
    exists k | 0 <= k < |segments| :: Overlaps(Tokens(a, sentence), segments[k])
  }

  function SegmentTokens(a: Alphabet, segments: seq<string>): seq<set<string>> {
    if segments == [] then []
    else
      var ts := Tokens(a, segments[0]);
      (if ts != {} then [ts] else []) + SegmentTokens(a, segments[1..])
  }

  /** The sentences that repeat no segment, in order. */
  function Kept(a: Alphabet, segments: seq<set<string>>, ps: seq<string>): seq<string> {
    if ps == [] then []
    else
      var rest := Kept(a, segments, ps[..|ps| - 1]);
      if Repeats(a, segments, ps[|ps| - 1]) then rest else rest + [ps[|ps| - 1]]
  }

  function TrimAll(a: Alphabet, ps: seq<string>): seq<string> {
    seq(|ps|, i requires 0 <= i < |ps| => Trim(a, ps[i]))
  }

  /** " ".join of the trimmed, non-empty parts. */
  function Join(a: Alphabet, ps: seq<string>): string {
    if ps == [] then ""
    else
      var front, last := Join(a, ps[..|ps| - 1]), Trim(a, ps[|ps| - 1]);
      if last == "" then front else if front == "" then last else front + " " + last
  }

  // ---- the scrubber ----------------------------------------------------

  datatype Report = Report(labelled: bool, dropped: int, charsRemoved: int, orphan: bool, degraded: bool)

  function PostCut(a: Alphabet, prose: string, aside: Option<nat>): string
    requires aside.Some? ==> aside.value <= |prose|
  {
    if aside.Some? then TrimEnd(a, prose[..aside.value]) else prose
  }

  /** Everything was a repetition: the second pass is skipped. */
  predicate Degrades(a: Alphabet, work: string, sets: seq<set<string>>) {
    var ps := Sentences(a, work);
    |Kept(a, sets, ps)| < |ps| && Trim(a, Join(a, Kept(a, sets, ps))) == ""
  }

  function Scrubbed(a: Alphabet, work: string, sets: seq<set<string>>): string {
    var ps := Sentences(a, work);
    var kept := Kept(a, sets, ps);
    Trim(a, if |kept| < |ps| && !Degrades(a, work, sets) then Trim(a, Join(a, kept)) else work)
  }

  method IsRepeat(a: Alphabet, sets: seq<set<string>>, sentence: string) returns (dup: bool)
    ensures dup == Repeats(a, sets, sentence)
  {
    hide Tokens;
    dup := false;
    var st := Tokens(a, sentence);
    if st != {} {
      var k := 0;
      while k < |sets| && !dup
        invariant 0 <= k <= |sets|
        invariant dup <==> exists j | 0 <= j < k :: Overlaps(st, sets[j])
      {
        dup := 2 * |st * sets[k]| >= |st + sets[k]|;
        k := k + 1;
      }
    }
  }

  method DropRepeats(a: Alphabet, sets: seq<set<string>>, sentences: seq<string>)
    returns (kept: seq<string>, dropped: nat)
    ensures kept == Kept(a, sets, sentences) && dropped == |sentences| - |kept|
  {
    hide Repeats;
    kept, dropped := [], 0;
    for i := 0 to |sentences|
      invariant kept == Kept(a, sets, sentences[..i])
      invariant dropped == i - |kept|
    {
      assert sentences[..i + 1][..i] == sentences[..i];
      var dup := IsRepeat(a, sets, sentences[i]);
      if dup {
        dropped := dropped + 1;
      } else {
        kept := kept + [sentences[i]];
      }
    }
    assert sentences[..|sentences|] == sentences;
  }

  /** What is published of a prose with an aside at the given place, if any, and these private segments. */
  function Published(a: Alphabet, prose: string, aside: Option<nat>, segments: seq<string>): string
    requires aside.Some? ==> aside.value <= |prose|
  {
    Scrubbed(a, PostCut(a, prose, aside), SegmentTokens(a, segments))
  }

  predicate Degraded(a: Alphabet, prose: string, aside: Option<nat>, segments: seq<string>)
    requires aside.Some? ==> aside.value <= |prose|
  {
    Degrades(a, PostCut(a, prose, aside), SegmentTokens(a, segments))
  }

  method Scrub(a: Alphabet, prose: string, aside: Option<nat>, segments: seq<string>)
    returns (scrubbed: string, report: Report)
    requires aside.Some? ==> aside.value <= |prose|
    ensures var work, sets := PostCut(a, prose, aside), SegmentTokens(a, segments);
            && scrubbed == Published(a, prose, aside, segments)
            && report.degraded == Degraded(a, prose, aside, segments)
            && report == Report(aside.Some?,
                                if Degrades(a, work, sets) then 0
                                else |Sentences(a, work)| - |Kept(a, sets, Sentences(a, work))|,
                                |prose| - |scrubbed|, aside.Some? && segments == [], Degrades(a, work, sets))
  {
    hide Sentences, Tokens, Trim, TrimEnd, Kept, Join, SegmentTokens;
    var work := prose;
    report := Report(false, 0, 0, false, false);
    if aside.Some? {
      work := TrimEnd(a, work[..aside.value]);
      report := report.(labelled := true, orphan := segments == []);
    }
    var sets := SegmentTokens(a, segments);
    ghost var ps := Sentences(a, work);
    if sets == [] {
      NothingKeptOut(a, ps);
    } else {
      var kept, dropped := DropRepeats(a, sets, Sentences(a, work));
      var candidate := Trim(a, Join(a, kept));
      if dropped > 0 && candidate == "" {
        report := report.(degraded := true);
      } else if dropped > 0 {
        work := candidate;
        report := report.(dropped := dropped);
      }
    }
    scrubbed := Trim(a, work);
    report := report.(charsRemoved := |prose| - |scrubbed|);
  }

  lemma {:induction false} NothingKeptOut(a: Alphabet, ps: seq<string>)
    ensures Kept(a, [], ps) == ps
  {
    if ps != [] {
      NothingKeptOut(a, ps[..|ps| - 1]);
    }
  }

  /** The separator as the pattern reads it. */
  lemma SplitAtIff(a: Alphabet, s: string, j: nat)
    requires Lawful(a)
    ensures SplitAt(a, s, j) <==>
              exists e: nat ::
                && 0 < j < e < |s| && AllSpace(a, s[j..e])
                && (s[j - 1] == '.' || s[j - 1] == '!' || s[j - 1] == '?')
                && (s[e] == '"' || s[e] == '\'' || s[e] == '(' || s[e] == '\U{201C}' || s[e] == '\U{2018}'
                    || 'A' <= s[e] <= 'Z' || '0' <= s[e] <= '9')
  {
    if SplitAt(a, s, j) {
      assert AllSpace(a, s[j..SkipSpaces(a, s, j)]);
    }
    if e: nat :| 0 < j < e < |s| && AllSpace(a, s[j..e]) && Opener(s[e]) {
      OpenerIsSolid(a, s[e]);
      SpacesWithin(a, s, j, e);
      SpacesEnd(a, s, j, e);
      assert s[j..e][0] == s[j];
    }
  }

  // ---- cutting and joining ---------------------------------------------

  ghost predicate NoSplit(a: Alphabet, s: string) { forall j: nat :: !SplitAt(a, s, j) }

  /** A run of whitespace found in a slice that stops inside it is the run found in the whole. */
  lemma {:induction false} SkipInSlice(a: Alphabet, s: string, i: nat, j: nat, k: nat)
    requires i <= j <= |s| && i + k <= j
    ensures SkipSpaces(a, s[i..j], k) < j - i ==> SkipSpaces(a, s, i + k) == i + SkipSpaces(a, s[i..j], k)
    decreases j - i - k
  {
    if k < j - i && a.isSpace(s[i..j][k]) {
      SkipInSlice(a, s, i, j, k + 1);
    }
  }

  lemma SplitInSlice(a: Alphabet, s: string, i: nat, j: nat, k: nat)
    requires i <= j <= |s| && SplitAt(a, s[i..j], k)
    ensures SplitAt(a, s, i + k)
  {
    SkipInSlice(a, s, i, j, k);
  }

  lemma NoSplitInSlice(a: Alphabet, s: string, i: nat, j: nat)
    requires i <= j <= |s| && NoSplit(a, s)
    ensures NoSplit(a, s[i..j])
  {
    hide SplitAt;
    forall k: nat
      ensures !SplitAt(a, s[i..j], k)
    {
      if SplitAt(a, s[i..j], k) {
        SplitInSlice(a, s, i, j, k);
      }
    }
  }

  ghost predicate Closed(p: string) { p != "" && Terminator(p[|p| - 1]) }

  ghost predicate Opened(p: string) { p != "" && Opener(p[0]) }

  /** A separator seen in p + x before the end of p is inside p, when p ends in a non-space. */
  lemma SplitInPrefix(a: Alphabet, p: string, x: string, j: nat)
    requires p != "" && !a.isSpace(p[|p| - 1]) && j < |p| && SplitAt(a, p + x, j)
    ensures SplitAt(a, p, j)
  {
    hide Terminator, Opener;
    var w := p + x;
    var e := SkipSpaces(a, w, j);
    SpacesWithin(a, w, j, e);
    assert forall k | 0 <= k < |p| :: w[k] == p[k];
    assert e < |p|;
    SpacesEnd(a, p, j, e);
  }

  lemma CutIsFirst(a: Alphabet, p: string, sep: string, rest: string)
    requires Lawful(a) && NoSplit(a, p) && Closed(p)
    requires sep != "" && AllSpace(a, sep) && Opened(rest)
    ensures var w, m, e := p + sep + rest, |p|, |p| + |sep|;
            && SplitAt(a, w, m) && SkipSpaces(a, w, m) == e && forall j | 0 <= j < m :: !SplitAt(a, w, j)
  {
    hide Terminator, Opener, SkipSpaces;
    var w := p + sep + rest;
    var m, e := |p|, |p| + |sep|;
    assert w[m - 1] == p[m - 1] && w[m] == sep[0] && w[e] == rest[0];
    OpenerIsSolid(a, p[m - 1]);
    OpenerIsSolid(a, rest[0]);
    assert forall k | m <= k < e :: w[k] == sep[k - m];
    SpacesEnd(a, w, m, e);
    assert w == p + (sep + rest);
    forall j | 0 <= j < m
      ensures !SplitAt(a, w, j)
    {
      if SplitAt(a, w, j) {
        SplitInPrefix(a, p, sep + rest, j);
      }
    }
  }

  /** A terminated sentence, whitespace and an opener: the sentence is cut off right there. */
  lemma CutFirst(a: Alphabet, p: string, sep: string, rest: string)
    requires Lawful(a) && NoSplit(a, p) && Closed(p)
    requires sep != "" && AllSpace(a, sep) && Opened(rest)
    ensures Sentences(a, p + sep + rest) == [p] + Sentences(a, rest)
  {
    hide NoSplit, Closed, Opened, SplitAt, SkipSpaces, Lawful;
    var w, m := p + sep + rest, |p|;
    CutIsFirst(a, p, sep, rest);
    assert FirstSplit(a, w, 0) == m;
    assert w[..m] == p && w[m + |sep|..] == rest;
  }

  /** The inverse: what the first cut leaves. */
  lemma FirstCut(a: Alphabet, w: string) returns (p: string, sep: string, rest: string)
    requires Lawful(a) && !NoSplit(a, w)
    ensures w == p + sep + rest && NoSplit(a, p) && Closed(p)
    ensures sep != "" && AllSpace(a, sep) && Opened(rest)
    ensures Sentences(a, w) == [p] + Sentences(a, rest)
  {
    hide Terminator, Opener;
    var j := FirstSplit(a, w, 0);
    var e := SkipSpaces(a, w, j);
    p, sep, rest := w[..j], w[j..e], w[e..];
    forall k: nat
      ensures !SplitAt(a, p, k)
    {
      if SplitAt(a, w[0..j], k) {
        SplitInSlice(a, w, 0, j, k);
      }
      assert w[0..j] == p;
    }
  }

  lemma Uncut(a: Alphabet, w: string)
    requires NoSplit(a, w)
    ensures Sentences(a, w) == [w]
  {}

  /** Sentences hold no separator; all but the last are terminated, all but the first begin with an opener. */
  ghost predicate Shaped(a: Alphabet, ps: seq<string>) {
    && (forall k | 0 <= k < |ps| :: NoSplit(a, ps[k]))
    && (forall k | 0 <= k < |ps| - 1 :: Closed(ps[k]))
    && (forall k | 0 < k < |ps| :: Opened(ps[k]))
  }

  lemma {:induction false} SentencesShaped(a: Alphabet, w: string)
    requires Lawful(a)
    ensures var ps := Sentences(a, w);
            && Shaped(a, ps)
            && ps[0] <= w
            && EndsWith(w, ps[|ps| - 1])
            && (w != "" ==> ps[0] != "" && ps[|ps| - 1] != "")
    decreases |w|
  {
    hide NoSplit, Sentences, Terminator, Opener;
    if NoSplit(a, w) {
      Uncut(a, w);
      assert w[0..] == w;
    } else {
      var p, sep, rest := FirstCut(a, w);
      SentencesShaped(a, rest);
      var qs := Sentences(a, rest);
      var last := qs[|qs| - 1];
      assert w[|w| - |last|..] == rest[|rest| - |last|..];
      assert forall k | 0 < k < |qs| + 1 :: ([p] + qs)[k] == qs[k - 1];
      FirstOpens(rest, qs[0]);
    }
  }

  lemma FirstOpens(rest: string, q: string)
    requires rest != "" && q != "" && q <= rest
    ensures q[0] == rest[0]
  {}

  /** A separator ends in an opener, so it never reaches into trailing whitespace. */
  lemma SplitBeforeTail(a: Alphabet, u: string, y: string, j: nat)
    requires Lawful(a) && AllSpace(a, y) && SplitAt(a, u + y, j)
    ensures SplitAt(a, u, j)
  {
    hide Terminator, Opener;
    var w := u + y;
    var e := SkipSpaces(a, w, j);
    OpenerIsSolid(a, w[e]);
    assert e < |u|;
    SpacesWithin(a, w, j, e);
    assert forall k | 0 <= k < |u| :: w[k] == u[k];
    SpacesEnd(a, u, j, e);
  }

  lemma NoSplitTail(a: Alphabet, u: string, y: string)
    requires Lawful(a) && NoSplit(a, u) && AllSpace(a, y)
    ensures NoSplit(a, u + y)
  {
    hide SplitAt;
    forall j: nat
      ensures !SplitAt(a, u + y, j)
    {
      if SplitAt(a, u + y, j) {
        SplitBeforeTail(a, u, y, j);
      }
    }
  }

  lemma OpenerIsSolid(a: Alphabet, ch: char)
    requires Lawful(a) && (Opener(ch) || Terminator(ch))
    ensures !a.isSpace(ch)
  {
    if 'A' <= ch <= 'Z' || '0' <= ch <= '9' {
      assert AsciiAlnum(ch);
    }
  }

  /** A separator follows a terminator, so it never starts in leading whitespace. */
  lemma SplitAfterHead(a: Alphabet, x: string, u: string, j: nat)
    requires Lawful(a) && AllSpace(a, x) && SplitAt(a, x + u, j)
    ensures |x| < j && SplitAt(a, u, j - |x|)
  {
    hide Terminator, Opener;
    var w := x + u;
    OpenerIsSolid(a, w[j - 1]);
    assert |x| < j;
    var e := SkipSpaces(a, w, j);
    SpacesWithin(a, w, j, e);
    assert forall k | 0 <= k < |u| :: u[k] == w[|x| + k];
    SpacesEnd(a, u, j - |x|, e - |x|);
  }

  lemma NoSplitHead(a: Alphabet, x: string, u: string)
    requires Lawful(a) && NoSplit(a, u) && AllSpace(a, x)
    ensures NoSplit(a, x + u)
  {
    hide SplitAt;
    forall j: nat
      ensures !SplitAt(a, x + u, j)
    {
      if SplitAt(a, x + u, j) {
        SplitAfterHead(a, x, u, j);
      }
    }
  }

  /** Trailing whitespace only lengthens the last sentence. */
  lemma {:induction false} SentencesTail(a: Alphabet, u: string, y: string)
    requires Lawful(a) && AllSpace(a, y)
    ensures var qs := Sentences(a, u);
            Sentences(a, u + y) == qs[..|qs| - 1] + [qs[|qs| - 1] + y]
    decreases |u|
  {
    hide NoSplit, Sentences, Terminator, Opener;
    if NoSplit(a, u) {
      NoSplitTail(a, u, y);
      Uncut(a, u);
      Uncut(a, u + y);
    } else {
      var p, sep, rest := FirstCut(a, u);
      SentencesTail(a, rest, y);
      CutFirst(a, p, sep, rest + y);
      assert p + sep + (rest + y) == u + y;
    }
  }

  /** Leading whitespace only lengthens the first sentence. */
  lemma SentencesHead(a: Alphabet, x: string, u: string)
    requires Lawful(a) && AllSpace(a, x)
    ensures var qs := Sentences(a, u);
            Sentences(a, x + u) == [x + qs[0]] + qs[1..]
  {
    hide NoSplit, Sentences, Terminator, Opener;
    if NoSplit(a, u) {
      NoSplitHead(a, x, u);
      Uncut(a, u);
      Uncut(a, x + u);
    } else {
      var p, sep, rest := FirstCut(a, u);
      NoSplitHead(a, x, p);
      CutFirst(a, x + p, sep, rest);
      assert (x + p) + sep + rest == x + u;
    }
  }

  /** Trimming a text trims its sentences and changes no cut. */
  lemma SentencesOfTrimmed(a: Alphabet, w: string)
    requires Lawful(a)
    ensures Sentences(a, Trim(a, w)) == TrimAll(a, Sentences(a, w))
  {
    hide Sentences, Trim, NoSplit, Closed, Opened;
    var i, j := TrimShape(a, w);
    var x, u, y := w[..i], w[i..j], w[j..];
    var qs := Sentences(a, u);
    var n := |qs|;
    SentencesShaped(a, u);
    SentencesHead(a, x, u);
    SentencesTail(a, x + u, y);
    assert w == x + u + y;
    forall k | 0 <= k < n
      ensures Trim(a, Sentences(a, w)[k]) == qs[k]
    {
      var pre, post := if k == 0 then x else "", if k == n - 1 then y else "";
      assert Sentences(a, w)[k] == pre + qs[k] + post;
      EndsAreSolid(a, u, qs, k);
      TrimIs(a, pre, qs[k], post);
    }
  }

  lemma EndsAreSolid(a: Alphabet, u: string, qs: seq<string>, k: nat)
    requires Lawful(a) && k < |qs| && Shaped(a, qs)
    requires qs[0] <= u && EndsWith(u, qs[|qs| - 1])
    requires u == "" || (!a.isSpace(u[0]) && !a.isSpace(u[|u| - 1]))
    ensures qs[k] == "" || (!a.isSpace(qs[k][0]) && !a.isSpace(qs[k][|qs[k]| - 1]))
  {
    hide NoSplit, Terminator, Opener;
    if qs[k] != "" {
      if k == 0 { FirstOpens(u, qs[0]); } else { OpenerIsSolid(a, qs[k][0]); }
      if k < |qs| - 1 { OpenerIsSolid(a, qs[k][|qs[k]| - 1]); }
    }
  }

  // ---- what is kept ----------------------------------------------------

  lemma {:induction false} KeptClean(a: Alphabet, sets: seq<set<string>>, ps: seq<string>)
    ensures |Kept(a, sets, ps)| <= |ps|
    ensures forall k | 0 <= k < |Kept(a, sets, ps)| ::
              Kept(a, sets, ps)[k] in ps && !Repeats(a, sets, Kept(a, sets, ps)[k])
    ensures |Kept(a, sets, ps)| == |ps| ==> Kept(a, sets, ps) == ps
    ensures (forall k | 0 <= k < |ps| :: Repeats(a, sets, ps[k])) <==> Kept(a, sets, ps) == []
  {
    hide Repeats;
    if ps != [] {
      KeptClean(a, sets, ps[..|ps| - 1]);
    }
  }

  ghost predicate Terminated(ps: seq<string>) {
    forall k | 0 <= k < |ps| :: Closed(ps[k])
  }

  lemma {:induction false} KeptShort(a: Alphabet, sets: seq<set<string>>, ps: seq<string>)
    ensures |Kept(a, sets, ps)| <= |ps|
  {
    hide Repeats;
    if ps != [] {
      KeptShort(a, sets, ps[..|ps| - 1]);
    }
  }

  lemma {:induction false} KeptShaped(a: Alphabet, sets: seq<set<string>>, ps: seq<string>)
    requires Shaped(a, ps)
    ensures Shaped(a, Kept(a, sets, ps))
    ensures Terminated(ps) ==> Terminated(Kept(a, sets, ps))
  {
    hide Repeats, NoSplit, Closed, Opened;
    if ps != [] {
      var init, last := ps[..|ps| - 1], ps[|ps| - 1];
      assert Terminated(init) && Shaped(a, init);
      KeptShaped(a, sets, init);
      KeptShort(a, sets, init);
      var rest := Kept(a, sets, init);
      assert rest != [] ==> Opened(last);
      assert forall k | 0 <= k < |rest| :: (rest + [last])[k] == rest[k];
    }
  }

  /** Appending a terminated text, whitespace and one more sentence. */
  lemma {:induction false} SentencesSnoc(a: Alphabet, w: string, b: string)
    requires Lawful(a) && Closed(w) && NoSplit(a, b) && Opened(b)
    ensures Sentences(a, w + " " + b) == Sentences(a, w) + [b]
    decreases |w|
  {
    hide NoSplit, Sentences, Terminator, Opener;
    Uncut(a, b);
    if NoSplit(a, w) {
      Uncut(a, w);
      CutFirst(a, w, " ", b);
    } else {
      var p, sep, rest := FirstCut(a, w);
      SentencesSnoc(a, rest, b);
      CutFirst(a, p, sep, rest + " " + b);
      assert p + sep + (rest + " " + b) == w + " " + b;
    }
  }

  /** What joining and splitting again gives. */
  ghost predicate Rejoins(a: Alphabet, xs: seq<string>)
    requires xs != []
  {
    var t := Join(a, xs);
    && Sentences(a, t) == TrimAll(a, xs)
    && t != "" && !a.isSpace(t[0]) && !a.isSpace(t[|t| - 1])
    && (Closed(xs[|xs| - 1]) ==> Closed(t))
  }

  lemma JoinOne(a: Alphabet, x: string)
    requires Lawful(a) && NoSplit(a, x) && Trim(a, x) != ""
    ensures Rejoins(a, [x])
  {
    hide NoSplit, Sentences, Trim, Terminator, Opener;
    var b := Trim(a, x);
    var i, j := TrimShape(a, x);
    NoSplitInSlice(a, x, i, j);
    TrimKeepsShape(a, x);
    Uncut(a, b);
    assert [x][..0] == [] && Join(a, []) == "";
    assert TrimAll(a, [x]) == [b];
  }

  lemma JoinMore(a: Alphabet, init: seq<string>, x: string)
    requires Lawful(a) && init != [] && Rejoins(a, init) && Closed(init[|init| - 1])
    requires NoSplit(a, x) && Opened(x) && Trim(a, x) != ""
    ensures Rejoins(a, init + [x])
  {
    hide NoSplit, Sentences, Trim, Terminator, Opener;
    var b, xs := Trim(a, x), init + [x];
    var i, j := TrimShape(a, x);
    NoSplitInSlice(a, x, i, j);
    TrimKeepsShape(a, x);
    SentencesSnoc(a, Join(a, init), b);
    assert xs[..|xs| - 1] == init;
    assert TrimAll(a, xs) == TrimAll(a, init) + [b];
  }

  /** Joining kept sentences with single spaces and splitting again gives them back, trimmed. */
  lemma {:induction false} JoinSplits(a: Alphabet, xs: seq<string>)
    requires Lawful(a) && Shaped(a, xs) && xs != []
    requires forall k | 0 <= k < |xs| :: Trim(a, xs[k]) != ""
    ensures Rejoins(a, xs)
  {
    hide NoSplit, Trim, Closed, Opened, Rejoins;
    var n := |xs| - 1;
    var init := xs[..n];
    if n == 0 {
      JoinOne(a, xs[0]);
      assert xs == [xs[0]];
    } else {
      assert Shaped(a, init) && Closed(init[n - 1]);
      JoinSplits(a, init);
      JoinMore(a, init, xs[n]);
      assert xs == init + [xs[n]];
    }
  }

  lemma TrimKeepsShape(a: Alphabet, p: string)
    requires Lawful(a)
    ensures Closed(p) ==> Closed(Trim(a, p))
    ensures Opened(p) ==> Opened(Trim(a, p))
  {
    hide Trim, Opener, Terminator;
    var i, j := TrimShape(a, p);
    if Closed(p) { OpenerIsSolid(a, p[|p| - 1]); }
    if Opened(p) { OpenerIsSolid(a, p[0]); }
  }

  /** With at least two sentences, none is blank. */
  lemma NoneBlank(a: Alphabet, ps: seq<string>)
    requires Lawful(a) && Shaped(a, ps) && |ps| > 1
    ensures forall k | 0 <= k < |ps| :: Trim(a, ps[k]) != ""
  {
    hide Trim, NoSplit;
    forall k | 0 <= k < |ps|
      ensures Trim(a, ps[k]) != ""
    {
      assert Closed(ps[k]) || Opened(ps[k]);
      TrimKeepsShape(a, ps[k]);
    }
  }

  // ---- tokens ----------------------------------------------------------

  lemma {:induction false} LowerAppend(a: Alphabet, x: string, y: string)
    ensures Lower(a, x + y) == Lower(a, x) + Lower(a, y)
  {
    if x == "" {
      assert x + y == y;
    } else {
      assert (x + y)[1..] == x[1..] + y;
      LowerAppend(a, x[1..], y);
    }
  }

  ghost predicate Tokenless(u: string) { forall k | 0 <= k < |u| :: !TokenChar(u[k]) }

  lemma {:induction false} SpacesLowerTokenless(a: Alphabet, x: string)
    requires Lawful(a) && AllSpace(a, x)
    ensures Tokenless(Lower(a, x))
  {
    if x != "" {
      SpacesLowerTokenless(a, x[1..]);
      assert a.isSpace(x[0]);
      assert forall k: nat | k < |a.lower(x[0])| :: !AsciiAlnum(a.lower(x[0])[k]);
    }
  }

  lemma {:induction false} RunsAfter(x: string, u: string)
    requires Tokenless(x)
    ensures Runs(x + u) == Runs(u)
  {
    if x == "" {
      assert x + u == u;
    } else {
      assert (x + u)[0] == x[0] && (x + u)[1..] == x[1..] + u;
      RunsAfter(x[1..], u);
    }
  }

  lemma {:induction false} RunsBefore(u: string, y: string)
    requires Tokenless(y)
    ensures Runs(u + y) == Runs(u)
    decreases |u|
  {
    if u == "" {
      RunsAfter(y, "");
      assert u + y == y + "";
    } else {
      var e := TokenEnd(u, 0);
      TokenEndBefore(u, y, 0);
      if e == 0 {
        assert (u + y)[1..] == u[1..] + y;
        RunsBefore(u[1..], y);
      } else {
        assert (u + y)[..e] == u[..e] && (u + y)[e..] == u[e..] + y;
        RunsBefore(u[e..], y);
      }
    }
  }

  lemma {:induction false} TokenEndBefore(u: string, y: string, i: nat)
    requires Tokenless(y) && i <= |u|
    ensures TokenEnd(u + y, i) == TokenEnd(u, i)
    decreases |u| - i
  {
    if i < |u| {
      TokenEndBefore(u, y, i + 1);
    }
  }

  /** Surrounding whitespace carries no tokens. */
  lemma TokensOfTrimmed(a: Alphabet, s: string)
    requires Lawful(a)
    ensures Tokens(a, Trim(a, s)) == Tokens(a, s)
  {
    hide Trim, Runs;
    var i, j := TrimShape(a, s);
    var x, m, y := s[..i], s[i..j], s[j..];
    assert s == x + m + y;
    LowerAppend(a, x + m, y);
    LowerAppend(a, x, m);
    SpacesLowerTokenless(a, x);
    SpacesLowerTokenless(a, y);
    RunsBefore(Lower(a, x) + Lower(a, m), Lower(a, y));
    RunsAfter(Lower(a, x), Lower(a, m));
  }

  ghost predicate Alnum(ch: char) { 'a' <= ch <= 'z' || '0' <= ch <= '9' }

  /** The token u[i..j] stands in u between characters that belong to no token. */
  ghost predicate TokenAt(u: string, i: nat, j: nat) {
    && i < j <= |u| && (forall k | i <= k < j :: Alnum(u[k]))
    && (i == 0 || !Alnum(u[i - 1])) && (j == |u| || !Alnum(u[j]))
  }

  /** The tokens of a text are its maximal runs of token characters. */
  lemma {:induction false} RunsIff(u: string, w: string)
    ensures w in Runs(u) <==> exists i: nat, j: nat :: TokenAt(u, i, j) && w == u[i..j]
    decreases |u|
  {
    if u != "" {
      var e := TokenEnd(u, 0);
      var d := if e == 0 then 1 else e;
      assert w in Runs(u) <==> (e > 0 && w == u[..e]) || w in Runs(u[d..]);
      RunsIff(u[d..], w);
      hide Runs, TokenEnd;
      TokensFrom(u, d, e, w);
    }
  }

  ghost predicate HasToken(u: string, w: string) { exists i: nat, j: nat :: TokenAt(u, i, j) && w == u[i..j] }

  lemma TokensFrom(u: string, d: nat, e: nat, w: string)
    requires u != "" && e <= |u| && d == (if e == 0 then 1 else e)
    requires (e < |u| ==> !TokenChar(u[e])) && forall k | 0 <= k < e :: TokenChar(u[k])
    ensures HasToken(u, w) <==> (e > 0 && w == u[..e]) || HasToken(u[d..], w)
  {
    var rest := u[d..];
    if i: nat, j: nat :| TokenAt(rest, i, j) && w == rest[i..j] {
      TokenShifts(u, d, i, j);
      assert TokenAt(u, d + i, d + j);
    }
    if i: nat, j: nat :| TokenAt(u, i, j) && w == u[i..j] {
      if i >= d {
        TokenShifts(u, d, i - d, j - d);
        assert TokenAt(rest, i - d, j - d);
      } else {
        assert i == 0 && j == e;
      }
    }
    if e > 0 {
      assert TokenAt(u, 0, e) && u[0..e] == u[..e];
    }
  }

  /** The tokens of a text from d on are those of the whole, if no token reaches across d. */
  lemma TokenShifts(u: string, d: nat, i: nat, j: nat)
    requires 0 < d <= |u| && i < j && (d == |u| || !TokenChar(u[d - 1]) || !TokenChar(u[d]))
    ensures TokenAt(u[d..], i, j) <==> d + j <= |u| && TokenAt(u, d + i, d + j)
    ensures d + j <= |u| ==> u[d..][i..j] == u[d + i..d + j]
  {
    var v := u[d..];
    assert forall k | 0 <= k < |v| :: v[k] == u[d + k];
    if d + j <= |u| && TokenAt(u, d + i, d + j) {
      assert forall k | i <= k < j :: v[k] == u[d + k] && TokenChar(u[d + k]);
    }
    if TokenAt(v, i, j) {
      forall k | d + i <= k < d + j
        ensures TokenChar(u[k])
      {
        assert v[k - d] == u[k];
      }
    }
  }

  lemma {:induction false} RunsAround(u: string, y: string)
    requires y == "" || !TokenChar(y[0])
    ensures Runs(u + y) == Runs(u) + Runs(y)
    decreases |u|
  {
    if u == "" {
      assert u + y == y;
    } else {
      var e := TokenEnd(u, 0);
      TokenEndApart(u, y, 0);
      if e == 0 {
        assert (u + y)[1..] == u[1..] + y;
        RunsAround(u[1..], y);
      } else {
        assert (u + y)[..e] == u[..e] && (u + y)[e..] == u[e..] + y;
        RunsAround(u[e..], y);
      }
    }
  }

  lemma {:induction false} TokenEndApart(u: string, y: string, i: nat)
    requires i <= |u| && (y == "" || !TokenChar(y[0]))
    ensures TokenEnd(u + y, i) == TokenEnd(u, i)
    decreases |u| - i
  {
    if i < |u| {
      TokenEndApart(u, y, i + 1);
    }
  }

  lemma {:induction false} RunOfWord(w: string)
    requires w != "" && forall k | 0 <= k < |w| :: TokenChar(w[k])
    ensures Runs(w) == {w}
  {
    assert TokenEnd(w, 0) == |w|;
    assert w[..|w|] == w && w[|w|..] == "";
  }

  lemma LowerAround(a: Alphabet, x: string, w: string, y: string)
    requires a.lower(' ') == " " && Lower(a, w) == w
    ensures Lower(a, x + " " + w + " " + y) == Lower(a, x) + (" " + (w + (" " + Lower(a, y))))
  {
    hide Lower;
    LowerAppend(a, x + " " + w + " ", y);
    LowerAppend(a, x + " " + w, " ");
    LowerAppend(a, x + " ", w);
    LowerAppend(a, x, " ");
    LowerSpace(a);
  }

  lemma RunsAroundWord(p: string, w: string, q: string)
    requires w != "" && forall k | 0 <= k < |w| :: TokenChar(w[k])
    ensures Runs(p + (" " + (w + (" " + q)))) == Runs(p) + {w} + Runs(q)
  {
    hide Runs;
    var v := w + (" " + q);
    RunsAround(p, " " + v);
    RunsAfter(" ", v);
    RunsAround(w, " " + q);
    RunsAfter(" ", q);
    RunOfWord(w);
  }

  lemma StopWordCarriesNothing(a: Alphabet, x: string, w: string, y: string, stop: set<string>)
    requires a.lower(' ') == " " && Lower(a, w) == w && w in stop
    requires w != "" && forall k | 0 <= k < |w| :: TokenChar(w[k])
    ensures Runs(Lower(a, x + " " + w + " " + y)) - stop == (Runs(Lower(a, x)) - stop) + (Runs(Lower(a, y)) - stop)
  {
    hide Runs, Lower;
    LowerAround(a, x, w, y);
    RunsAroundWord(Lower(a, x), w, Lower(a, y));
  }

  const POV_WORDS := ["you", "your", "yours", "yourself", "he", "his", "him", "himself", "she", "her", "hers", "herself",
                      "they", "their", "them", "i", "me", "my", "mine", "myself"]

  const FUNCTION_WORDS := ["the", "a", "an", "of", "to", "is", "it", "its", "and", "as", "at", "in", "on", "no", "not"]

  lemma PovWordsStop(w: string)
    requires w in POV_WORDS
    ensures w in STOP_WORDS && w != "" && forall k | 0 <= k < |w| :: TokenChar(w[k])
  {}

  lemma FunctionWordsStop(w: string)
    requires w in FUNCTION_WORDS
    ensures w in STOP_WORDS && w != "" && forall k | 0 <= k < |w| :: TokenChar(w[k])
  {}

  /** Person and function words carry no overlap, so a copy that differs from a segment only in them scores as the
      same text; every other token counts. */
  lemma PovWordsCarryNothing(a: Alphabet, x: string, w: string, y: string)
    requires Lawful(a) && a.lower(' ') == " " && Lower(a, w) == w && w in POV_WORDS + FUNCTION_WORDS
    ensures Tokens(a, x + " " + w + " " + y) == Tokens(a, x) + Tokens(a, y)
  {
    if w in POV_WORDS {
      PovWordsStop(w);
    } else {
      FunctionWordsStop(w);
    }
    StopWordCarriesNothing(a, x, w, y, STOP_WORDS);
  }

  lemma OtherWordsCount(a: Alphabet, s: string, w: string)
    requires w !in POV_WORDS + FUNCTION_WORDS
    ensures w in Tokens(a, s) <==> HasToken(Lower(a, s), w)
  {
    hide Runs, Lower;
    RunsIff(Lower(a, s), w);
    assert w !in POV_WORDS && w !in FUNCTION_WORDS;
  }

  lemma LowerSpace(a: Alphabet)
    requires a.lower(' ') == " "
    ensures Lower(a, " ") == " "
  {
    assert " "[1..] == "";
    assert Lower(a, "") == "";
  }

  // ---- the guarantee ---------------------------------------------------

  /** The second pass degrades exactly when every sentence repeats a segment. Otherwise re-splitting the
      published prose gives exactly the sentences of the cut prose that repeat none, trimmed, in order. */
  lemma ReSplit(a: Alphabet, work: string, sets: seq<set<string>>)
    requires Lawful(a)
    ensures var ps := Sentences(a, work);
            && (Degrades(a, work, sets) <==> forall k | 0 <= k < |ps| :: Repeats(a, sets, ps[k]))
            && (!Degrades(a, work, sets) ==> Sentences(a, Scrubbed(a, work, sets)) == TrimAll(a, Kept(a, sets, ps)))
  {
    hide Sentences, Trim, Repeats, NoSplit, Join;
    var ps := Sentences(a, work);
    var kept := Kept(a, sets, ps);
    SentencesShaped(a, work);
    KeptShaped(a, sets, ps);
    KeptClean(a, sets, ps);
    if kept == [] {
      JoinNothing(a);
    } else if |kept| < |ps| {
      NoneBlank(a, ps);
      JoinSplits(a, kept);
      var t := Join(a, kept);
      TrimIs(a, "", t, "");
      assert "" + t + "" == t;
    } else {
      SentencesOfTrimmed(a, work);
    }
  }

  lemma JoinNothing(a: Alphabet)
    ensures Trim(a, Join(a, [])) == ""
  {
    TrimIs(a, "", "", "");
    assert "" + "" + "" == "";
  }

  /** No sentence of the published prose repeats a token set. */
  lemma NoneRepeats(a: Alphabet, work: string, sets: seq<set<string>>)
    requires Lawful(a) && !Degrades(a, work, sets)
    ensures forall k | 0 <= k < |Sentences(a, Scrubbed(a, work, sets))| ::
              !Repeats(a, sets, Sentences(a, Scrubbed(a, work, sets))[k])
  {
    hide Sentences, Trim, Scrubbed, Degrades, Tokens;
    var kept := Kept(a, sets, Sentences(a, work));
    ReSplit(a, work, sets);
    KeptClean(a, sets, Sentences(a, work));
    forall k | 0 <= k < |kept|
      ensures !Repeats(a, sets, Trim(a, kept[k]))
    {
      TokensOfTrimmed(a, kept[k]);
    }
  }

  /** The second pass never empties prose that had content. */
  lemma NeverEmptied(a: Alphabet, work: string, sets: seq<set<string>>)
    requires Lawful(a)
    ensures Scrubbed(a, work, sets) == "" <==> Trim(a, work) == ""
  {
    hide Sentences, Trim, Repeats, NoSplit;
    var ps := Sentences(a, work);
    var kept := Kept(a, sets, ps);
    TrimOfTrimmed(a, Join(a, kept));
    SentencesShaped(a, work);
    KeptClean(a, sets, ps);
    if |kept| < |ps| && !Degrades(a, work, sets) {
      if kept == [] {
        JoinNothing(a);
      } else {
        NoneBlank(a, ps);
        SentencesOfTrimmed(a, work);
        BlankHasOneSentence(a);
      }
    }
  }

  lemma BlankHasOneSentence(a: Alphabet)
    ensures Sentences(a, "") == [""]
  {}

  // ---- the whole scrubber ----------------------------------------------

  /** The part of the prose in front of the aside. */
  function Public(prose: string, aside: Option<nat>): string
    requires aside.Some? ==> aside.value <= |prose|
  {
    if aside.Some? then prose[..aside.value] else prose
  }

  /** Of the content words of either text, at least half are common to both. */
  ghost predicate HalfOverlap(a: Alphabet, x: string, y: string) {
    var s, t := Tokens(a, x), Tokens(a, y);
    s != {} && t != {} && |s * t| as real / |s + t| as real >= 0.5
  }

  /** The sentence overlaps some private segment by at least one half. */
  ghost predicate Leaks(a: Alphabet, segments: seq<string>, sentence: string) {
    exists k | 0 <= k < |segments| :: HalfOverlap(a, sentence, segments[k])
  }

  lemma HalfOverlapIff(a: Alphabet, x: string, y: string)
    requires Tokens(a, y) != {}
    ensures HalfOverlap(a, x, y) <==> Overlaps(Tokens(a, x), Tokens(a, y))
  {
    hide Tokens;
    var s, t := Tokens(a, x), Tokens(a, y);
    if s != {} {
      assert |s + t| > 0 by { assert s <= s + t; var w :| w in s; assert w in s + t; }
      Half(|s * t|, |s + t|);
    }
  }

  lemma Half(m: nat, n: nat)
    requires n > 0
    ensures m as real / n as real >= 0.5 <==> 2 * m >= n
  {
    var q := m as real / n as real;
    assert q * n as real == m as real;
    if q >= 0.5 {
      assert q * n as real >= 0.5 * n as real;
    } else {
      assert q * n as real < 0.5 * n as real;
    }
  }

  lemma {:induction false} LeaksIff(a: Alphabet, segments: seq<string>, sentence: string)
    ensures Leaks(a, segments, sentence) <==> Repeats(a, SegmentTokens(a, segments), sentence)
  {
    hide Tokens, HalfOverlap, Overlaps;
    if segments != [] {
      var rest, sets := segments[1..], SegmentTokens(a, segments[1..]);
      LeaksIff(a, rest, sentence);
      assert forall k | 0 < k < |segments| :: segments[k] == rest[k - 1];
      assert forall k | 0 <= k < |rest| :: rest[k] == segments[k + 1];
      var ts := Tokens(a, segments[0]);
      if ts != {} {
        HalfOverlapIff(a, sentence, segments[0]);
        var all := [ts] + sets;
        assert forall k | 0 < k < |all| :: all[k] == sets[k - 1];
        assert forall k | 0 <= k < |sets| :: sets[k] == all[k + 1];
        assert all[0] == ts;
      } else {
        NoHalf(a, sentence, segments[0]);
        assert [] + sets == sets;
      }
    }
  }

  lemma NoHalf(a: Alphabet, x: string, y: string)
    requires Tokens(a, y) == {}
    ensures !HalfOverlap(a, x, y)
  {}

  /** The sentences that leak nothing, in order. */
  ghost function Unleaked(a: Alphabet, segments: seq<string>, ps: seq<string>): seq<string> {
    if ps == [] then []
    else
      var rest := Unleaked(a, segments, ps[..|ps| - 1]);
      if Leaks(a, segments, ps[|ps| - 1]) then rest else rest + [ps[|ps| - 1]]
  }

  lemma {:induction false} KeptIsUnleaked(a: Alphabet, segments: seq<string>, ps: seq<string>)
    ensures Kept(a, SegmentTokens(a, segments), ps) == Unleaked(a, segments, ps)
  {
    hide Leaks, Repeats, SegmentTokens;
    if ps != [] {
      KeptIsUnleaked(a, segments, ps[..|ps| - 1]);
      LeaksIff(a, segments, ps[|ps| - 1]);
    }
  }

  lemma {:induction false} UnleakedTrimmed(a: Alphabet, segments: seq<string>, ps: seq<string>)
    requires Lawful(a)
    ensures TrimAll(a, Unleaked(a, segments, ps)) == Unleaked(a, segments, TrimAll(a, ps))
  {
    hide Leaks, Trim;
    if ps != [] {
      var n := |ps| - 1;
      UnleakedTrimmed(a, segments, ps[..n]);
      assert TrimAll(a, ps)[..n] == TrimAll(a, ps[..n]);
      LeaksOfTrimmed(a, segments, ps[n]);
    }
  }

  lemma LeaksOfTrimmed(a: Alphabet, segments: seq<string>, sentence: string)
    requires Lawful(a)
    ensures Leaks(a, segments, Trim(a, sentence)) <==> Leaks(a, segments, sentence)
  {
    hide Tokens, Trim;
    TokensOfTrimmed(a, sentence);
  }

  /** Cutting and trimming the end is trimming the public part, as far as sentences go. */
  lemma SentencesOfCut(a: Alphabet, prose: string, aside: Option<nat>)
    requires Lawful(a) && (aside.Some? ==> aside.value <= |prose|)
    ensures TrimAll(a, Sentences(a, PostCut(a, prose, aside))) == Sentences(a, Trim(a, Public(prose, aside)))
    ensures Trim(a, PostCut(a, prose, aside)) == Trim(a, Public(prose, aside))
  {
    hide Sentences, Trim, TrimEnd;
    var work := PostCut(a, prose, aside);
    SentencesOfTrimmed(a, work);
    if aside.Some? {
      TrimAfterTrimEnd(a, prose[..aside.value]);
    }
  }

  lemma TrimSpacesAfter(a: Alphabet, u: string, y: string)
    requires AllSpace(a, y)
    ensures Trim(a, u + y) == Trim(a, u)
  {
    hide Trim;
    var i, j := TrimShape(a, u);
    var x, m, z := u[..i], u[i..j], u[j..];
    assert u + y == x + m + (z + y);
    assert AllSpace(a, x) && AllSpace(a, z + y);
    TrimIs(a, x, m, z + y);
  }

  lemma TrimAfterTrimEnd(a: Alphabet, s: string)
    ensures Trim(a, TrimEnd(a, s)) == Trim(a, s)
  {
    var b := BackSpaces(a, s, |s|);
    var u, y := s[..b], s[b..|s|];
    assert TrimEnd(a, s) == u && AllSpace(a, y) && s == u + y;
    hide Trim, BackSpaces, TrimEnd;
    TrimSpacesAfter(a, u, y);
  }

  /** The published prose, for any prose, aside and segments: degraded exactly when every sentence in front of the
      aside leaks; otherwise its sentences are exactly those in front of the aside that do not leak, in order. */
  lemma ScrubExact(a: Alphabet, prose: string, aside: Option<nat>, segments: seq<string>)
    requires Lawful(a) && (aside.Some? ==> aside.value <= |prose|)
    ensures var ps := Sentences(a, Trim(a, Public(prose, aside)));
            if Degraded(a, prose, aside, segments) then
              && (forall k | 0 <= k < |ps| :: Leaks(a, segments, ps[k]))
              && Published(a, prose, aside, segments) == Trim(a, Public(prose, aside))
            else
              && (exists k | 0 <= k < |ps| :: !Leaks(a, segments, ps[k]))
              && Sentences(a, Published(a, prose, aside, segments)) == Unleaked(a, segments, ps)
  {
    hide Sentences, Trim, Leaks, PostCut, Public, SegmentTokens, Repeats, Kept, Unleaked;
    var work, sets := PostCut(a, prose, aside), SegmentTokens(a, segments);
    var qs := Sentences(a, work);
    var ps := Sentences(a, Trim(a, Public(prose, aside)));
    SentencesOfCut(a, prose, aside);
    assert ps == TrimAll(a, qs);
    ReSplit(a, work, sets);
    KeptIsUnleaked(a, segments, qs);
    UnleakedTrimmed(a, segments, qs);
    forall k | 0 <= k < |qs|
      ensures Leaks(a, segments, ps[k]) <==> Repeats(a, sets, qs[k])
    {
      LeaksOfTrimmed(a, segments, qs[k]);
      LeaksIff(a, segments, qs[k]);
    }
  }

  /** Scrub guarantee: unless the report is degraded, no sentence of the published prose overlaps a private
      segment by half or more. */
  lemma ScrubGuarantee(a: Alphabet, prose: string, aside: Option<nat>, segments: seq<string>)
    requires Lawful(a) && (aside.Some? ==> aside.value <= |prose|) && !Degraded(a, prose, aside, segments)
    ensures var ps := Sentences(a, Published(a, prose, aside, segments));
            forall k, g | 0 <= k < |ps| && 0 <= g < |segments| :: !HalfOverlap(a, ps[k], segments[g])
  {
    hide Sentences, Trim, PostCut, SegmentTokens, Repeats, HalfOverlap, Scrubbed;
    NoneRepeats(a, PostCut(a, prose, aside), SegmentTokens(a, segments));
    var ps := Sentences(a, Published(a, prose, aside, segments));
    forall k | 0 <= k < |ps|
      ensures !Leaks(a, segments, ps[k])
    {
      LeaksIff(a, segments, ps[k]);
    }
  }

  /** The scrubber never empties prose that has content in front of the aside. */
  lemma ScrubKeepsContent(a: Alphabet, prose: string, aside: Option<nat>, segments: seq<string>)
    requires Lawful(a) && (aside.Some? ==> aside.value <= |prose|)
    ensures Published(a, prose, aside, segments) == "" <==> Blank(a, Public(prose, aside))
  {
    hide Sentences, PostCut, SegmentTokens, Scrubbed, Public;
    NeverEmptied(a, PostCut(a, prose, aside), SegmentTokens(a, segments));
    SentencesOfCut(a, prose, aside);
    TrimBlank(a, Public(prose, aside));
    hide Trim;
  }

  lemma TrimBlank(a: Alphabet, s: string)
    ensures Trim(a, s) == "" <==> Blank(a, s)
  {
    hide Trim;
    var i, j := TrimShape(a, s);
  }

  /** Nothing from the aside on reaches the public: what is published depends on the text in front of it alone, and
      without private segments it is that text, trimmed. */
  lemma AsideNeverPublished(a: Alphabet, x: string, y: string, m: nat, segments: seq<string>)
    requires m <= |x| && m <= |y| && x[..m] == y[..m]
    ensures Published(a, x, Some(m), segments) == Published(a, y, Some(m), segments)
    ensures Published(a, x, Some(m), []) == Trim(a, x[..m])
    ensures Published(a, x, None, []) == Trim(a, x)
  {
    hide Sentences, Trim, TrimEnd;
    NothingKeptOut(a, Sentences(a, TrimEnd(a, x[..m])));
    NothingKeptOut(a, Sentences(a, x));
    TrimAfterTrimEnd(a, x[..m]);
  }
}
