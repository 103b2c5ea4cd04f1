/** The repair chain after a narration turn (sidequest/agents/orchestrator.py:3380-3464, 3491-3528, 3584-3649):
    recover empty prose by one toolless reprompt, guard against blank prose, launder invented rolls. The
    follow-up model's replies are adversarial inputs; None is a failed call. */
module NarrationRepair {
  import opened Options
  import opened Text

  const STALL := "The world holds its breath."
  const ROLL_TOOLS := {"roll_dice"}

  class TurnResult {
    var narration: string
    var isDegraded: bool
    var toolCalls: seq<string>

    constructor (narration: string, isDegraded: bool, toolCalls: seq<string>)
      ensures this.narration == narration && this.isDegraded == isDegraded && this.toolCalls == toolCalls
    {
      this.narration, this.isDegraded, this.toolCalls := narration, isDegraded, toolCalls;
    }
  }

  /** What the model's text is worth: its trimmed form, or nothing. */
  function Cleaned(a: Alphabet, reply: Option<string>): Option<string> {
    if reply.None? || Trim(a, reply.value) == "" then None else Some(Trim(a, reply.value))
  }

  predicate RollFired(tools: seq<string>) { exists k | 0 <= k < |tools| :: tools[k] in ROLL_TOOLS }

  /** detect_fabricated_roll; `matches` is the roll patterns on non-empty text. */
  predicate Fabricated(matches: string -> bool, narration: string, fired: bool) {
    !fired && narration != "" && matches(narration)
  }

  /** The rewrite has content and no roll left in it. */
  predicate Launders(a: Alphabet, matches: string -> bool, rewrite: Option<string>) {
    Cleaned(a, rewrite).Some? && !matches(Cleaned(a, rewrite).value)
  }

  predicate Recovers(a: Alphabet, tooling: bool, tools: seq<string>, reply: Option<string>) {
    tooling && tools != [] && Cleaned(a, reply).Some?
  }

  /** The prose after recovery and guard. */
  function Filled(a: Alphabet, first: string, tooling: bool, tools: seq<string>, reply: Option<string>): string {
    if Trim(a, first) != "" then first
    else if Recovers(a, tooling, tools, reply) then Cleaned(a, reply).value
    else STALL
  }

  /** Only blank prose of a tooling turn that acted is recovered, and only by a reply with content. */
  method RecoverEmptyProse(a: Alphabet, result: TurnResult, tooling: bool, reply: Option<string>)
    modifies result`narration
    ensures result.narration
         == if Trim(a, old(result.narration)) == "" && Recovers(a, tooling, result.toolCalls, reply)
            then Cleaned(a, reply).value else old(result.narration)
  {
    if Trim(a, result.narration) != "" || !tooling || result.toolCalls == [] {
      return;
    }
    var recovered := Cleaned(a, reply);
    if recovered.Some? {
      TrimOfTrimmed(a, reply.value);
      result.narration := Trim(a, recovered.value);
    }
  }

  /** Blank prose becomes the degraded stall; prose with content passes untouched. */
  method GuardEmptyNarration(a: Alphabet, result: TurnResult)
    requires Lawful(a)
    modifies result`narration, result`isDegraded
    ensures Trim(a, result.narration) != ""
    ensures if Trim(a, old(result.narration)) == "" then result.narration == STALL && result.isDegraded
            else result.narration == old(result.narration) && result.isDegraded == old(result.isDegraded)
  {
    if Trim(a, result.narration) != "" {
      return;
    }
    result.narration := STALL;
    result.isDegraded := true;
    StallHasContent(a);
  }

  lemma StallHasContent(a: Alphabet)
    requires Lawful(a)
    ensures Trim(a, STALL) == STALL
  {
    assert AsciiAlnum(STALL[0]);
    TrimIs(a, "", STALL, "");
    assert "" + STALL + "" == STALL;
  }

  /** A fabricated roll is replaced by the rewrite when the client can rewrite and the rewrite is clean. */
  method RepairFabricatedRoll(a: Alphabet, matches: string -> bool, result: TurnResult, tooling: bool,
                              rewrite: Option<string>)
    modifies result`narration
    ensures result.narration
         == if Fabricated(matches, old(result.narration), RollFired(result.toolCalls)) && tooling
               && Launders(a, matches, rewrite)
            then Cleaned(a, rewrite).value else old(result.narration)
  {
    var fired := false;
    var i := 0;
    while i < |result.toolCalls| && !fired
      invariant 0 <= i <= |result.toolCalls|
      invariant fired <==> exists k | 0 <= k < i :: result.toolCalls[k] in ROLL_TOOLS
    {
      fired := result.toolCalls[i] in ROLL_TOOLS;
      i := i + 1;
    }
    if !Fabricated(matches, result.narration, fired) {
      return;
    }
    var repaired: Option<string> := None;
    if tooling {
      repaired := Cleaned(a, rewrite);
      if repaired.Some? && Fabricated(matches, repaired.value, false) {
        repaired := None;
      }
    }
    if repaired.Some? {
      result.narration := repaired.value;
    }
  }

  /** The whole chain, for every first result and every behaviour of the follow-up calls: the narration ends
      non-blank and the tool calls are untouched; the turn is degraded exactly when it already was, or started
      blank and was not recovered; and the published narration holds a fabricated roll exactly when the filled
      prose did and the client could not rewrite it or the rewrite was missing, blank or still dirty. */
  method RunRepairs(a: Alphabet, matches: string -> bool, result: TurnResult, tooling: bool,
                    reply: Option<string>, rewrite: Option<string>)
    requires Lawful(a)
    modifies result`narration, result`isDegraded
    ensures Trim(a, result.narration) != ""
    ensures result.isDegraded
         == (old(result.isDegraded)
             || (Trim(a, old(result.narration)) == "" && !Recovers(a, tooling, result.toolCalls, reply)))
    ensures var filled, fired := Filled(a, old(result.narration), tooling, result.toolCalls, reply),
                                 RollFired(result.toolCalls);
            && (Fabricated(matches, result.narration, fired)
                <==> Fabricated(matches, filled, fired) && !(tooling && Launders(a, matches, rewrite)))
            && (!Fabricated(matches, filled, fired) ==> result.narration == filled)
    ensures var first, blank := old(result.narration), Trim(a, old(result.narration)) == "";
            var recovered := blank && tooling && result.toolCalls != [] && reply != None && Trim(a, reply.value) != "";
            var filled := if !blank then first else if recovered then Trim(a, reply.value) else "The world holds its breath.";
            var invented := "roll_dice" !in result.toolCalls && filled != "" && matches(filled);
            var laundered := invented && tooling && rewrite != None && Trim(a, rewrite.value) != ""
                             && !matches(Trim(a, rewrite.value));
            && result.narration == (if laundered then Trim(a, rewrite.value) else filled)
            && result.isDegraded == (old(result.isDegraded) || (blank && !recovered))
  {
    ghost var first, degraded := result.narration, result.isDegraded;
    Repairs(a, matches, result, tooling, reply, rewrite);
    FiredIff(result.toolCalls);
    CleanedIs(a, reply);
    CleanedIs(a, rewrite);
    CleanedHasContent(a, rewrite);
    hide Trim, RollFired, Cleaned;
  }

  /** The chain of repairs. */
  method Repairs(a: Alphabet, matches: string -> bool, result: TurnResult, tooling: bool,
                 reply: Option<string>, rewrite: Option<string>)
    requires Lawful(a)
    modifies result`narration, result`isDegraded
    ensures Trim(a, result.narration) != ""
    ensures result.isDegraded
         == (old(result.isDegraded)
             || (Trim(a, old(result.narration)) == "" && !Recovers(a, tooling, result.toolCalls, reply)))
    ensures var filled := Filled(a, old(result.narration), tooling, result.toolCalls, reply);
            result.narration == if Fabricated(matches, filled, RollFired(result.toolCalls)) && tooling
                                   && Launders(a, matches, rewrite)
                                then Cleaned(a, rewrite).value else filled
  {
    hide Trim, Cleaned, RollFired;
    RecoverEmptyProse(a, result, tooling, reply);
    CleanedHasContent(a, reply);
    GuardEmptyNarration(a, result);
    RepairFabricatedRoll(a, matches, result, tooling, rewrite);
    CleanedHasContent(a, rewrite);
  }

  lemma CleanedIs(a: Alphabet, reply: Option<string>)
    ensures Cleaned(a, reply).Some? <==> reply != None && Trim(a, reply.value) != ""
    ensures Cleaned(a, reply).Some? ==> Cleaned(a, reply).value == Trim(a, reply.value)
  {}

  lemma FiredIff(tools: seq<string>)
    ensures RollFired(tools) <==> "roll_dice" in tools
  {}

  lemma CleanedHasContent(a: Alphabet, reply: Option<string>)
    ensures Cleaned(a, reply).Some? ==> Trim(a, Cleaned(a, reply).value) != ""
  {
    if reply.Some? {
      TrimOfTrimmed(a, reply.value);
    }
  }
}
