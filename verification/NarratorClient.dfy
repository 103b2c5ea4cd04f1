/** The narrator client's turn (sidequest/agents/anthropic_sdk_client.py): drain the message stream,
    then account for it once. Its totals are the shared ledger's; its baselines are its own. */
module NarratorClient {
  import opened Options
  import opened CostSafety
  import opened CostProtocol
  import opened OtherSites
  import Pricing

  // ---- message streams -------------------------------------------------

  /** The terminal message; absent usage reads as zero tokens. */
  datatype Terminal = Terminal(usage: Option<Pricing.Tokens>, isError: bool, maxTurns: bool, text: string) {
    function Tokens(): Pricing.Tokens { if usage.Some? then usage.value else Pricing.NO_TOKENS }
  }

  datatype Fault = AuthUnavailable | MaxTurnsRaised | TransportFailed

  /** What the transport yields next: an assistant message (model "" is no model id; texts are its
      text blocks), a terminal message, or a raise. The end of the sequence is the end of the stream. */
  datatype Item =
    | Assistant(model: string, texts: seq<string>)
    | Result(terminal: Terminal)
    | Broken(fault: Fault)

  ghost function LastResult(s: seq<Item>): Option<Terminal> {
    if s == [] then None
    else if s[|s| - 1].Result? then Some(s[|s| - 1].terminal)
    else LastResult(s[..|s| - 1])
  }

  ghost function LastModel(s: seq<Item>, requested: string): string {
    if s == [] then requested
    else if s[|s| - 1].Assistant? && s[|s| - 1].model != "" then s[|s| - 1].model
    else LastModel(s[..|s| - 1], requested)
  }

  ghost function LastText(s: seq<Item>): string {
    if s == [] then ""
    else if s[|s| - 1].Assistant? && s[|s| - 1].texts != [] then s[|s| - 1].texts[|s[|s| - 1].texts| - 1]
    else LastText(s[..|s| - 1])
  }

  ghost predicate Unbroken(s: seq<Item>) { forall i | 0 <= i < |s| :: !s[i].Broken? }

  /** What "last" means: the result, the model id and the text block after which the stream brings no other. */
  lemma {:induction false} LastsAre(s: seq<Item>, requested: string, k: nat)
    requires k < |s|
    ensures s[k].Result? && (forall j | k < j < |s| :: !s[j].Result?) ==> LastResult(s) == Some(s[k].terminal)
    ensures (forall j | 0 <= j < |s| :: !s[j].Result?) ==> LastResult(s) == None
    ensures s[k].Assistant? && s[k].model != "" && (forall j | k < j < |s| :: s[j].Assistant? ==> s[j].model == "") ==>
              LastModel(s, requested) == s[k].model
    ensures (forall j | 0 <= j < |s| :: s[j].Assistant? ==> s[j].model == "") ==> LastModel(s, requested) == requested
    ensures s[k].Assistant? && s[k].texts != [] && (forall j | k < j < |s| :: s[j].Assistant? ==> s[j].texts == []) ==>
              LastText(s) == s[k].texts[|s[k].texts| - 1]
    ensures (forall j | 0 <= j < |s| :: s[j].Assistant? ==> s[j].texts == []) ==> LastText(s) == ""
  {
    var n := |s| - 1;
    if n > 0 {
      LastsAre(s[..n], requested, if k < n then k else 0);
    }
  }

  datatype Drained = Broke(fault: Fault) | Ended(result: Option<Terminal>, model: string, text: string)

  /** The hand-driven message loop: the first raise aborts it; otherwise it remembers the last
      terminal message, the last model id and the last text block seen anywhere in the stream. */
  method Drain(stream: seq<Item>, requested: string) returns (d: Drained)
    ensures d.Broke? ==> exists i | 0 <= i < |stream| :: stream[i] == Broken(d.fault) && Unbroken(stream[..i])
    ensures d.Ended? ==> Unbroken(stream)
                         && d == Ended(LastResult(stream), LastModel(stream, requested), LastText(stream))
  {
    var result: Option<Terminal> := None;
    var model, text := requested, "";
    for i := 0 to |stream|
      invariant Unbroken(stream[..i])
      invariant Ended(result, model, text)
             == Ended(LastResult(stream[..i]), LastModel(stream[..i], requested), LastText(stream[..i]))
    {
      assert stream[..i + 1][..i] == stream[..i];
      match stream[i] {
        case Broken(fault) =>
          return Broke(fault);
        case Result(terminal) =>
          result := Some(terminal);
        case Assistant(id, texts) =>
          if id != "" { model := id; }
          if texts != [] { text := texts[|texts| - 1]; }
      }
    }
    assert stream[..|stream|] == stream;
    return Ended(result, model, text);
  }

  // ---- the client ------------------------------------------------------

  datatype Outcome =
    | Refused(refusal: Raise)
    | StreamFailed(fault: Fault)
    | NoTerminal
    | UnknownModel
    | AlarmLost
    | Killed(raise: Raise)
    | LoopExceeded
    | QueryFailed
    | Answer(text: string, model: string, cost: real)

  /** What may happen between two messages of a turn's stream: another site touches the shared ledger, or
      another turn of this same client is accounted for or has its session's baselines reset. */
  datatype Meanwhile =
    | Elsewhere(other: Other)
    | Here(session: string, bill: Bill, alarmPublishes: bool, ceilingPublishes: bool)
    | HereReset(session: string)

  function Pass(ceiling: real, id: nat, st: State, m: Meanwhile): (r: State)
    requires st.Paired()
    ensures r.Paired()
  {
    match m
    case Elsewhere(o) => st.(ledger := Act(st.ledger, o, ceiling))
    case Here(session, b, alarmPublishes, ceilingPublishes) =>
      Post(ceiling, st, Stream(Narrator(id), session), b, alarmPublishes, ceilingPublishes).0
    case HereReset(session) => Step(ceiling, st, Reset(id, session)).0
  }

  function PassAll(ceiling: real, id: nat, st: State, ms: seq<Meanwhile>): (r: State)
    requires st.Paired()
    ensures r.Paired()
  {
    if ms == [] then st else Pass(ceiling, id, PassAll(ceiling, id, st, ms[..|ms| - 1]), ms[|ms| - 1])
  }

  ghost predicate NonNegative(ms: seq<Meanwhile>) {
    forall i | 0 <= i < |ms| ::
      (ms[i].Elsewhere? ==> Sane([ms[i].other])) && (ms[i].Here? ==> ms[i].bill.cost >= 0.0)
  }

  /** A session's total never falls during an await. */
  lemma {:induction false} AwaitOnlyAdds(ceiling: real, id: nat, st: State, ms: seq<Meanwhile>, session: string)
    requires st.Paired() && NonNegative(ms)
    ensures Spent(PassAll(ceiling, id, st, ms).ledger.books, session) >= Spent(st.ledger.books, session)
  {
    hide Pass;
    if ms != [] {
      var n := |ms| - 1;
      AwaitOnlyAdds(ceiling, id, st, ms[..n], session);
      PassAdds(ceiling, id, PassAll(ceiling, id, st, ms[..n]), ms[n], session);
    }
  }

  lemma PassAdds(ceiling: real, id: nat, st: State, m: Meanwhile, session: string)
    requires st.Paired() && NonNegative([m])
    ensures Spent(Pass(ceiling, id, st, m).ledger.books, session) >= Spent(st.ledger.books, session)
  {
    assert [m][0] == m;
    hide Post, Charge, Act, Step;
    match m
    case Elsewhere(o) => ActAdds(st.ledger, o, ceiling, session);
    case Here(s, b, alarmPublishes, ceilingPublishes) =>
      PostCharges(ceiling, st, Stream(Narrator(id), s), b, alarmPublishes, ceilingPublishes);
      ChargeSpends(st.ledger.books, s, b.cost, ceiling, ceilingPublishes, session);
    case HereReset(s) => ResetKeepsBooks(ceiling, st, Reset(id, s));
  }

  /** The stream ended normally with a terminal message. */
  ghost predicate Terminated(stream: seq<Item>) { Unbroken(stream) && LastResult(stream).Some? }

  ghost function Last(stream: seq<Item>): Terminal
    requires LastResult(stream).Some?
  {
    LastResult(stream).value
  }

  /** The price of the last terminal message at the last model id; without usage, of nothing. */
  ghost function TurnCost(stream: seq<Item>, requested: string): Option<real>
    requires LastResult(stream).Some?
  {
    match Last(stream).usage
    case Some(tokens) => Pricing.ComputeCost(LastModel(stream, requested), tokens)
    case None => Pricing.ComputeCost(LastModel(stream, requested), Pricing.Tokens(0, 0, 0, 0, 0, 0))
  }

  lemma TurnCostIs(stream: seq<Item>, requested: string)
    requires LastResult(stream).Some?
    ensures TurnCost(stream, requested) == Pricing.ComputeCost(LastModel(stream, requested), LastResult(stream).value.Tokens())
  {}

  ghost predicate Chargeable(stream: seq<Item>, requested: string, session: Option<string>) {
    Terminated(stream) && session.Some? && TurnCost(stream, requested).Some?
  }

  ghost function TurnBill(stream: seq<Item>, requested: string, session: Option<string>): Bill
    requires Chargeable(stream, requested, session)
  {
    Bill(LastModel(stream, requested), Last(stream).Tokens(), TurnCost(stream, requested).value)
  }

  /** How the protocol posts the turn after everything that happened meanwhile, if it is charged at all. */
  ghost function TurnPosting(ceiling: real, id: nat, st: State, stream: seq<Item>, requested: string,
                             session: Option<string>, during: seq<Meanwhile>,
                             alarmPublishes: bool, ceilingPublishes: bool): Option<Posting>
    requires st.Paired()
  {
    if !Chargeable(stream, requested, session) then None
    else Some(Post(ceiling, PassAll(ceiling, id, st, during), Stream(Narrator(id), session.value),
                   TurnBill(stream, requested, session), alarmPublishes, ceilingPublishes).1)
  }

  /** How a turn that was not refused ends, given how it was posted: every outcome exactly when its condition holds. */
  ghost predicate Outcomes(stream: seq<Item>, requested: string, posting: Option<Posting>, r: Outcome) {
    && !r.Refused?
    && (r.StreamFailed? <==> !Unbroken(stream))
    && (r.StreamFailed? ==> exists i | 0 <= i < |stream| :: stream[i] == Broken(r.fault) && Unbroken(stream[..i]))
    && (r.NoTerminal? <==> Unbroken(stream) && LastResult(stream).None?)
    && (r.UnknownModel? <==> Terminated(stream) && TurnCost(stream, requested).None?)
    && (r.AlarmLost? <==> posting.Some? && posting.value.Lost?)
    && (r.Killed? <==> posting.Some? && posting.value.Booked? && posting.value.raise != NoRaise)
    && (r.Killed? ==> r.raise == posting.value.raise)
    && var settled := Terminated(stream) && TurnCost(stream, requested).Some?
                      && (posting.Some? ==> posting.value.Booked? && posting.value.raise == NoRaise);
       && (r.LoopExceeded? <==> settled && Last(stream).isError && Last(stream).maxTurns)
       && (r.QueryFailed? <==> settled && Last(stream).isError && !Last(stream).maxTurns)
       && (r.Answer? <==> settled && !Last(stream).isError)
       && (r.Answer? ==>
           && r.text == (if Last(stream).text != "" then Last(stream).text else LastText(stream))
           && r.model == LastModel(stream, requested) && Some(r.cost) == TurnCost(stream, requested))
  }

  /** What a settled turn comes to. */
  ghost function Told(last: Terminal, model: string, text: string, cost: real): Outcome {
    if last.isError then (if last.maxTurns then LoopExceeded else QueryFailed)
    else Answer(if last.text != "" then last.text else text, model, cost)
  }

  lemma UnsettledOutcomes(stream: seq<Item>, requested: string, r: Outcome)
    requires if !Unbroken(stream) then
               r.StreamFailed? && exists i | 0 <= i < |stream| :: stream[i] == Broken(r.fault) && Unbroken(stream[..i])
             else if LastResult(stream).None? then r == NoTerminal
             else TurnCost(stream, requested).None? && r == UnknownModel
    ensures Outcomes(stream, requested, None, r)
  {}

  lemma SettledOutcomes(stream: seq<Item>, requested: string, posting: Option<Posting>, r: Outcome)
    requires Terminated(stream) && TurnCost(stream, requested).Some?
    requires r == if posting.Some? && posting.value.Lost? then AlarmLost
                  else if posting.Some? && posting.value.raise != NoRaise then Killed(posting.value.raise)
                  else Told(Last(stream), LastModel(stream, requested), LastText(stream), TurnCost(stream, requested).value)
    ensures Outcomes(stream, requested, posting, r)
  {
    hide TurnCost, LastModel, LastText;
  }

  class AnthropicSdkClient {
    const id: nat
    const ledger: SessionCostLedger
    const ceiling: real
    var costBaseline: map<string, seq<real>>
    var inputBaseline: map<string, seq<int>>

    ghost function Baselines(): Windows<string>
      reads this
    {
      Windows(costBaseline, inputBaseline)
    }

    ghost predicate Valid()
      reads this, ledger
    {
      Baselines().Paired() && ledger.Valid()
    }

    /** This client and its ledger as a state of the protocol. */
    ghost function View(): (st: State)
      reads this, ledger
    {
      State(ledger.Value(), map[id := Baselines()], map[])
    }

    constructor (id: nat, ledger: SessionCostLedger, ceiling: real)
      requires ledger.Valid()
      ensures Valid() && this.id == id && this.ledger == ledger && this.ceiling == ceiling
      ensures Baselines() == Windows(map[], map[])
    {
      this.id, this.ledger, this.ceiling := id, ledger, ceiling;
      costBaseline, inputBaseline := map[], map[];
    }

    method Append(session: string, b: Bill)
      modifies this
      ensures Baselines() == old(Baselines()).Observe(session, b)
    {
      costBaseline :=
        costBaseline[session := Push(if session in costBaseline then costBaseline[session] else [], b.cost)];
      inputBaseline :=
        inputBaseline[session := Push(if session in inputBaseline then inputBaseline[session] else [], b.tokens.input)];
    }

    /** Accounting for a narrator call is exactly the protocol's posting at a narrator site. */
    method Account(session: string, b: Bill, alarmPublishes: bool, ceilingPublishes: bool) returns (p: Posting)
      requires Valid()
      modifies this, ledger
      ensures Valid()
      ensures (View(), p)
           == Post(ceiling, old(View()), Stream(Narrator(id), session), b, alarmPublishes, ceilingPublishes)
    {
      hide Judge, Charge, Push, Windows.Observe;
      ghost var before := View();
      assert before.ClientWindows(id) == Baselines();
      var v := Judge(if session in costBaseline then Some(costBaseline[session]) else None,
                     if session in inputBaseline then Some(inputBaseline[session]) else None, b);
      if v.Alarm? && !alarmPublishes {
        return Lost(v);
      }
      Append(session, b);
      var raise, emitted := ledger.UpdateCumulative(session, b.cost, ceiling, ceilingPublishes);
      assert before.clients[id := Baselines()] == map[id := Baselines()];
      return Booked(v, raise, emitted);
    }

    /** Ends one session's baselines here and in the ledger, as the protocol's reset does. */
    method ResetBaselines(session: string)
      requires Valid()
      modifies this, ledger
      ensures Valid()
      ensures View() == Step(ceiling, old(View()), Reset(id, session)).0
    {
      hide ClearBaselines, Windows.Paired;
      ghost var before := View();
      assert before.ClientWindows(id) == Baselines();
      costBaseline := costBaseline - {session};
      inputBaseline := inputBaseline - {session};
      assert Baselines() == before.ClientWindows(id).Forget({session});
      ledger.ResetBaselines(session);
      assert before.clients[id := Baselines()] == map[id := Baselines()];
    }

    /** Everything that happens between the turn's pre-flight check and its accounting. */
    method Await(during: seq<Meanwhile>)
      requires Valid()
      modifies this, ledger
      ensures Valid() && View() == PassAll(ceiling, id, old(View()), during)
    {
      hide Act, Post, Step, Windows.Paired;
      for i := 0 to |during|
        invariant Valid() && View() == PassAll(ceiling, id, old(View()), during[..i])
      {
        match during[i] {
          case Elsewhere(o) =>
            ActOn(ledger, o, ceiling);
          case Here(session, b, alarmPublishes, ceilingPublishes) =>
            var _ := Account(session, b, alarmPublishes, ceilingPublishes);
          case HereReset(session) =>
            ResetBaselines(session);
        }
        assert during[..i + 1][..i] == during[..i];
      }
      assert during[..|during|] == during;
    }

    /** One turn. Whatever the stream holds and whatever other turns and sites do while it is drained, the turn
        itself moves the ledger at most once, by its bill; that happens before any error result is raised. */
    method CompleteWithTools(stream: seq<Item>, requested: string, session: Option<string>, during: seq<Meanwhile>,
                             alarmPublishes: bool, ceilingPublishes: bool) returns (r: Outcome)
      requires Valid()
      modifies this, ledger
      ensures Valid()
      ensures r.Refused? <==> session.Some? && Spent(old(ledger.Value()).books, session.value) >= ceiling
      ensures r.Refused? ==> View() == old(View())
      ensures !r.Refused? ==>
                View() == (if Chargeable(stream, requested, session) then
                             Post(ceiling, PassAll(ceiling, id, old(View()), during), Stream(Narrator(id), session.value),
                                  TurnBill(stream, requested, session), alarmPublishes, ceilingPublishes).0
                           else PassAll(ceiling, id, old(View()), during))
      ensures !r.Refused? ==>
                Outcomes(stream, requested, TurnPosting(ceiling, id, old(View()), stream, requested, session, during,
                                                        alarmPublishes, ceilingPublishes), r)
      ensures r.Answer? && session.Some? ==>
                && Spent(ledger.Value().books, session.value)
                   == Spent(PassAll(ceiling, id, old(View()), during).ledger.books, session.value) + r.cost
                && Spent(ledger.Value().books, session.value) < ceiling
      ensures r.Answer? && session.Some? && NonNegative(during) ==>
                Spent(ledger.Value().books, session.value) >= Spent(old(ledger.Value()).books, session.value) + r.cost
    {
      hide Post, Charge, Pricing.ComputeCost, PassAll, Windows.Paired, TurnCost, Outcomes, LastModel, LastText, LastResult;
      if LastResult(stream).Some? {
        TurnCostIs(stream, requested);
      }
      if session.Some? {
        var refusal := ledger.CheckCeiling(session.value, ceiling);
        if refusal != NoRaise {
          return Outcome.Refused(refusal);
        }
      }
      if session.Some? && NonNegative(during) {
        AwaitOnlyAdds(ceiling, id, View(), during, session.value);
      }
      Await(during);
      var d := Drain(stream, requested);
      if d.Broke? {
        UnsettledOutcomes(stream, requested, StreamFailed(d.fault));
        return StreamFailed(d.fault);
      }
      if d.result.None? {
        UnsettledOutcomes(stream, requested, NoTerminal);
        return NoTerminal;
      }
      ghost var st := View();
      r := Conclude(d.result.value, d.model, d.text, session, alarmPublishes, ceilingPublishes);
      if TurnCost(stream, requested).None? {
        UnsettledOutcomes(stream, requested, r);
      } else {
        SettledOutcomes(stream, requested, TurnPosting(ceiling, id, old(View()), stream, requested, session, during,
                                                       alarmPublishes, ceilingPublishes), r);
      }
    }

    /** The end of a turn with a terminal message: price it, account for it, and only then look at its error flag. */
    method Conclude(last: Terminal, model: string, text: string, session: Option<string>,
                    alarmPublishes: bool, ceilingPublishes: bool) returns (r: Outcome)
      requires Valid()
      modifies this, ledger
      ensures Valid()
      ensures var cost := Pricing.ComputeCost(model, last.Tokens());
              if cost.None? then r == UnknownModel && View() == old(View())
              else if session.None? then r == Told(last, model, text, cost.value) && View() == old(View())
              else
                var (st, p) := Post(ceiling, old(View()), Stream(Narrator(id), session.value),
                                    Bill(model, last.Tokens(), cost.value), alarmPublishes, ceilingPublishes);
                && View() == st
                && r == (if p.Lost? then AlarmLost else if p.raise != NoRaise then Killed(p.raise)
                         else Told(last, model, text, cost.value))
                && (p.Booked? && p.raise == NoRaise ==>
                    && Spent(st.ledger.books, session.value) == Spent(old(ledger.Value()).books, session.value) + cost.value
                    && Spent(st.ledger.books, session.value) < ceiling)
    {
      hide Post, Charge, Pricing.ComputeCost, Windows.Paired;
      var cost := Pricing.ComputeCost(model, last.Tokens());
      if cost.None? {
        return UnknownModel;
      }
      if session.Some? {
        ghost var before := View();
        var b := Bill(model, last.Tokens(), cost.value);
        var p := Account(session.value, b, alarmPublishes, ceilingPublishes);
        PostCharges(ceiling, before, Stream(Narrator(id), session.value), b, alarmPublishes, ceilingPublishes);
        if p.Lost? {
          return AlarmLost;
        }
        ChargeSpends(before.ledger.books, session.value, b.cost, ceiling, ceilingPublishes, session.value);
        if p.raise != NoRaise {
          return Killed(p.raise);
        }
      }
      if last.isError {
        return if last.maxTurns then LoopExceeded else QueryFailed;
      }
      return Answer(if last.text != "" then last.text else text, model, cost.value);
    }
  }
}
