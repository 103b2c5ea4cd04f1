/** The intent router's bounded retry loop over the shared ledger (sidequest/agents/intent_router.py
    and the single-shot adapter path of sidequest/agents/llm_factory.py).

    Every attempt passes the adapter's pre-flight check, awaits the backend, is recorded, and only
    then has its structured output read and validated. While the router awaits, and between its
    attempts, other call sites work on the shared ledger. A router without a session opts out of the
    check and of the books. */
module IntentRouter {
  import opened Options
  import opened CostSafety
  import opened OtherSites
  import Pricing

  const CALLER := "intent_router"

  /** What the backend does with one request: the structured output is absent on a refusal or pause. */
  datatype Backend<P> =
    | TimesOut
    | Raises
    | NoUsage
    | Answers(model: string, tokens: Pricing.Tokens, structured: Option<P>,
              alarmPublishes: bool, ceilingPublishes: bool)

  /** One attempt's surroundings: what others do before it and during its await, and the backend. */
  datatype Round<P> = Round(before: seq<Other>, during: seq<Other>, backend: Backend<P>)

  /** Validation yields a package or the text of the schema error. */
  datatype Validation<Q> = Accepted(package: Q) | Rejected(error: string)

  /** How one attempt ended; `booked` is what it added to the session's total. */
  datatype Attempt<Q> =
    | Refused
    | TimedOut
    | NoAnswer
    | AlarmLost
    | Crossed(booked: real)
    | Empty(booked: real)
    | Invalid(booked: real, error: string)
    | Validated(booked: real, package: Q)

  datatype Reason = Timeout | EmptyResponse | Transport | SchemaInvalid

  /** Failure is IntentRouterFailure. */
  datatype Outcome<Q> = Package(package: Q) | Failure(reason: Reason)

  function Billed<Q>(a: Attempt<Q>): real {
    match a
    case Refused => 0.0
    case TimedOut => 0.0
    case NoAnswer => 0.0
    case AlarmLost => 0.0
    case Crossed(x) => x
    case Empty(x) => x
    case Invalid(x, _) => x
    case Validated(x, _) => x
  }

  /** How a failed attempt is reported; whatever the ledger raises passes for a transport failure. */
  function ReasonOf<Q>(a: Attempt<Q>): Reason {
    match a
    case TimedOut => Timeout
    case Empty(_) => EmptyResponse
    case Invalid(_, _) => SchemaInvalid
    case _ => Transport
  }

  /** What an answer costs, at a priced model. */
  ghost function BillFor<P>(b: Backend<P>): Option<Bill> {
    if b.Answers? && Pricing.ComputeCost(b.model, b.tokens).Some? then
      Some(Bill(b.model, b.tokens, Pricing.ComputeCost(b.model, b.tokens).value))
    else None
  }

  /** The ceiling had been reached by the time this attempt ended. */
  predicate Stops<Q>(a: Attempt<Q>) { a.Crossed? || a.Refused? }

  function TotalBilled<Q>(trace: seq<Attempt<Q>>): real {
    if trace == [] then 0.0 else TotalBilled(trace[..|trace| - 1]) + Billed(trace[|trace| - 1])
  }

  /** The schema error of the latest invalid attempt; failures of other kinds since do not clear it. */
  function LastError<Q>(trace: seq<Attempt<Q>>): Option<string> {
    if trace == [] then None
    else if trace[|trace| - 1].Invalid? then Some(trace[|trace| - 1].error)
    else LastError(trace[..|trace| - 1])
  }

  ghost predicate Stopped<Q>(trace: seq<Attempt<Q>>) { exists i | 0 <= i < |trace| :: Stops(trace[i]) }

  /** After an attempt at or above the ceiling every later one is refused. */
  ghost predicate Halts<Q>(trace: seq<Attempt<Q>>) {
    forall i, j | 0 <= i < j < |trace| && Stops(trace[i]) :: trace[j] == Refused
  }

  /** Attempt i was prompted with the schema error of the latest invalid attempt before it, if any. */
  ghost predicate Prompted<Q>(trace: seq<Attempt<Q>>, corrections: seq<Option<string>>) {
    |corrections| == |trace| && forall i | 0 <= i < |trace| :: corrections[i] == LastError(trace[..i])
  }

  lemma EmptyTrace<Q>()
    ensures TotalBilled<Q>([]) == 0.0 && LastError<Q>([]) == None
    ensures !Stopped<Q>([]) && Halts<Q>([]) && Prompted<Q>([], [])
  {}

  lemma TraceSnoc<Q>(trace: seq<Attempt<Q>>, a: Attempt<Q>, corrections: seq<Option<string>>)
    ensures TotalBilled(trace + [a]) == TotalBilled(trace) + Billed(a)
    ensures LastError(trace + [a]) == if a.Invalid? then Some(a.error) else LastError(trace)
    ensures Stopped(trace + [a]) <==> Stopped(trace) || Stops(a)
    ensures Halts(trace) && (Stopped(trace) ==> a == Refused) ==> Halts(trace + [a])
    ensures Prompted(trace, corrections) ==> Prompted(trace + [a], corrections + [LastError(trace)])
  {
    var longer := trace + [a];
    assert forall i | 0 <= i <= |trace| :: longer[..i] == trace[..i];
    assert trace[..|trace|] == trace && longer[|trace|] == a;
    if Stopped(trace) {
      var i :| 0 <= i < |trace| && Stops(trace[i]);
      assert Stops(longer[i]);
    }
  }

  /** A run that stopped ends in a refusal or a crossing, reported as a transport failure. */
  lemma StoppedEnds<Q>(trace: seq<Attempt<Q>>)
    requires Halts(trace) && Stopped(trace)
    ensures Stops(trace[|trace| - 1]) && ReasonOf(trace[|trace| - 1]) == Transport
  {}

  class IntentRouter<P, Q> {
    const ledger: SessionCostLedger
    const ceiling: real
    const session: Option<string>
    const validate: P -> Validation<Q>
    var sdkRoundTrips: nat

    constructor (ledger: SessionCostLedger, ceiling: real, session: Option<string>, validate: P -> Validation<Q>)
      ensures this.ledger == ledger && this.ceiling == ceiling && this.session == session
      ensures this.validate == validate && sdkRoundTrips == 0
    {
      this.ledger, this.ceiling, this.session, this.validate := ledger, ceiling, session, validate;
      sdkRoundTrips := 0;
    }

    ghost function Total(): real
      reads ledger
    {
      if session.Some? then Spent(ledger.Value().books, session.value) else 0.0
    }

    /** The other sites at work: whatever they do, the session's total never falls. */
    method Wait(os: seq<Other>) returns (ghost added: real)
      requires ledger.Valid() && Sane(os)
      modifies ledger
      ensures ledger.Valid() && ledger.Value() == ActAll(old(ledger.Value()), os, ceiling)
      ensures added >= 0.0 && Total() == old(Total()) + added
    {
      hide ActAll;
      if session.Some? {
        OthersOnlyAdd(ledger.Value(), os, ceiling, session.value);
      }
      Disturb(ledger, os, ceiling);
      added := Total() - old(Total());
    }

    /** The recording of a priced answer, if there is a session, after what others did during the await. */
    ghost function PostedIn(round: Round<P>, l: Ledger): Option<(Ledger, Posting)>
      requires l.windows.Paired()
    {
      var b, bill := round.backend, BillFor(round.backend);
      if session.None? || bill.None? then None
      else Some(Record(ActAll(l, round.during, ceiling), AdapterKey(session.value, CALLER), bill.value, ceiling,
                       b.alarmPublishes, b.ceilingPublishes))
    }

    /** How an admitted attempt ends, given how it was posted: every outcome exactly when its condition holds. */
    ghost predicate Ends(b: Backend<P>, posting: Option<Posting>, a: Attempt<Q>) {
      var bill := BillFor(b);
      var settled := bill.Some? && (posting.Some? ==> posting.value.Booked? && posting.value.raise == NoRaise);
      && a != Refused
      && (a == TimedOut <==> b == TimesOut)
      && (a == NoAnswer <==> b != TimesOut && bill.None?)
      && (a == AlarmLost <==> posting.Some? && posting.value.Lost?)
      && (a.Crossed? <==> posting.Some? && posting.value.Booked? && posting.value.raise != NoRaise)
      && (a.Empty? <==> settled && b.structured.None?)
      && (a.Invalid? <==> settled && b.structured.Some? && validate(b.structured.value).Rejected?)
      && (a.Invalid? ==> validate(b.structured.value) == Rejected(a.error))
      && (a.Validated? <==> settled && b.structured.Some? && validate(b.structured.value).Accepted?)
      && (a.Validated? ==> validate(b.structured.value) == Accepted(a.package))
      && Billed(a) == (if posting.Some? && posting.value.Booked? && bill.Some? then bill.value.cost else 0.0)
    }

    /** One attempt from ledger l to ledger after: the pre-flight check; the await, during which others act; the
        recording; and only then the structured output and its validation. */
    ghost predicate Attempted(round: Round<P>, l: Ledger, after: Ledger, a: Attempt<Q>)
      requires l.windows.Paired()
    {
      if session.Some? && Spent(l.books, session.value) >= ceiling then a == Refused && after == l
      else
        var posted := PostedIn(round, l);
        && after == (if posted.Some? then posted.value.0 else ActAll(l, round.during, ceiling))
        && Ends(round.backend, if posted.Some? then Some(posted.value.1) else None, a)
    }

    /** One emit_tool call and the validation of its output. */
    method Attempt(round: Round<P>) returns (a: Attempt<Q>)
      requires ledger.Valid()
      modifies ledger
      ensures ledger.Valid()
      ensures Attempted(round, old(ledger.Value()), ledger.Value(), a)
    {
      hide Windows.Paired, Record, Pricing.ComputeCost, ActAll;
      if session.Some? {
        var refusal := ledger.CheckCeiling(session.value, ceiling);
        if refusal != NoRaise {
          return Refused;
        }
      }
      Disturb(ledger, round.during, ceiling);
      match round.backend
      case TimesOut => return TimedOut;
      case Raises => return NoAnswer;
      case NoUsage => return NoAnswer;
      case Answers(model, tokens, structured, alarmPublishes, ceilingPublishes) =>
        var cost := Pricing.ComputeCost(model, tokens);
        if cost.None? {
          return NoAnswer;
        }
        var booked := 0.0;
        if session.Some? {
          var b := Bill(model, tokens, cost.value);
          var p := ledger.RecordCall(session.value, CALLER, b, ceiling, alarmPublishes, ceilingPublishes);
          assert PostedIn(round, old(ledger.Value())) == Some((ledger.Value(), p));
          if p.Lost? {
            return AlarmLost;
          }
          if p.raise != NoRaise {
            return Crossed(b.cost);
          }
          booked := b.cost;
        }
        a := Read(structured, booked);
    }

    method Read(structured: Option<P>, booked: real) returns (a: Attempt<Q>)
      ensures Billed(a) == booked
      ensures structured.None? ==> a.Empty?
      ensures structured.Some? ==> match validate(structured.value)
                                   case Rejected(error) => a.Invalid? && a.error == error
                                   case Accepted(package) => a.Validated? && a.package == package
    {
      if structured.None? {
        return Empty(booked);
      }
      match validate(structured.value)
      case Rejected(error) => return Invalid(booked, error);
      case Accepted(package) => return Validated(booked, package);
    }

    /** What an attempt does to the session's total. */
    lemma AttemptSpends(round: Round<P>, l: Ledger, after: Ledger, a: Attempt<Q>)
      requires l.windows.Paired() && session.Some? && Sane(round.during) && Attempted(round, l, after, a)
      ensures Billed(a) >= 0.0 && Spent(after.books, session.value) >= Spent(l.books, session.value) + Billed(a)
      ensures a.Refused? ==> after == l
      ensures a.Crossed? ==> Spent(after.books, session.value) >= ceiling
      ensures a.Empty? || a.Invalid? || a.Validated? ==> Spent(after.books, session.value) < ceiling
    {
      hide Windows.Paired, Record, Pricing.ComputeCost, ActAll;
      OthersOnlyAdd(l, round.during, ceiling, session.value);
      var bill := BillFor(round.backend);
      if bill.Some? {
        RecordSpends(ActAll(l, round.during, ceiling), AdapterKey(session.value, CALLER), bill.value, ceiling,
                     round.backend.alarmPublishes, round.backend.ceilingPublishes, session.value);
      }
    }

    /** An attempt, with the session's total: it is refused, and books nothing, exactly when the total has reached
        the ceiling at its start; it crosses exactly when its own booking leaves the total at or above the ceiling. */
    method Try(round: Round<P>) returns (a: Attempt<Q>, ghost others: real)
      requires ledger.Valid() && Sane(round.during)
      modifies ledger
      ensures ledger.Valid() && others >= 0.0
      ensures Attempted(round, old(ledger.Value()), ledger.Value(), a)
      ensures Total() == old(Total()) + Billed(a) + others
      ensures a.Refused? <==> session.Some? && old(Total()) >= ceiling
      ensures Billed(a) >= 0.0
      ensures a.Crossed? ==> session.Some? && Total() >= ceiling
      ensures session.Some? && (a.Empty? || a.Invalid? || a.Validated?) ==> Total() < ceiling
    {
      hide Windows.Paired, Record, ActAll, Billed, BillFor;
      ghost var before := ledger.Value();
      a := Attempt(round);
      if session.Some? {
        AttemptSpends(round, before, ledger.Value(), a);
      }
      others := Total() - old(Total()) - Billed(a);
    }

    /** Attempt i is made in round i, after what others did before it, on the ledger the previous attempt left. */
    ghost predicate Follows(rounds: seq<Round<P>>, trace: seq<Attempt<Q>>, ledgers: seq<Ledger>) {
      && |trace| <= |rounds| && |ledgers| == |trace| + 1 && (forall i | 0 <= i < |ledgers| :: ledgers[i].windows.Paired())
      && forall i | 0 <= i < |trace| ::
           Attempted(rounds[i], ActAll(ledgers[i], rounds[i].before, ceiling), ledgers[i + 1], trace[i])
    }

    /** The retry loop, for any bound on attempts and any behaviour of the backend and of other sites. The
        counter counts the attempts made; a package is returned exactly when the last attempt validated it,
        and a failure carries the last attempt's reason; after an attempt crosses the ceiling every later one
        is refused pre-flight, so none of them books anything and the call fails. */
    method Decompose(rounds: seq<Round<P>>)
      returns (r: Outcome<Q>, trace: seq<Attempt<Q>>, corrections: seq<Option<string>>,
               ghost ledgers: seq<Ledger>, ghost others: real)
      requires rounds != []
      requires ledger.Valid()
      requires forall i | 0 <= i < |rounds| :: Sane(rounds[i].before) && Sane(rounds[i].during)
      modifies this`sdkRoundTrips, ledger
      ensures ledger.Valid() && others >= 0.0
      ensures Follows(rounds, trace, ledgers) && ledgers[0] == old(ledger.Value()) && ledgers[|trace|] == ledger.Value()
      ensures 0 < sdkRoundTrips == |trace| <= |rounds|
      ensures forall i | 0 <= i < |trace| - 1 :: !trace[i].Validated?
      ensures if trace[|trace| - 1].Validated? then r == Package(trace[|trace| - 1].package)
              else r == Failure(ReasonOf(trace[|trace| - 1])) && |trace| == |rounds|
      ensures Halts(trace) && (Stopped(trace) ==> r == Failure(Transport))
      ensures Prompted(trace, corrections)
      ensures Total() == old(Total()) + TotalBilled(trace) + others
    {
      hide Windows.Paired, ActAll, LastError, TotalBilled, Billed, ReasonOf, Stopped, Halts, Prompted, Attempted;
      sdkRoundTrips := 0;
      trace, corrections, ledgers, others := [], [], [ledger.Value()], 0.0;
      var lastError, lastFailure := None, Transport;
      EmptyTrace<Q>();
      for i := 0 to |rounds|
        invariant ledger.Valid() && others >= 0.0
        invariant sdkRoundTrips == |trace| == i
        invariant Follows(rounds, trace, ledgers) && ledgers[0] == old(ledger.Value()) && ledgers[i] == ledger.Value()
        invariant forall j | 0 <= j < i :: !trace[j].Validated?
        invariant Halts(trace) && (Stopped(trace) ==> session.Some? && Total() >= ceiling)
        invariant i > 0 ==> lastFailure == ReasonOf(trace[i - 1])
        invariant lastError == LastError(trace) && Prompted(trace, corrections)
        invariant Total() == old(Total()) + TotalBilled(trace) + others
      {
        ghost var waited := Wait(rounds[i].before);
        sdkRoundTrips := sdkRoundTrips + 1;
        var a;
        ghost var added;
        a, added := Try(rounds[i]);
        others := others + waited + added;
        TraceSnoc(trace, a, corrections);
        trace, corrections, ledgers := trace + [a], corrections + [lastError], ledgers + [ledger.Value()];
        if a.Validated? {
          if Stopped(trace) { StoppedEnds(trace); }
          return Package(a.package), trace, corrections, ledgers, others;
        }
        lastFailure := ReasonOf(a);
        if a.Invalid? {
          lastError := Some(a.error);
        }
      }
      if Stopped(trace) { StoppedEnds(trace); }
      return Failure(lastFailure), trace, corrections, ledgers, others;
    }
  }
}
