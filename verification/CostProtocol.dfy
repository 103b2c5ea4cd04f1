/** The cost-safety protocol over every interleaving of calls.

    Narrator clients and the short-lived Haiku adapters share one ledger. A call is admitted by a
    pre-flight check, then awaits the model; other calls run meanwhile. When it resumes, one atomic
    pass judges it, appends it to its baselines and charges it. An event list is any such
    interleaving; events that name no call in flight are ignored, so every list is a run. */
module CostProtocol {
  import opened Options
  import opened CostSafety
  import Pricing

  /** A narrator client keeps its own baselines per session; adapters share the ledger's, per caller. */
  datatype Site = Narrator(client: nat) | Adapter(caller: string)

  /** No session is the explicit opt-out: neither checked nor booked. */
  datatype Call = Call(session: Option<string>, site: Site)

  /** The observations one detector baseline is trained on. */
  datatype Stream = Stream(site: Site, session: string)

  datatype Event =
    | Admit(id: nat, call: Call)
    | Complete(id: nat, model: string, tokens: Pricing.Tokens, alarmPublishes: bool, ceilingPublishes: bool)
    | Fail(id: nat)
    | Reset(client: nat, session: string)

  datatype Reply =
    | Ignored
    | Admitted
    | Refused(raise: Raise)
    | Failed
    | Unpriced
    | Sessionless
    | Posted(stream: Stream, bill: Bill, alarmPublishes: bool, posting: Posting)
    | WasReset(client: nat, session: string)

  datatype State = State(ledger: Ledger, clients: map<nat, Windows<string>>, inFlight: map<nat, Call>) {
    ghost predicate Paired() {
      ledger.windows.Paired() && forall c | c in clients :: clients[c].Paired()
    }

    function ClientWindows(c: nat): (w: Windows<string>)
      ensures Paired() ==> w.Paired()
    {
      if c in clients then clients[c] else Windows(map[], map[])
    }

    function CostsOf(s: Stream): Option<seq<real>> {
      match s.site
      case Narrator(c) => ClientWindows(c).CostsOf(s.session)
      case Adapter(caller) => ledger.windows.CostsOf(AdapterKey(s.session, caller))
    }

    function InputsOf(s: Stream): Option<seq<int>> {
      match s.site
      case Narrator(c) => ClientWindows(c).InputsOf(s.session)
      case Adapter(caller) => ledger.windows.InputsOf(AdapterKey(s.session, caller))
    }
  }

  const INIT := State(EMPTY_LEDGER, map[], map[])

  /** The post-call pass at either kind of site. */
  function Post(ceiling: real, st: State, s: Stream, b: Bill, alarmPublishes: bool, ceilingPublishes: bool)
    : (r: (State, Posting))
    requires st.Paired()
    ensures r.0.Paired() && r.0.inFlight == st.inFlight
  {
    match s.site
    case Adapter(caller) =>
      var (l, p) := Record(st.ledger, AdapterKey(s.session, caller), b, ceiling, alarmPublishes, ceilingPublishes);
      (st.(ledger := l), p)
    case Narrator(c) =>
      var w := st.ClientWindows(c);
      var v := Judge(w.CostsOf(s.session), w.InputsOf(s.session), b);
      if AlarmEscapes(v, alarmPublishes) then (st, Lost(v))
      else
        var charged := Charge(st.ledger.books, s.session, b.cost, ceiling, ceilingPublishes);
        (st.(ledger := st.ledger.(books := charged.books), clients := st.clients[c := w.Observe(s.session, b)]),
         Booked(v, charged.raise, charged.emitted))
  }

  function Step(ceiling: real, st: State, ev: Event): (r: (State, Reply))
    requires st.Paired()
    ensures r.0.Paired()
  {
    match ev
    case Admit(id, call) =>
      if id in st.inFlight then (st, Ignored)
      else if call.session.Some? && Preflight(st.ledger.books, call.session.value, ceiling) != NoRaise then
        (st, Refused(Preflight(st.ledger.books, call.session.value, ceiling)))
      else (st.(inFlight := st.inFlight[id := call]), Admitted)
    case Fail(id) =>
      if id !in st.inFlight then (st, Ignored)
      else (st.(inFlight := st.inFlight - {id}), Failed)
    case Complete(id, model, tokens, alarmPublishes, ceilingPublishes) =>
      if id !in st.inFlight then (st, Ignored)
      else
        var call := st.inFlight[id];
        var landed := st.(inFlight := st.inFlight - {id});
        var cost := Pricing.ComputeCost(model, tokens);
        if cost.None? then (landed, Unpriced)
        else if call.session.None? then (landed, Sessionless)
        else
          var s := Stream(call.site, call.session.value);
          var b := Bill(model, tokens, cost.value);
          var (st', p) := Post(ceiling, landed, s, b, alarmPublishes, ceilingPublishes);
          (st', Posted(s, b, alarmPublishes, p))
    case Reset(c, session) =>
      (st.(ledger := ClearBaselines(st.ledger, session),
           clients := st.clients[c := st.ClientWindows(c).Forget({session})]),
       WasReset(c, session))
  }

  function Exec(ceiling: real, es: seq<Event>): (st: State)
    ensures st.Paired()
  {
    if es == [] then INIT else Step(ceiling, Exec(ceiling, es[..|es| - 1]), es[|es| - 1]).0
  }

  /** What event i of the run was answered. */
  function ReplyAt(ceiling: real, es: seq<Event>, i: nat): Reply
    requires i < |es|
  {
    Step(ceiling, Exec(ceiling, es[..i]), es[i]).1
  }

  function LastReply(ceiling: real, es: seq<Event>): Reply
    requires es != []
  {
    Step(ceiling, Exec(ceiling, es[..|es| - 1]), es[|es| - 1]).1
  }

  // ---- what a run did, read off its replies ----------------------------

  predicate BooksOn(r: Reply, session: string) {
    r.Posted? && r.posting.Booked? && r.stream.session == session
  }

  ghost function BookedSpend(ceiling: real, es: seq<Event>, session: string): real {
    if es == [] then 0.0
    else
      var r := LastReply(ceiling, es);
      BookedSpend(ceiling, es[..|es| - 1], session) + if BooksOn(r, session) then r.bill.cost else 0.0
  }

  /** What an event makes the session pay, whatever becomes of the books: a call of it that is in flight
      completes at a priced model. */
  function BillOf(st: State, ev: Event, session: string): Option<Bill> {
    if ev.Complete? && ev.id in st.inFlight && st.inFlight[ev.id].session == Some(session) then
      match Pricing.ComputeCost(ev.model, ev.tokens)
      case None => None
      case Some(cost) => Some(Bill(ev.model, ev.tokens, cost))
    else None
  }

  ghost function BilledSpend(ceiling: real, es: seq<Event>, session: string): real {
    if es == [] then 0.0
    else
      var n := |es| - 1;
      var b := BillOf(Exec(ceiling, es[..n]), es[n], session);
      BilledSpend(ceiling, es[..n], session) + if b.Some? then b.value.cost else 0.0
  }

  ghost function BookedTokens(ceiling: real, es: seq<Event>, session: string): Pricing.Tokens {
    if es == [] then Pricing.NO_TOKENS
    else
      var r := LastReply(ceiling, es);
      var before := BookedTokens(ceiling, es[..|es| - 1], session);
      if BooksOn(r, session) then Pricing.AddTokens(before, r.bill.tokens) else before
  }

  ghost function AllBookedSpend(ceiling: real, es: seq<Event>): real {
    if es == [] then 0.0
    else
      var r := LastReply(ceiling, es);
      AllBookedSpend(ceiling, es[..|es| - 1]) + if r.Posted? && r.posting.Booked? then r.bill.cost else 0.0
  }

  ghost function CeilingEvents(ceiling: real, es: seq<Event>, session: string): nat {
    if es == [] then 0
    else
      var r := LastReply(ceiling, es);
      CeilingEvents(ceiling, es[..|es| - 1], session) + if BooksOn(r, session) && r.posting.emitted then 1 else 0
  }

  ghost function InFlight(st: State, session: string): set<nat> {
    set id | id in st.inFlight && st.inFlight[id].session == Some(session)
  }

  // ---- one step --------------------------------------------------------

  /** Charging touches one session's total and, when it publishes, announces that session. */
  lemma ChargeSpends(b: Books, charged: string, cost: real, ceiling: real, publishes: bool, session: string)
    ensures var c := Charge(b, charged, cost, ceiling, publishes);
            && Spent(c.books, session) == Spent(b, session) + (if session == charged then cost else 0.0)
            && (session == charged && c.emitted <==> session in c.books.announced && session !in b.announced)
            && b.announced <= c.books.announced
            && (c.raise.NoRaise? <==> Spent(c.books, charged) < ceiling)
            && (c.raise.CeilingExceeded? ==> charged in c.books.announced
                                             && c.raise == CeilingExceeded(charged, Spent(c.books, charged), ceiling))
            && (c.raise.PublishFailed? ==> charged !in c.books.announced)
            && (c.emitted ==> Spent(c.books, charged) >= ceiling)
  {}

  /** Narrator and adapter sites charge alike: a lost call changes nothing, a booked one charges once. */
  lemma PostCharges(ceiling: real, st: State, s: Stream, b: Bill, alarmPublishes: bool, ceilingPublishes: bool)
    requires st.Paired()
    ensures var (st', p) := Post(ceiling, st, s, b, alarmPublishes, ceilingPublishes);
            && (p.Lost? ==> st' == st)
            && (p.Booked? ==> Charged(st'.ledger.books, p.raise, p.emitted)
                              == Charge(st.ledger.books, s.session, b.cost, ceiling, ceilingPublishes))
  {
    hide Judge, Push, Charge;
  }

  ghost predicate SameBooks(st: State, st': State) {
    st'.ledger == st.ledger && st'.clients == st.clients
  }

  /** Every step is a posting of one priced call, a reset, or a change of the calls in flight only. */
  lemma StepShape(ceiling: real, st: State, ev: Event)
    requires st.Paired()
    ensures var (st', r) := Step(ceiling, st, ev);
            && (r.Posted? ==>
                && ev.Complete? && r.alarmPublishes == ev.alarmPublishes && r.bill.cost >= 0.0
                && Pricing.ComputeCost(r.bill.model, r.bill.tokens) == Some(r.bill.cost)
                && var landed := st.(inFlight := st.inFlight - {ev.id});
                   (st', r.posting) == Post(ceiling, landed, r.stream, r.bill, ev.alarmPublishes, ev.ceilingPublishes))
            && (r.WasReset? <==> ev.Reset?)
            && (!r.Posted? && !r.WasReset? ==> SameBooks(st, st'))
  {
    hide Post, Preflight, Pricing.Dollars, Pricing.ModelRates, Pricing.ComputeCost, ClearBaselines;
    match ev
    case Admit(_, _) =>
    case Complete(_, _, _, _, _) =>
    case Fail(_) =>
    case Reset(_, _) =>
  }

  /** A step leaves the totals alone, or books one call by one charge. */
  lemma StepCharges(ceiling: real, st: State, ev: Event)
    requires st.Paired()
    ensures var (st', r) := Step(ceiling, st, ev);
            && (r.Posted? ==> r.bill.cost >= 0.0 && ev.Complete?
                              && Pricing.ComputeCost(r.bill.model, r.bill.tokens) == Some(r.bill.cost))
            && (if r.Posted? && r.posting.Booked? then
                  Charged(st'.ledger.books, r.posting.raise, r.posting.emitted)
                  == Charge(st.ledger.books, r.stream.session, r.bill.cost, ceiling, ev.ceilingPublishes)
                else st'.ledger.books == st.ledger.books)
  {
    hide Post, Charge, Step;
    StepShape(ceiling, st, ev);
    var (st', r) := Step(ceiling, st, ev);
    if r.Posted? {
      PostCharges(ceiling, st.(inFlight := st.inFlight - {ev.id}), r.stream, r.bill,
                  ev.alarmPublishes, ev.ceilingPublishes);
    } else if r.WasReset? {
      ResetKeepsBooks(ceiling, st, ev);
    }
  }

  lemma ResetKeepsBooks(ceiling: real, st: State, ev: Event)
    requires st.Paired() && ev.Reset?
    ensures Step(ceiling, st, ev).0.ledger.books == st.ledger.books
  {}

  /** A step moves a session's total exactly when it books a call on it, and then by that call's cost. */
  lemma StepSpends(ceiling: real, st: State, ev: Event, session: string)
    requires st.Paired()
    ensures var (st', r) := Step(ceiling, st, ev);
            && Spent(st'.ledger.books, session)
               == Spent(st.ledger.books, session) + (if BooksOn(r, session) then r.bill.cost else 0.0)
            && (r.Posted? ==> r.bill.cost >= 0.0)
            && (BooksOn(r, session) && r.posting.emitted <==>
                session in st'.ledger.books.announced && session !in st.ledger.books.announced)
            && st.ledger.books.announced <= st'.ledger.books.announced
            && (BooksOn(r, session) ==>
                && (r.posting.raise.NoRaise? <==> Spent(st'.ledger.books, session) < ceiling)
                && (r.posting.raise.CeilingExceeded? ==>
                    session in st'.ledger.books.announced
                    && r.posting.raise == CeilingExceeded(session, Spent(st'.ledger.books, session), ceiling))
                && (r.posting.raise.PublishFailed? ==> session !in st'.ledger.books.announced))
            && (session in st'.ledger.books.announced && session !in st.ledger.books.announced ==>
                Spent(st'.ledger.books, session) >= ceiling)
  {
    hide Step, Charge;
    StepCharges(ceiling, st, ev);
    var (st', r) := Step(ceiling, st, ev);
    if r.Posted? && r.posting.Booked? {
      ChargeSpends(st.ledger.books, r.stream.session, r.bill.cost, ceiling, ev.ceilingPublishes, session);
    }
  }

  /** Only an admission below the ceiling puts a call in flight; completion and failure take one out. */
  lemma StepFlight(ceiling: real, st: State, ev: Event, session: string)
    requires st.Paired()
    ensures var (st', r) := Step(ceiling, st, ev);
            var before, after := InFlight(st, session), InFlight(st', session);
            && (ev.Admit? ==>
                if r == Admitted && ev.call.session == Some(session) then
                  after == before + {ev.id} && ev.id !in before && Spent(st.ledger.books, session) < ceiling
                else after == before)
            && (ev.Complete? || ev.Fail? ==> after == before - {ev.id})
            && (ev.Reset? ==> after == before)
            && (BooksOn(r, session) ==> ev.id in before)
  {
    hide Post, Pricing.ComputeCost, ClearBaselines, Windows.Paired;
    match ev
    case Admit(_, _) =>
    case Complete(_, _, _, _, _) =>
    case Fail(_) =>
    case Reset(_, _) =>
  }

  /** Calls of a session enter flight one at a time, only below the ceiling and without spending;
      a booked call has just left it. */
  lemma StepInFlight(ceiling: real, st: State, ev: Event, session: string)
    requires st.Paired()
    ensures var (st', r) := Step(ceiling, st, ev);
            var before, after := |InFlight(st, session)|, |InFlight(st', session)|;
            && (after == before + 1 || after <= before)
            && (after == before + 1 ==> Spent(st'.ledger.books, session) == Spent(st.ledger.books, session) < ceiling)
            && (BooksOn(r, session) ==> before == after + 1)
  {
    hide Step, InFlight;
    StepFlight(ceiling, st, ev, session);
    StepCharges(ceiling, st, ev);
    var (st', r) := Step(ceiling, st, ev);
    if ev.Complete? || ev.Fail? {
      var before := InFlight(st, session);
      assert ev.id !in before ==> before - {ev.id} == before;
    }
  }

  lemma PrefixOfPrefix(es: seq<Event>, i: nat, j: nat)
    requires i <= j <= |es|
    ensures es[..j][..i] == es[..i]
  {}

  /** Earlier replies do not depend on later events. */
  lemma RepliesOfPrefix(ceiling: real, es: seq<Event>, n: nat)
    requires n <= |es|
    ensures forall i: nat | i < n :: ReplyAt(ceiling, es, i) == ReplyAt(ceiling, es[..n], i)
  {
    hide Step;
    forall i: nat | i < n
      ensures ReplyAt(ceiling, es, i) == ReplyAt(ceiling, es[..n], i)
    {
      PrefixOfPrefix(es, i, n);
    }
  }

  // ---- conservation ----------------------------------------------------

  /** In every interleaved run the ledger's total for a session is the sum of its booked calls. */
  lemma {:induction false} CumulativeIsBookedSpend(ceiling: real, es: seq<Event>, session: string)
    ensures Spent(Exec(ceiling, es).ledger.books, session) == BookedSpend(ceiling, es, session) >= 0.0
  {
    hide Step;
    if es != [] {
      CumulativeIsBookedSpend(ceiling, es[..|es| - 1], session);
      StepSpends(ceiling, Exec(ceiling, es[..|es| - 1]), es[|es| - 1], session);
    }
  }

  /** For a session run on one priced model, the ledger holds the price of the summed token counts. */
  lemma {:induction false} PriceConservation(ceiling: real, es: seq<Event>, session: string, model: string)
    requires Pricing.ModelRates(model).Some?
    requires forall i: nat | i < |es| :: BooksOn(ReplyAt(ceiling, es, i), session) ==>
                                           ReplyAt(ceiling, es, i).bill.model == model
    ensures Pricing.ComputeCost(model, BookedTokens(ceiling, es, session))
         == Some(Spent(Exec(ceiling, es).ledger.books, session))
  {
    hide Step;
    if es != [] {
      var n := |es| - 1;
      var init := es[..n];
      RepliesOfPrefix(ceiling, es, n);
      PriceConservation(ceiling, init, session, model);
      StepSpends(ceiling, Exec(ceiling, init), es[n], session);
      StepCharges(ceiling, Exec(ceiling, init), es[n]);
      var r := ReplyAt(ceiling, es, n);
      assert r == LastReply(ceiling, es);
      if BooksOn(r, session) {
        Pricing.DollarsAdd(Pricing.ModelRates(model).value, BookedTokens(ceiling, init, session), r.bill.tokens);
      }
    }
  }

  /** The instrumented total is what was booked, over all sessions and call sites together. */
  lemma {:induction false} InstrumentedTotalIsAllSpend(ceiling: real, es: seq<Event>)
    ensures SumValues(Exec(ceiling, es).ledger.books.cumulative) == AllBookedSpend(ceiling, es)
  {
    hide Step, Charge;
    if es != [] {
      var n := |es| - 1;
      var st := Exec(ceiling, es[..n]);
      InstrumentedTotalIsAllSpend(ceiling, es[..n]);
      StepCharges(ceiling, st, es[n]);
      var (st', r) := Step(ceiling, st, es[n]);
      if r.Posted? && r.posting.Booked? {
        var s, b, publishes := r.stream, r.bill, es[n].ceilingPublishes;
        ChargeMovesTotal(st.ledger.books, s.session, b.cost, ceiling, publishes);
        assert st'.ledger.books.cumulative == Charge(st.ledger.books, s.session, b.cost, ceiling, publishes).books.cumulative;
      } else {
        assert st'.ledger.books.cumulative == st.ledger.books.cumulative;
      }
    }
  }

  // ---- the kill --------------------------------------------------------

  lemma {:induction false} SpentMonotone(ceiling: real, es: seq<Event>, i: nat, j: nat, session: string)
    requires i <= j <= |es|
    ensures Spent(Exec(ceiling, es[..i]).ledger.books, session) <= Spent(Exec(ceiling, es[..j]).ledger.books, session)
    decreases j - i
  {
    hide Step;
    if i < j {
      SpentMonotone(ceiling, es, i, j - 1, session);
      PrefixOfPrefix(es, j - 1, j);
      StepSpends(ceiling, Exec(ceiling, es[..j - 1]), es[..j][j - 1], session);
    }
  }

  /** Once a session's total reaches the ceiling, no later call of it is ever admitted, whatever
      completes, fails or is reset in between. */
  lemma TerminalKill(ceiling: real, es: seq<Event>, i: nat, j: nat, session: string)
    requires i <= j < |es|
    requires Spent(Exec(ceiling, es[..i]).ledger.books, session) >= ceiling
    requires es[j].Admit? && es[j].call.session == Some(session)
    ensures ReplyAt(ceiling, es, j).Refused? || ReplyAt(ceiling, es, j).Ignored?
    ensures Exec(ceiling, es[..j + 1]) == Exec(ceiling, es[..j])
  {
    SpentMonotone(ceiling, es, i, j, session);
    PrefixOfPrefix(es, j, j + 1);
    assert es[..j + 1][j] == es[j];
  }

  lemma NothingInFlight(session: string)
    ensures InFlight(INIT, session) == {}
  {}

  /** With never more than k calls of the session in flight and none booked above c, the total stays
      below ceiling + k * c: every call still in flight was admitted below the ceiling. */
  lemma {:induction false} OvershootBound(ceiling: real, es: seq<Event>, session: string, k: nat, c: real)
    requires ceiling > 0.0 && c >= 0.0
    requires forall i: nat | i <= |es| :: |InFlight(Exec(ceiling, es[..i]), session)| <= k
    requires forall i: nat | i < |es| :: BooksOn(ReplyAt(ceiling, es, i), session) ==>
                                           ReplyAt(ceiling, es, i).bill.cost <= c
    ensures var st := Exec(ceiling, es);
            Spent(st.ledger.books, session) + |InFlight(st, session)| as real * c < ceiling + k as real * c
    ensures Spent(Exec(ceiling, es).ledger.books, session) < ceiling + k as real * c
  {
    hide Step, InFlight, State.Paired;
    assert es[..|es|] == es;
    if es == [] {
      NothingInFlight(session);
      Scale(0, k, c);
    } else {
      var n := |es| - 1;
      var init := es[..n];
      forall i: nat | i <= n
        ensures |InFlight(Exec(ceiling, init[..i]), session)| <= k
      {
        PrefixOfPrefix(es, i, n);
        assert |InFlight(Exec(ceiling, es[..i]), session)| <= k;
      }
      RepliesOfPrefix(ceiling, es, n);
      OvershootBound(ceiling, init, session, k, c);
      var st := Exec(ceiling, init);
      StepSpends(ceiling, st, es[n], session);
      StepInFlight(ceiling, st, es[n], session);
      var st' := Exec(ceiling, es);
      assert es[..n + 1] == es;
      assert |InFlight(Exec(ceiling, es[..n + 1]), session)| <= k;
      var r := ReplyAt(ceiling, es, n);
      var cost := if BooksOn(r, session) then r.bill.cost else 0.0;
      OvershootStep(Spent(st.ledger.books, session), |InFlight(st, session)|, |InFlight(st', session)|,
                    cost, ceiling, k, c);
    }
  }

  /** The arithmetic of one step: a booking of at most c retires one call in flight. */
  lemma OvershootStep(spent: real, before: nat, after: nat, cost: real, ceiling: real, k: nat, c: real)
    requires 0.0 <= cost <= c && after <= k
    requires spent + before as real * c < ceiling + k as real * c
    requires after == before + 1 ==> spent < ceiling && cost == 0.0
    requires after == before + 1 || after <= before
    requires cost > 0.0 ==> before == after + 1
    ensures spent + cost + after as real * c < ceiling + k as real * c
    ensures spent + cost < ceiling + k as real * c
  {
    Scale(0, after, c);
    if after == before + 1 {
      Scale(after, k, c);
    } else if before == after + 1 {
      assert before as real * c == after as real * c + c;
    } else {
      Scale(after, before, c);
    }
  }

  lemma Scale(m: nat, n: nat, c: real)
    requires m <= n && c >= 0.0
    ensures m as real * c <= n as real * c
  {}

  // The bound's dependence on k is real: k calls admitted together all land.

  function Burst(call: Call, model: string, tokens: Pricing.Tokens, k: nat, n: nat): seq<Event>
    requires n <= 2 * k
  {
    if n == 0 then []
    else Burst(call, model, tokens, k, n - 1)
         + [if n <= k then Admit(n - 1, call) else Complete(n - 1 - k, model, tokens, true, true)]
  }

  ghost predicate MidBurst(ceiling: real, call: Call, model: string, tokens: Pricing.Tokens, k: nat, n: nat)
    requires n <= 2 * k && call.session.Some? && Pricing.ComputeCost(model, tokens).Some?
  {
    var st := Exec(ceiling, Burst(call, model, tokens, k, n));
    var landed := if n <= k then 0 else n - k;
    && (forall id: nat :: id in st.inFlight <==> landed <= id < (if n <= k then n else k))
    && (forall id: nat | id in st.inFlight :: st.inFlight[id] == call)
    && Spent(st.ledger.books, call.session.value) == landed as real * Pricing.ComputeCost(model, tokens).value
  }

  /** However low the ceiling, k calls that pass the check together all land and bill k times their cost. */
  lemma BurstOvershoots(ceiling: real, call: Call, model: string, tokens: Pricing.Tokens, k: nat)
    requires ceiling > 0.0 && call.session.Some? && Pricing.ComputeCost(model, tokens).Some?
    ensures Spent(Exec(ceiling, Burst(call, model, tokens, k, 2 * k)).ledger.books, call.session.value)
         == k as real * Pricing.ComputeCost(model, tokens).value
  {
    hide Exec, Burst, Pricing.ComputeCost;
    BurstProgress(ceiling, call, model, tokens, k, 2 * k);
  }

  lemma {:induction false} BurstProgress(ceiling: real, call: Call, model: string, tokens: Pricing.Tokens, k: nat, n: nat)
    requires ceiling > 0.0 && n <= 2 * k && call.session.Some? && Pricing.ComputeCost(model, tokens).Some?
    ensures MidBurst(ceiling, call, model, tokens, k, n)
  {
    hide Step, Burst, Pricing.ComputeCost;
    if n == 0 {
      EmptyBurst(call, model, tokens, k);
    } else {
      var es, init := Burst(call, model, tokens, k, n), Burst(call, model, tokens, k, n - 1);
      BurstProgress(ceiling, call, model, tokens, k, n - 1);
      BurstSnoc(call, model, tokens, k, n);
      assert es[..|es| - 1] == init;
      if n <= k {
        AdmitsFresh(ceiling, Exec(ceiling, init), es[|es| - 1]);
      } else {
        BurstLands(ceiling, call, model, tokens, k, n);
      }
    }
  }

  lemma BurstLands(ceiling: real, call: Call, model: string, tokens: Pricing.Tokens, k: nat, n: nat)
    requires k < n <= 2 * k && call.session.Some? && Pricing.ComputeCost(model, tokens).Some?
    requires MidBurst(ceiling, call, model, tokens, k, n - 1)
    ensures MidBurst(ceiling, call, model, tokens, k, n)
  {
    hide Step, Burst, Pricing.ComputeCost, BooksOn, State.Paired;
    var es, init := Burst(call, model, tokens, k, n), Burst(call, model, tokens, k, n - 1);
    BurstSnoc(call, model, tokens, k, n);
    assert es[..|es| - 1] == init;
    var st, ev := Exec(ceiling, init), es[|es| - 1];
    StepSpends(ceiling, st, ev, call.session.value);
    LandsInFlight(ceiling, st, ev);
    var c := Pricing.ComputeCost(model, tokens).value;
    assert (n - k) as real * c == (n - 1 - k) as real * c + c;
  }

  lemma EmptyBurst(call: Call, model: string, tokens: Pricing.Tokens, k: nat)
    ensures Burst(call, model, tokens, k, 0) == []
  {}

  lemma BurstSnoc(call: Call, model: string, tokens: Pricing.Tokens, k: nat, n: nat)
    requires 0 < n <= 2 * k
    ensures Burst(call, model, tokens, k, n)
         == Burst(call, model, tokens, k, n - 1)
            + [if n <= k then Admit(n - 1, call) else Complete(n - 1 - k, model, tokens, true, true)]
  {}

  lemma AdmitsFresh(ceiling: real, st: State, ev: Event)
    requires st.Paired() && ev.Admit? && ev.id !in st.inFlight && ev.call.session.Some?
    requires Spent(st.ledger.books, ev.call.session.value) < ceiling
    ensures Step(ceiling, st, ev) == (st.(inFlight := st.inFlight[ev.id := ev.call]), Admitted)
  {}

  lemma LandsInFlight(ceiling: real, st: State, ev: Event)
    requires st.Paired() && ev.Complete? && ev.alarmPublishes && ev.id in st.inFlight
    requires st.inFlight[ev.id].session.Some? && Pricing.ComputeCost(ev.model, ev.tokens).Some?
    ensures var (st', r) := Step(ceiling, st, ev);
            && st'.inFlight == st.inFlight - {ev.id}
            && BooksOn(r, st.inFlight[ev.id].session.value)
            && r.bill.cost == Pricing.ComputeCost(ev.model, ev.tokens).value
  {
    hide Judge, Charge, Windows.Observe, Windows.Paired, Pricing.ComputeCost;
  }

  /** Sequentially, every booked call was admitted below the ceiling and nothing was booked since:
      the total before it is below the ceiling, so it overshoots by less than its own cost. */
  lemma {:induction false} SequentialOvershoot(ceiling: real, es: seq<Event>, session: string)
    requires ceiling > 0.0
    requires forall i: nat | i <= |es| :: |InFlight(Exec(ceiling, es[..i]), session)| <= 1
    ensures InFlight(Exec(ceiling, es), session) != {} ==> Spent(Exec(ceiling, es).ledger.books, session) < ceiling
    ensures es != [] && BooksOn(LastReply(ceiling, es), session) ==>
              Spent(Exec(ceiling, es).ledger.books, session) < ceiling + LastReply(ceiling, es).bill.cost
  {
    hide Step;
    assert es[..|es|] == es;
    if es == [] {
      assert InFlight(INIT, session) == {};
    } else {
      var n := |es| - 1;
      var init := es[..n];
      forall i: nat | i <= n
        ensures |InFlight(Exec(ceiling, init[..i]), session)| <= 1
      {
        PrefixOfPrefix(es, i, n);
        assert |InFlight(Exec(ceiling, es[..i]), session)| <= 1;
      }
      SequentialOvershoot(ceiling, init, session);
      var st := Exec(ceiling, init);
      StepSpends(ceiling, st, es[n], session);
      StepInFlight(ceiling, st, es[n], session);
      assert es[..n + 1] == es;
      assert |InFlight(Exec(ceiling, es[..n]), session)| <= 1;
      assert |InFlight(Exec(ceiling, es[..n + 1]), session)| <= 1;
    }
  }

  // ---- announcements ---------------------------------------------------

  /** At most one ceiling event per session ever goes out; the announced set records exactly that it
      did; and it only goes out at or above the ceiling. Failed publications leave it free to retry. */
  lemma {:induction false} AnnounceOnce(ceiling: real, es: seq<Event>, session: string)
    ensures var b := Exec(ceiling, es).ledger.books;
            && CeilingEvents(ceiling, es, session) == (if session in b.announced then 1 else 0)
            && (session in b.announced ==> Spent(b, session) >= ceiling)
  {
    hide Step;
    if es != [] {
      AnnounceOnce(ceiling, es[..|es| - 1], session);
      StepSpends(ceiling, Exec(ceiling, es[..|es| - 1]), es[|es| - 1], session);
    }
  }

  /** Every booking that leaves the total at or above the ceiling ends in an exception, and no other
      booking does; the exception is a publish failure only while the session is unannounced. */
  lemma CrossingAlwaysRaises(ceiling: real, es: seq<Event>, i: nat, session: string)
    requires i < |es| && BooksOn(ReplyAt(ceiling, es, i), session)
    ensures var b := Exec(ceiling, es[..i + 1]).ledger.books;
            var raise := ReplyAt(ceiling, es, i).posting.raise;
            && (raise.NoRaise? <==> Spent(b, session) < ceiling)
            && (raise.CeilingExceeded? <==> session in b.announced)
            && (raise.CeilingExceeded? ==> raise == CeilingExceeded(session, Spent(b, session), ceiling))
  {
    hide Step;
    PrefixOfPrefix(es, i, i + 1);
    assert es[..i + 1][i] == es[i];
    AnnounceOnce(ceiling, es[..i], session);
    AnnounceOnce(ceiling, es[..i + 1], session);
    StepSpends(ceiling, Exec(ceiling, es[..i]), es[i], session);
  }
}
