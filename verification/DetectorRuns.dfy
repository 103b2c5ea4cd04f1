/** The shared, bounded, map-keyed detector against a reference that watches one stream alone.

    The reference keeps every observation since the stream's last reset and knows nothing of other
    sessions, callers, clients, totals or ceilings. In every interleaved run the shared detector's
    windows are the last ten of that history, and its verdicts on the stream are the reference's. */
module DetectorRuns {
  import opened Options
  import opened CostSafety
  import opened CostProtocol
  import Pricing

  // ---- the reference ---------------------------------------------------

  /** What concerns one stream: its own calls, and the resets that cover it. */
  datatype Item = Seen(bill: Bill, alarmPublishes: bool) | Cleared

  datatype Detector = Detector(history: seq<Bill>, verdicts: seq<Verdict>)

  function CostsIn(h: seq<Bill>): seq<real> { seq(|h|, i requires 0 <= i < |h| => h[i].cost) }

  function InputsIn(h: seq<Bill>): seq<int> { seq(|h|, i requires 0 <= i < |h| => h[i].tokens.input) }

  /** The warmup floor for the first ten calls, then the clamped mean of the latest ten. */
  function BaselineCost(h: seq<Bill>): real {
    if |h| < 10 then 0.03 else Min(SumReals(CostsIn(h[|h| - 10..])) / 10.0, 0.09)
  }

  function BaselineInput(h: seq<Bill>): real {
    if |h| < 10 then 12000.0 else Min(SumInts(InputsIn(h[|h| - 10..])) as real / 10.0, 36000.0)
  }

  function JudgeHistory(h: seq<Bill>, b: Bill): Verdict {
    Compare(BaselineCost(h), BaselineInput(h), |h| < 10, b)
  }

  function Replay(items: seq<Item>): Detector {
    if items == [] then Detector([], [])
    else
      var d := Replay(items[..|items| - 1]);
      match items[|items| - 1]
      case Cleared => d.(history := [])
      case Seen(b, alarmPublishes) =>
        var v := JudgeHistory(d.history, b);
        Detector(if AlarmEscapes(v, alarmPublishes) then d.history else d.history + [b], d.verdicts + [v])
  }

  // ---- what a run shows of one stream ----------------------------------

  predicate Covers(r: Reply, s: Stream) {
    r.WasReset? && r.session == s.session && (s.site.Adapter? || s.site.client == r.client)
  }

  predicate Hits(r: Reply, s: Stream) { r.Posted? && r.stream == s }

  ghost function ItemsOf(ceiling: real, es: seq<Event>, s: Stream): seq<Item> {
    if es == [] then []
    else
      var r := LastReply(ceiling, es);
      ItemsOf(ceiling, es[..|es| - 1], s)
      + (if Hits(r, s) then [Seen(r.bill, r.alarmPublishes)] else if Covers(r, s) then [Cleared] else [])
  }

  ghost function VerdictsOf(ceiling: real, es: seq<Event>, s: Stream): seq<Verdict> {
    if es == [] then []
    else
      var r := LastReply(ceiling, es);
      VerdictsOf(ceiling, es[..|es| - 1], s) + (if Hits(r, s) then [r.posting.verdict] else [])
  }

  // ---- the abstraction -------------------------------------------------

  function Windowed<T>(h: seq<T>): Option<seq<T>> { if h == [] then None else Some(LastK(h)) }

  /** The stored windows of s are the last min(10, n) observations of history h. */
  ghost predicate Abstracts(st: State, s: Stream, h: seq<Bill>) {
    st.CostsOf(s) == Windowed(CostsIn(h)) && st.InputsOf(s) == Windowed(InputsIn(h))
  }

  lemma JudgeRefines(h: seq<Bill>, b: Bill)
    ensures Judge(Windowed(CostsIn(h)), Windowed(InputsIn(h)), b) == JudgeHistory(h, b)
  {
    if |h| >= 10 {
      var recent := h[|h| - 10..];
      assert LastK(CostsIn(h)) == CostsIn(recent);
      assert LastK(InputsIn(h)) == InputsIn(recent);
    }
  }

  /** Appending to the stored window is appending to the history. */
  lemma ObserveAbstracts<K>(w: Windows<K>, k: K, h: seq<Bill>, b: Bill)
    requires w.CostsOf(k) == Windowed(CostsIn(h)) && w.InputsOf(k) == Windowed(InputsIn(h))
    ensures w.Observe(k, b).CostsOf(k) == Windowed(CostsIn(h + [b]))
    ensures w.Observe(k, b).InputsOf(k) == Windowed(InputsIn(h + [b]))
  {
    PushLastK(CostsIn(h), b.cost);
    PushLastK(InputsIn(h), b.tokens.input as int);
    assert CostsIn(h + [b]) == CostsIn(h) + [b.cost];
    assert InputsIn(h + [b]) == InputsIn(h) + [b.tokens.input as int];
    assert h == [] ==> LastK(CostsIn(h)) == [] && LastK(InputsIn(h)) == [];
  }

  lemma ObserveElsewhere<K>(w: Windows<K>, k: K, j: K, b: Bill)
    requires j != k
    ensures w.Observe(k, b).CostsOf(j) == w.CostsOf(j)
    ensures w.Observe(k, b).InputsOf(j) == w.InputsOf(j)
  {}

  /** A posting on s judges s by its own history and extends only that history. */
  lemma PostOwn(ceiling: real, st: State, s: Stream, b: Bill, alarmPublishes: bool, ceilingPublishes: bool, h: seq<Bill>)
    requires st.Paired() && Abstracts(st, s, h)
    ensures var (st', p) := Post(ceiling, st, s, b, alarmPublishes, ceilingPublishes);
            && p.verdict == JudgeHistory(h, b)
            && Abstracts(st', s, if AlarmEscapes(p.verdict, alarmPublishes) then h else h + [b])
  {
    hide Judge, JudgeHistory, Charge, Push, LastK;
    JudgeRefines(h, b);
    match s.site
    case Adapter(caller) => ObserveAbstracts(st.ledger.windows, AdapterKey(s.session, caller), h, b);
    case Narrator(c) => ObserveAbstracts(st.ClientWindows(c), s.session, h, b);
  }

  /** A posting on one stream leaves every other stream's windows alone. */
  lemma PostOther(ceiling: real, st: State, s: Stream, b: Bill, alarmPublishes: bool, ceilingPublishes: bool, t: Stream)
    requires st.Paired() && s != t
    ensures var st' := Post(ceiling, st, s, b, alarmPublishes, ceilingPublishes).0;
            st'.CostsOf(t) == st.CostsOf(t) && st'.InputsOf(t) == st.InputsOf(t)
  {
    hide Judge, Charge, Push, Windows.Paired;
    match s.site
    case Adapter(caller) =>
      if t.site.Adapter? {
        ObserveElsewhere(st.ledger.windows, AdapterKey(s.session, caller), AdapterKey(t.session, t.site.caller), b);
      }
    case Narrator(c) =>
      if t.site == s.site {
        ObserveElsewhere(st.ClientWindows(c), s.session, t.session, b);
      }
  }

  lemma ForgetWindows<K>(w: Windows<K>, ks: set<K>, k: K)
    ensures k in ks ==> w.Forget(ks).CostsOf(k) == None && w.Forget(ks).InputsOf(k) == None
    ensures k !in ks ==> w.Forget(ks).CostsOf(k) == w.CostsOf(k) && w.Forget(ks).InputsOf(k) == w.InputsOf(k)
  {}

  lemma ClearedKeys(l: Ledger, session: string, k: AdapterKey)
    ensures var w := ClearBaselines(l, session).windows;
            if k.session == session then w.CostsOf(k) == None && w.InputsOf(k) == None
            else w.CostsOf(k) == l.windows.CostsOf(k) && w.InputsOf(k) == l.windows.InputsOf(k)
  {
    ForgetWindows(l.windows, KeysOf(l, session), k);
  }

  lemma ResetStep(ceiling: real, st: State, ev: Event, s: Stream)
    requires st.Paired() && ev.Reset?
    ensures var (st', r) := Step(ceiling, st, ev);
            if Covers(r, s) then st'.CostsOf(s) == None && st'.InputsOf(s) == None
            else st'.CostsOf(s) == st.CostsOf(s) && st'.InputsOf(s) == st.InputsOf(s)
  {
    hide ClearBaselines, Windows.Paired;
    match s.site
    case Adapter(caller) =>
      ClearedKeys(st.ledger, ev.session, AdapterKey(s.session, caller));
    case Narrator(c) =>
      if c == ev.client {
        ForgetWindows(st.ClientWindows(c), {ev.session}, s.session);
      }
  }

  /** One step of the shared detector is one step, or none, of the reference on s. */
  lemma StepRefines(ceiling: real, st: State, ev: Event, s: Stream, h: seq<Bill>)
    requires st.Paired() && Abstracts(st, s, h)
    ensures var (st', r) := Step(ceiling, st, ev);
            && (Hits(r, s) ==>
                && r.posting.verdict == JudgeHistory(h, r.bill)
                && Abstracts(st', s, if AlarmEscapes(r.posting.verdict, r.alarmPublishes) then h else h + [r.bill]))
            && (Covers(r, s) ==> Abstracts(st', s, []))
            && (!Hits(r, s) && !Covers(r, s) ==> Abstracts(st', s, h))
  {
    hide Step, Post, JudgeHistory, LastK, CostsIn, InputsIn;
    StepShape(ceiling, st, ev);
    var r := Step(ceiling, st, ev).1;
    if r.Posted? {
      var landed := st.(inFlight := st.inFlight - {ev.id});
      assert Abstracts(landed, s, h);
      if r.stream == s {
        PostOwn(ceiling, landed, s, r.bill, ev.alarmPublishes, ev.ceilingPublishes, h);
      } else {
        PostOther(ceiling, landed, r.stream, r.bill, ev.alarmPublishes, ev.ceilingPublishes, s);
      }
    } else if r.WasReset? {
      ResetStep(ceiling, st, ev, s);
      EmptyHistory();
    }
  }

  lemma EmptyHistory()
    ensures CostsIn([]) == [] && InputsIn([]) == []
  {}

  /** Non-interference and window refinement, for every interleaving: the verdicts issued on a stream
      are those of the reference run on that stream's own calls and resets, and its two windows are
      the last min(10, n) entries of the reference's history. */
  lemma {:induction false} StreamRefinesReference(ceiling: real, es: seq<Event>, s: Stream)
    ensures var d := Replay(ItemsOf(ceiling, es, s));
            VerdictsOf(ceiling, es, s) == d.verdicts && Abstracts(Exec(ceiling, es), s, d.history)
  {
    hide Step, Abstracts, JudgeHistory;
    if es == [] {
      InitAbstracts(s);
    } else {
      var init := es[..|es| - 1];
      StreamRefinesReference(ceiling, init, s);
      var items := ItemsOf(ceiling, init, s);
      StepRefines(ceiling, Exec(ceiling, init), es[|es| - 1], s, Replay(items).history);
      var r := LastReply(ceiling, es);
      if Hits(r, s) {
        ReplaySnoc(items, Seen(r.bill, r.alarmPublishes));
      } else if Covers(r, s) {
        ReplaySnoc(items, Cleared);
      } else {
        assert ItemsOf(ceiling, es, s) == items;
      }
    }
  }

  lemma InitAbstracts(s: Stream)
    ensures Abstracts(INIT, s, [])
  {}

  lemma ReplaySnoc(items: seq<Item>, it: Item)
    ensures Replay(items + [it])
         == var d := Replay(items);
            match it
            case Cleared => d.(history := [])
            case Seen(b, alarmPublishes) =>
              var v := JudgeHistory(d.history, b);
              Detector(if AlarmEscapes(v, alarmPublishes) then d.history else d.history + [b], d.verdicts + [v])
  {
    assert (items + [it])[..|items|] == items;
  }

  /** Two runs that show a stream the same calls and resets give it the same verdicts, however
      differently they interleave other sessions, callers and clients. */
  lemma NonInterference(ceiling: real, es: seq<Event>, ceiling': real, es': seq<Event>, s: Stream)
    requires ItemsOf(ceiling, es, s) == ItemsOf(ceiling', es', s)
    ensures VerdictsOf(ceiling, es, s) == VerdictsOf(ceiling', es', s)
    ensures Exec(ceiling, es).CostsOf(s) == Exec(ceiling', es').CostsOf(s)
    ensures Exec(ceiling, es).InputsOf(s) == Exec(ceiling', es').InputsOf(s)
  {
    StreamRefinesReference(ceiling, es, s);
    StreamRefinesReference(ceiling', es', s);
  }

  /** Both windows of a stream exist together, hold equally many entries, at most ten and never none:
      testing the cost window alone decides warmup, and neither mean divides by zero. */
  lemma WindowsStayPaired(ceiling: real, es: seq<Event>, s: Stream)
    ensures var st := Exec(ceiling, es);
            && (st.CostsOf(s).Some? <==> st.InputsOf(s).Some?)
            && (st.CostsOf(s).Some? ==> 0 < |st.CostsOf(s).value| == |st.InputsOf(s).value| <= 10)
  {
    hide Exec, Replay, ItemsOf, VerdictsOf;
    StreamRefinesReference(ceiling, es, s);
  }

  /** After warmup the baselines are the plain means of the latest ten calls, clamped. */
  lemma BaselinesAreMeans(h: seq<Bill>)
    requires |h| >= 10
    ensures var r := h[|h| - 10..];
            && BaselineCost(h) == Min((r[0].cost + r[1].cost + r[2].cost + r[3].cost + r[4].cost + r[5].cost
                                       + r[6].cost + r[7].cost + r[8].cost + r[9].cost) / 10.0, 0.09)
            && BaselineInput(h) == Min((r[0].tokens.input + r[1].tokens.input + r[2].tokens.input + r[3].tokens.input
                                        + r[4].tokens.input + r[5].tokens.input + r[6].tokens.input + r[7].tokens.input
                                        + r[8].tokens.input + r[9].tokens.input) as real / 10.0, 36000.0)
  {
    var r := h[|h| - 10..];
    SumOfTenReals(CostsIn(r));
    SumOfTenInts(InputsIn(r));
  }

  lemma SumOfTenReals(s: seq<real>)
    requires |s| == 10
    ensures SumReals(s) == s[0] + s[1] + s[2] + s[3] + s[4] + s[5] + s[6] + s[7] + s[8] + s[9]
  {
    hide SumReals;
    SumOfFiveReals(s);
    SumRealsTo(s, 5);
    SumRealsTo(s, 6);
    SumRealsTo(s, 7);
    SumRealsTo(s, 8);
    SumRealsTo(s, 9);
    assert s[..10] == s;
  }

  lemma SumOfFiveReals(s: seq<real>)
    requires |s| >= 5
    ensures SumReals(s[..5]) == s[0] + s[1] + s[2] + s[3] + s[4]
  {
    hide SumReals;
    SumRealsTo(s, 0);
    SumRealsTo(s, 1);
    SumRealsTo(s, 2);
    SumRealsTo(s, 3);
    SumRealsTo(s, 4);
  }

  lemma SumRealsTo(s: seq<real>, k: nat)
    requires k < |s|
    ensures SumReals(s[..k + 1]) == SumReals(s[..k]) + s[k] && SumReals(s[..0]) == 0.0
  {
    assert s[..k + 1][..k] == s[..k];
  }

  lemma SumOfTenInts(s: seq<int>)
    requires |s| == 10
    ensures SumInts(s) == s[0] + s[1] + s[2] + s[3] + s[4] + s[5] + s[6] + s[7] + s[8] + s[9]
  {
    hide SumInts;
    SumOfFiveInts(s);
    SumIntsTo(s, 5);
    SumIntsTo(s, 6);
    SumIntsTo(s, 7);
    SumIntsTo(s, 8);
    SumIntsTo(s, 9);
    assert s[..10] == s;
  }

  lemma SumOfFiveInts(s: seq<int>)
    requires |s| >= 5
    ensures SumInts(s[..5]) == s[0] + s[1] + s[2] + s[3] + s[4]
  {
    hide SumInts;
    SumIntsTo(s, 0);
    SumIntsTo(s, 1);
    SumIntsTo(s, 2);
    SumIntsTo(s, 3);
    SumIntsTo(s, 4);
  }

  lemma SumIntsTo(s: seq<int>, k: nat)
    requires k < |s|
    ensures SumInts(s[..k + 1]) == SumInts(s[..k]) + s[k] && SumInts(s[..0]) == 0
  {
    assert s[..k + 1][..k] == s[..k];
  }

  // ---- no run trains the detector into silence -------------------------

  /** The observations a run has left stream s with. */
  ghost function HistoryOf(ceiling: real, es: seq<Event>, s: Stream): seq<Bill> {
    Replay(ItemsOf(ceiling, es, s)).history
  }

  /** Which trigger a bill sets off against given baselines, if any: the first that holds, in priority order. */
  ghost predicate Triggers(b: Bill, cost: real, input: real, trigger: Option<Trigger>) {
    var io := b.tokens.input as real > 2.0 * input && b.tokens.output < 50;
    var huge := b.tokens.input > 40000;
    var multiple := b.cost > 5.0 * cost;
    && (trigger == Some(IoFingerprint) <==> io)
    && (trigger == Some(InputAbsolute) <==> !io && huge)
    && (trigger == Some(CostMultiple) <==> !io && !huge && multiple)
    && (trigger == Some(CostAbsolute) <==> !io && !huge && !multiple && b.cost > 0.30)
  }

  /** In every interleaved run, whatever was spent before: a completed call raises the first trigger that holds
      against the baselines of its own stream's history, and these never leave their clamps, so a call past an
      absolute floor, or with the runaway fingerprint against the clamps, always raises the alarm. */
  lemma CannotTrainIntoSilence(ceiling: real, es: seq<Event>, i: nat)
    requires i < |es| && ReplyAt(ceiling, es, i).Posted?
    ensures var r := ReplyAt(ceiling, es, i);
            var b, v, h := r.bill, r.posting.verdict, HistoryOf(ceiling, es[..i], r.stream);
            && BaselineCost(h) <= 0.09 && BaselineInput(h) <= 36000.0
            && Triggers(b, BaselineCost(h), BaselineInput(h), if v.Alarm? then Some(v.trigger) else None)
            && (v.Alarm? ==> v == Alarm(v.trigger, BaselineCost(h), BaselineInput(h), |h| < 10))
            && (b.cost > 0.30 || b.tokens.input > 40000 ==> v.Alarm?)
            && (b.tokens.input > 72000 && b.tokens.output < 50 ==> v.Alarm? && v.trigger == IoFingerprint)
  {
    hide Step, Exec, ItemsOf, Replay, SumReals, SumInts;
    VerdictAt(ceiling, es, i);
  }

  /** Every verdict of a run is the reference's, on the history of the call's own stream. */
  lemma VerdictAt(ceiling: real, es: seq<Event>, i: nat)
    requires i < |es| && ReplyAt(ceiling, es, i).Posted?
    ensures var r := ReplyAt(ceiling, es, i);
            r.posting.verdict == JudgeHistory(HistoryOf(ceiling, es[..i], r.stream), r.bill)
  {
    hide Step, JudgeHistory, Abstracts;
    var s := ReplyAt(ceiling, es, i).stream;
    StreamRefinesReference(ceiling, es[..i], s);
    StepRefines(ceiling, Exec(ceiling, es[..i]), es[i], s, HistoryOf(ceiling, es[..i], s));
  }

  // ---- when the books are complete -------------------------------------

  /** The guard of the branch that loses a call, on the event and on what came before it: a call of the
      session completes and costs something, it is a runaway against its own stream's history, and the
      alarm will not go out. */
  ghost predicate LosesAt(ceiling: real, es: seq<Event>, i: nat, session: string)
    requires i < |es|
  {
    var st, ev := Exec(ceiling, es[..i]), es[i];
    var b := BillOf(st, ev, session);
    && b.Some? && b.value.cost > 0.0 && !ev.alarmPublishes
    && JudgeHistory(HistoryOf(ceiling, es[..i], Stream(st.inFlight[ev.id].site, session)), b.value).Alarm?
  }

  ghost predicate LosesPaidCall(ceiling: real, es: seq<Event>, session: string) {
    exists i: nat | i < |es| :: LosesAt(ceiling, es, i, session)
  }

  ghost function LostSpend(ceiling: real, es: seq<Event>, session: string): real {
    if es == [] then 0.0
    else
      var n := |es| - 1;
      LostSpend(ceiling, es[..n], session)
      + if LosesAt(ceiling, es, n, session) then BillOf(Exec(ceiling, es[..n]), es[n], session).value.cost else 0.0
  }

  /** A billed call is posted on its stream, and it is lost exactly when its alarm escapes. */
  lemma BilledIsPosted(ceiling: real, st: State, ev: Event, session: string)
    requires st.Paired()
    ensures var r, b := Step(ceiling, st, ev).1, BillOf(st, ev, session);
            && (b.Some? <==> r.Posted? && r.stream.session == session)
            && (b.Some? ==> r.bill == b.value && r.stream.site == st.inFlight[ev.id].site)
            && (r.Posted? ==> ev.Complete? && r.alarmPublishes == ev.alarmPublishes
                              && (r.posting.Lost? <==> AlarmEscapes(r.posting.verdict, ev.alarmPublishes)))
  {
    hide Judge, Charge, Windows.Observe, Windows.Paired, Pricing.ComputeCost, ClearBaselines;
  }

  /** One event bills, books and loses the same amount. */
  lemma StepBalances(ceiling: real, es: seq<Event>, i: nat, session: string)
    requires i < |es|
    ensures var st := Exec(ceiling, es[..i]);
            var b, st' := BillOf(st, es[i], session), Step(ceiling, st, es[i]).0;
            (if b.Some? then b.value.cost else 0.0)
            == Spent(st'.ledger.books, session) - Spent(st.ledger.books, session)
               + (if LosesAt(ceiling, es, i, session) then b.value.cost else 0.0)
  {
    hide Step, JudgeHistory, ItemsOf, Replay, BillOf;
    var st := Exec(ceiling, es[..i]);
    BilledIsPosted(ceiling, st, es[i], session);
    StepSpends(ceiling, st, es[i], session);
    if ReplyAt(ceiling, es, i).Posted? {
      VerdictAt(ceiling, es, i);
    }
  }

  lemma LosesAtOfPrefix(ceiling: real, es: seq<Event>, i: nat, n: nat, session: string)
    requires i < n <= |es|
    ensures LosesAt(ceiling, es[..n], i, session) <==> LosesAt(ceiling, es, i, session)
  {
    hide Exec, JudgeHistory, ItemsOf, BillOf;
    PrefixOfPrefix(es, i, n);
  }

  /** What the books miss in a run is the cost of the calls lost on the way. */
  lemma {:induction false} ShortfallIsLostSpend(ceiling: real, es: seq<Event>, session: string)
    ensures BilledSpend(ceiling, es, session)
         == Spent(Exec(ceiling, es).ledger.books, session) + LostSpend(ceiling, es, session)
    ensures LostSpend(ceiling, es, session) >= 0.0
    ensures LostSpend(ceiling, es, session) > 0.0 <==> LosesPaidCall(ceiling, es, session)
  {
    hide Step, LosesAt, BillOf;
    if es != [] {
      var n := |es| - 1;
      ShortfallIsLostSpend(ceiling, es[..n], session);
      StepBalances(ceiling, es, n, session);
      forall i: nat | i < n
        ensures LosesAt(ceiling, es[..n], i, session) <==> LosesAt(ceiling, es, i, session)
      {
        LosesAtOfPrefix(ceiling, es, i, n, session);
      }
      LossIsPaid(ceiling, es, n, session);
      if LosesPaidCall(ceiling, es[..n], session) {
        var i: nat :| i < n && LosesAt(ceiling, es[..n], i, session);
        assert LosesAt(ceiling, es, i, session);
      }
    }
  }

  lemma LossIsPaid(ceiling: real, es: seq<Event>, i: nat, session: string)
    requires i < |es|
    ensures LosesAt(ceiling, es, i, session) ==>
              && BillOf(Exec(ceiling, es[..i]), es[i], session).Some?
              && BillOf(Exec(ceiling, es[..i]), es[i], session).value.cost > 0.0
  {}

  /** The ledger accounts for every call the session paid for if and only if no call that costs something and
      is a runaway against its stream's history completes while alarms cannot be published. */
  lemma BooksAreCompleteIff(ceiling: real, es: seq<Event>, session: string)
    ensures Spent(Exec(ceiling, es).ledger.books, session) <= BilledSpend(ceiling, es, session)
    ensures Spent(Exec(ceiling, es).ledger.books, session) == BilledSpend(ceiling, es, session)
       <==> !LosesPaidCall(ceiling, es, session)
  {
    hide Exec, BilledSpend, LostSpend, LosesPaidCall;
    ShortfallIsLostSpend(ceiling, es, session);
  }

  /** Such runs exist: the first call of a session reads 40001 tokens and its alarm does not go out. */
  const UNHEARD := [Admit(0, Call(Some("s"), Adapter("intent_router"))),
                    Complete(0, "claude-haiku-4-5-20251001", Pricing.Tokens(40001, 100, 0, 0, 0, 0), false, true)]

  lemma UnheardAlarmLosesCall(ceiling: real)
    requires ceiling > 0.0
    ensures Spent(Exec(ceiling, UNHEARD).ledger.books, "s") == 0.0
    ensures BilledSpend(ceiling, UNHEARD, "s") == 0.040501
  {
    var call, n := Call(Some("s"), Adapter("intent_router")), UNHEARD[..1];
    assert n[..0] == [];
    assert Exec(ceiling, n) == INIT.(inFlight := map[0 := call]);
    assert BillOf(Exec(ceiling, n), UNHEARD[1], "s") == Some(Bill(UNHEARD[1].model, UNHEARD[1].tokens, 0.040501));
    assert BilledSpend(ceiling, n, "s") == 0.0;
  }
}
