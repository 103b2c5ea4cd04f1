/** The process-wide cost ledger and the runaway detector (sidequest/agents/cost_safety.py).

    The ledger is a class whose methods are proved against functions on the value `Ledger`;
    module CostProtocol runs those functions over every interleaving of calls. */
module CostSafety {
  import opened Options
  import Pricing

  const BASELINE_WINDOW_K := 10
  const WARMUP_COST_USD_FLOOR := 0.03
  const WARMUP_INPUT_TOKENS_FLOOR := 12000
  const COST_TRIGGER_MULTIPLE := 5.0
  const IO_FINGERPRINT_INPUT_MULTIPLE := 2.0
  const IO_FINGERPRINT_OUTPUT_CEILING := 50
  const ABSOLUTE_COST_USD_FLOOR := 0.30
  const BASELINE_COST_CEILING := 3.0 * WARMUP_COST_USD_FLOOR
  const BASELINE_INPUT_CEILING := 3 * WARMUP_INPUT_TOKENS_FLOOR
  const ABSOLUTE_INPUT_TOKENS_FLOOR := 40000

  /** One accounted call. */
  datatype Bill = Bill(model: string, tokens: Pricing.Tokens, cost: real)

  // ---- rolling windows -------------------------------------------------

  /** deque(maxlen=10).append */
  function Push<T>(w: seq<T>, x: T): seq<T> {
    LastK(w + [x])
  }

  function LastK<T>(s: seq<T>): seq<T> {
    if |s| <= BASELINE_WINDOW_K then s else s[|s| - BASELINE_WINDOW_K..]
  }

  lemma PushLastK<T>(s: seq<T>, x: T)
    ensures Push(LastK(s), x) == LastK(s + [x])
  {}

  /** The two parallel baselines of a call site, keyed by K. */
  datatype Windows<K(==)> = Windows(costs: map<K, seq<real>>, inputs: map<K, seq<int>>) {
    /** Both baselines know the same keys and hold equally many observations, between 1 and 10. */
    ghost predicate Paired() {
      && costs.Keys == inputs.Keys
      && forall k | k in costs :: 0 < |costs[k]| == |inputs[k]| <= BASELINE_WINDOW_K
    }

    function CostsOf(k: K): Option<seq<real>> { if k in costs then Some(costs[k]) else None }

    function InputsOf(k: K): Option<seq<int>> { if k in inputs then Some(inputs[k]) else None }

    function Observe(k: K, b: Bill): (w: Windows<K>)
      ensures Paired() ==> w.Paired()
    {
      Windows(costs[k := Push(if k in costs then costs[k] else [], b.cost)],
              inputs[k := Push(if k in inputs then inputs[k] else [], b.tokens.input)])
    }

    function Forget(ks: set<K>): (w: Windows<K>)
      ensures Paired() ==> w.Paired()
    {
      Windows(costs - ks, inputs - ks)
    }
  }

  // ---- the runaway detector --------------------------------------------

  datatype Trigger = IoFingerprint | InputAbsolute | CostMultiple | CostAbsolute

  datatype Verdict = Quiet | Alarm(trigger: Trigger, baselineCost: real, baselineInput: real, warmup: bool)

  function SumReals(s: seq<real>): real {
    if s == [] then 0.0 else SumReals(s[..|s| - 1]) + s[|s| - 1]
  }

  function SumInts(s: seq<int>): int {
    if s == [] then 0 else SumInts(s[..|s| - 1]) + s[|s| - 1]
  }

  function Min(x: real, y: real): real { if y < x then y else x }

  /** The four-trigger comparator. Only the length of the cost window is tested for warmup, so the
      input window must not be empty once the cost window is full: its mean is taken too. */
  function Judge(costs: Option<seq<real>>, inputs: Option<seq<int>>, b: Bill): Verdict
    requires costs.Some? && inputs.Some? && |costs.value| >= BASELINE_WINDOW_K ==> |inputs.value| > 0
  {
    if costs.None? || inputs.None? || |costs.value| < BASELINE_WINDOW_K then
      Compare(WARMUP_COST_USD_FLOOR, WARMUP_INPUT_TOKENS_FLOOR as real, true, b)
    else
      Compare(Min(SumReals(costs.value) / |costs.value| as real, BASELINE_COST_CEILING),
              Min(SumInts(inputs.value) as real / |inputs.value| as real, BASELINE_INPUT_CEILING as real),
              false, b)
  }

  function Compare(baselineCost: real, baselineInput: real, warmup: bool, b: Bill): Verdict {
    if b.tokens.input as real > IO_FINGERPRINT_INPUT_MULTIPLE * baselineInput
       && b.tokens.output < IO_FINGERPRINT_OUTPUT_CEILING then Alarm(IoFingerprint, baselineCost, baselineInput, warmup)
    else if b.tokens.input > ABSOLUTE_INPUT_TOKENS_FLOOR then Alarm(InputAbsolute, baselineCost, baselineInput, warmup)
    else if b.cost > COST_TRIGGER_MULTIPLE * baselineCost then Alarm(CostMultiple, baselineCost, baselineInput, warmup)
    else if b.cost > ABSOLUTE_COST_USD_FLOOR then Alarm(CostAbsolute, baselineCost, baselineInput, warmup)
    else Quiet
  }

  // ---- the ledger as a value -------------------------------------------

  datatype AdapterKey = AdapterKey(session: string, caller: string)

  /** The per-session totals and the sessions whose ceiling event went out. */
  datatype Books = Books(cumulative: map<string, real>, announced: set<string>)

  datatype Ledger = Ledger(books: Books, windows: Windows<AdapterKey>)

  const EMPTY_LEDGER := Ledger(Books(map[], {}), Windows(map[], map[]))

  /** What a ledger method raises. */
  datatype Raise =
    | NoRaise
    | CeilingExceeded(session: string, cumulative: real, ceiling: real)
    | PublishFailed

  function Spent(b: Books, session: string): real {
    if session in b.cumulative then b.cumulative[session] else 0.0
  }

  function Preflight(b: Books, session: string, ceiling: real): Raise {
    if Spent(b, session) >= ceiling then CeilingExceeded(session, Spent(b, session), ceiling) else NoRaise
  }

  datatype Charged = Charged(books: Books, raise: Raise, emitted: bool)

  /** update_cumulative; `publishes` is whether the ceiling event, if one is due, goes out. */
  function Charge(b: Books, session: string, cost: real, ceiling: real, publishes: bool): Charged {
    var total := Spent(b, session) + cost;
    var booked := b.(cumulative := b.cumulative[session := total]);
    if total < ceiling then Charged(booked, NoRaise, false)
    else if session in b.announced then Charged(booked, CeilingExceeded(session, total, ceiling), false)
    else if !publishes then Charged(booked, PublishFailed, false)
    else Charged(booked.(announced := b.announced + {session}), CeilingExceeded(session, total, ceiling), true)
  }

  /** What a post-call accounting pass did. Lost: the alarm's own publication raised, so the call
      reached neither the windows nor the cumulative total. */
  datatype Posting =
    | Lost(verdict: Verdict)
    | Booked(verdict: Verdict, raise: Raise, emitted: bool)

  predicate AlarmEscapes(v: Verdict, alarmPublishes: bool) { v.Alarm? && !alarmPublishes }

  /** record_call: judge against earlier calls, then append, then charge. */
  function Record(l: Ledger, key: AdapterKey, b: Bill, ceiling: real,
                  alarmPublishes: bool, ceilingPublishes: bool): (r: (Ledger, Posting))
    requires l.windows.Paired()
    ensures r.0.windows.Paired()
  {
    var v := Judge(l.windows.CostsOf(key), l.windows.InputsOf(key), b);
    if AlarmEscapes(v, alarmPublishes) then (l, Lost(v))
    else
      var c := Charge(l.books, key.session, b.cost, ceiling, ceilingPublishes);
      (Ledger(c.books, l.windows.Observe(key, b)), Booked(v, c.raise, c.emitted))
  }

  function KeysOf(l: Ledger, session: string): set<AdapterKey> {
    set k | k in l.windows.costs.Keys + l.windows.inputs.Keys && k.session == session
  }

  function ClearBaselines(l: Ledger, session: string): (r: Ledger)
    ensures l.windows.Paired() ==> r.windows.Paired()
  {
    l.(windows := l.windows.Forget(KeysOf(l, session)))
  }

  // ---- sums over a map, in any iteration order -------------------------

  ghost function SumOver(m: map<string, real>, ks: set<string>): real
    requires ks <= m.Keys
  {
    if ks == {} then 0.0
    else
      var k :| k in ks;
      m[k] + SumOver(m, ks - {k})
  }

  ghost function SumValues(m: map<string, real>): real { SumOver(m, m.Keys) }

  lemma {:induction false} SumOverPick(m: map<string, real>, ks: set<string>, x: string)
    requires ks <= m.Keys && x in ks
    ensures SumOver(m, ks) == m[x] + SumOver(m, ks - {x})
    decreases ks
  {
    var k :| k in ks && SumOver(m, ks) == m[k] + SumOver(m, ks - {k});
    if k != x {
      SumOverPick(m, ks - {k}, x);
      SumOverPick(m, ks - {x}, k);
      assert ks - {k} - {x} == ks - {x} - {k};
    }
  }

  lemma {:induction false} SumOverAgree(m: map<string, real>, n: map<string, real>, ks: set<string>)
    requires ks <= m.Keys && ks <= n.Keys
    requires forall k | k in ks :: m[k] == n[k]
    ensures SumOver(m, ks) == SumOver(n, ks)
    decreases ks
  {
    if ks != {} {
      var k :| k in ks;
      SumOverPick(m, ks, k);
      SumOverPick(n, ks, k);
      SumOverAgree(m, n, ks - {k});
    }
  }

  /** Charging one session moves the instrumented total by exactly that charge. */
  lemma ChargeMovesTotal(b: Books, session: string, cost: real, ceiling: real, publishes: bool)
    ensures SumValues(Charge(b, session, cost, ceiling, publishes).books.cumulative) == SumValues(b.cumulative) + cost
  {
    var m := b.cumulative;
    var n := m[session := Spent(b, session) + cost];
    assert Charge(b, session, cost, ceiling, publishes).books.cumulative == n;
    var rest := m.Keys - {session};
    assert n.Keys - {session} == rest;
    SumOverPick(n, n.Keys, session);
    SumOverAgree(m, n, rest);
    if session in m {
      SumOverPick(m, m.Keys, session);
    } else {
      assert rest == m.Keys;
    }
  }

  // ---- the class -------------------------------------------------------

  class SessionCostLedger {
    var cumulative: map<string, real>
    var announced: set<string>
    var costBaseline: map<AdapterKey, seq<real>>
    var inputBaseline: map<AdapterKey, seq<int>>

    ghost function Value(): Ledger
      reads this
    {
      Ledger(Books(cumulative, announced), Windows(costBaseline, inputBaseline))
    }

    ghost predicate Valid()
      reads this
    {
      Value().windows.Paired()
    }

    constructor ()
      ensures Valid() && Value() == EMPTY_LEDGER
    {
      cumulative, announced, costBaseline, inputBaseline := map[], {}, map[], map[];
    }

    /** Refuses exactly the sessions whose total has reached the ceiling; changes nothing. */
    method CheckCeiling(session: string, ceiling: real) returns (raise: Raise)
      ensures raise == Preflight(Value().books, session, ceiling)
      ensures if Spent(Value().books, session) < ceiling then raise == NoRaise
              else raise == CeilingExceeded(session, Spent(Value().books, session), ceiling)
    {
      var total := if session in cumulative then cumulative[session] else 0.0;
      if total >= ceiling {
        return CeilingExceeded(session, total, ceiling);
      }
      return NoRaise;
    }

    method UpdateCumulative(session: string, cost: real, ceiling: real, publishes: bool)
      returns (raise: Raise, emitted: bool)
      modifies this`cumulative, this`announced
      ensures Charged(Value().books, raise, emitted) == Charge(old(Value()).books, session, cost, ceiling, publishes)
      ensures Value().windows == old(Value()).windows
      ensures raise.NoRaise? <==> Spent(Value().books, session) < ceiling
      ensures emitted <==> session in announced && session !in old(announced)
    {
      var total := (if session in cumulative then cumulative[session] else 0.0) + cost;
      cumulative := cumulative[session := total];
      if total < ceiling {
        return NoRaise, false;
      }
      if session in announced {
        return CeilingExceeded(session, total, ceiling), false;
      }
      if !publishes {
        return PublishFailed, false;
      }
      announced := announced + {session};
      return CeilingExceeded(session, total, ceiling), true;
    }

    method RecordCall(session: string, caller: string, b: Bill, ceiling: real,
                      alarmPublishes: bool, ceilingPublishes: bool) returns (p: Posting)
      requires Valid()
      modifies this
      ensures Valid()
      ensures (Value(), p)
           == Record(old(Value()), AdapterKey(session, caller), b, ceiling, alarmPublishes, ceilingPublishes)
      ensures p.Lost? ==> Value() == old(Value())
    {
      var key := AdapterKey(session, caller);
      var v := Judge(if key in costBaseline then Some(costBaseline[key]) else None,
                     if key in inputBaseline then Some(inputBaseline[key]) else None, b);
      if v.Alarm? && !alarmPublishes {
        return Lost(v);
      }
      ghost var before := Value();
      costBaseline := costBaseline[key := Push(if key in costBaseline then costBaseline[key] else [], b.cost)];
      inputBaseline :=
        inputBaseline[key := Push(if key in inputBaseline then inputBaseline[key] else [], b.tokens.input)];
      assert Value() == before.(windows := before.windows.Observe(key, b));
      var raise, emitted := UpdateCumulative(session, b.cost, ceiling, ceilingPublishes);
      return Booked(v, raise, emitted);
    }

    /** Drops every adapter window of one session and no other; totals and announcements stay. */
    method ResetBaselines(session: string)
      requires Valid()
      modifies this`costBaseline, this`inputBaseline
      ensures Valid() && Value() == ClearBaselines(old(Value()), session)
    {
      var doomed := set k | k in costBaseline && k.session == session;
      costBaseline := costBaseline - doomed;
      doomed := set k | k in inputBaseline && k.session == session;
      inputBaseline := inputBaseline - doomed;
      assert costBaseline == old(costBaseline) - KeysOf(old(Value()), session);
      assert inputBaseline == old(inputBaseline) - KeysOf(old(Value()), session);
    }

    method InstrumentedTotal() returns (total: real)
      ensures total == SumValues(cumulative)
    {
      total := 0.0;
      var left := cumulative.Keys;
      while left != {}
        invariant left <= cumulative.Keys
        invariant total + SumOver(cumulative, left) == SumValues(cumulative)
        decreases |left|
      {
        var k :| k in left;
        SumOverPick(cumulative, left, k);
        total := total + cumulative[k];
        left := left - {k};
      }
    }
  }
}
