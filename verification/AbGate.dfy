/** The router A/B gate (sidequest/agents/ab_eval_harness.py:411-453, 543-589 and 813-856). */
module AbGate {
  import opened Options
  import opened Dispatch

  // ---- nearest-rank percentiles ----------------------------------------

  function Insert(x: real, s: seq<real>): seq<real> {
    if s == [] then [x] else if x <= s[0] then [x] + s else [s[0]] + Insert(x, s[1..])
  }

  function Ordered(values: seq<real>): seq<real> {
    if values == [] then [] else Insert(values[0], Ordered(values[1..]))
  }

  ghost predicate Ascending(s: seq<real>) { forall i, j | 0 <= i < j < |s| :: s[i] <= s[j] }

  function Ceil(x: real): int { if x.Floor as real == x then x.Floor else x.Floor + 1 }

  /** The rank of quantile q among n values. */
  function Rank(q: real, n: nat): (r: nat)
    requires 0.0 < q <= 1.0 && 0 < n
    ensures 1 <= r <= n
  {
    Share(q, n as real);
    Ceil(q * n as real)
  }

  lemma Share(q: real, x: real)
    requires 0.0 < q <= 1.0 && 0.0 < x
    ensures 0.0 < q * x <= x
  {
    assert x - q * x == (1.0 - q) * x;
  }

  function Percentile(q: real, values: seq<real>): real
    requires 0.0 < q <= 1.0 && values != []
  {
    OrderedIsSorting(values);
    Ordered(values)[Rank(q, |values|) - 1]
  }

  /** None is the error on an empty sample. */
  method LatencyPercentiles(values: seq<real>) returns (r: Option<(real, real)>)
    ensures r.None? <==> values == []
    ensures r.Some? ==> r.value == (Percentile(0.50, values), Percentile(0.95, values)) && r.value.0 <= r.value.1
  {
    hide Ordered, Ascending, Ceil;
    if values == [] {
      return None;
    }
    var ordered := Ordered(values);
    var n := |values|;
    OrderedIsSorting(values);
    PercentileMonotone(0.50, 0.95, values);
    var lo, hi := Ceil(0.50 * n as real) - 1, Ceil(0.95 * n as real) - 1;
    assert lo == Rank(0.50, n) - 1 && hi == Rank(0.95, n) - 1;
    return Some((ordered[if lo < 0 then 0 else lo], ordered[if hi < 0 then 0 else hi]));
  }

  /** How many values are at most v, or strictly below it. */
  function Count(s: seq<real>, v: real, strict: bool): nat {
    if s == [] then 0
    else (if s[0] < v || (!strict && s[0] == v) then 1 else 0) + Count(s[1..], v, strict)
  }

  lemma {:induction false} InsertSorts(x: real, s: seq<real>)
    requires Ascending(s)
    ensures var t := Insert(x, s);
            |t| == |s| + 1 && Ascending(t) && t[0] == (if s == [] || x <= s[0] then x else s[0])
  {
    if s != [] && !(x <= s[0]) {
      InsertSorts(x, s[1..]);
      var t := Insert(x, s[1..]);
      assert s[0] <= t[0];
      assert forall i | 0 < i < |t| :: t[0] <= t[i];
    }
  }

  lemma {:induction false} InsertKeeps(x: real, s: seq<real>)
    ensures multiset(Insert(x, s)) == multiset{x} + multiset(s)
  {
    if s != [] && !(x <= s[0]) {
      InsertKeeps(x, s[1..]);
      assert s == [s[0]] + s[1..];
    }
  }

  lemma OrderedIsSorting(values: seq<real>)
    ensures Ascending(Ordered(values)) && multiset(Ordered(values)) == multiset(values) && |Ordered(values)| == |values|
  {
    hide Ascending, Ordered;
    OrderedAscends(values);
    OrderedKeeps(values);
  }

  lemma {:induction false} OrderedAscends(values: seq<real>)
    ensures Ascending(Ordered(values)) && |Ordered(values)| == |values|
  {
    hide Ascending, Insert;
    if values == [] {
      EmptyAscends();
    } else {
      OrderedAscends(values[1..]);
      InsertSorts(values[0], Ordered(values[1..]));
    }
  }

  lemma EmptyAscends()
    ensures Ascending([])
  {}

  lemma {:induction false} OrderedKeeps(values: seq<real>)
    ensures multiset(Ordered(values)) == multiset(values)
  {
    hide Insert;
    if values != [] {
      OrderedKeeps(values[1..]);
      InsertKeeps(values[0], Ordered(values[1..]));
      assert values == [values[0]] + values[1..];
    }
  }

  lemma {:induction false} CountInsert(x: real, s: seq<real>, v: real, strict: bool)
    ensures Count(Insert(x, s), v, strict) == Count([x] + s, v, strict)
  {
    assert ([x] + s)[1..] == s;
    if s != [] && !(x <= s[0]) {
      CountInsert(x, s[1..], v, strict);
      assert ([x] + s[1..])[1..] == s[1..];
      assert ([s[0]] + Insert(x, s[1..]))[1..] == Insert(x, s[1..]);
    }
  }

  lemma {:induction false} CountOrdered(values: seq<real>, v: real, strict: bool)
    ensures Count(Ordered(values), v, strict) == Count(values, v, strict)
  {
    if values != [] {
      CountOrdered(values[1..], v, strict);
      CountInsert(values[0], Ordered(values[1..]), v, strict);
      assert ([values[0]] + Ordered(values[1..]))[1..] == Ordered(values[1..]);
    }
  }

  /** In sorted order, the value at position k has at least k + 1 values at most it and at most k below it. */
  lemma {:induction false} CountsAt(s: seq<real>, k: nat, v: real)
    requires Ascending(s) && k <= |s|
    requires forall i | 0 <= i < k :: s[i] <= v
    requires forall i | k <= i < |s| :: v <= s[i]
    ensures Count(s, v, false) >= k && Count(s, v, true) <= k
  {
    if s != [] {
      CountsAt(s[1..], if k == 0 then 0 else k - 1, v);
    }
  }

  /** A whole number is at least x exactly when it is at least the ceiling of x. */
  lemma CeilIs(x: real, k: int)
    ensures k as real >= x <==> k >= Ceil(x)
  {}

  lemma RankIs(q: real, n: nat, k: int)
    requires 0.0 < q <= 1.0 && 0 < n
    ensures k as real >= q * n as real <==> k >= Rank(q, n)
  {
    hide Ceil;
    CeilIs(q * n as real, k);
  }

  lemma RankCounts(q: real, values: seq<real>)
    requires 0.0 < q <= 1.0 && values != []
    ensures var v, r := Percentile(q, values), Rank(q, |values|);
            && v in values && Count(values, v, false) >= r && Count(values, v, true) < r
  {
    hide Count, Rank, Ordered;
    OrderedIsSorting(values);
    var s, r := Ordered(values), Rank(q, |values|);
    var v := s[r - 1];
    assert v in multiset(s);
    CountOrdered(values, v, false);
    CountOrdered(values, v, true);
    CountsAt(s, r, v);
    CountsAt(s, r - 1, v);
  }

  /** The places that hold a value at most v. */
  ghost function AtMost(values: seq<real>, v: real): set<nat> { set i: nat | i < |values| && values[i] <= v }

  ghost function Below(values: seq<real>, v: real): set<nat> { set i: nat | i < |values| && values[i] < v }

  lemma {:induction false} CountSnoc(s: seq<real>, v: real, strict: bool)
    requires s != []
    ensures var n := |s| - 1;
            Count(s, v, strict) == Count(s[..n], v, strict) + (if s[n] < v || (!strict && s[n] == v) then 1 else 0)
  {
    var n := |s| - 1;
    if n > 0 {
      CountSnoc(s[1..], v, strict);
      assert s[1..][..n - 1] == s[..n][1..];
    } else {
      assert s[..n] == [] && s[1..] == [];
    }
  }

  lemma {:induction false} CountIs(values: seq<real>, v: real)
    ensures Count(values, v, false) == |AtMost(values, v)| && Count(values, v, true) == |Below(values, v)|
  {
    if values == [] {
      assert AtMost(values, v) == {} && Below(values, v) == {};
    } else {
      var n := |values| - 1;
      var init := values[..n];
      CountIs(init, v);
      CountSnoc(values, v, false);
      CountSnoc(values, v, true);
      OneMore(AtMost(init, v), AtMost(values, v), n);
      OneMore(Below(init, v), Below(values, v), n);
      hide Count;
    }
  }

  /** Nearest rank: the percentile is one of the measured values, at least a share q of them is at most it, and a
      smaller share is strictly below it. */
  lemma PercentileRank(q: real, values: seq<real>)
    requires 0.0 < q <= 1.0 && values != []
    ensures var v, n := Percentile(q, values), |values| as real;
            v in values && |AtMost(values, v)| as real >= q * n > |Below(values, v)| as real
  {
    hide Count, Rank, Ordered, Percentile;
    var v := Percentile(q, values);
    RankCounts(q, values);
    CountIs(values, v);
    RankIs(q, |values|, Count(values, v, false));
    RankIs(q, |values|, Count(values, v, true));
  }

  lemma {:induction false} CountMonotone(s: seq<real>, u: real, v: real)
    requires u < v
    ensures Count(s, u, false) <= Count(s, v, true)
  {
    if s != [] {
      CountMonotone(s[1..], u, v);
    }
  }

  /** Those two counts determine the value: no other number has them. */
  lemma PercentileUnique(q: real, values: seq<real>, v: real)
    requires 0.0 < q <= 1.0 && values != []
    requires |AtMost(values, v)| as real >= q * |values| as real > |Below(values, v)| as real
    ensures v == Percentile(q, values)
  {
    hide Percentile, AtMost, Below;
    PercentileRank(q, values);
    var w := Percentile(q, values);
    if v < w { SharesGrow(values, v, w); }
    if w < v { SharesGrow(values, w, v); }
  }

  lemma SharesGrow(values: seq<real>, u: real, v: real)
    requires u < v
    ensures |AtMost(values, u)| <= |Below(values, v)|
  {
    hide Count;
    CountIs(values, u);
    CountIs(values, v);
    CountMonotone(values, u, v);
  }

  /** A percentile meets a budget exactly when at least that share of the values does. */
  lemma PercentileWithin(q: real, values: seq<real>, budget: real)
    requires 0.0 < q <= 1.0 && values != []
    ensures Percentile(q, values) <= budget <==> |AtMost(values, budget)| as real >= q * |values| as real
  {
    hide Percentile;
    PercentileRank(q, values);
    var w := Percentile(q, values);
    if w <= budget {
      Included(AtMost(values, w), AtMost(values, budget));
    } else {
      SharesGrow(values, budget, w);
    }
  }

  lemma {:induction false} Included(xs: set<nat>, ys: set<nat>)
    requires xs <= ys
    ensures |xs| <= |ys|
  {
    if xs != {} {
      var x :| x in xs;
      Included(xs - {x}, ys - {x});
    }
  }

  lemma PercentileMonotone(p: real, q: real, values: seq<real>)
    requires 0.0 < p <= q <= 1.0 && values != []
    ensures Percentile(p, values) <= Percentile(q, values)
  {
    hide Rank, Ordered;
    OrderedIsSorting(values);
    RankMonotone(p, q, |values|);
  }

  lemma RankMonotone(p: real, q: real, n: nat)
    requires 0.0 < p <= q <= 1.0 && n > 0
    ensures Rank(p, n) <= Rank(q, n)
  {
    hide Ceil;
    assert p * n as real <= q * n as real;
    CeilMonotone(p * n as real, q * n as real);
  }

  lemma CeilMonotone(x: real, y: real)
    requires x <= y
    ensures Ceil(x) <= Ceil(y)
  {}

  // ---- selection agreement and tallies ---------------------------------

  function Subsystems(p: Package): set<string> { set o | o in AllOwned(p) :: o.dispatch.subsystem }

  function TypeText(d: SubsystemDispatch): string { if "type" in d.params then d.params["type"].text else "None" }

  function ConfrontationTypes(p: Package): set<string> {
    set o | o in AllOwned(p) && o.dispatch.subsystem == "confrontation" :: TypeText(o.dispatch)
  }

  predicate SelectionAgrees(a: Package, b: Package) {
    Subsystems(a) == Subsystems(b) && ConfrontationTypes(a) == ConfrontationTypes(b)
  }

  /** One capture on both backends; an invalid side has no package. */
  datatype Result = Result(haiku: Option<Package>, qwen: Option<Package>, qwenMs: real) {
    predicate Agrees() { haiku.Some? && qwen.Some? && SelectionAgrees(haiku.value, qwen.value) }

    function Types(): set<string> {
      (if haiku.Some? then Subsystems(haiku.value) else {}) + (if qwen.Some? then Subsystems(qwen.value) else {})
    }
  }

  datatype Tally = Tally(agreed: nat, total: nat)

  function TallyOf(results: seq<Result>, name: string): Tally {
    if results == [] then Tally(0, 0)
    else
      var t, r := TallyOf(results[..|results| - 1], name), results[|results| - 1];
      if name in r.Types() then Bump(t, r.Agrees()) else t
  }

  function Lookup(m: map<string, Tally>, name: string): Tally { if name in m then m[name] else Tally(0, 0) }

  function Bump(t: Tally, agrees: bool): Tally { Tally(if agrees then t.agreed + 1 else t.agreed, t.total + 1) }

  ghost predicate BumpedOn(before: map<string, Tally>, after: map<string, Tally>, names: set<string>, agrees: bool) {
    forall name :: Lookup(after, name) == if name in names then Bump(Lookup(before, name), agrees)
                                          else Lookup(before, name)
  }

  lemma BumpOneMore(before: map<string, Tally>, m: map<string, Tally>, names: set<string>, name: string, agrees: bool)
    requires BumpedOn(before, m, names, agrees) && name !in names
    ensures BumpedOn(before, m[name := Bump(Lookup(m, name), agrees)], names + {name}, agrees)
  {
    hide Bump;
    var after := m[name := Bump(Lookup(m, name), agrees)];
    forall other
      ensures Lookup(after, other) == if other in names + {name} then Bump(Lookup(before, other), agrees)
                                      else Lookup(before, other)
    {
      assert Lookup(m, other) == if other in names then Bump(Lookup(before, other), agrees) else Lookup(before, other);
    }
  }

  /** One capture: every type it names is bumped once, in whatever order the set is walked. */
  method BumpAll(before: map<string, Tally>, types: set<string>, agrees: bool) returns (m: map<string, Tally>)
    ensures BumpedOn(before, m, types, agrees)
  {
    m := before;
    assert BumpedOn(before, m, {}, agrees);
    hide BumpedOn;
    var left := types;
    assert types - left == {};
    while left != {}
      invariant left <= types
      invariant BumpedOn(before, m, types - left, agrees)
      decreases |left|
    {
      var name :| name in left;
      BumpOneMore(before, m, types - left, name, agrees);
      assert types - left + {name} == types - (left - {name});
      m := m[name := Bump(Lookup(m, name), agrees)];
      left := left - {name};
    }
    assert types - left == types;
  }

  /** The per-type loop: for each name some backend emitted, how many captures named it and how many of those
      agreed as a whole. */
  method PerType(results: seq<Result>) returns (m: map<string, Tally>)
    ensures forall name :: Lookup(m, name) == TallyOf(results, name)
  {
    hide Result.Types, Result.Agrees, Lookup;
    m := map[];
    LookupNothing();
    for i := 0 to |results|
      invariant forall name :: Lookup(m, name) == TallyOf(results[..i], name)
    {
      assert results[..i + 1][..i] == results[..i];
      m := BumpAll(m, results[i].Types(), results[i].Agrees());
    }
    assert results[..|results|] == results;
  }

  lemma LookupNothing()
    ensures forall name :: Lookup(map[], name) == Tally(0, 0)
  {}

  // What agreement and the tallies count.

  ghost predicate Emits(p: Option<Package>, name: string) {
    p.Some? && exists o :: o in AllOwned(p.value) && o.dispatch.subsystem == name
  }

  /** Some confrontation of the package has this type, as text; a missing type reads "None". */
  ghost predicate Seats(p: Option<Package>, kind: string) {
    p.Some? && exists o :: o in AllOwned(p.value) && o.dispatch.subsystem == "confrontation"
                           && (if "type" in o.dispatch.params then o.dispatch.params["type"].text == kind else kind == "None")
  }

  /** Two sides agree exactly when both are valid, name the same subsystems and seat the same confrontations; two
      valid sides that name nothing agree. */
  lemma AgreesIff(r: Result)
    ensures r.Agrees() <==>
              && r.haiku.Some? && r.qwen.Some?
              && (forall name :: Emits(r.haiku, name) <==> Emits(r.qwen, name))
              && (forall kind :: Seats(r.haiku, kind) <==> Seats(r.qwen, kind))
    ensures forall name :: name in r.Types() <==> Emits(r.haiku, name) || Emits(r.qwen, name)
  {
    hide AllOwned;
    if r.haiku.Some? { NamesIff(r.haiku.value); }
    if r.qwen.Some? { NamesIff(r.qwen.value); }
    hide Emits, Seats, Subsystems, ConfrontationTypes;
    if r.haiku.Some? && r.qwen.Some? {
      var a, b := r.haiku.value, r.qwen.value;
      assert Subsystems(a) == Subsystems(b) <==> forall name :: name in Subsystems(a) <==> name in Subsystems(b);
      assert ConfrontationTypes(a) == ConfrontationTypes(b)
        <==> forall kind :: kind in ConfrontationTypes(a) <==> kind in ConfrontationTypes(b);
    }
    EmitsNothing(r.haiku);
    EmitsNothing(r.qwen);
  }

  lemma EmitsNothing(p: Option<Package>)
    ensures p.None? ==> forall name :: !Emits(p, name)
  {}

  lemma NamesIff(p: Package)
    ensures forall name :: name in Subsystems(p) <==> Emits(Some(p), name)
    ensures forall kind :: kind in ConfrontationTypes(p) <==> Seats(Some(p), kind)
  {
    hide AllOwned;
  }

  ghost function Naming(results: seq<Result>, name: string): set<nat> {
    set i: nat | i < |results| && name in results[i].Types()
  }

  ghost function Agreeing(results: seq<Result>, adj: map<int, Adjudication>): set<nat> {
    set i: nat | i < |results| && (results[i].Agrees() || (i in adj && (adj[i] == HaikuWrong || adj[i] == BothDefensible)))
  }

  ghost function ValidAt(results: seq<Result>): set<nat> { set i: nat | i < |results| && results[i].qwen != None }

  /** One more place at the end, taken or not. */
  lemma OneMore(xs: set<nat>, ys: set<nat>, n: nat)
    requires n !in xs && forall i :: i in ys <==> i in xs || (i == n && n in ys)
    ensures |ys| == |xs| + (if n in ys then 1 else 0)
  {
    hide *;
    assert ys == if n in ys then xs + {n} else xs;
  }

  /** A type's tally counts the captures that name it, and those of them that agree. */
  lemma {:induction false} TallyCounts(results: seq<Result>, name: string)
    ensures TallyOf(results, name)
         == Tally(|Naming(results, name) * Agreeing(results, map[])|, |Naming(results, name)|)
  {
    hide Result.Types, Result.Agrees;
    if results == [] {
      assert Naming(results, name) == {};
    } else {
      var n := |results| - 1;
      var init := results[..n];
      TallyCounts(init, name);
      OneMore(Naming(init, name), Naming(results, name), n);
      OneMore(Naming(init, name) * Agreeing(init, map[]), Naming(results, name) * Agreeing(results, map[]), n);
    }
  }

  lemma {:induction false} AgreedCounts(results: seq<Result>, adj: map<int, Adjudication>)
    ensures AgreedCount(results, adj) == |Agreeing(results, adj)| && QwenValid(results) == |ValidAt(results)|
  {
    hide Result.Agrees;
    if results == [] {
      assert Agreeing(results, adj) == {} && ValidAt(results) == {};
    } else {
      var n := |results| - 1;
      var init := results[..n];
      AgreedCounts(init, adj);
      OneMore(Agreeing(init, adj), Agreeing(results, adj), n);
      OneMore(ValidAt(init), ValidAt(results), n);
    }
  }

  /** agreed <= total <= n, and no type agrees more often than the corpus as a whole. */
  lemma {:induction false} TallyBounds(results: seq<Result>, name: string)
    ensures TallyOf(results, name).agreed <= TallyOf(results, name).total <= |results|
    ensures TallyOf(results, name).agreed <= AgreedCount(results, map[])
  {
    hide Result.Types, Result.Agrees;
    if results != [] {
      TallyBounds(results[..|results| - 1], name);
    }
  }

  // ---- the verdict -----------------------------------------------------

  datatype Adjudication = QwenWrong | HaikuWrong | BothDefensible

  predicate ForQwen(adj: map<int, Adjudication>, i: int) { i in adj && adj[i] != QwenWrong }

  function AgreedCount(results: seq<Result>, adj: map<int, Adjudication>): nat {
    if results == [] then 0
    else
      var n := |results| - 1;
      AgreedCount(results[..n], adj) + if results[n].Agrees() || ForQwen(adj, n) then 1 else 0
  }

  function QwenValid(results: seq<Result>): nat {
    if results == [] then 0
    else QwenValid(results[..|results| - 1]) + if results[|results| - 1].qwen.Some? then 1 else 0
  }

  function Pct(k: nat, n: nat): real
    requires n > 0
  {
    100.0 * k as real / n as real
  }

  method AdjudicatedAgreement(results: seq<Result>, adj: map<int, Adjudication>) returns (pct: Option<real>)
    ensures pct == if results == [] then None else Some(Pct(AgreedCount(results, adj), |results|))
  {
    hide Result.Agrees;
    if results == [] {
      return None;
    }
    var agreed := 0;
    for i := 0 to |results|
      invariant agreed == AgreedCount(results[..i], adj)
    {
      assert results[..i + 1][..i] == results[..i];
      if results[i].Agrees() || (i in adj && adj[i] != QwenWrong) {
        agreed := agreed + 1;
      }
    }
    assert results[..|results|] == results;
    return Some(100.0 * agreed as real / |results| as real);
  }

  datatype Thresholds = Thresholds(agreement: real, p95: real, validity: real)

  function QwenLatencies(results: seq<Result>): seq<real> {
    seq(|results|, i requires 0 <= i < |results| => results[i].qwenMs)
  }

  /** The gate on the report of a non-empty corpus; no adjudications means the raw agreement. */
  predicate Go(results: seq<Result>, t: Thresholds, adj: map<int, Adjudication>)
    requires results != []
  {
    && Pct(AgreedCount(results, adj), |results|) >= t.agreement
    && Pct(QwenValid(results), |results|) >= t.validity
    && Percentile(0.95, QwenLatencies(results)) <= t.p95
  }

  datatype Reason = LowAgreement | LowValidity | SlowP95

  /** The verdict with its reasons: GO exactly when there are none, each threshold that fails being one. */
  method GoNoGo(results: seq<Result>, t: Thresholds, adj: map<int, Adjudication>) returns (go: bool, reasons: seq<Reason>)
    requires results != []
    ensures go == Go(results, t, adj) == (reasons == [])
    ensures LowAgreement in reasons <==> Pct(AgreedCount(results, adj), |results|) < t.agreement
    ensures LowValidity in reasons <==> Pct(QwenValid(results), |results|) < t.validity
    ensures SlowP95 in reasons <==> Percentile(0.95, QwenLatencies(results)) > t.p95
  {
    hide Percentile, Pct, AgreedCount;
    var agreement := Pct(AgreedCount(results, map[]), |results|);
    if adj != map[] {
      var pct := AdjudicatedAgreement(results, adj);
      agreement := pct.value;
    }
    reasons := [];
    if agreement < t.agreement {
      reasons := reasons + [LowAgreement];
    }
    if Pct(QwenValid(results), |results|) < t.validity {
      reasons := reasons + [LowValidity];
    }
    if Percentile(0.95, QwenLatencies(results)) > t.p95 {
      reasons := reasons + [SlowP95];
    }
    go := reasons == [];
  }

  /** Everything adjudicated in the local model's favour before is still in its favour. */
  ghost predicate AtLeastAsKind(adj: map<int, Adjudication>, adj': map<int, Adjudication>) {
    forall i :: ForQwen(adj, i) ==> ForQwen(adj', i)
  }

  lemma {:induction false} AgreedMonotone(results: seq<Result>, adj: map<int, Adjudication>, adj': map<int, Adjudication>)
    requires AtLeastAsKind(adj, adj')
    ensures AgreedCount(results, adj) <= AgreedCount(results, adj') <= |results|
  {
    hide Result.Agrees;
    if results != [] {
      AgreedMonotone(results[..|results| - 1], adj, adj');
    }
  }

  lemma PctMonotone(k: nat, m: nat, n: nat)
    requires n > 0 && k <= m
    ensures Pct(k, n) <= Pct(m, n)
  {
    assert 100.0 * k as real <= 100.0 * m as real;
  }

  /** Deciding more disagreements for the local model never turns a GO into a NO-GO. */
  lemma KinderAdjudicationKeepsGo(results: seq<Result>, t: Thresholds,
                                  adj: map<int, Adjudication>, adj': map<int, Adjudication>)
    requires results != [] && AtLeastAsKind(adj, adj') && Go(results, t, adj)
    ensures Go(results, t, adj')
  {
    hide Percentile, QwenValid, AgreedCount;
    AgreedMonotone(results, adj, adj');
    PctMonotone(AgreedCount(results, adj), AgreedCount(results, adj'), |results|);
  }

  lemma PctAtLeast(k: nat, n: nat, x: real)
    requires n > 0
    ensures Pct(k, n) >= x <==> 100.0 * k as real >= x * n as real
  {
    var q, m := Pct(k, n), n as real;
    assert q * m == 100.0 * k as real;
    if q >= x {
      assert q * m >= x * m;
    } else {
      assert q * m < x * m;
    }
  }

  /** GO, in terms of the captures: enough of them agree or were adjudicated for the local model, enough of its
      answers are valid, and at least 95 in 100 of them came within the budget. */
  lemma GoIff(results: seq<Result>, t: Thresholds, adj: map<int, Adjudication>)
    requires results != []
    ensures var n := |results| as real;
            Go(results, t, adj) <==>
              && 100.0 * |Agreeing(results, adj)| as real >= t.agreement * n
              && 100.0 * |ValidAt(results)| as real >= t.validity * n
              && |AtMost(QwenLatencies(results), t.p95)| as real >= 0.95 * n
  {
    hide Percentile, Pct, AgreedCount, QwenValid, Agreeing, ValidAt, AtMost;
    AgreedCounts(results, adj);
    PctAtLeast(AgreedCount(results, adj), |results|, t.agreement);
    PctAtLeast(QwenValid(results), |results|, t.validity);
    PercentileWithin(0.95, QwenLatencies(results), t.p95);
  }
}
