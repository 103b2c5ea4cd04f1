/** Per-model token prices and the linear cost of one call
    (sidequest/agents/anthropic_cost.py). Dollars are reals. */
module Pricing {
  import opened Options

  /** Dollars per million tokens, one rate per billing bucket. */
  datatype Rates = Rates(input: real, output: real, cacheRead: real, cacheWrite5m: real, cacheWrite1h: real)

  /** The token counts of one call; `cacheWrite` is the legacy aggregate, billed at the 5-minute rate. */
  datatype Tokens = Tokens(input: nat, output: nat, cacheRead: nat,
                           cacheWrite: nat, cacheWrite5m: nat, cacheWrite1h: nat)

  const NO_TOKENS := Tokens(0, 0, 0, 0, 0, 0)

  function ModelRates(model: string): (r: Option<Rates>)
    ensures r.Some? ==> Chargeable(r.value)
  {
    if model == "claude-sonnet-4-6" then Some(Rates(3.0, 15.0, 0.30, 3.75, 6.0))
    else if model == "claude-haiku-4-5-20251001" then Some(Rates(1.0, 5.0, 0.10, 1.25, 2.0))
    else if model == "claude-opus-4-8" then Some(Rates(5.0, 25.0, 0.50, 6.25, 10.0))
    else None
  }

  ghost predicate Chargeable(r: Rates) {
    r.input >= 0.0 && r.output >= 0.0 && r.cacheRead >= 0.0 && r.cacheWrite5m >= 0.0 && r.cacheWrite1h >= 0.0
  }

  function Dollars(r: Rates, t: Tokens): real {
    (t.input as real * r.input
     + t.output as real * r.output
     + t.cacheRead as real * r.cacheRead
     + t.cacheWrite as real * r.cacheWrite5m
     + t.cacheWrite5m as real * r.cacheWrite5m
     + t.cacheWrite1h as real * r.cacheWrite1h) / 1000000.0
  }

  /** None is the UnknownModel error. A priced call never costs less than nothing. */
  function ComputeCost(model: string, t: Tokens): (c: Option<real>)
    ensures c.Some? <==> ModelRates(model).Some?
    ensures c.Some? ==> c.value >= 0.0
  {
    match ModelRates(model)
    case None => None
    case Some(r) => NonNegative(r, t); Some(Dollars(r, t))
  }

  function AddTokens(a: Tokens, b: Tokens): Tokens {
    Tokens(a.input + b.input, a.output + b.output, a.cacheRead + b.cacheRead,
           a.cacheWrite + b.cacheWrite, a.cacheWrite5m + b.cacheWrite5m, a.cacheWrite1h + b.cacheWrite1h)
  }

  lemma NonNegative(r: Rates, t: Tokens)
    requires Chargeable(r)
    ensures Dollars(r, t) >= 0.0
  {
    Bucket(t.input, r.input);
    Bucket(t.output, r.output);
    Bucket(t.cacheRead, r.cacheRead);
    Bucket(t.cacheWrite, r.cacheWrite5m);
    Bucket(t.cacheWrite5m, r.cacheWrite5m);
    Bucket(t.cacheWrite1h, r.cacheWrite1h);
  }

  lemma Bucket(n: nat, rate: real)
    requires rate >= 0.0
    ensures n as real * rate >= 0.0
  {}

  /** The price of a batch is the sum of the prices: buckets may be summed before or after pricing. */
  lemma DollarsAdd(r: Rates, a: Tokens, b: Tokens)
    ensures Dollars(r, AddTokens(a, b)) == Dollars(r, a) + Dollars(r, b)
  {
    BucketAdd(a.input, b.input, r.input);
    BucketAdd(a.output, b.output, r.output);
    BucketAdd(a.cacheRead, b.cacheRead, r.cacheRead);
    BucketAdd(a.cacheWrite, b.cacheWrite, r.cacheWrite5m);
    BucketAdd(a.cacheWrite5m, b.cacheWrite5m, r.cacheWrite5m);
    BucketAdd(a.cacheWrite1h, b.cacheWrite1h, r.cacheWrite1h);
  }

  lemma BucketAdd(m: nat, n: nat, rate: real)
    ensures (m + n) as real * rate == m as real * rate + n as real * rate
  {}

  /** What a million tokens of each kind cost at a model: input, output, cache-read, unsplit cache-write, five-minute
      and one-hour cache-write. */
  ghost predicate Quotes(model: string, i: real, o: real, r: real, w: real, w5: real, w1: real) {
    && ComputeCost(model, Tokens(1000000, 0, 0, 0, 0, 0)) == Some(i)
    && ComputeCost(model, Tokens(0, 1000000, 0, 0, 0, 0)) == Some(o)
    && ComputeCost(model, Tokens(0, 0, 1000000, 0, 0, 0)) == Some(r)
    && ComputeCost(model, Tokens(0, 0, 0, 1000000, 0, 0)) == Some(w)
    && ComputeCost(model, Tokens(0, 0, 0, 0, 1000000, 0)) == Some(w5)
    && ComputeCost(model, Tokens(0, 0, 0, 0, 0, 1000000)) == Some(w1)
  }

  /** The price list in dollars; no other model is priced. */
  lemma PriceList()
    ensures Quotes("claude-sonnet-4-6", 3.0, 15.0, 0.3, 3.75, 3.75, 6.0)
    ensures Quotes("claude-haiku-4-5-20251001", 1.0, 5.0, 0.1, 1.25, 1.25, 2.0)
    ensures Quotes("claude-opus-4-8", 5.0, 25.0, 0.5, 6.25, 6.25, 10.0)
    ensures forall m: string, t: Tokens ::
              ComputeCost(m, t).Some? ==> m in ["claude-sonnet-4-6", "claude-haiku-4-5-20251001", "claude-opus-4-8"]
  {
    hide Dollars;
    MillionsAtRates("claude-sonnet-4-6");
    MillionsAtRates("claude-haiku-4-5-20251001");
    MillionsAtRates("claude-opus-4-8");
  }

  lemma MillionsAtRates(model: string)
    requires ModelRates(model).Some?
    ensures var r := ModelRates(model).value;
            Quotes(model, r.input, r.output, r.cacheRead, r.cacheWrite5m, r.cacheWrite5m, r.cacheWrite1h)
  {
    hide ModelRates;
  }

  /** A model's six quoted prices determine the price of every call. */
  lemma QuotesDetermine(model: string, i: real, o: real, r: real, w: real, w5: real, w1: real, t: Tokens)
    requires Quotes(model, i, o, r, w, w5, w1)
    ensures ComputeCost(model, t)
         == Some((t.input as real * i + t.output as real * o + t.cacheRead as real * r + t.cacheWrite as real * w
                  + t.cacheWrite5m as real * w5 + t.cacheWrite1h as real * w1) / 1000000.0)
  {
    hide ModelRates;
    var rates := ModelRates(model).value;
    MillionsAtRates(model);
    assert rates == Rates(i, o, r, w5, w1) && w == w5;
    DollarsAt(i, o, r, w5, w1, t);
  }

  lemma DollarsAt(i: real, o: real, r: real, w5: real, w1: real, t: Tokens)
    ensures Dollars(Rates(i, o, r, w5, w1), t)
         == (t.input as real * i + t.output as real * o + t.cacheRead as real * r + t.cacheWrite as real * w5
             + t.cacheWrite5m as real * w5 + t.cacheWrite1h as real * w1) / 1000000.0
  {}
}
