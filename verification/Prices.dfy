/** The price table of router/prices.go, over real numbers. */
module Prices {
  import opened Ledger

  /** Dollars per million tokens of each kind. */
  datatype Rates = Rates(tier: string, input: real, output: real, cacheWrite: real, cacheRead: real)
  type PriceTable = map<string, Rates>

  function PartCost(tokens: int, rate: real): real {
    tokens as real / 1000000.0 * rate
  }

  function Charge(r: Rates, t: Tokens): real {
    PartCost(t.input, r.input) + PartCost(t.output, r.output) + PartCost(t.cacheWrite, r.cacheWrite)
    + PartCost(t.cacheRead, r.cacheRead)
  }

  /** `Cost`: nothing, and unknown, for a model that is not in the table. */
  function Cost(table: PriceTable, model: string, t: Tokens): (real, bool) {
    if model in table then (Charge(table[model], t), true) else (0.0, false)
  }

  lemma {:induction false} PartInFull(tokens: int, rate: real)
    ensures PartCost(tokens, rate) * 1000000.0 == tokens as real * rate
  {
    var x := tokens as real / 1000000.0;
    assert x * 1000000.0 == tokens as real;
    assert x * rate * 1000000.0 == x * 1000000.0 * rate;
  }

  /** A million times what a request costs is each kind of token at its own rate; the cost is known exactly for
      the models of the table. */
  lemma {:induction false} CostInFull(table: PriceTable, model: string, t: Tokens)
    ensures Cost(table, model, t).1 <==> model in table
    ensures Cost(table, model, t).0 * 1000000.0
         == if model in table
            then t.input as real * table[model].input + t.output as real * table[model].output
                 + t.cacheWrite as real * table[model].cacheWrite + t.cacheRead as real * table[model].cacheRead
            else 0.0
  {
    if model in table {
      var r := table[model];
      PartInFull(t.input, r.input);
      PartInFull(t.output, r.output);
      PartInFull(t.cacheWrite, r.cacheWrite);
      PartInFull(t.cacheRead, r.cacheRead);
    }
  }

  lemma {:induction false} Distribute(a: int, b: int, rate: real)
    ensures PartCost(a + b, rate) == PartCost(a, rate) + PartCost(b, rate)
  {
    var x, y := a as real / 1000000.0, b as real / 1000000.0;
    assert (a + b) as real / 1000000.0 == x + y;
    assert (x + y) * rate == x * rate + y * rate;
  }

  lemma {:induction false} ChargeAdds(r: Rates, a: Tokens, b: Tokens)
    ensures Charge(r, AddTokens(a, b)) == Charge(r, a) + Charge(r, b)
  {
    Distribute(a.input, b.input, r.input);
    Distribute(a.output, b.output, r.output);
    Distribute(a.cacheWrite, b.cacheWrite, r.cacheWrite);
    Distribute(a.cacheRead, b.cacheRead, r.cacheRead);
    var c := AddTokens(a, b);
    assert PartCost(c.input, r.input) == PartCost(a.input, r.input) + PartCost(b.input, r.input);
    assert PartCost(c.output, r.output) == PartCost(a.output, r.output) + PartCost(b.output, r.output);
    assert PartCost(c.cacheWrite, r.cacheWrite)
      == PartCost(a.cacheWrite, r.cacheWrite) + PartCost(b.cacheWrite, r.cacheWrite);
    assert PartCost(c.cacheRead, r.cacheRead)
      == PartCost(a.cacheRead, r.cacheRead) + PartCost(b.cacheRead, r.cacheRead);
  }

  /** The cost of tokens added up is the sum of their costs. */
  lemma {:induction false} CostAdds(table: PriceTable, model: string, a: Tokens, b: Tokens)
    ensures Cost(table, model, AddTokens(a, b)).0 == Cost(table, model, a).0 + Cost(table, model, b).0
  {
    if model in table {
      ChargeAdds(table[model], a, b);
    }
  }

  lemma {:induction false} CostOfNothing(table: PriceTable, model: string)
    ensures Cost(table, model, NO_TOKENS).0 == 0.0
  {
  }

  /** The tier an entry of this model is recorded under. */
  function TierOf(table: PriceTable, model: string): string {
    if model in table then table[model].tier else "untagged"
  }

  /** The entry left by a request whose metering failed. */
  const FAILED := Entry(Tags("untagged", "untagged", "untagged"), "", "untagged", NO_TOKENS, 0.0, false)

  /** An entry as the proxy records them: priced from the table, or the mark of a failure. */
  predicate PricedBy(table: PriceTable, e: Entry) {
    e == FAILED || (e.tier == TierOf(table, e.model) && (e.usd, e.known) == Cost(table, e.model, e.tokens))
  }

  /** Spend can be audited: the money of any selection of one model is the cost of its tokens. */
  lemma {:induction false} SpendIsCostOfTokens(table: PriceTable, log: seq<Entry>, s: Sel, model: string)
    requires forall e :: e in log ==> PricedBy(table, e)
    requires forall e :: e in log && Matches(s, e) ==> e.model == model
    ensures Sum(Total, log, s).usd == Cost(table, model, Sum(Total, log, s).tokens).0
  {
    if log == [] {
      CostOfNothing(table, model);
    } else {
      var before, last := log[..|log| - 1], log[|log| - 1];
      assert last in log;
      SpendIsCostOfTokens(table, before, s, model);
      CostAdds(table, model, Sum(Total, before, s).tokens, last.tokens);
      CostOfNothing(table, model);
    }
  }
}
