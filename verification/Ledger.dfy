/** The flat log of metered requests, and sums over selections of it: what the meter of router/meter.go
    has to agree with. Counters are unbounded integers and money is real. */
module Ledger {

  datatype Tokens = Tokens(input: int, output: int, cacheWrite: int, cacheRead: int)

  const NO_TOKENS := Tokens(0, 0, 0, 0)

  function AddTokens(a: Tokens, b: Tokens): Tokens {
    Tokens(a.input + b.input, a.output + b.output, a.cacheWrite + b.cacheWrite, a.cacheRead + b.cacheRead)
  }

  datatype Aggregate = Aggregate(requests: int, tokens: Tokens, usd: real)

  const NOTHING := Aggregate(0, NO_TOKENS, 0.0)

  function Plus(a: Aggregate, b: Aggregate): Aggregate {
    Aggregate(a.requests + b.requests, AddTokens(a.tokens, b.tokens), a.usd + b.usd)
  }

  datatype Tags = Tags(run: string, ticket: string, prefix: string)
  datatype Entry = Entry(tags: Tags, model: string, tier: string, tokens: Tokens, usd: real, known: bool)

  /** What an entry adds to the totals, or to the unpriced account: there only entries of unknown models
      and entries without usage count, and only the former bring tokens. */
  datatype Account = Total | Unpriced

  function Amount(acc: Account, e: Entry): Aggregate {
    match acc
    case Total => Aggregate(1, e.tokens, e.usd)
    case Unpriced =>
      if !e.known then Aggregate(1, e.tokens, 0.0)
      else if e.tokens == NO_TOKENS then Aggregate(1, NO_TOKENS, 0.0)
      else NOTHING
  }

  // ---------------------------------------------------------------------------------------
  // Selections
  // ---------------------------------------------------------------------------------------

  datatype Dim = All | Only(names: set<string>)
  datatype Axis = RunAxis | TicketAxis | TierAxis | ModelAxis
  datatype Sel = Sel(prefix: string, runs: Dim, tickets: Dim, tiers: Dim, models: Dim)

  predicate In(x: string, d: Dim) {
    d.All? || x in d.names
  }

  predicate Matches(s: Sel, e: Entry) {
    e.tags.prefix == s.prefix && In(e.tags.run, s.runs) && In(e.tags.ticket, s.tickets) && In(e.tier, s.tiers)
    && In(e.model, s.models)
  }

  function Field(e: Entry, a: Axis): string {
    match a
    case RunAxis => e.tags.run
    case TicketAxis => e.tags.ticket
    case TierAxis => e.tier
    case ModelAxis => e.model
  }

  function With(s: Sel, a: Axis, d: Dim): Sel {
    match a
    case RunAxis => s.(runs := d)
    case TicketAxis => s.(tickets := d)
    case TierAxis => s.(tiers := d)
    case ModelAxis => s.(models := d)
  }

  /** The distinct values of a field among the selected entries. */
  function Names(log: seq<Entry>, s: Sel, a: Axis): set<string> {
    set e | e in log && Matches(s, e) :: Field(e, a)
  }

  function Sum(acc: Account, log: seq<Entry>, s: Sel): Aggregate {
    if log == [] then NOTHING
    else
      var last := log[|log| - 1];
      var before := Sum(acc, log[..|log| - 1], s);
      if Matches(s, last) then Plus(before, Amount(acc, last)) else before
  }

  lemma {:induction false} SumAppend(acc: Account, log: seq<Entry>, e: Entry, s: Sel)
    ensures Sum(acc, log + [e], s) == if Matches(s, e) then Plus(Sum(acc, log, s), Amount(acc, e)) else Sum(acc, log, s)
  {
    assert (log + [e])[..|log|] == log;
  }

  lemma {:induction false} SumSame(acc: Account, log: seq<Entry>, s: Sel, t: Sel)
    requires forall e :: e in log ==> (Matches(s, e) <==> Matches(t, e))
    ensures Sum(acc, log, s) == Sum(acc, log, t)
  {
    if log != [] {
      SumSame(acc, log[..|log| - 1], s, t);
    }
  }

  lemma {:induction false} SumNothing(acc: Account, log: seq<Entry>, s: Sel)
    requires forall e :: e in log ==> !Matches(s, e)
    ensures Sum(acc, log, s) == NOTHING
  {
    if log != [] {
      SumNothing(acc, log[..|log| - 1], s);
    }
  }

  /** Sums over two disjoint sets of names add up. */
  lemma {:induction false} SumGrows(acc: Account, log: seq<Entry>, s: Sel, a: Axis, done: set<string>, k: string)
    requires k !in done
    ensures Sum(acc, log, With(s, a, Only(done + {k})))
         == Plus(Sum(acc, log, With(s, a, Only(done))), Sum(acc, log, With(s, a, Only({k}))))
  {
    if log != [] {
      SumGrows(acc, log[..|log| - 1], s, a, done, k);
    }
  }

  /** Sums over disjoint selections add up. */
  lemma {:induction false} SumSplit(acc: Account, log: seq<Entry>, s: Sel, a: Sel, b: Sel)
    requires forall e :: e in log ==>
               (Matches(s, e) <==> Matches(a, e) || Matches(b, e)) && !(Matches(a, e) && Matches(b, e))
    ensures Sum(acc, log, s) == Plus(Sum(acc, log, a), Sum(acc, log, b))
  {
    if log != [] {
      assert log[|log| - 1] in log;
      SumSplit(acc, log[..|log| - 1], s, a, b);
    }
  }

  /** Naming every value that occurs is the same as naming none. */
  lemma {:induction false} SumWhole(acc: Account, log: seq<Entry>, s: Sel, a: Axis, names: set<string>)
    requires Names(log, With(s, a, All), a) <= names
    ensures Sum(acc, log, With(s, a, Only(names))) == Sum(acc, log, With(s, a, All))
  {
    forall e | e in log ensures Matches(With(s, a, Only(names)), e) <==> Matches(With(s, a, All), e) {
      if Matches(With(s, a, All), e) {
        assert Field(e, a) in Names(log, With(s, a, All), a);
      }
    }
    SumSame(acc, log, With(s, a, Only(names)), With(s, a, All));
  }

  lemma {:induction false} SumEmptyDim(acc: Account, log: seq<Entry>, s: Sel, a: Axis)
    ensures Sum(acc, log, With(s, a, Only({}))) == NOTHING
  {
    SumNothing(acc, log, With(s, a, Only({})));
  }

  /** A name that does not occur sums to nothing. */
  lemma {:induction false} SumAbsent(acc: Account, log: seq<Entry>, s: Sel, a: Axis, k: string)
    requires k !in Names(log, s, a) && s == With(s, a, All)
    ensures Sum(acc, log, With(s, a, Only({k}))) == NOTHING
  {
    forall e | e in log ensures !Matches(With(s, a, Only({k})), e) {
      if Matches(s, e) {
        assert Field(e, a) in Names(log, s, a);
      }
    }
    SumNothing(acc, log, With(s, a, Only({k})));
  }

  function Without(log: seq<Entry>, p: nat): seq<Entry>
    requires p < |log|
  {
    log[..p] + log[p + 1..]
  }

  /** Any entry may be taken out of a sum, wherever it stands in the log. */
  lemma {:induction false} SumWithout(acc: Account, log: seq<Entry>, p: nat, s: Sel)
    requires p < |log|
    ensures Sum(acc, log, s)
         == if Matches(s, log[p]) then Plus(Sum(acc, Without(log, p), s), Amount(acc, log[p]))
           else Sum(acc, Without(log, p), s)
  {
    var init, last := log[..|log| - 1], log[|log| - 1];
    if p == |log| - 1 {
      assert Without(log, p) == init;
    } else {
      SumWithout(acc, init, p, s);
      assert Without(log, p) == Without(init, p) + [last];
      SumAppend(acc, Without(init, p), last, s);
    }
  }

  lemma {:induction false} MultisetWithout(log: seq<Entry>, p: nat)
    requires p < |log|
    ensures multiset(log) == multiset(Without(log, p)) + multiset{log[p]}
  {
    assert log == log[..p] + ([log[p]] + log[p + 1..]);
  }

  /** A part without its last entry is a part of what is left without that entry. */
  lemma {:induction false} PartWithout(a: seq<Entry>, b: seq<Entry>) returns (p: nat)
    requires a != [] && multiset(a) <= multiset(b)
    ensures p < |b| && b[p] == a[|a| - 1]
    ensures multiset(a) == multiset(a[..|a| - 1]) + multiset{b[p]}
    ensures multiset(b) == multiset(Without(b, p)) + multiset{b[p]}
    ensures multiset(a[..|a| - 1]) <= multiset(Without(b, p))
  {
    var init, last := a[..|a| - 1], a[|a| - 1];
    assert a == init + [last];
    assert multiset(a) == multiset(init) + multiset{last};
    assert last in multiset(b);
    p :| 0 <= p < |b| && b[p] == last;
    MultisetWithout(b, p);
    forall x ensures multiset(init)[x] <= multiset(Without(b, p))[x] {
      assert multiset(a)[x] <= multiset(b)[x];
    }
  }

  /** The log `b` holds all of `a`, in any order, and besides it `c`: its sums are theirs together. */
  lemma {:induction false} Remainder(a: seq<Entry>, b: seq<Entry>) returns (c: seq<Entry>)
    requires multiset(a) <= multiset(b)
    ensures multiset(b) == multiset(a) + multiset(c)
    ensures forall acc, s :: Sum(acc, b, s) == Plus(Sum(acc, a, s), Sum(acc, c, s))
  {
    if a == [] {
      c := b;
    } else {
      var p := PartWithout(a, b);
      c := Remainder(a[..|a| - 1], Without(b, p));
      forall acc, s ensures Sum(acc, b, s) == Plus(Sum(acc, a, s), Sum(acc, c, s)) {
        SumWithout(acc, b, p, s);
      }
    }
  }

  // ---------------------------------------------------------------------------------------
  // What a query asks for
  // ---------------------------------------------------------------------------------------

  /** An empty run means every run of the prefix. */
  function Query(prefix: string, run: string): Sel {
    Sel(prefix, if run == "" then All else Only({run}), All, All, All)
  }

  /** The breakdown of a selection along one axis: group by the field, then sum. */
  function Breakdown(log: seq<Entry>, s: Sel, a: Axis): map<string, Aggregate> {
    map k | k in Names(log, s, a) :: Sum(Total, log, With(s, a, Only({k})))
  }

  datatype Cell = Cell(model: string, tier: string)

  function Cells(log: seq<Entry>, s: Sel): set<Cell> {
    set e | e in log && Matches(s, e) :: Cell(e.model, e.tier)
  }

  function Meet(d: Dim, x: string): Dim {
    if In(x, d) then Only({x}) else Only({})
  }

  /** The part of a selection that is of one model and one tier. */
  function CellSel(s: Sel, c: Cell): Sel {
    s.(models := Meet(s.models, c.model), tiers := Meet(s.tiers, c.tier))
  }

  function ByCell(log: seq<Entry>, s: Sel): map<Cell, Aggregate> {
    map c | c in Cells(log, s) :: Sum(Total, log, CellSel(s, c))
  }

  function UnpricedModels(log: seq<Entry>, s: Sel): set<string> {
    set e | e in log && Matches(s, e) && !e.known && e.model != "" :: e.model
  }
}
