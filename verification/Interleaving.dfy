/** Concurrent requests of router/main.go: between the moment a request looks its ticket up and the moment
    it records its entry, other requests and tag posts may act. */
module Interleaving {
  import opened Options
  import opened Ledger
  import opened Metering
  import opened Prices
  import opened Router
  import opened Spend
  import opened Tagging

  /** The lock-protected steps. A request is named by its place among the lookups. */
  datatype Step = Tag(body: Option<Post>) | LookUp(exchange: Exchange) | Commit(request: nat)

  /** `looked` holds what each request is going to record, `committed` which requests have recorded, in the
      order they did. */
  datatype World = World(events: seq<Event>, mapping: map<string, string>, looked: seq<Entry>, committed: seq<nat>,
          log: seq<Entry>)

  const EMPTY := World([], map[], [], [], [])

  function Take(table: PriceTable, w: World, step: Step): World {
    match step
    case Tag(body) => w.(events := w.events + [Posted(body)], mapping := AfterPost(w.mapping, body))
    case LookUp(x) => w.(events := w.events + [Proxied(x)], looked := w.looked + [EntryFor(table, w.mapping, x)])
    case Commit(k) =>
      if k < |w.looked| && k !in w.committed then
        w.(committed := w.committed + [k], log := w.log + [w.looked[k]])
      else w
  }

  function Run(table: PriceTable, steps: seq<Step>): World {
    if steps == [] then EMPTY else Take(table, Run(table, steps[..|steps| - 1]), steps[|steps| - 1])
  }

  ghost predicate Distinct(order: seq<nat>) {
    forall i, j :: 0 <= i < j < |order| ==> order[i] != order[j]
  }

  /** The entries of `s` at the places in `order`. */
  function At(s: seq<Entry>, order: seq<nat>): seq<Entry>
    requires forall i :: 0 <= i < |order| ==> order[i] < |s|
  {
    seq(|order|, i requires 0 <= i < |order| => s[order[i]])
  }

  /** What every reachable world keeps: a request records at most once, what it looked up and nothing else;
      and what it looked up is what it would record if requests were served one at a time. */
  ghost predicate Ok(table: PriceTable, w: World) {
    && w.mapping == AfterPosts(Posts(w.events))
    && w.looked == LogOf(table, w.events)
    && Distinct(w.committed) && (forall i :: 0 <= i < |w.committed| ==> w.committed[i] < |w.looked|)
    && w.log == At(w.looked, w.committed)
  }

  lemma {:induction false} CommitKeepsPlaces(s: seq<Entry>, order: seq<nat>, k: nat)
    requires Distinct(order) && (forall i :: 0 <= i < |order| ==> order[i] < |s|)
    requires k < |s| && k !in order
    ensures Distinct(order + [k]) && At(s, order + [k]) == At(s, order) + [s[k]]
  {
  }

  lemma {:induction false} LookUpKeepsPlaces(s: seq<Entry>, e: Entry, order: seq<nat>)
    requires forall i :: 0 <= i < |order| ==> order[i] < |s|
    ensures At(s + [e], order) == At(s, order)
  {
  }

  lemma {:induction false} TakeKeepsOk(table: PriceTable, w: World, step: Step)
    requires Ok(table, w)
    ensures Ok(table, Take(table, w, step))
  {
    match step
    case Tag(body) =>
      EventAppend(table, w.events, Posted(body));
    case LookUp(x) =>
      EventAppend(table, w.events, Proxied(x));
      LookUpKeepsPlaces(w.looked, EntryFor(table, w.mapping, x), w.committed);
    case Commit(k) =>
      if k < |w.looked| && k !in w.committed {
        CommitKeepsPlaces(w.looked, w.committed, k);
      }
  }

  lemma {:induction false} RunIsOk(table: PriceTable, steps: seq<Step>)
    ensures Ok(table, Run(table, steps))
  {
    if steps != [] {
      RunIsOk(table, steps[..|steps| - 1]);
      TakeKeepsOk(table, Run(table, steps[..|steps| - 1]), steps[|steps| - 1]);
    }
  }

  // ---------------------------------------------------------------------------------------
  // Reordering
  // ---------------------------------------------------------------------------------------

  function Except(order: seq<nat>, p: nat): seq<nat>
    requires p < |order|
  {
    order[..p] + order[p + 1..]
  }

  /** The entries at distinct places are a part of the whole, and all of it if every place is among them. */
  lemma {:induction false} AtIsPart(s: seq<Entry>, order: seq<nat>)
    requires Distinct(order) && forall i :: 0 <= i < |order| ==> order[i] < |s|
    ensures multiset(At(s, order)) <= multiset(s)
    ensures (forall k :: 0 <= k < |s| ==> k in order) ==> multiset(At(s, order)) == multiset(s)
  {
    if order == [] {
      assert At(s, order) == [];
      assert s == [] || 0 !in order;
    } else {
      assert order[0] < |s|;
      var init, last := s[..|s| - 1], |s| - 1;
      assert s == init + [s[last]];
      assert multiset(s) == multiset(init) + multiset{s[last]};
      if last in order {
        var p :| 0 <= p < |order| && order[p] == last;
        var rest := Except(order, p);
        ExceptKeeps(order, p);
        AtIsPart(init, rest);
        AtExcept(s, order, p);
        assert At(init, rest) == At(s, rest);
      } else {
        AtIsPart(init, order);
        assert At(init, order) == At(s, order);
      }
    }
  }

  lemma {:induction false} ExceptKeeps(order: seq<nat>, p: nat)
    requires Distinct(order) && p < |order|
    ensures Distinct(Except(order, p))
    ensures forall i :: 0 <= i < |Except(order, p)| ==> Except(order, p)[i] in order && Except(order, p)[i] != order[p]
    ensures forall k :: k in order && k != order[p] ==> k in Except(order, p)
  {
    var rest := Except(order, p);
    assert forall i :: 0 <= i < |rest| ==> rest[i] == order[if i < p then i else i + 1];
    assert order == order[..p] + [order[p]] + order[p + 1..];
  }

  lemma {:induction false} AtExcept(s: seq<Entry>, order: seq<nat>, p: nat)
    requires p < |order| && forall i :: 0 <= i < |order| ==> order[i] < |s|
    ensures multiset(At(s, order)) == multiset(At(s, Except(order, p))) + multiset{s[order[p]]}
  {
    MultisetWithout(At(s, order), p);
    assert Without(At(s, order), p) == At(s, Except(order, p));
  }

  /** Every query gives the same answer on two logs that differ in order only. */
  lemma {:induction false} OrderDoesNotMatter(a: seq<Entry>, b: seq<Entry>, s: Sel)
    requires multiset(a) == multiset(b)
    ensures SnapshotOf(a, s) == SnapshotOf(b, s)
    ensures forall axis :: Breakdown(a, s, axis) == Breakdown(b, s, axis)
    ensures ByCell(a, s) == ByCell(b, s)
  {
    var c := Remainder(a, b);
    assert c == [] by {
      assert |multiset(b)| == |multiset(a)| + |multiset(c)|;
    }
    forall acc, t ensures Sum(acc, a, t) == Sum(acc, b, t) {
      assert Sum(acc, b, t) == Plus(Sum(acc, a, t), NOTHING);
    }
    forall e ensures e in a <==> e in b {
      assert e in multiset(a) <==> e in multiset(b);
    }
    forall axis ensures Breakdown(a, s, axis) == Breakdown(b, s, axis) {
      assert Names(a, s, axis) == Names(b, s, axis);
    }
    assert Cells(a, s) == Cells(b, s);
    assert UnpricedModels(a, s) == UnpricedModels(b, s);
  }

  // ---------------------------------------------------------------------------------------
  // What concurrency may and may not do to spend
  // ---------------------------------------------------------------------------------------

  ghost predicate Quiet(w: World) {
    forall k :: 0 <= k < |w.looked| ==> k in w.committed
  }

  /** Once every request has recorded, spend is what it would be if they had been served one at a time in
      the order of their lookups, whatever the interleaving was. */
  lemma {:induction false} QuietSpendIsSequential(table: PriceTable, steps: seq<Step>, s: Sel)
    requires Quiet(Run(table, steps))
    ensures var w := Run(table, steps);
            var served := LogOf(table, w.events);
            && |w.log| == ProxiedCount(w.events)
            && SnapshotOf(w.log, s) == SnapshotOf(served, s)
            && (forall axis :: Breakdown(w.log, s, axis) == Breakdown(served, s, axis))
            && ByCell(w.log, s) == ByCell(served, s)
  {
    var w := Run(table, steps);
    RunIsOk(table, steps);
    AtIsPart(w.looked, w.committed);
    OrderDoesNotMatter(w.log, w.looked, s);
    LogLength(table, w.events);
    assert |multiset(w.log)| == |multiset(w.looked)|;
  }

  /** Until then it is never overstated, in requests or in any kind of token, on either account. */
  lemma {:induction false} SpendNeverOverstated(table: PriceTable, steps: seq<Step>, acc: Account, s: Sel)
    requires forall e :: e in LogOf(table, Run(table, steps).events) ==> Counted(e)
    ensures var w := Run(table, steps); AtMost(Sum(acc, w.log, s), Sum(acc, LogOf(table, w.events), s))
  {
    var w := Run(table, steps);
    RunIsOk(table, steps);
    AtIsPart(w.looked, w.committed);
    var c := Remainder(w.log, w.looked);
    forall e | e in c ensures Counted(e) {
      assert e in multiset(w.looked);
    }
    SumCounted(acc, c, s);
  }

  predicate Paid(e: Entry) {
    e.usd >= 0.0
  }

  lemma {:induction false} SumPaid(acc: Account, log: seq<Entry>, s: Sel)
    requires forall e :: e in log ==> Paid(e)
    ensures Sum(acc, log, s).usd >= 0.0
  {
    if log != [] {
      assert log[|log| - 1] in log;
      SumPaid(acc, log[..|log| - 1], s);
    }
  }

  /** No rate is below zero. */
  predicate FairTable(table: PriceTable) {
    forall m :: m in table ==>
      table[m].input >= 0.0 && table[m].output >= 0.0 && table[m].cacheWrite >= 0.0 && table[m].cacheRead >= 0.0
  }

  lemma {:induction false} PartPaid(tokens: int, rate: real)
    requires tokens >= 0 && rate >= 0.0
    ensures PartCost(tokens, rate) >= 0.0
  {
    var x := tokens as real / 1000000.0;
    assert x >= 0.0;
    assert x * rate >= 0.0;
  }

  /** At a fair table, what is priced by it costs nothing less than nothing. */
  lemma {:induction false} PricedIsPaid(table: PriceTable, e: Entry)
    requires FairTable(table) && PricedBy(table, e) && Counted(e)
    ensures Paid(e)
  {
    if e.model in table {
      var r := table[e.model];
      PartPaid(e.tokens.input, r.input);
      PartPaid(e.tokens.output, r.output);
      PartPaid(e.tokens.cacheWrite, r.cacheWrite);
      PartPaid(e.tokens.cacheRead, r.cacheRead);
    }
  }

  /** Nor is money, when no rate of the price table is below zero. */
  lemma {:induction false} MoneyNeverOverstated(table: PriceTable, steps: seq<Step>, acc: Account, s: Sel)
    requires FairTable(table) && forall e :: e in LogOf(table, Run(table, steps).events) ==> Counted(e)
    ensures var w := Run(table, steps); Sum(acc, w.log, s).usd <= Sum(acc, LogOf(table, w.events), s).usd
  {
    var w := Run(table, steps);
    RunIsOk(table, steps);
    AtIsPart(w.looked, w.committed);
    var c := Remainder(w.log, w.looked);
    LogPriced(table, w.events);
    forall e | e in c ensures Paid(e) {
      assert e in multiset(w.looked);
      PricedIsPaid(table, e);
    }
    SumPaid(acc, c, s);
  }
}
