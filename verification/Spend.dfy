/** `GET /spend` of router/spend.go: four separately locked reads of a meter that goes on recording. */
module Spend {
  import opened Options
  import opened Ledger
  import opened Metering
  import opened Prices

  // ---------------------------------------------------------------------------------------
  // Adding up a breakdown
  // ---------------------------------------------------------------------------------------

  ghost function Pick<K>(s: set<K>): K
    requires s != {}
  {
    var k :| k in s; k
  }

  ghost function MapTotal<K>(m: map<K, Aggregate>): Aggregate
    decreases |m|
  {
    if m.Keys == {} then NOTHING
    else
      var k := Pick(m.Keys);
      assert (m - {k}).Keys == m.Keys - {k};
      Plus(m[k], MapTotal(m - {k}))
  }

  lemma {:induction false} PlusRotates(a: Aggregate, b: Aggregate, c: Aggregate)
    ensures Plus(a, Plus(b, c)) == Plus(b, Plus(a, c))
    ensures Plus(a, NOTHING) == a && Plus(NOTHING, a) == a
  {
  }

  /** The order of addition does not matter: any entry may be taken out first. */
  lemma {:induction false} MapTotalRemove<K>(m: map<K, Aggregate>, k: K)
    requires k in m
    ensures MapTotal(m) == Plus(m[k], MapTotal(m - {k}))
    decreases |m|
  {
    var p := Pick(m.Keys);
    if p != k {
      var m1, m2 := m - {p}, m - {k};
      assert m1.Keys == m.Keys - {p} && m2.Keys == m.Keys - {k};
      MapTotalRemove(m1, k);
      MapTotalRemove(m2, p);
      assert m1 - {k} == m2 - {p};
      PlusRotates(m[p], m[k], MapTotal(m1 - {k}));
    }
  }

  lemma {:induction false} MapTotalAdd<K>(m: map<K, Aggregate>, k: K, x: Aggregate)
    ensures MapTotal(m[k := Plus(Val(m, k), x)]) == Plus(MapTotal(m), x)
  {
    var m' := m[k := Plus(Val(m, k), x)];
    MapTotalRemove(m', k);
    if k in m {
      MapTotalRemove(m, k);
      assert m' - {k} == m - {k};
    } else {
      assert m' - {k} == m;
    }
  }

  lemma {:induction false} BreakdownAppend(log: seq<Entry>, e: Entry, s: Sel, a: Axis)
    requires s == With(s, a, All)
    ensures Breakdown(log + [e], s, a)
         == if Matches(s, e)
            then Breakdown(log, s, a)[Field(e, a) := Plus(Val(Breakdown(log, s, a), Field(e, a)), Amount(Total, e))]
            else Breakdown(log, s, a)
  {
    NamesAppend(log, e, s, a);
    forall k ensures Sum(Total, log + [e], With(s, a, Only({k})))
                  == if Matches(s, e) && k == Field(e, a)
                     then Plus(Sum(Total, log, With(s, a, Only({k}))), Amount(Total, e))
                     else Sum(Total, log, With(s, a, Only({k}))) {
      SumAppend(Total, log, e, With(s, a, Only({k})));
      MatchesWith(s, a, Only({k}), e);
    }
    if Matches(s, e) && Field(e, a) !in Names(log, s, a) {
      SumAbsent(Total, log, s, a, Field(e, a));
    }
  }

  /** Any one-axis breakdown of a selection adds up to its total. */
  lemma {:induction false} BreakdownAddsUp(log: seq<Entry>, s: Sel, a: Axis)
    requires s == With(s, a, All)
    ensures MapTotal(Breakdown(log, s, a)) == Sum(Total, log, s)
  {
    if log != [] {
      var init, last := log[..|log| - 1], log[|log| - 1];
      assert log == init + [last];
      BreakdownAddsUp(init, s, a);
      BreakdownAppend(init, last, s, a);
      MapTotalAdd(Breakdown(init, s, a), Field(last, a), Amount(Total, last));
    }
  }

  lemma {:induction false} CellSumAppend(log: seq<Entry>, e: Entry, s: Sel, d: Cell)
    ensures CellSum(log + [e], s, d)
         == if Matches(s, e) && d == Cell(e.model, e.tier) then Plus(CellSum(log, s, d), Amount(Total, e))
           else CellSum(log, s, d)
  {
    SumAppend(Total, log, e, CellSel(s, d));
    MatchesCell(s, d, e);
  }

  lemma {:induction false} CellsAppend(log: seq<Entry>, e: Entry, s: Sel)
    ensures Cells(log + [e], s) == Cells(log, s) + if Matches(s, e) then {Cell(e.model, e.tier)} else {}
  {
    assert forall x :: x in log + [e] <==> x in log || x == e;
  }

  lemma {:induction false} ByCellAppend(log: seq<Entry>, e: Entry, s: Sel)
    ensures ByCell(log + [e], s)
         == var c := Cell(e.model, e.tier);
            if Matches(s, e) then ByCell(log, s)[c := Plus(Val(ByCell(log, s), c), Amount(Total, e))]
              else ByCell(log, s)
  {
    var c := Cell(e.model, e.tier);
    CellsAppend(log, e, s);
    forall d ensures CellSum(log + [e], s, d)
                  == if Matches(s, e) && d == c then Plus(CellSum(log, s, d), Amount(Total, e))
                    else CellSum(log, s, d) {
      CellSumAppend(log, e, s, d);
    }
    if Matches(s, e) && c !in Cells(log, s) {
      CellSumAbsent(log, s, c);
    }
  }

  /** So does the breakdown by model and tier. */
  lemma {:induction false} ByCellAddsUp(log: seq<Entry>, s: Sel)
    ensures MapTotal(ByCell(log, s)) == Sum(Total, log, s)
  {
    if log != [] {
      var init, last := log[..|log| - 1], log[|log| - 1];
      assert log == init + [last];
      ByCellAddsUp(init, s);
      ByCellAppend(init, last, s);
      MapTotalAdd(ByCell(init, s), Cell(last.model, last.tier), Amount(Total, last));
    }
  }

  /** Taken at one moment, the three breakdowns and the snapshot agree on every component. */
  lemma {:induction false} BreakdownsAgree(log: seq<Entry>, prefix: string, run: string)
    ensures var s := Query(prefix, run);
            MapTotal(Breakdown(log, s, TierAxis)) == MapTotal(Breakdown(log, s, TicketAxis)) == MapTotal(ByCell(log, s))
            == SnapshotOf(log, s).total
  {
    var s := Query(prefix, run);
    BreakdownAddsUp(log, s, TierAxis);
    BreakdownAddsUp(log, s, TicketAxis);
    ByCellAddsUp(log, s);
  }

  // ---------------------------------------------------------------------------------------
  // Order between moments
  // ---------------------------------------------------------------------------------------

  predicate TokensAtMost(a: Tokens, b: Tokens) {
    a.input <= b.input && a.output <= b.output && a.cacheWrite <= b.cacheWrite && a.cacheRead <= b.cacheRead
  }

  /** Requests and tokens of `a` are at most those of `b`. */
  predicate AtMost(a: Aggregate, b: Aggregate) {
    a.requests <= b.requests && TokensAtMost(a.tokens, b.tokens)
  }

  /** Usage counts come from responses and are never negative. */
  predicate Counted(e: Entry) {
    TokensAtMost(NO_TOKENS, e.tokens)
  }

  /** What is recorded later adds to a sum exactly its own sum. */
  lemma {:induction false} SumLater(acc: Account, log: seq<Entry>, more: seq<Entry>, s: Sel)
    ensures Sum(acc, log + more, s) == Plus(Sum(acc, log, s), Sum(acc, more, s))
  {
    if more == [] {
      assert log + more == log;
    } else {
      var init, last := more[..|more| - 1], more[|more| - 1];
      SumLater(acc, log, init, s);
      assert log + more == (log + init) + [last];
      SumAppend(acc, log + init, last, s);
    }
  }

  function Matching(log: seq<Entry>, s: Sel): nat {
    if log == [] then 0
    else Matching(log[..|log| - 1], s) + if Matches(s, log[|log| - 1]) then 1 else 0
  }

  /** The requests of a sum are the matching entries, and without any there is nothing in it. */
  lemma {:induction false} SumRequests(log: seq<Entry>, s: Sel)
    ensures Sum(Total, log, s).requests == Matching(log, s)
    ensures Matching(log, s) == 0 ==> Sum(Total, log, s) == NOTHING
  {
    if log != [] {
      SumRequests(log[..|log| - 1], s);
    }
  }

  lemma {:induction false} SumCounted(acc: Account, log: seq<Entry>, s: Sel)
    requires forall e :: e in log ==> Counted(e)
    ensures AtMost(NOTHING, Sum(acc, log, s))
  {
    if log != [] {
      assert log[|log| - 1] in log;
      SumCounted(acc, log[..|log| - 1], s);
    }
  }

  /** The unpriced account never exceeds the total, in requests or in any kind of token. */
  lemma {:induction false} UnpricedAtMostTotal(log: seq<Entry>, s: Sel)
    requires forall e :: e in log ==> Counted(e)
    ensures AtMost(Sum(Unpriced, log, s), Sum(Total, log, s))
    ensures SnapshotOf(log, s).unpriced.requests <= SnapshotOf(log, s).total.requests
  {
    if log != [] {
      assert log[|log| - 1] in log;
      UnpricedAtMostTotal(log[..|log| - 1], s);
    }
  }

  // ---------------------------------------------------------------------------------------
  // The request as a protocol step by step, with recording in between
  // ---------------------------------------------------------------------------------------

  datatype Action = Record(entry: Entry) | Read

  /** `marks` remembers how long the log was at each read so far. */
  datatype Answer = Answer(snapshot: Snapshot, byTier: map<string, Aggregate>, byTicket: map<string, Aggregate>,
          byModel: map<Cell, Aggregate>)
  datatype State = State(log: seq<Entry>, marks: seq<nat>, answer: Answer)

  const NO_ANSWER := Answer(Snapshot(NOTHING, NO_UNPRICED), map[], map[], map[])

  function Start(log: seq<Entry>): State {
    State(log, [], NO_ANSWER)
  }

  /** One lock-protected action: a record, or the handler's next read. */
  function Act(q: Sel, st: State, a: Action): State {
    match a
    case Record(e) => st.(log := st.log + [e])
    case Read =>
      var marks := st.marks + [|st.log|];
      if |st.marks| == 0 then State(st.log, marks, st.answer.(snapshot := SnapshotOf(st.log, q)))
      else if |st.marks| == 1 then State(st.log, marks, st.answer.(byTier := Breakdown(st.log, q, TierAxis)))
      else if |st.marks| == 2 then State(st.log, marks, st.answer.(byTicket := Breakdown(st.log, q, TicketAxis)))
      else if |st.marks| == 3 then State(st.log, marks, st.answer.(byModel := ByCell(st.log, q)))
      else st
  }

  function Play(q: Sel, st: State, actions: seq<Action>): State {
    if actions == [] then st else Act(q, Play(q, st, actions[..|actions| - 1]), actions[|actions| - 1])
  }

  /** What every reachable state keeps: each answer so far is exact for the log at its own mark. */
  ghost predicate Exact(q: Sel, st: State) {
    && |st.marks| <= 4
    && (forall i :: 0 <= i < |st.marks| ==> st.marks[i] <= |st.log|)
    && (forall i, j :: 0 <= i < j < |st.marks| ==> st.marks[i] <= st.marks[j])
    && (|st.marks| > 0 ==> st.answer.snapshot == SnapshotOf(st.log[..st.marks[0]], q))
    && (|st.marks| > 1 ==> st.answer.byTier == Breakdown(st.log[..st.marks[1]], q, TierAxis))
    && (|st.marks| > 2 ==> st.answer.byTicket == Breakdown(st.log[..st.marks[2]], q, TicketAxis))
    && (|st.marks| > 3 ==> st.answer.byModel == ByCell(st.log[..st.marks[3]], q))
  }

  lemma {:induction false} ActKeepsExact(q: Sel, st: State, a: Action)
    requires Exact(q, st)
    ensures Exact(q, Act(q, st, a))
  {
    var st' := Act(q, st, a);
    assert forall i :: 0 <= i < |st.marks| ==> st'.log[..st.marks[i]] == st.log[..st.marks[i]];
    assert st.log[..|st.log|] == st.log;
  }

  lemma {:induction false} PlayIsExact(q: Sel, log: seq<Entry>, actions: seq<Action>)
    ensures Exact(q, Play(q, Start(log), actions))
  {
    if actions != [] {
      PlayIsExact(q, log, actions[..|actions| - 1]);
      ActKeepsExact(q, Play(q, Start(log), actions[..|actions| - 1]), actions[|actions| - 1]);
    }
  }

  /** What was recorded between two reads, of what the request asks about. */
  function Between(q: Sel, st: State, i: nat, j: nat): Aggregate
    requires i <= j < |st.marks| && st.marks[i] <= st.marks[j] <= |st.log|
  {
    Sum(Total, st.log[st.marks[i]..st.marks[j]], q)
  }

  lemma {:induction false} LaterMark(q: Sel, st: State, i: nat, j: nat)
    requires Exact(q, st) && i <= j < |st.marks|
    ensures st.marks[i] <= st.marks[j]
    ensures Sum(Total, st.log[..st.marks[j]], q) == Plus(Sum(Total, st.log[..st.marks[i]], q), Between(q, st, i, j))
  {
    var a, b := st.marks[i], st.marks[j];
    assert a <= b;
    assert st.log[..b] == st.log[..a] + st.log[a..b];
    SumLater(Total, st.log[..a], st.log[a..b], q);
  }

  /** Under any interleaving of recording with one request, by_tier exceeds the snapshot by exactly what was
      recorded between those two reads, in requests, in every kind of token and in money; so does by_ticket
      exceed by_tier, and by_model by_ticket. */
  lemma {:induction false} SpendChain(prefix: string, run: string, log: seq<Entry>, actions: seq<Action>)
    ensures var q := Query(prefix, run);
            var st := Play(q, Start(log), actions);
            Exact(q, st)
    ensures var q := Query(prefix, run);
            var st := Play(q, Start(log), actions);
            |st.marks| == 4 ==>
              var total, tiers, tickets, models := st.answer.snapshot.total, MapTotal(st.answer.byTier),
                                                   MapTotal(st.answer.byTicket), MapTotal(st.answer.byModel);
              && tiers == Plus(total, Between(q, st, 0, 1))
              && tickets == Plus(tiers, Between(q, st, 1, 2))
              && models == Plus(tickets, Between(q, st, 2, 3))
  {
    var q := Query(prefix, run);
    var st := Play(q, Start(log), actions);
    PlayIsExact(q, log, actions);
    if |st.marks| == 4 {
      BreakdownAddsUp(st.log[..st.marks[1]], q, TierAxis);
      BreakdownAddsUp(st.log[..st.marks[2]], q, TicketAxis);
      ByCellAddsUp(st.log[..st.marks[3]], q);
      LaterMark(q, st, 0, 1);
      LaterMark(q, st, 1, 2);
      LaterMark(q, st, 2, 3);
    }
  }

  lemma {:induction false} BetweenRequests(q: Sel, st: State, i: nat, j: nat)
    requires Exact(q, st) && i <= j < |st.marks|
    ensures st.marks[i] <= st.marks[j] && Between(q, st, i, j).requests == Matching(st.log[st.marks[i]..st.marks[j]], q)
    ensures Between(q, st, i, j).requests == 0 ==> Between(q, st, i, j) == NOTHING
  {
    assert st.marks[i] <= st.marks[j];
    SumRequests(st.log[st.marks[i]..st.marks[j]], q);
  }

  predicate Recorded(a: Aggregate) {
    a.requests >= 0 && (a.requests == 0 ==> a == NOTHING)
  }

  lemma {:induction false} ChainAgreesIff(total: Aggregate, a: Aggregate, b: Aggregate, c: Aggregate)
    requires Recorded(a) && Recorded(b) && Recorded(c)
    ensures var tiers := Plus(total, a);
            var tickets := Plus(tiers, b);
            var models := Plus(tickets, c);
            models.requests == total.requests <==> total == tiers == tickets == models
  {
    if a == NOTHING && b == NOTHING && c == NOTHING {
      assert Plus(total, NOTHING) == total;
    }
  }

  /** The four agree in full if and only if the last counts no more requests than the first: then nothing
      the request asks about was recorded in between. */
  lemma {:induction false} SpendAgreesIff(prefix: string, run: string, log: seq<Entry>, actions: seq<Action>)
    ensures var st := Play(Query(prefix, run), Start(log), actions);
            |st.marks| == 4 ==>
              var total, tiers, tickets, models := st.answer.snapshot.total, MapTotal(st.answer.byTier),
                                                   MapTotal(st.answer.byTicket), MapTotal(st.answer.byModel);
              models.requests == total.requests <==> total == tiers == tickets == models
  {
    var q := Query(prefix, run);
    var st := Play(q, Start(log), actions);
    SpendChain(prefix, run, log, actions);
    if |st.marks| == 4 {
      BetweenRequests(q, st, 0, 1);
      BetweenRequests(q, st, 1, 2);
      BetweenRequests(q, st, 2, 3);
      ChainAgreesIff(st.answer.snapshot.total, Between(q, st, 0, 1), Between(q, st, 1, 2), Between(q, st, 2, 3));
    }
  }

  ghost predicate AllCounted(log: seq<Entry>, actions: seq<Action>) {
    (forall e :: e in log ==> Counted(e)) && forall a :: a in actions && a.Record? ==> Counted(a.entry)
  }

  lemma {:induction false} PlayCounted(q: Sel, log: seq<Entry>, actions: seq<Action>)
    requires AllCounted(log, actions)
    ensures forall e :: e in Play(q, Start(log), actions).log ==> Counted(e)
  {
    if actions != [] {
      assert actions[|actions| - 1] in actions;
      PlayCounted(q, log, actions[..|actions| - 1]);
    }
  }

  lemma {:induction false} BetweenCounted(q: Sel, st: State, i: nat, j: nat)
    requires Exact(q, st) && i <= j < |st.marks| && forall e :: e in st.log ==> Counted(e)
    ensures st.marks[i] <= st.marks[j]
    ensures forall a :: AtMost(a, Plus(a, Between(q, st, i, j)))
  {
    assert st.marks[i] <= st.marks[j];
    SumCounted(Total, st.log[st.marks[i]..st.marks[j]], q);
  }

  /** So, token counts being what responses report, the four never decrease in that order. */
  lemma {:induction false} SpendNeverDecreases(prefix: string, run: string, log: seq<Entry>, actions: seq<Action>)
    requires AllCounted(log, actions)
    ensures var st := Play(Query(prefix, run), Start(log), actions);
            |st.marks| == 4 ==>
              && AtMost(st.answer.snapshot.total, MapTotal(st.answer.byTier))
              && AtMost(MapTotal(st.answer.byTier), MapTotal(st.answer.byTicket))
              && AtMost(MapTotal(st.answer.byTicket), MapTotal(st.answer.byModel))
  {
    var q := Query(prefix, run);
    var st := Play(q, Start(log), actions);
    SpendChain(prefix, run, log, actions);
    PlayCounted(q, log, actions);
    if |st.marks| == 4 {
      BetweenCounted(q, st, 0, 1);
      BetweenCounted(q, st, 1, 2);
      BetweenCounted(q, st, 2, 3);
    }
  }

  // ---------------------------------------------------------------------------------------
  // The order of by_model
  // ---------------------------------------------------------------------------------------

  predicate StringLess(a: string, b: string) {
    if b == "" then false
    else if a == "" then true
    else a[0] < b[0] || (a[0] == b[0] && StringLess(a[1..], b[1..]))
  }

  /** Model first, then tier. */
  predicate CellLess(a: Cell, b: Cell) {
    if a.model != b.model then StringLess(a.model, b.model) else StringLess(a.tier, b.tier)
  }

  lemma {:induction false} StringOrder(a: string, b: string)
    ensures a == b || StringLess(a, b) || StringLess(b, a)
    ensures !(StringLess(a, b) && StringLess(b, a))
    ensures !StringLess(a, a)
  {
    if a != "" {
      StringOrder(a[1..], a[1..]);
      if b != "" {
        StringOrder(a[1..], b[1..]);
        assert a == [a[0]] + a[1..] && b == [b[0]] + b[1..];
      }
    }
  }

  /** One string is less than another if it is a proper beginning of it, or has the smaller character where they
      first differ. */
  lemma {:induction false} StringLessIff(a: string, b: string)
    ensures StringLess(a, b)
       <==> exists n :: 0 <= n <= |a| && n < |b| && a[..n] == b[..n] && (n == |a| || a[n] < b[n])
  {
    if b != "" && a != "" && a[0] == b[0] {
      StringLessIff(a[1..], b[1..]);
      if n :| 0 <= n <= |a[1..]| && n < |b[1..]| && a[1..][..n] == b[1..][..n]
              && (n == |a[1..]| || a[1..][n] < b[1..][n]) {
        assert a[..n + 1] == [a[0]] + a[1..][..n] && b[..n + 1] == [b[0]] + b[1..][..n];
      }
      if n :| 0 < n <= |a| && n < |b| && a[..n] == b[..n] && (n == |a| || a[n] < b[n]) {
        assert a[1..][..n - 1] == a[..n][1..] && b[1..][..n - 1] == b[..n][1..];
      }
    } else if b != "" {
      assert a[..0] == b[..0];
    }
  }

  lemma {:induction false} StringTransitive(a: string, b: string, c: string)
    requires StringLess(a, b) && StringLess(b, c)
    ensures StringLess(a, c)
  {
    if a != "" && a[0] == b[0] == c[0] {
      StringTransitive(a[1..], b[1..], c[1..]);
    }
  }

  lemma {:induction false} CellOrder(a: Cell, b: Cell)
    ensures a == b || CellLess(a, b) || CellLess(b, a)
    ensures !(CellLess(a, b) && CellLess(b, a)) && !CellLess(a, a)
  {
    StringOrder(a.model, b.model);
    StringOrder(a.tier, b.tier);
    StringOrder(a.tier, a.tier);
  }

  lemma {:induction false} CellTransitive(a: Cell, b: Cell, c: Cell)
    requires CellLess(a, b) && CellLess(b, c)
    ensures CellLess(a, c)
  {
    if a.model == b.model == c.model {
      StringTransitive(a.tier, b.tier, c.tier);
    } else if a.model != b.model && b.model != c.model {
      StringTransitive(a.model, b.model, c.model);
      StringOrder(b.model, c.model);
    }
  }

  ghost predicate SortedCells(l: seq<ModelBreakdown>) {
    forall i, j :: 0 <= i < j < |l| ==> CellLess(l[i].cell, l[j].cell)
  }

  function InsertCell(x: ModelBreakdown, l: seq<ModelBreakdown>): seq<ModelBreakdown> {
    if l == [] || CellLess(x.cell, l[0].cell) then [x] + l else [l[0]] + InsertCell(x, l[1..])
  }

  lemma {:induction false} InsertCellSorts(x: ModelBreakdown, l: seq<ModelBreakdown>)
    requires SortedCells(l) && forall i :: 0 <= i < |l| ==> l[i].cell != x.cell
    ensures SortedCells(InsertCell(x, l))
    ensures forall y :: y in InsertCell(x, l) <==> y == x || y in l
  {
    if l != [] {
      CellOrder(x.cell, l[0].cell);
      if CellLess(x.cell, l[0].cell) {
        forall j | 0 < j < |l| ensures CellLess(x.cell, l[j].cell) {
          CellTransitive(x.cell, l[0].cell, l[j].cell);
        }
      } else {
        InsertCellSorts(x, l[1..]);
        var rest := InsertCell(x, l[1..]);
        forall j | 0 <= j < |rest| ensures CellLess(l[0].cell, rest[j].cell) {
          assert rest[j] in rest;
          assert rest[j] == x || rest[j] in l[1..];
        }
      }
      assert l == [l[0]] + l[1..];
    }
  }

  /** `sort.Slice` by model and tier. */
  method SortByModel(list: seq<ModelBreakdown>) returns (sorted: seq<ModelBreakdown>)
    requires forall i, j :: 0 <= i < j < |list| ==> list[i].cell != list[j].cell
    ensures SortedCells(sorted) && forall y :: y in sorted <==> y in list
  {
    sorted := [];
    var i := 0;
    while i < |list|
      invariant i <= |list| && SortedCells(sorted)
      invariant forall y :: y in sorted <==> y in list[..i]
    {
      forall j | 0 <= j < |sorted| ensures sorted[j].cell != list[i].cell {
        assert sorted[j] in list[..i];
      }
      InsertCellSorts(list[i], sorted);
      sorted := InsertCell(list[i], sorted);
      assert list[..i + 1] == list[..i] + [list[i]];
      i := i + 1;
    }
    assert list[..i] == list;
  }

  lemma {:induction false} HeadIn<T>(s: seq<T>)
    requires s != []
    ensures exists x :: x in s && x == s[0]
  {
    assert s[0] in s;
  }

  /** Whatever order the maps were walked in, the sorted list is the same: two sorted lists of the same
      entries are equal. */
  lemma {:induction false} SortedListUnique(a: seq<ModelBreakdown>, b: seq<ModelBreakdown>)
    requires SortedCells(a) && SortedCells(b) && forall y :: y in a <==> y in b
    ensures a == b
  {
    if a == [] {
      if b != [] {
        HeadIn(b);
        assert false;
      }
    } else {
      assert a[0] in b && b != [] && b[0] in a;
      assert a[0] == b[0] by {
        if a[0] != b[0] {
          var i :| 0 < i < |a| && a[i] == b[0];
          var j :| 0 < j < |b| && b[j] == a[0];
          CellOrder(a[0].cell, b[0].cell);
        }
      }
      forall y ensures y in a[1..] <==> y in b[1..] {
        if y in a[1..] {
          CellOrder(a[0].cell, a[0].cell);
          assert y in b && y != b[0];
        }
        if y in b[1..] {
          CellOrder(b[0].cell, b[0].cell);
          assert y in a && y != a[0];
        }
      }
      SortedListUnique(a[1..], b[1..]);
      assert a == [a[0]] + a[1..] && b == [b[0]] + b[1..];
    }
  }

  // ---------------------------------------------------------------------------------------
  // The handler, when nothing records in between
  // ---------------------------------------------------------------------------------------

  datatype ModelEntry = ModelEntry(cell: Cell, tokens: Tokens, usd: real, rates: Option<Rates>)

  datatype Response =
    | MissingPrefix
    | Spend(snapshot: Snapshot, byTier: map<string, Aggregate>, byTicket: map<string, Aggregate>,
      byModel: seq<ModelEntry>)

  function EntryOf(table: PriceTable, b: ModelBreakdown): ModelEntry {
    ModelEntry(b.cell, b.agg.tokens, b.agg.usd, if b.cell.model in table then Some(table[b.cell.model]) else None)
  }

  function Entries(table: PriceTable, list: seq<ModelBreakdown>): seq<ModelEntry> {
    seq(|list|, i requires 0 <= i < |list| => EntryOf(table, list[i]))
  }

  /** What `by_model` holds: an entry for every group, each once and ordered by model and then by tier, with the
      tokens and the money of its group, and the model's rates exactly when the table has the model. */
  ghost predicate EntriesAnswer(table: PriceTable, groups: map<Cell, Aggregate>, entries: seq<ModelEntry>) {
    && (forall c :: c in groups ==> exists i :: 0 <= i < |entries| && entries[i].cell == c)
    && (forall i :: 0 <= i < |entries| ==>
          var e := entries[i];
          && e.cell in groups && e.tokens == groups[e.cell].tokens && e.usd == groups[e.cell].usd
          && e.rates == if e.cell.model in table then Some(table[e.cell.model]) else None)
    && (forall i, j :: 0 <= i < j < |entries| ==>
          var a, b := entries[i].cell, entries[j].cell;
          StringLess(a.model, b.model) || (a.model == b.model && StringLess(a.tier, b.tier)))
  }

  lemma {:induction false} EntriesTold(table: PriceTable, list: seq<ModelBreakdown>, groups: map<Cell, Aggregate>)
    requires Lists(list, groups) && SortedCells(list)
    ensures EntriesAnswer(table, groups, Entries(table, list))
  {
    var entries := Entries(table, list);
    forall c | c in groups ensures exists i :: 0 <= i < |entries| && entries[i].cell == c {
      assert Listed(list, c);
      var i :| 0 <= i < |list| && list[i].cell == c;
      assert entries[i].cell == c;
    }
    forall i, j | 0 <= i < j < |entries|
      ensures var a, b := entries[i].cell, entries[j].cell;
              StringLess(a.model, b.model) || (a.model == b.model && StringLess(a.tier, b.tier))
    {
      assert CellLess(list[i].cell, list[j].cell);
    }
  }

  method MakeEntries(table: PriceTable, list: seq<ModelBreakdown>) returns (entries: seq<ModelEntry>)
    ensures entries == Entries(table, list)
  {
    entries := [];
    var i := 0;
    while i < |list|
      invariant i <= |list| && entries == Entries(table, list[..i])
    {
      entries := entries + [EntryOf(table, list[i])];
      i := i + 1;
    }
    assert list[..i] == list;
  }

  method SpendHandler(meter: Meter, table: PriceTable, prefix: string, run: string) returns (resp: Response)
    requires meter.Valid()
    ensures resp.MissingPrefix? <==> prefix == ""
    ensures resp.Spend? ==>
              var q := Query(prefix, run);
              && resp.snapshot == SnapshotOf(meter.log, q)
              && resp.byTier == Breakdown(meter.log, q, TierAxis)
              && resp.byTicket == Breakdown(meter.log, q, TicketAxis)
              && exists list ::
                   Lists(list, ByCell(meter.log, q)) && SortedCells(list) && resp.byModel == Entries(table, list)
    ensures resp.Spend? ==> EntriesAnswer(table, ByCell(meter.log, Query(prefix, run)), resp.byModel)
  {
    if prefix == "" {
      return MissingPrefix;
    }
    var snapshot := meter.TakeSnapshot(prefix, run);
    var byTier := meter.AggregatesByTier(prefix, run);
    var byTicket := meter.AggregatesByTicket(prefix, run);
    var details := meter.ModelDetails(prefix, run);
    var sorted := SortByModel(details);
    SortedLists(details, sorted, ByCell(meter.log, Query(prefix, run)));
    var byModel := MakeEntries(table, sorted);
    EntriesTold(table, sorted, ByCell(meter.log, Query(prefix, run)));
    resp := Spend(snapshot, byTier, byTicket, byModel);
  }

  lemma {:induction false} SortedLists(list: seq<ModelBreakdown>, sorted: seq<ModelBreakdown>, m: map<Cell, Aggregate>)
    requires Lists(list, m) && SortedCells(sorted) && forall y :: y in sorted <==> y in list
    ensures Lists(sorted, m)
  {
    forall i, j | 0 <= i < j < |sorted| ensures sorted[i].cell != sorted[j].cell {
      CellOrder(sorted[i].cell, sorted[j].cell);
    }
    forall i | 0 <= i < |sorted| ensures sorted[i].cell in m && sorted[i].agg == m[sorted[i].cell] {
      assert sorted[i] in list;
    }
    forall c | c in m ensures Listed(sorted, c) {
      assert Listed(list, c);
      var i :| 0 <= i < |list| && list[i].cell == c;
      assert list[i] in sorted;
      var j :| 0 <= j < |sorted| && sorted[j] == list[i];
    }
  }
}
