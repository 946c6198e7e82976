/** The in-memory meter of router/meter.go: a five-level nested map that has to agree with the flat log. */
module Metering {
  import opened Ledger

  type Models = map<string, Aggregate>
  type Tiers = map<string, Models>
  type Tickets = map<string, Tiers>
  type Runs = map<string, Tickets>

  datatype UnpricedTotals = UnpricedTotals(requests: int, tokens: Tokens, models: set<string>)
  datatype Snapshot = Snapshot(total: Aggregate, unpriced: UnpricedTotals)

  const NO_UNPRICED := UnpricedTotals(0, NO_TOKENS, {})

  // ---------------------------------------------------------------------------------------
  // Agreement of the nested map with the log, level by level
  // ---------------------------------------------------------------------------------------

  function AtRun(p: string, r: string): Sel { Sel(p, Only({r}), All, All, All) }
  function AtTicket(p: string, r: string, t: string): Sel { Sel(p, Only({r}), Only({t}), All, All) }
  function AtTier(p: string, r: string, t: string, ti: string): Sel { Sel(p, Only({r}), Only({t}), Only({ti}), All) }
  function AtPrefix(p: string): Sel { Sel(p, All, All, All, All) }

  ghost predicate ModelsOk(log: seq<Entry>, p: string, r: string, t: string, ti: string, m: Models) {
    m.Keys == Names(log, AtTier(p, r, t, ti), ModelAxis)
    && forall k :: k in m ==> m[k] == Sum(Total, log, With(AtTier(p, r, t, ti), ModelAxis, Only({k})))
  }

  ghost predicate TiersOk(log: seq<Entry>, p: string, r: string, t: string, m: Tiers) {
    m.Keys == Names(log, AtTicket(p, r, t), TierAxis) && forall k :: k in m ==> ModelsOk(log, p, r, t, k, m[k])
  }

  ghost predicate TicketsOk(log: seq<Entry>, p: string, r: string, m: Tickets) {
    m.Keys == Names(log, AtRun(p, r), TicketAxis) && forall k :: k in m ==> TiersOk(log, p, r, k, m[k])
  }

  ghost predicate RunsOk(log: seq<Entry>, p: string, m: Runs) {
    m.Keys == Names(log, AtPrefix(p), RunAxis) && forall k :: k in m ==> TicketsOk(log, p, k, m[k])
  }

  function Prefixes(log: seq<Entry>): set<string> {
    set e | e in log :: e.tags.prefix
  }

  ghost predicate DataOk(log: seq<Entry>, d: map<string, Runs>) {
    d.Keys == Prefixes(log) && forall p :: p in d ==> RunsOk(log, p, d[p])
  }

  function UnpricedOf(log: seq<Entry>, s: Sel): UnpricedTotals {
    var u := Sum(Unpriced, log, s);
    UnpricedTotals(u.requests, u.tokens, UnpricedModels(log, s))
  }

  ghost predicate UnpricedRunsOk(log: seq<Entry>, p: string, m: map<string, UnpricedTotals>) {
    m.Keys == Names(log, AtPrefix(p), RunAxis) && forall r :: r in m ==> m[r] == UnpricedOf(log, AtRun(p, r))
  }

  ghost predicate UnpricedOk(log: seq<Entry>, u: map<string, map<string, UnpricedTotals>>) {
    u.Keys == Prefixes(log) && forall p :: p in u ==> UnpricedRunsOk(log, p, u[p])
  }

  // ---------------------------------------------------------------------------------------
  // Recording one entry, level by level
  // ---------------------------------------------------------------------------------------

  function Entered<V>(m: map<string, V>, k: string, empty: V): V {
    if k in m then m[k] else empty
  }

  function PutModel(m: Models, e: Entry): Models {
    m[e.model := Plus(Entered(m, e.model, NOTHING), Amount(Total, e))]
  }

  function PutTier(m: Tiers, e: Entry): Tiers {
    m[e.tier := PutModel(Entered(m, e.tier, map[]), e)]
  }

  function PutTicket(m: Tickets, e: Entry): Tickets {
    m[e.tags.ticket := PutTier(Entered(m, e.tags.ticket, map[]), e)]
  }

  function PutRun(m: Runs, e: Entry): Runs {
    m[e.tags.run := PutTicket(Entered(m, e.tags.run, map[]), e)]
  }

  function Put(d: map<string, Runs>, e: Entry): map<string, Runs> {
    d[e.tags.prefix := PutRun(Entered(d, e.tags.prefix, map[]), e)]
  }

  lemma {:induction false} NamesAppend(log: seq<Entry>, e: Entry, s: Sel, a: Axis)
    ensures Names(log + [e], s, a) == Names(log, s, a) + if Matches(s, e) then {Field(e, a)} else {}
  {
    assert forall x :: x in log + [e] <==> x in log || x == e;
  }

  lemma {:induction false} NamedSumAppend(log: seq<Entry>, e: Entry, s: Sel, a: Axis, k: string)
    requires Matches(s, e) && s == With(s, a, All)
    ensures Sum(Total, log + [e], With(s, a, Only({k})))
         == if k == Field(e, a) then Plus(Sum(Total, log, With(s, a, Only({k}))), Amount(Total, e))
            else Sum(Total, log, With(s, a, Only({k})))
  {
    SumAppend(Total, log, e, With(s, a, Only({k})));
  }

  lemma {:induction false} PutModelOk(log: seq<Entry>, e: Entry, m: Models)
    requires ModelsOk(log, e.tags.prefix, e.tags.run, e.tags.ticket, e.tier, m)
    ensures ModelsOk(log + [e], e.tags.prefix, e.tags.run, e.tags.ticket, e.tier, PutModel(m, e))
  {
    var s := AtTier(e.tags.prefix, e.tags.run, e.tags.ticket, e.tier);
    var m' := PutModel(m, e);
    NamesAppend(log, e, s, ModelAxis);
    assert m'.Keys == m.Keys + {e.model};
    forall k | k in m' ensures m'[k] == Sum(Total, log + [e], With(s, ModelAxis, Only({k}))) {
      NamedSumAppend(log, e, s, ModelAxis, k);
      if k !in m {
        SumAbsent(Total, log, s, ModelAxis, k);
      }
    }
  }

  lemma {:induction false} OtherModelsOk(log: seq<Entry>, e: Entry, p: string, r: string, t: string, ti: string,
          m: Models)
    requires ModelsOk(log, p, r, t, ti, m) && !Matches(AtTier(p, r, t, ti), e)
    ensures ModelsOk(log + [e], p, r, t, ti, m)
  {
    var s := AtTier(p, r, t, ti);
    NamesAppend(log, e, s, ModelAxis);
    forall k | k in m ensures m[k] == Sum(Total, log + [e], With(s, ModelAxis, Only({k}))) {
      SumAppend(Total, log, e, With(s, ModelAxis, Only({k})));
    }
  }

  lemma {:induction false} NoModels(log: seq<Entry>, p: string, r: string, t: string, ti: string)
    requires ti !in Names(log, AtTicket(p, r, t), TierAxis)
    ensures ModelsOk(log, p, r, t, ti, map[])
  {
    forall e | e in log ensures !Matches(AtTier(p, r, t, ti), e) {
      if Matches(AtTicket(p, r, t), e) {
        assert Field(e, TierAxis) in Names(log, AtTicket(p, r, t), TierAxis);
      }
    }
    assert Names(log, AtTier(p, r, t, ti), ModelAxis) == {};
  }

  lemma {:induction false} EnteredModelsOk(log: seq<Entry>, e: Entry, m: Tiers)
    requires TiersOk(log, e.tags.prefix, e.tags.run, e.tags.ticket, m)
    ensures ModelsOk(log, e.tags.prefix, e.tags.run, e.tags.ticket, e.tier, Entered(m, e.tier, map[]))
  {
    if e.tier !in m {
      NoModels(log, e.tags.prefix, e.tags.run, e.tags.ticket, e.tier);
    }
  }

  lemma {:induction false} PutTierOk(log: seq<Entry>, e: Entry, m: Tiers)
    requires TiersOk(log, e.tags.prefix, e.tags.run, e.tags.ticket, m)
    ensures TiersOk(log + [e], e.tags.prefix, e.tags.run, e.tags.ticket, PutTier(m, e))
  {
    var p, r, t := e.tags.prefix, e.tags.run, e.tags.ticket;
    EnteredModelsOk(log, e, m);
    PutModelOk(log, e, Entered(m, e.tier, map[]));
    var m' := PutTier(m, e);
    forall k | k in m' ensures ModelsOk(log + [e], p, r, t, k, m'[k]) {
      if k != e.tier {
        OtherModelsOk(log, e, p, r, t, k, m[k]);
      }
    }
    NamesAppend(log, e, AtTicket(p, r, t), TierAxis);
    assert m'.Keys == m.Keys + {e.tier};
  }

  lemma {:induction false} OtherTiersOk(log: seq<Entry>, e: Entry, p: string, r: string, t: string, m: Tiers)
    requires TiersOk(log, p, r, t, m) && !Matches(AtTicket(p, r, t), e)
    ensures TiersOk(log + [e], p, r, t, m)
  {
    NamesAppend(log, e, AtTicket(p, r, t), TierAxis);
    forall k | k in m ensures ModelsOk(log + [e], p, r, t, k, m[k]) {
      OtherModelsOk(log, e, p, r, t, k, m[k]);
    }
  }

  lemma {:induction false} NoTiers(log: seq<Entry>, p: string, r: string, t: string)
    requires t !in Names(log, AtRun(p, r), TicketAxis)
    ensures TiersOk(log, p, r, t, map[])
  {
    forall e | e in log ensures !Matches(AtTicket(p, r, t), e) {
      if Matches(AtRun(p, r), e) {
        assert Field(e, TicketAxis) in Names(log, AtRun(p, r), TicketAxis);
      }
    }
    assert Names(log, AtTicket(p, r, t), TierAxis) == {};
  }

  lemma {:induction false} PutTicketOk(log: seq<Entry>, e: Entry, m: Tickets)
    requires TicketsOk(log, e.tags.prefix, e.tags.run, m)
    ensures TicketsOk(log + [e], e.tags.prefix, e.tags.run, PutTicket(m, e))
  {
    var p, r := e.tags.prefix, e.tags.run;
    NamesAppend(log, e, AtRun(p, r), TicketAxis);
    if e.tags.ticket !in m {
      NoTiers(log, p, r, e.tags.ticket);
    }
    PutTierOk(log, e, Entered(m, e.tags.ticket, map[]));
    forall k | k in m && k != e.tags.ticket ensures TiersOk(log + [e], p, r, k, m[k]) {
      OtherTiersOk(log, e, p, r, k, m[k]);
    }
  }

  lemma {:induction false} OtherTicketsOk(log: seq<Entry>, e: Entry, p: string, r: string, m: Tickets)
    requires TicketsOk(log, p, r, m) && !Matches(AtRun(p, r), e)
    ensures TicketsOk(log + [e], p, r, m)
  {
    NamesAppend(log, e, AtRun(p, r), TicketAxis);
    forall k | k in m ensures TiersOk(log + [e], p, r, k, m[k]) {
      OtherTiersOk(log, e, p, r, k, m[k]);
    }
  }

  lemma {:induction false} NoTickets(log: seq<Entry>, p: string, r: string)
    requires r !in Names(log, AtPrefix(p), RunAxis)
    ensures TicketsOk(log, p, r, map[])
  {
    forall e | e in log ensures !Matches(AtRun(p, r), e) {
      if Matches(AtPrefix(p), e) {
        assert Field(e, RunAxis) in Names(log, AtPrefix(p), RunAxis);
      }
    }
    assert Names(log, AtRun(p, r), TicketAxis) == {};
  }

  lemma {:induction false} PutRunOk(log: seq<Entry>, e: Entry, m: Runs)
    requires RunsOk(log, e.tags.prefix, m)
    ensures RunsOk(log + [e], e.tags.prefix, PutRun(m, e))
  {
    var p := e.tags.prefix;
    NamesAppend(log, e, AtPrefix(p), RunAxis);
    if e.tags.run !in m {
      NoTickets(log, p, e.tags.run);
    }
    PutTicketOk(log, e, Entered(m, e.tags.run, map[]));
    forall k | k in m && k != e.tags.run ensures TicketsOk(log + [e], p, k, m[k]) {
      OtherTicketsOk(log, e, p, k, m[k]);
    }
  }

  lemma {:induction false} OtherRunsOk(log: seq<Entry>, e: Entry, p: string, m: Runs)
    requires RunsOk(log, p, m) && p != e.tags.prefix
    ensures RunsOk(log + [e], p, m)
  {
    NamesAppend(log, e, AtPrefix(p), RunAxis);
    forall k | k in m ensures TicketsOk(log + [e], p, k, m[k]) {
      OtherTicketsOk(log, e, p, k, m[k]);
    }
  }

  lemma {:induction false} NoRuns(log: seq<Entry>, p: string)
    requires p !in Prefixes(log)
    ensures RunsOk(log, p, map[])
  {
    assert forall e :: e in log ==> e.tags.prefix in Prefixes(log);
    assert Names(log, AtPrefix(p), RunAxis) == {};
  }

  lemma {:induction false} PrefixesAppend(log: seq<Entry>, e: Entry)
    ensures Prefixes(log + [e]) == Prefixes(log) + {e.tags.prefix}
  {
    assert forall x :: x in log + [e] <==> x in log || x == e;
  }

  lemma {:induction false} EnteredRunsOk(log: seq<Entry>, p: string, d: map<string, Runs>)
    requires DataOk(log, d)
    ensures RunsOk(log, p, Entered(d, p, map[]))
  {
    if p !in d {
      NoRuns(log, p);
    }
  }

  /** Recording an entry in the nested map is appending it to the log. */
  lemma {:induction false} PutOk(log: seq<Entry>, e: Entry, d: map<string, Runs>)
    requires DataOk(log, d)
    ensures DataOk(log + [e], Put(d, e))
  {
    var p := e.tags.prefix;
    EnteredRunsOk(log, p, d);
    PutRunOk(log, e, Entered(d, p, map[]));
    var d' := Put(d, e);
    forall q | q in d' ensures RunsOk(log + [e], q, d'[q]) {
      if q != p {
        OtherRunsOk(log, e, q, d[q]);
      }
    }
    PrefixesAppend(log, e);
    assert d'.Keys == d.Keys + {p};
  }

  // ---------------------------------------------------------------------------------------
  // The same for the unpriced account, which has two levels
  // ---------------------------------------------------------------------------------------

  function Charge(u: UnpricedTotals, e: Entry): UnpricedTotals {
    if !e.known then
      UnpricedTotals(u.requests + 1, AddTokens(u.tokens, e.tokens),
                     if e.model == "" then u.models else u.models + {e.model})
    else if e.tokens == NO_TOKENS then u.(requests := u.requests + 1)
    else u
  }

  function ChargeAt(u: map<string, map<string, UnpricedTotals>>, e: Entry): map<string, map<string, UnpricedTotals>> {
    var runs := Entered(u, e.tags.prefix, map[]);
    u[e.tags.prefix := runs[e.tags.run := Charge(Entered(runs, e.tags.run, NO_UNPRICED), e)]]
  }

  lemma {:induction false} UnpricedAppend(log: seq<Entry>, e: Entry, s: Sel)
    ensures UnpricedOf(log + [e], s) == if Matches(s, e) then Charge(UnpricedOf(log, s), e) else UnpricedOf(log, s)
  {
    SumAppend(Unpriced, log, e, s);
    assert forall x :: x in log + [e] <==> x in log || x == e;
    assert UnpricedModels(log + [e], s)
        == UnpricedModels(log, s) + if Matches(s, e) && !e.known && e.model != "" then {e.model} else {};
  }

  lemma {:induction false} UnpricedNothing(log: seq<Entry>, s: Sel)
    requires forall e :: e in log ==> !Matches(s, e)
    ensures UnpricedOf(log, s) == NO_UNPRICED
  {
    SumNothing(Unpriced, log, s);
    assert UnpricedModels(log, s) == {};
  }

  lemma {:induction false} ChargeRunsOk(log: seq<Entry>, e: Entry, p: string, m: map<string, UnpricedTotals>)
    requires UnpricedRunsOk(log, p, m)
    ensures p == e.tags.prefix ==>
              UnpricedRunsOk(log + [e], p, m[e.tags.run := Charge(Entered(m, e.tags.run, NO_UNPRICED), e)])
    ensures p != e.tags.prefix ==> UnpricedRunsOk(log + [e], p, m)
  {
    NamesAppend(log, e, AtPrefix(p), RunAxis);
    forall r ensures UnpricedOf(log + [e], AtRun(p, r))
                  == if Matches(AtRun(p, r), e) then Charge(UnpricedOf(log, AtRun(p, r)), e)
                    else UnpricedOf(log, AtRun(p, r)) {
      UnpricedAppend(log, e, AtRun(p, r));
    }
    if p == e.tags.prefix && e.tags.run !in m {
      forall x | x in log ensures !Matches(AtRun(p, e.tags.run), x) {
        if Matches(AtPrefix(p), x) {
          assert Field(x, RunAxis) in Names(log, AtPrefix(p), RunAxis);
        }
      }
      UnpricedNothing(log, AtRun(p, e.tags.run));
    }
  }

  lemma {:induction false} ChargeOk(log: seq<Entry>, e: Entry, u: map<string, map<string, UnpricedTotals>>)
    requires UnpricedOk(log, u)
    ensures UnpricedOk(log + [e], ChargeAt(u, e))
  {
    var p := e.tags.prefix;
    EnteredAccountsOk(log, p, u);
    ChargeRunsOk(log, e, p, Entered(u, p, map[]));
    var u' := ChargeAt(u, e);
    forall q | q in u' ensures UnpricedRunsOk(log + [e], q, u'[q]) {
      if q != p {
        ChargeRunsOk(log, e, q, u[q]);
      }
    }
    PrefixesAppend(log, e);
    assert u'.Keys == u.Keys + {p};
  }

  lemma {:induction false} EnteredAccountsOk(log: seq<Entry>, p: string, u: map<string, map<string, UnpricedTotals>>)
    requires UnpricedOk(log, u)
    ensures UnpricedRunsOk(log, p, Entered(u, p, map[]))
  {
    if p !in u {
      assert forall x :: x in log ==> x.tags.prefix in Prefixes(log);
      assert Names(log, AtPrefix(p), RunAxis) == {};
    }
  }

  // ---------------------------------------------------------------------------------------
  // Adding up one level at a time
  // ---------------------------------------------------------------------------------------

  method SumModels(m: Models, start: Aggregate, ghost log: seq<Entry>, ghost p: string, ghost r: string,
          ghost t: string, ghost ti: string)
      returns (agg: Aggregate)
    requires ModelsOk(log, p, r, t, ti, m)
    ensures agg == Plus(start, Sum(Total, log, AtTier(p, r, t, ti)))
  {
    ghost var s, done: set<string> := AtTier(p, r, t, ti), {};
    agg := start;
    var todo := m.Keys;
    SumEmptyDim(Total, log, s, ModelAxis);
    while todo != {}
      invariant done + todo == m.Keys && done !! todo
      invariant agg == Plus(start, Sum(Total, log, With(s, ModelAxis, Only(done))))
      decreases todo
    {
      var k :| k in todo;
      SumGrows(Total, log, s, ModelAxis, done, k);
      agg := Plus(agg, m[k]);
      todo, done := todo - {k}, done + {k};
    }
    SumWhole(Total, log, s, ModelAxis, done);
  }

  method SumTiers(m: Tiers, start: Aggregate, ghost log: seq<Entry>, ghost p: string, ghost r: string, ghost t: string)
      returns (agg: Aggregate)
    requires TiersOk(log, p, r, t, m)
    ensures agg == Plus(start, Sum(Total, log, AtTicket(p, r, t)))
  {
    ghost var s, done: set<string> := AtTicket(p, r, t), {};
    agg := start;
    var todo := m.Keys;
    SumEmptyDim(Total, log, s, TierAxis);
    while todo != {}
      invariant done + todo == m.Keys && done !! todo
      invariant agg == Plus(start, Sum(Total, log, With(s, TierAxis, Only(done))))
      decreases todo
    {
      var k :| k in todo;
      SumGrows(Total, log, s, TierAxis, done, k);
      agg := SumModels(m[k], agg, log, p, r, t, k);
      todo, done := todo - {k}, done + {k};
    }
    SumWhole(Total, log, s, TierAxis, done);
  }

  /** `aggregateRunData`: all tickets, tiers and models of one run. */
  method AggregateRunData(m: Tickets, start: Aggregate, ghost log: seq<Entry>, ghost p: string, ghost r: string)
      returns (agg: Aggregate)
    requires TicketsOk(log, p, r, m)
    ensures agg == Plus(start, Sum(Total, log, AtRun(p, r)))
  {
    ghost var s, done: set<string> := AtRun(p, r), {};
    agg := start;
    var todo := m.Keys;
    SumEmptyDim(Total, log, s, TicketAxis);
    while todo != {}
      invariant done + todo == m.Keys && done !! todo
      invariant agg == Plus(start, Sum(Total, log, With(s, TicketAxis, Only(done))))
      decreases todo
    {
      var k :| k in todo;
      SumGrows(Total, log, s, TicketAxis, done, k);
      agg := SumTiers(m[k], agg, log, p, r, k);
      todo, done := todo - {k}, done + {k};
    }
    SumWhole(Total, log, s, TicketAxis, done);
  }

  // ---------------------------------------------------------------------------------------
  // Grouping one level at a time
  // ---------------------------------------------------------------------------------------

  function Val<K>(m: map<K, Aggregate>, k: K): Aggregate {
    if k in m then m[k] else NOTHING
  }

  /** `out` is `start` with the selected entries added, each to the group of its field. */
  ghost predicate Grouped(log: seq<Entry>, s: Sel, a: Axis, start: map<string, Aggregate>,
          out: map<string, Aggregate>) {
    && out.Keys == start.Keys + Names(log, s, a)
    && forall k :: Val(out, k) == Plus(Val(start, k), GroupSum(log, s, a, k))
  }

  lemma {:induction false} GroupedNone(log: seq<Entry>, s: Sel, a: Axis, m: map<string, Aggregate>)
    requires forall e :: e in log ==> !Matches(s, e)
    requires s == With(s, a, All)
    ensures Grouped(log, s, a, m, m)
  {
    forall k ensures GroupSum(log, s, a, k) == NOTHING {
      SumAbsent(Total, log, s, a, k);
    }
  }

  lemma {:induction false} WithCommutes(s: Sel, a: Axis, d: Dim, b: Axis, e: Dim)
    requires a != b
    ensures With(With(s, a, d), b, e) == With(With(s, b, e), a, d)
  {
  }

  lemma {:induction false} NamesGrow(log: seq<Entry>, s: Sel, b: Axis, done: set<string>, x: string, a: Axis)
    ensures Names(log, With(s, b, Only(done + {x})), a)
         == Names(log, With(s, b, Only(done)), a) + Names(log, With(s, b, Only({x})), a)
  {
    assert forall e :: Matches(With(s, b, Only(done + {x})), e)
                  <==> Matches(With(s, b, Only(done)), e) || Matches(With(s, b, Only({x})), e);
  }

  lemma {:induction false} NamedSumGrows(log: seq<Entry>, s: Sel, b: Axis, done: set<string>, x: string, a: Axis,
          k: string)
    requires a != b && x !in done
    ensures Sum(Total, log, With(With(s, b, Only(done + {x})), a, Only({k})))
         == Plus(Sum(Total, log, With(With(s, b, Only(done)), a, Only({k}))),
                 Sum(Total, log, With(With(s, b, Only({x})), a, Only({k}))))
  {
    SumGrows(Total, log, With(s, a, Only({k})), b, done, x);
    WithCommutes(s, b, Only(done + {x}), a, Only({k}));
    WithCommutes(s, b, Only(done), a, Only({k}));
    WithCommutes(s, b, Only({x}), a, Only({k}));
  }

  lemma {:induction false} ThreeWay(start: Aggregate, mid: Aggregate, out: Aggregate, first: Aggregate,
          second: Aggregate, both: Aggregate)
    requires mid == Plus(start, first) && out == Plus(mid, second) && both == Plus(first, second)
    ensures out == Plus(start, both)
  {
  }

  function GroupSum(log: seq<Entry>, s: Sel, a: Axis, k: string): Aggregate {
    Sum(Total, log, With(s, a, Only({k})))
  }

  /** Groupings over one more value of another axis compose. */
  lemma {:induction false} GroupedGrows(log: seq<Entry>, s: Sel, b: Axis, done: set<string>, x: string, a: Axis,
          start: map<string, Aggregate>, mid: map<string, Aggregate>, out: map<string, Aggregate>)
    requires a != b && x !in done
    requires Grouped(log, With(s, b, Only(done)), a, start, mid) && Grouped(log, With(s, b, Only({x})), a, mid, out)
    ensures Grouped(log, With(s, b, Only(done + {x})), a, start, out)
  {
    NamesGrow(log, s, b, done, x, a);
    var s0, s1, s2 := With(s, b, Only(done)), With(s, b, Only({x})), With(s, b, Only(done + {x}));
    forall k ensures Val(out, k) == Plus(Val(start, k), GroupSum(log, s2, a, k)) {
      NamedSumGrows(log, s, b, done, x, a, k);
      ThreeWay(Val(start, k), Val(mid, k), Val(out, k),
               GroupSum(log, s0, a, k), GroupSum(log, s1, a, k), GroupSum(log, s2, a, k));
    }
  }

  lemma {:induction false} SelectsSame(log: seq<Entry>, s: Sel, b: Axis, names: set<string>, e: Entry)
    requires Names(log, With(s, b, All), b) <= names && e in log
    ensures Matches(With(s, b, Only(names)), e) <==> Matches(With(s, b, All), e)
  {
    if Matches(With(s, b, All), e) {
      assert Field(e, b) in Names(log, With(s, b, All), b);
    }
  }

  lemma {:induction false} NamesWhole(log: seq<Entry>, s: Sel, b: Axis, names: set<string>, a: Axis)
    requires Names(log, With(s, b, All), b) <= names
    ensures Names(log, With(s, b, Only(names)), a) == Names(log, With(s, b, All), a)
  {
    forall e | e in log ensures Matches(With(s, b, Only(names)), e) <==> Matches(With(s, b, All), e) {
      SelectsSame(log, s, b, names, e);
    }
  }

  lemma {:induction false} NamedSumWhole(log: seq<Entry>, s: Sel, b: Axis, names: set<string>, a: Axis, k: string)
    requires a != b && s == With(s, a, All) && Names(log, With(s, b, All), b) <= names
    ensures GroupSum(log, With(s, b, Only(names)), a, k) == GroupSum(log, With(s, b, All), a, k)
  {
    var s' := With(s, a, Only({k}));
    forall e | e in log && Matches(With(s', b, All), e) ensures Field(e, b) in names {
      assert Matches(With(s, b, All), e);
      assert Field(e, b) in Names(log, With(s, b, All), b);
    }
    SumWhole(Total, log, s', b, names);
    WithCommutes(s, b, Only(names), a, Only({k}));
    WithCommutes(s, b, All, a, Only({k}));
  }

  lemma {:induction false} GroupedWhole(log: seq<Entry>, s: Sel, b: Axis, names: set<string>, a: Axis,
          start: map<string, Aggregate>, out: map<string, Aggregate>)
    requires a != b && s == With(s, a, All) && Names(log, With(s, b, All), b) <= names
    requires Grouped(log, With(s, b, Only(names)), a, start, out)
    ensures Grouped(log, With(s, b, All), a, start, out)
  {
    NamesWhole(log, s, b, names, a);
    forall k ensures GroupSum(log, With(s, b, Only(names)), a, k) == GroupSum(log, With(s, b, All), a, k) {
      NamedSumWhole(log, s, b, names, a, k);
    }
  }

  /** `out` is `start` with the groups in `done` added. */
  ghost predicate GroupedUpTo(log: seq<Entry>, s: Sel, a: Axis, start: map<string, Aggregate>,
          out: map<string, Aggregate>, done: set<string>) {
    && out.Keys == start.Keys + done
    && forall k :: Val(out, k) == if k in done then Plus(Val(start, k), GroupSum(log, s, a, k)) else Val(start, k)
  }

  lemma {:induction false} GroupedUpToEnd(log: seq<Entry>, s: Sel, a: Axis, start: map<string, Aggregate>,
          out: map<string, Aggregate>, done: set<string>)
    requires GroupedUpTo(log, s, a, start, out, done) && done == Names(log, s, a) && s == With(s, a, All)
    ensures Grouped(log, s, a, start, out)
  {
    forall k | k !in done ensures GroupSum(log, s, a, k) == NOTHING {
      SumAbsent(Total, log, s, a, k);
    }
  }

  /** One run's tickets, each added to its own group. */
  method AddRunByTicket(start: map<string, Aggregate>, m: Tickets, ghost log: seq<Entry>, ghost p: string,
          ghost r: string)
      returns (out: map<string, Aggregate>)
    requires TicketsOk(log, p, r, m)
    ensures Grouped(log, AtRun(p, r), TicketAxis, start, out)
  {
    ghost var done: set<string> := {};
    out := start;
    var todo := m.Keys;
    while todo != {}
      invariant done + todo == m.Keys && done !! todo
      invariant GroupedUpTo(log, AtRun(p, r), TicketAxis, start, out, done)
      decreases todo
    {
      var k :| k in todo;
      var agg := SumTiers(m[k], Val(out, k), log, p, r, k);
      out := out[k := agg];
      todo, done := todo - {k}, done + {k};
    }
    GroupedUpToEnd(log, AtRun(p, r), TicketAxis, start, out, done);
  }

  method AddTicketByTier(start: map<string, Aggregate>, m: Tiers, ghost log: seq<Entry>, ghost p: string,
          ghost r: string, ghost t: string)
      returns (out: map<string, Aggregate>)
    requires TiersOk(log, p, r, t, m)
    ensures Grouped(log, AtTicket(p, r, t), TierAxis, start, out)
  {
    ghost var done: set<string> := {};
    out := start;
    var todo := m.Keys;
    while todo != {}
      invariant done + todo == m.Keys && done !! todo
      invariant GroupedUpTo(log, AtTicket(p, r, t), TierAxis, start, out, done)
      decreases todo
    {
      var k :| k in todo;
      var agg := SumModels(m[k], Val(out, k), log, p, r, t, k);
      out := out[k := agg];
      todo, done := todo - {k}, done + {k};
    }
    GroupedUpToEnd(log, AtTicket(p, r, t), TierAxis, start, out, done);
  }

  method AddRunByTier(start: map<string, Aggregate>, m: Tickets, ghost log: seq<Entry>, ghost p: string,
          ghost r: string)
      returns (out: map<string, Aggregate>)
    requires TicketsOk(log, p, r, m)
    ensures Grouped(log, AtRun(p, r), TierAxis, start, out)
  {
    ghost var s, done: set<string> := AtRun(p, r), {};
    out := start;
    var todo := m.Keys;
    GroupedNone(log, With(s, TicketAxis, Only({})), TierAxis, start);
    while todo != {}
      invariant done + todo == m.Keys && done !! todo
      invariant Grouped(log, With(s, TicketAxis, Only(done)), TierAxis, start, out)
      decreases todo
    {
      var k :| k in todo;
      ghost var mid := out;
      out := AddTicketByTier(out, m[k], log, p, r, k);
      GroupedGrows(log, s, TicketAxis, done, k, TierAxis, start, mid, out);
      todo, done := todo - {k}, done + {k};
    }
    GroupedWhole(log, s, TicketAxis, done, TierAxis, start, out);
  }

  // ---------------------------------------------------------------------------------------
  // Grouping by model and tier
  // ---------------------------------------------------------------------------------------

  ghost predicate CellGrouped(log: seq<Entry>, s: Sel, start: map<Cell, Aggregate>, out: map<Cell, Aggregate>) {
    && out.Keys == start.Keys + Cells(log, s)
    && forall c :: Val(out, c) == Plus(Val(start, c), CellSum(log, s, c))
  }

  function CellSum(log: seq<Entry>, s: Sel, c: Cell): Aggregate {
    Sum(Total, log, CellSel(s, c))
  }

  lemma {:induction false} MatchesWith(s: Sel, a: Axis, d: Dim, e: Entry)
    ensures Matches(With(s, a, d), e) <==> Matches(With(s, a, All), e) && In(Field(e, a), d)
  {
  }

  lemma {:induction false} MatchesCell(s: Sel, c: Cell, e: Entry)
    ensures Matches(CellSel(s, c), e) <==> Matches(s, e) && e.model == c.model && e.tier == c.tier
  {
  }

  lemma {:induction false} CellSumAbsent(log: seq<Entry>, s: Sel, c: Cell)
    requires c !in Cells(log, s)
    ensures CellSum(log, s, c) == NOTHING
  {
    forall e | e in log ensures !Matches(CellSel(s, c), e) {
      MatchesCell(s, c, e);
      if Matches(s, e) {
        assert Cell(e.model, e.tier) in Cells(log, s);
      }
    }
    SumNothing(Total, log, CellSel(s, c));
  }

  lemma {:induction false} CellGroupedNone(log: seq<Entry>, s: Sel, m: map<Cell, Aggregate>)
    requires forall e :: e in log ==> !Matches(s, e)
    ensures CellGrouped(log, s, m, m)
  {
    assert Cells(log, s) == {};
    forall c ensures CellSum(log, s, c) == NOTHING {
      CellSumAbsent(log, s, c);
    }
  }

  lemma {:induction false} CellGroupedGrows(log: seq<Entry>, s: Sel, b: Axis, done: set<string>, x: string,
          start: map<Cell, Aggregate>, mid: map<Cell, Aggregate>, out: map<Cell, Aggregate>)
    requires x !in done
    requires CellGrouped(log, With(s, b, Only(done)), start, mid) && CellGrouped(log, With(s, b, Only({x})), mid, out)
    ensures CellGrouped(log, With(s, b, Only(done + {x})), start, out)
  {
    var s0, s1, s2 := With(s, b, Only(done)), With(s, b, Only({x})), With(s, b, Only(done + {x}));
    forall e ensures Matches(s2, e) <==> Matches(s0, e) || Matches(s1, e) {
      MatchesWith(s, b, Only(done), e);
      MatchesWith(s, b, Only({x}), e);
      MatchesWith(s, b, Only(done + {x}), e);
    }
    assert Cells(log, s2) == Cells(log, s0) + Cells(log, s1);
    forall c ensures Val(out, c) == Plus(Val(start, c), CellSum(log, s2, c)) {
      CellSumSplits(log, s, b, done, x, c);
      ThreeWay(Val(start, c), Val(mid, c), Val(out, c), CellSum(log, s0, c), CellSum(log, s1, c), CellSum(log, s2, c));
    }
  }

  lemma {:induction false} CellSumSplits(log: seq<Entry>, s: Sel, b: Axis, done: set<string>, x: string, c: Cell)
    requires x !in done
    ensures CellSum(log, With(s, b, Only(done + {x})), c)
         == Plus(CellSum(log, With(s, b, Only(done)), c), CellSum(log, With(s, b, Only({x})), c))
  {
    var s0, s1, s2 := With(s, b, Only(done)), With(s, b, Only({x})), With(s, b, Only(done + {x}));
    forall e | e in log
      ensures Matches(CellSel(s2, c), e) <==> Matches(CellSel(s0, c), e) || Matches(CellSel(s1, c), e)
      ensures !(Matches(CellSel(s0, c), e) && Matches(CellSel(s1, c), e))
    {
      MatchesCell(s0, c, e);
      MatchesCell(s1, c, e);
      MatchesCell(s2, c, e);
      MatchesWith(s, b, Only(done), e);
      MatchesWith(s, b, Only({x}), e);
      MatchesWith(s, b, Only(done + {x}), e);
    }
    SumSplit(Total, log, CellSel(s2, c), CellSel(s0, c), CellSel(s1, c));
  }

  lemma {:induction false} CellGroupedWhole(log: seq<Entry>, s: Sel, t: Sel, start: map<Cell, Aggregate>,
          out: map<Cell, Aggregate>)
    requires forall e :: e in log ==> (Matches(s, e) <==> Matches(t, e))
    requires CellGrouped(log, s, start, out)
    ensures CellGrouped(log, t, start, out)
  {
    assert Cells(log, s) == Cells(log, t);
    forall c ensures CellSum(log, s, c) == CellSum(log, t, c) {
      forall e | e in log ensures Matches(CellSel(s, c), e) <==> Matches(CellSel(t, c), e) {
        MatchesCell(s, c, e);
        MatchesCell(t, c, e);
      }
      SumSame(Total, log, CellSel(s, c), CellSel(t, c));
    }
  }

  lemma {:induction false} CellGroupedAll(log: seq<Entry>, s: Sel, b: Axis, names: set<string>,
          start: map<Cell, Aggregate>, out: map<Cell, Aggregate>)
    requires Names(log, With(s, b, All), b) <= names
    requires CellGrouped(log, With(s, b, Only(names)), start, out)
    ensures CellGrouped(log, With(s, b, All), start, out)
  {
    forall e | e in log ensures Matches(With(s, b, Only(names)), e) <==> Matches(With(s, b, All), e) {
      SelectsSame(log, s, b, names, e);
    }
    CellGroupedWhole(log, With(s, b, Only(names)), With(s, b, All), start, out);
  }

  function AddCell(m: map<Cell, Aggregate>, c: Cell, x: Aggregate): map<Cell, Aggregate> {
    m[c := Plus(Val(m, c), x)]
  }

  lemma {:induction false} OneCell(log: seq<Entry>, p: string, r: string, t: string, ti: string, m: Models, k: string,
          start: map<Cell, Aggregate>, out: map<Cell, Aggregate>)
    requires ModelsOk(log, p, r, t, ti, m) && k in m
    requires out == AddCell(start, Cell(k, ti), m[k])
    ensures CellGrouped(log, With(AtTier(p, r, t, ti), ModelAxis, Only({k})), start, out)
  {
    var s := With(AtTier(p, r, t, ti), ModelAxis, Only({k}));
    assert Cells(log, s) == {Cell(k, ti)} by {
      assert k in Names(log, AtTier(p, r, t, ti), ModelAxis);
      var e :| e in log && Matches(AtTier(p, r, t, ti), e) && e.model == k;
      assert Matches(s, e) && Cell(e.model, e.tier) == Cell(k, ti);
    }
    assert CellSel(s, Cell(k, ti)) == s;
    forall c | c != Cell(k, ti) ensures CellSum(log, s, c) == NOTHING {
      CellSumAbsent(log, s, c);
    }
  }

  /** `out` is `start` with the entries of one tier's models in `done` added. */
  ghost predicate ModelsAdded(log: seq<Entry>, tier: Sel, done: set<string>, start: map<Cell, Aggregate>,
          out: map<Cell, Aggregate>) {
    CellGrouped(log, With(tier, ModelAxis, Only(done)), start, out)
  }

  lemma {:induction false} NoModelsAdded(log: seq<Entry>, tier: Sel, start: map<Cell, Aggregate>)
    ensures ModelsAdded(log, tier, {}, start, start)
  {
    CellGroupedNone(log, With(tier, ModelAxis, Only({})), start);
  }

  method AddModel(start: map<Cell, Aggregate>, mid: map<Cell, Aggregate>, m: Models, k: string, ghost log: seq<Entry>,
          ghost p: string, ghost r: string, ghost t: string, ti: string, ghost done: set<string>)
      returns (out: map<Cell, Aggregate>)
    requires ModelsOk(log, p, r, t, ti, m) && k in m && k !in done
    requires ModelsAdded(log, AtTier(p, r, t, ti), done, start, mid)
    ensures ModelsAdded(log, AtTier(p, r, t, ti), done + {k}, start, out)
  {
    out := AddCell(mid, Cell(k, ti), m[k]);
    OneCell(log, p, r, t, ti, m, k, mid, out);
    CellGroupedGrows(log, AtTier(p, r, t, ti), ModelAxis, done, k, start, mid, out);
  }

  lemma {:induction false} AllModelsAdded(log: seq<Entry>, p: string, r: string, t: string, ti: string, m: Models,
          start: map<Cell, Aggregate>, out: map<Cell, Aggregate>)
    requires ModelsOk(log, p, r, t, ti, m) && ModelsAdded(log, AtTier(p, r, t, ti), m.Keys, start, out)
    ensures CellGrouped(log, AtTier(p, r, t, ti), start, out)
  {
    CellGroupedAll(log, AtTier(p, r, t, ti), ModelAxis, m.Keys, start, out);
  }

  method AddTierByCell(start: map<Cell, Aggregate>, m: Models, ghost log: seq<Entry>, ghost p: string, ghost r: string,
          ghost t: string, ti: string)
      returns (out: map<Cell, Aggregate>)
    requires ModelsOk(log, p, r, t, ti, m)
    ensures CellGrouped(log, AtTier(p, r, t, ti), start, out)
  {
    ghost var done: set<string> := {};
    out := start;
    var todo := m.Keys;
    ghost var tier := AtTier(p, r, t, ti);
    NoModelsAdded(log, tier, start);
    while todo != {}
      invariant done + todo == m.Keys && done !! todo
      invariant ModelsAdded(log, tier, done, start, out)
      decreases todo
    {
      var k :| k in todo;
      out := AddModel(start, out, m, k, log, p, r, t, ti, done);
      todo, done := todo - {k}, done + {k};
    }
    AllModelsAdded(log, p, r, t, ti, m, start, out);
  }

  method AddTicketByCell(start: map<Cell, Aggregate>, m: Tiers, ghost log: seq<Entry>, ghost p: string,
          ghost r: string, ghost t: string)
      returns (out: map<Cell, Aggregate>)
    requires TiersOk(log, p, r, t, m)
    ensures CellGrouped(log, AtTicket(p, r, t), start, out)
  {
    ghost var s, done: set<string> := AtTicket(p, r, t), {};
    out := start;
    var todo := m.Keys;
    CellGroupedNone(log, With(s, TierAxis, Only({})), start);
    while todo != {}
      invariant done + todo == m.Keys && done !! todo
      invariant CellGrouped(log, With(s, TierAxis, Only(done)), start, out)
      decreases todo
    {
      var k :| k in todo;
      ghost var mid := out;
      out := AddTierByCell(out, m[k], log, p, r, t, k);
      CellGroupedGrows(log, s, TierAxis, done, k, start, mid, out);
      todo, done := todo - {k}, done + {k};
    }
    CellGroupedAll(log, s, TierAxis, done, start, out);
  }

  method AddRunByCell(start: map<Cell, Aggregate>, m: Tickets, ghost log: seq<Entry>, ghost p: string, ghost r: string)
      returns (out: map<Cell, Aggregate>)
    requires TicketsOk(log, p, r, m)
    ensures CellGrouped(log, AtRun(p, r), start, out)
  {
    ghost var s, done: set<string> := AtRun(p, r), {};
    out := start;
    var todo := m.Keys;
    CellGroupedNone(log, With(s, TicketAxis, Only({})), start);
    while todo != {}
      invariant done + todo == m.Keys && done !! todo
      invariant CellGrouped(log, With(s, TicketAxis, Only(done)), start, out)
      decreases todo
    {
      var k :| k in todo;
      ghost var mid := out;
      out := AddTicketByCell(out, m[k], log, p, r, k);
      CellGroupedGrows(log, s, TicketAxis, done, k, start, mid, out);
      todo, done := todo - {k}, done + {k};
    }
    CellGroupedAll(log, s, TicketAxis, done, start, out);
  }

  // ---------------------------------------------------------------------------------------
  // The meter
  // ---------------------------------------------------------------------------------------

  function AddUnpriced(a: UnpricedTotals, b: UnpricedTotals): UnpricedTotals {
    UnpricedTotals(a.requests + b.requests, AddTokens(a.tokens, b.tokens), a.models + b.models)
  }

  lemma {:induction false} UnpricedGrows(log: seq<Entry>, p: string, done: set<string>, r: string)
    requires r !in done
    ensures UnpricedOf(log, With(AtPrefix(p), RunAxis, Only(done + {r})))
         == AddUnpriced(UnpricedOf(log, With(AtPrefix(p), RunAxis, Only(done))), UnpricedOf(log, AtRun(p, r)))
  {
    SumGrows(Unpriced, log, AtPrefix(p), RunAxis, done, r);
  }

  lemma {:induction false} UnpricedSame(log: seq<Entry>, s: Sel, t: Sel)
    requires forall e :: e in log ==> (Matches(s, e) <==> Matches(t, e))
    ensures UnpricedOf(log, s) == UnpricedOf(log, t)
  {
    SumSame(Unpriced, log, s, t);
    assert UnpricedModels(log, s) == UnpricedModels(log, t);
  }

  function SnapshotOf(log: seq<Entry>, s: Sel): Snapshot {
    Snapshot(Sum(Total, log, s), UnpricedOf(log, s))
  }

  datatype ModelBreakdown = ModelBreakdown(cell: Cell, agg: Aggregate)

  ghost predicate Listed(list: seq<ModelBreakdown>, c: Cell) {
    exists i :: 0 <= i < |list| && list[i].cell == c
  }

  /** `list` has each group of `m` once, in some order. */
  ghost predicate Lists(list: seq<ModelBreakdown>, m: map<Cell, Aggregate>) {
    && (forall i :: 0 <= i < |list| ==> list[i].cell in m && list[i].agg == m[list[i].cell])
    && (forall i, j :: 0 <= i < j < |list| ==> list[i].cell != list[j].cell)
    && (forall c :: c in m ==> Listed(list, c))
  }

  method ListCells(m: map<Cell, Aggregate>) returns (list: seq<ModelBreakdown>)
    ensures Lists(list, m)
  {
    list := [];
    var todo := m.Keys;
    while todo != {}
      invariant todo <= m.Keys
      invariant forall i :: 0 <= i < |list| ==> list[i].cell in m.Keys - todo && list[i].agg == m[list[i].cell]
      invariant forall i, j :: 0 <= i < j < |list| ==> list[i].cell != list[j].cell
      invariant forall c :: c in m && c !in todo ==> Listed(list, c)
      decreases todo
    {
      var c :| c in todo;
      ghost var before := list;
      list := list + [ModelBreakdown(c, m[c])];
      todo := todo - {c};
      forall d | d in m && d !in todo ensures Listed(list, d) {
        if d == c {
          assert list[|list| - 1].cell == d;
        } else {
          assert Listed(before, d);
          var i :| 0 <= i < |before| && before[i].cell == d;
          assert list[i].cell == d;
        }
      }
    }
  }

  /** Make every level exist, then add to the aggregate. */
  method PutEntry(d: map<string, Runs>, tags: Tags, model: string, tier: string, amount: Aggregate, ghost e: Entry)
      returns (out: map<string, Runs>)
    requires e.tags == tags && e.model == model && e.tier == tier && Amount(Total, e) == amount
    ensures out == Put(d, e)
  {
    var runs := if tags.prefix in d then d[tags.prefix] else map[];
    var tickets := if tags.run in runs then runs[tags.run] else map[];
    var tiers := if tags.ticket in tickets then tickets[tags.ticket] else map[];
    var models := if tier in tiers then tiers[tier] else map[];
    var agg := Plus(if model in models then models[model] else NOTHING, amount);
    models := models[model := agg];
    tiers := tiers[tier := models];
    tickets := tickets[tags.ticket := tiers];
    runs := runs[tags.run := tickets];
    out := d[tags.prefix := runs];
  }

  method EnterData(d: map<string, Runs>, tags: Tags, model: string, tier: string, amount: Aggregate,
          ghost log: seq<Entry>, ghost e: Entry)
      returns (out: map<string, Runs>)
    requires DataOk(log, d)
    requires e.tags == tags && e.model == model && e.tier == tier && Amount(Total, e) == amount
    ensures DataOk(log + [e], out)
  {
    out := PutEntry(d, tags, model, tier, amount, e);
    PutOk(log, e, d);
  }

  method ChargeData(u: map<string, map<string, UnpricedTotals>>, tags: Tags, model: string, tokens: Tokens,
          known: bool, ghost log: seq<Entry>, ghost e: Entry)
      returns (out: map<string, map<string, UnpricedTotals>>)
    requires UnpricedOk(log, u)
    requires e.tags == tags && e.model == model && e.tokens == tokens && e.known == known
    ensures UnpricedOk(log + [e], out)
  {
    out := ChargeEntry(u, tags, model, tokens, known, e);
    ChargeOk(log, e, u);
  }

  /** Charge the unpriced account of the entry's prefix and run. */
  method ChargeEntry(u: map<string, map<string, UnpricedTotals>>, tags: Tags, model: string, tokens: Tokens,
          known: bool, ghost e: Entry)
      returns (out: map<string, map<string, UnpricedTotals>>)
    requires e.tags == tags && e.model == model && e.tokens == tokens && e.known == known
    ensures out == ChargeAt(u, e)
  {
    var accounts := if tags.prefix in u then u[tags.prefix] else map[];
    var up := if tags.run in accounts then accounts[tags.run] else NO_UNPRICED;
    if !known {
      up := UnpricedTotals(up.requests + 1, AddTokens(up.tokens, tokens), up.models);
      if model != "" {
        up := up.(models := up.models + {model});
      }
    } else if tokens == NO_TOKENS {
      up := up.(requests := up.requests + 1);
    }
    out := u[tags.prefix := accounts[tags.run := up]];
  }

  class Meter {
    var data: map<string, Runs>
    var unpriced: map<string, map<string, UnpricedTotals>>
    ghost var log: seq<Entry>

    ghost predicate Valid()
      reads this
    {
      DataOk(log, data) && UnpricedOk(log, unpriced)
    }

    constructor ()
      ensures Valid() && log == []
    {
      data, unpriced, log := map[], map[], [];
    }

    method Record(tags: Tags, model: string, tier: string, tokens: Tokens, usd: real, known: bool)
      requires Valid()
      modifies this
      ensures Valid() && log == old(log) + [Entry(tags, model, tier, tokens, usd, known)]
    {
      ghost var e := Entry(tags, model, tier, tokens, usd, known);
      var data' := EnterData(data, tags, model, tier, Aggregate(1, tokens, usd), log, e);
      var unpriced' := ChargeData(unpriced, tags, model, tokens, known, log, e);
      data, unpriced, log := data', unpriced', log + [e];
    }

    /** The runs a query covers. */
    function Selected(prefix: string, run: string): set<string>
      requires prefix in data
      reads this
    {
      if run == "" then data[prefix].Keys else if run in data[prefix] then {run} else {}
    }

    lemma {:induction false} SelectedMatches(prefix: string, run: string)
      requires Valid() && prefix in data
      ensures forall e :: e in log ==>
                (Matches(With(AtPrefix(prefix), RunAxis, Only(Selected(prefix, run))), e)
                 <==> Matches(Query(prefix, run), e))
    {
      forall e | e in log && e.tags.prefix == prefix ensures e.tags.run in data[prefix] {
        assert Matches(AtPrefix(prefix), e);
        assert Field(e, RunAxis) in Names(log, AtPrefix(prefix), RunAxis);
      }
    }

    lemma {:induction false} NoPrefixNoMatch(prefix: string, run: string)
      requires Valid() && prefix !in data
      ensures forall e :: e in log ==> !Matches(Query(prefix, run), e)
    {
      assert forall e :: e in log ==> e.tags.prefix in Prefixes(log);
    }

    /** `Snapshot`: totals and unpriced account of the selected runs. */
    method TakeSnapshot(prefix: string, run: string) returns (result: Snapshot)
      requires Valid()
      ensures result == SnapshotOf(log, Query(prefix, run))
    {
      result := Snapshot(NOTHING, NO_UNPRICED);
      if prefix !in data {
        NoPrefixNoMatch(prefix, run);
        SumNothing(Total, log, Query(prefix, run));
        UnpricedNothing(log, Query(prefix, run));
        return;
      }
      ghost var s, done: set<string> := AtPrefix(prefix), {};
      var todo := Selected(prefix, run);
      SumEmptyDim(Total, log, s, RunAxis);
      UnpricedNothing(log, With(s, RunAxis, Only({})));
      while todo != {}
        invariant done + todo == Selected(prefix, run) && done !! todo
        invariant result == SnapshotOf(log, With(s, RunAxis, Only(done)))
        decreases todo
      {
        var r :| r in todo;
        SumGrows(Total, log, s, RunAxis, done, r);
        UnpricedGrows(log, prefix, done, r);
        var total := AggregateRunData(data[prefix][r], result.total, log, prefix, r);
        result := Snapshot(total, AddUnpriced(result.unpriced, unpriced[prefix][r]));
        todo, done := todo - {r}, done + {r};
      }
      SelectedMatches(prefix, run);
      SumSame(Total, log, With(s, RunAxis, Only(done)), Query(prefix, run));
      UnpricedSame(log, With(s, RunAxis, Only(done)), Query(prefix, run));
    }

    /** `AggregatesByTicket` */
    method AggregatesByTicket(prefix: string, run: string) returns (result: map<string, Aggregate>)
      requires Valid()
      ensures result == Breakdown(log, Query(prefix, run), TicketAxis)
    {
      result := map[];
      if prefix !in data {
        NoPrefixNoMatch(prefix, run);
        return;
      }
      ghost var s, done: set<string> := AtPrefix(prefix), {};
      var todo := Selected(prefix, run);
      GroupedNone(log, With(s, RunAxis, Only({})), TicketAxis, result);
      while todo != {}
        invariant done + todo == Selected(prefix, run) && done !! todo
        invariant Grouped(log, With(s, RunAxis, Only(done)), TicketAxis, map[], result)
        decreases todo
      {
        var r :| r in todo;
        ghost var mid := result;
        result := AddRunByTicket(result, data[prefix][r], log, prefix, r);
        GroupedGrows(log, s, RunAxis, done, r, TicketAxis, map[], mid, result);
        todo, done := todo - {r}, done + {r};
      }
      SelectedMatches(prefix, run);
      GroupedIsBreakdown(log, With(s, RunAxis, Only(done)), Query(prefix, run), TicketAxis, result);
    }

    /** `AggregatesByTier` */
    method AggregatesByTier(prefix: string, run: string) returns (result: map<string, Aggregate>)
      requires Valid()
      ensures result == Breakdown(log, Query(prefix, run), TierAxis)
    {
      result := map[];
      if prefix !in data {
        NoPrefixNoMatch(prefix, run);
        return;
      }
      ghost var s, done: set<string> := AtPrefix(prefix), {};
      var todo := Selected(prefix, run);
      GroupedNone(log, With(s, RunAxis, Only({})), TierAxis, result);
      while todo != {}
        invariant done + todo == Selected(prefix, run) && done !! todo
        invariant Grouped(log, With(s, RunAxis, Only(done)), TierAxis, map[], result)
        decreases todo
      {
        var r :| r in todo;
        ghost var mid := result;
        result := AddRunByTier(result, data[prefix][r], log, prefix, r);
        GroupedGrows(log, s, RunAxis, done, r, TierAxis, map[], mid, result);
        todo, done := todo - {r}, done + {r};
      }
      SelectedMatches(prefix, run);
      GroupedIsBreakdown(log, With(s, RunAxis, Only(done)), Query(prefix, run), TierAxis, result);
    }

    /** `ModelDetails`: one entry per model and tier, in no particular order. */
    method ModelDetails(prefix: string, run: string) returns (list: seq<ModelBreakdown>)
      requires Valid()
      ensures Lists(list, ByCell(log, Query(prefix, run)))
    {
      var seen: map<Cell, Aggregate> := map[];
      if prefix !in data {
        NoPrefixNoMatch(prefix, run);
        assert Cells(log, Query(prefix, run)) == {};
        return [];
      }
      ghost var s, done: set<string> := AtPrefix(prefix), {};
      var todo := Selected(prefix, run);
      CellGroupedNone(log, With(s, RunAxis, Only({})), seen);
      while todo != {}
        invariant done + todo == Selected(prefix, run) && done !! todo
        invariant CellGrouped(log, With(s, RunAxis, Only(done)), map[], seen)
        decreases todo
      {
        var r :| r in todo;
        ghost var mid := seen;
        seen := AddRunByCell(seen, data[prefix][r], log, prefix, r);
        CellGroupedGrows(log, s, RunAxis, done, r, map[], mid, seen);
        todo, done := todo - {r}, done + {r};
      }
      SelectedMatches(prefix, run);
      CellGroupedWhole(log, With(s, RunAxis, Only(done)), Query(prefix, run), map[], seen);
      CellGroupedIsByCell(log, Query(prefix, run), seen);
      list := ListCells(seen);
    }
  }

  lemma {:induction false} GroupedIsBreakdown(log: seq<Entry>, s: Sel, t: Sel, a: Axis, m: map<string, Aggregate>)
    requires forall e :: e in log ==> (Matches(s, e) <==> Matches(t, e))
    requires Grouped(log, s, a, map[], m)
    requires s == With(s, a, All) && t == With(t, a, All)
    ensures m == Breakdown(log, t, a)
  {
    assert Names(log, s, a) == Names(log, t, a);
    forall k ensures GroupSum(log, s, a, k) == GroupSum(log, t, a, k) {
      forall e | e in log ensures Matches(With(s, a, Only({k})), e) <==> Matches(With(t, a, Only({k})), e) {
        MatchesWith(s, a, Only({k}), e);
        MatchesWith(t, a, Only({k}), e);
      }
      SumSame(Total, log, With(s, a, Only({k})), With(t, a, Only({k})));
    }
    forall k | k in m ensures m[k] == GroupSum(log, t, a, k) {
      assert Val(m, k) == Plus(NOTHING, GroupSum(log, s, a, k));
    }
  }

  lemma {:induction false} CellGroupedIsByCell(log: seq<Entry>, s: Sel, m: map<Cell, Aggregate>)
    requires s.models == All && s.tiers == All && CellGrouped(log, s, map[], m)
    ensures m == ByCell(log, s)
  {
    forall c | c in m ensures m[c] == CellSum(log, s, c) {
      assert Val(m, c) == Plus(NOTHING, CellSum(log, s, c));
    }
  }
}
