/** The metered proxy of router/main.go over a whole run: tag posts and proxied requests in any order. */
module Router {
  import opened Options
  import opened Ledger
  import opened Metering
  import opened Prices
  import opened Tagging
  import Usage

  // ---------------------------------------------------------------------------------------
  // One proxied request
  // ---------------------------------------------------------------------------------------

  /** The captured response, decompressed: a stream, a JSON body, or neither. */
  datatype Body = Stream(lines: seq<Usage.Line>) | Json(usage: Option<Option<Tokens>>) | Opaque

  /** Where a request may fail: reading its body, forwarding it, or metering its response. */
  datatype Faults = Faults(bodyRead: bool, forward: bool, metering: bool)

  datatype Exchange = Exchange(request: Request, model: string, response: Body, faults: Faults)

  predicate Healthy(x: Exchange) {
    !x.faults.bodyRead && !x.faults.forward && !x.faults.metering
  }

  function TokensOf(b: Body): Tokens {
    match b
    case Stream(lines) => Usage.Scan(lines, NO_TOKENS).tokens
    case Json(u) => Usage.UsageFromJSON(u).tokens
    case Opaque => NO_TOKENS
  }

  /** The one entry a request leaves. */
  function EntryFor(table: PriceTable, mapping: map<string, string>, x: Exchange): Entry {
    if !Healthy(x) then FAILED
    else
      var t := TokensOf(x.response);
      var cost := Cost(table, x.model, t);
      Entry(Resolved(x.request, mapping), x.model, TierOf(table, x.model), t, cost.0, cost.1)
  }

  /** `meterHandler`. A fault outside the read-error path is a panic, and lands in the deferred recover;
      `Record` itself does not panic. */
  method MeterHandler(meter: Meter, table: PriceTable, tagMap: TagMap, x: Exchange)
    requires meter.Valid()
    modifies meter
    ensures meter.Valid()
    ensures meter.log == old(meter.log) + [EntryFor(table, tagMap.tags, x)]
  {
    var untagged := Tags("untagged", "untagged", "untagged");
    var recovered := false;
    if x.faults.bodyRead {
      if x.faults.forward {
        recovered := true;
      } else {
        meter.Record(untagged, "", "untagged", NO_TOKENS, 0.0, false);
        return;
      }
    } else if x.faults.forward || x.faults.metering {
      recovered := true;
    }
    if recovered {
      meter.Record(untagged, "", "untagged", NO_TOKENS, 0.0, false);
      return;
    }
    var tags, _ := ResolveTags(x.request, tagMap);
    var tier := "untagged";
    if x.model in table {
      tier := table[x.model].tier;
    }
    var tokens := NO_TOKENS;
    match x.response {
      case Stream(lines) =>
        var u := Usage.UsageFromSSE(lines);
        tokens := u.tokens;
      case Json(usage) => tokens := Usage.UsageFromJSON(usage).tokens;
      case Opaque =>
    }
    var cost := Cost(table, x.model, tokens);
    meter.Record(tags, x.model, tier, tokens, cost.0, cost.1);
  }

  // ---------------------------------------------------------------------------------------
  // Whole runs
  // ---------------------------------------------------------------------------------------

  datatype Event = Posted(body: Option<Post>) | Proxied(exchange: Exchange)

  function Posts(events: seq<Event>): seq<Option<Post>> {
    if events == [] then []
    else Posts(events[..|events| - 1]) + (if events[|events| - 1].Posted? then [events[|events| - 1].body] else [])
  }

  /** What one event appends to the log. */
  function EntriesOf(table: PriceTable, mapping: map<string, string>, event: Event): seq<Entry> {
    if event.Proxied? then [EntryFor(table, mapping, event.exchange)] else []
  }

  /** The log after a run from an empty start. */
  function LogOf(table: PriceTable, events: seq<Event>): seq<Entry> {
    if events == [] then []
    else
      var init, last := events[..|events| - 1], events[|events| - 1];
      LogOf(table, init) + EntriesOf(table, AfterPosts(Posts(init)), last)
  }

  method ServeOne(meter: Meter, table: PriceTable, tagMap: TagMap, event: Event)
    requires meter.Valid()
    modifies meter, tagMap
    ensures meter.Valid() && meter.log == old(meter.log) + EntriesOf(table, old(tagMap.tags), event)
    ensures tagMap.tags == if event.Posted? then AfterPost(old(tagMap.tags), event.body) else old(tagMap.tags)
  {
    match event {
      case Posted(body) => var _ := HandleTagPost(body, tagMap);
      case Proxied(x) => MeterHandler(meter, table, tagMap, x);
    }
  }

  /** The last event: its entry under the map so far, and its effect on the map. */
  lemma {:induction false} LastEvent(table: PriceTable, events: seq<Event>)
    requires events != []
    ensures var init, last := events[..|events| - 1], events[|events| - 1];
            && LogOf(table, events) == LogOf(table, init) + EntriesOf(table, AfterPosts(Posts(init)), last)
            && AfterPosts(Posts(events))
               == if last.Posted? then AfterPost(AfterPosts(Posts(init)), last.body) else AfterPosts(Posts(init))
  {
    var init, last := events[..|events| - 1], events[|events| - 1];
    if last.Posted? {
      PostAppend(Posts(init), last.body);
    } else {
      assert Posts(events) == Posts(init);
    }
  }

  lemma {:induction false} EventAppend(table: PriceTable, events: seq<Event>, e: Event)
    ensures LogOf(table, events + [e]) == LogOf(table, events) + EntriesOf(table, AfterPosts(Posts(events)), e)
    ensures AfterPosts(Posts(events + [e]))
         == if e.Posted? then AfterPost(AfterPosts(Posts(events)), e.body) else AfterPosts(Posts(events))
  {
    LastEvent(table, events + [e]);
    assert (events + [e])[..|events|] == events;
  }

  method Serve(table: PriceTable, events: seq<Event>) returns (meter: Meter, tagMap: TagMap)
    ensures fresh(meter) && fresh(tagMap)
    ensures meter.Valid() && meter.log == LogOf(table, events)
    ensures tagMap.tags == AfterPosts(Posts(events))
  {
    if events == [] {
      meter := new Meter();
      tagMap := new TagMap();
    } else {
      var init, last := events[..|events| - 1], events[|events| - 1];
      meter, tagMap := Serve(table, init);
      ServeOne(meter, table, tagMap, last);
      LastEvent(table, events);
    }
  }

  function ProxiedCount(events: seq<Event>): nat {
    if events == [] then 0
    else ProxiedCount(events[..|events| - 1]) + if events[|events| - 1].Proxied? then 1 else 0
  }

  /** Every request is recorded exactly once, at its own place in the log, whatever fails; a healthy one
      under the tags in force when it came, a failed one as the mark of a failure. */
  lemma {:induction false} EachRequestRecordedOnce(table: PriceTable, events: seq<Event>, i: nat)
    requires i < |events| && events[i].Proxied?
    ensures |LogOf(table, events)| == ProxiedCount(events)
    ensures ProxiedCount(events[..i]) < |LogOf(table, events)|
    ensures LogOf(table, events)[ProxiedCount(events[..i])]
         == EntryFor(table, AfterPosts(Posts(events[..i])), events[i].exchange)
  {
    var init := events[..|events| - 1];
    LogLength(table, events);
    LogLength(table, init);
    LastEvent(table, events);
    if i < |events| - 1 {
      EachRequestRecordedOnce(table, init, i);
      assert init[..i] == events[..i] && init[i] == events[i];
    }
  }

  lemma {:induction false} LogLength(table: PriceTable, events: seq<Event>)
    ensures |LogOf(table, events)| == ProxiedCount(events)
  {
    if events != [] {
      LogLength(table, events[..|events| - 1]);
    }
  }

  /** The ticket of an entry is the mark "untagged" with its prefix, or a ticket with its own prefix. */
  ghost predicate WellTagged(e: Entry) {
    (e.tags.ticket == UNTAGGED && e.tags.prefix == UNTAGGED) || IsTicket(e.tags.ticket, e.tags.prefix)
  }

  lemma {:induction false} ResolvedWellTagged(r: Request, mapping: map<string, string>)
    requires MapOk(mapping)
    ensures var t := Resolved(r, mapping);
            (t.ticket == UNTAGGED && t.prefix == UNTAGGED) || IsTicket(t.ticket, t.prefix)
    ensures Resolved(r, mapping).ticket != UNTAGGED && r.headerTicket == "" ==>
              ValidRun(RunOf(r)) && RunOf(r) in mapping && mapping[RunOf(r)] == Resolved(r, mapping).ticket
  {
    TicketSplits(r.headerTicket);
    if RunOf(r) in mapping {
      TicketSplits(mapping[RunOf(r)]);
    }
  }

  /** Over any run, every entry is well tagged and priced by the table, and a ticket that did not come from
      a header came from the last accepted post for that very run, which is never the untagged one. */
  lemma {:induction false} EveryEntryAttributed(table: PriceTable, events: seq<Event>, i: nat)
    requires i < |events| && events[i].Proxied?
    ensures var e := EntryFor(table, AfterPosts(Posts(events[..i])), events[i].exchange);
            && WellTagged(e) && PricedBy(table, e)
            && (e.tags.ticket != UNTAGGED && events[i].exchange.request.headerTicket == "" ==>
                  ValidRun(e.tags.run) && GivenLast(Posts(events[..i]), e.tags.run, e.tags.ticket))
  {
    var posts := Posts(events[..i]);
    var x := events[i].exchange;
    PostsKeepMapOk(posts);
    ResolvedWellTagged(x.request, AfterPosts(posts));
    LastPostWins(posts, RunOf(x.request), Resolved(x.request, AfterPosts(posts)).ticket);
  }

  /** The other way round: without a header ticket, a run the last accepted post tagged is metered under
      that ticket, if nothing fails. */
  lemma {:induction false} TaggedRunIsMeteredUnderTicket(table: PriceTable, events: seq<Event>, i: nat, t: string)
    requires i < |events| && events[i].Proxied? && Healthy(events[i].exchange)
    requires events[i].exchange.request.headerTicket == ""
    requires GivenLast(Posts(events[..i]), RunOf(events[i].exchange.request), t)
    ensures EntryFor(table, AfterPosts(Posts(events[..i])), events[i].exchange).tags.ticket == t
  {
    var posts, run := Posts(events[..i]), RunOf(events[i].exchange.request);
    LastPostWins(posts, run, t);
    var p :| IsTicket(t, p);
    TicketSplitsOnce(t, p);
  }

  lemma {:induction false} LogPriced(table: PriceTable, events: seq<Event>)
    ensures forall e :: e in LogOf(table, events) ==> PricedBy(table, e)
  {
    if events != [] {
      LogPriced(table, events[..|events| - 1]);
    }
  }

  /** Spend is auditable in every reachable state: each by_model entry's money is the cost of its summed
      tokens at the fixed price table. */
  lemma {:induction false} SpendAuditable(table: PriceTable, events: seq<Event>, s: Sel, c: Cell)
    requires c in ByCell(LogOf(table, events), s)
    ensures var agg := ByCell(LogOf(table, events), s)[c];
            agg.usd == Cost(table, c.model, agg.tokens).0
  {
    var log := LogOf(table, events);
    LogPriced(table, events);
    forall e | e in log && Matches(CellSel(s, c), e) ensures e.model == c.model {
      MatchesCell(s, c, e);
    }
    SpendIsCostOfTokens(table, log, CellSel(s, c), c.model);
  }

  // ---------------------------------------------------------------------------------------
  // One tier per model
  // ---------------------------------------------------------------------------------------

  /** Each model of a selection appears under one tier. */
  ghost predicate OneTierEach(log: seq<Entry>, s: Sel) {
    forall c, d :: c in Cells(log, s) && d in Cells(log, s) && c.model == d.model ==> c.tier == d.tier
  }

  /** The table gives the empty model, under which failures are recorded, no tier of its own. */
  predicate NoTierForEmptyModel(table: PriceTable) {
    TierOf(table, "") == "untagged"
  }

  /** Every model appears under one tier, in every run and every selection, if and only if the price table
      has no entry for the empty model or puts it under "untagged". */
  lemma {:induction false} OneTierIff(table: PriceTable)
    ensures (forall events, s :: OneTierEach(LogOf(table, events), s)) <==> NoTierForEmptyModel(table)
  {
    if NoTierForEmptyModel(table) {
      forall events, s ensures OneTierEach(LogOf(table, events), s) {
        var log := LogOf(table, events);
        LogPriced(table, events);
        assert forall e :: e in log ==> e.tier == TierOf(table, e.model);
      }
    } else {
      TwoTiersForEmptyModel(table);
    }
  }

  lemma {:induction false} TwoCells(log: seq<Entry>, s: Sel)
    requires |log| == 2 && Matches(s, log[0]) && Matches(s, log[1])
    requires log[0].model == log[1].model && log[0].tier != log[1].tier
    ensures !OneTierEach(log, s)
  {
    assert log[0] in log && log[1] in log;
    assert Cell(log[0].model, log[0].tier) in Cells(log, s) && Cell(log[1].model, log[1].tier) in Cells(log, s);
  }

  /** A run that shows it: one request without a model, and one whose body cannot be read. */
  lemma {:induction false} TwoTiersForEmptyModel(table: PriceTable)
    requires !NoTierForEmptyModel(table)
    ensures exists events, s :: !OneTierEach(LogOf(table, events), s)
  {
    var fine := Exchange(Request("/v1/messages", "", ""), "", Opaque, Faults(false, false, false));
    var broken := fine.(faults := Faults(true, false, false));
    var one, two := [Proxied(fine)], [Proxied(fine), Proxied(broken)];
    var s := Query("untagged", "");
    LastEvent(table, one);
    LastEvent(table, two);
    assert two[..1] == one && one[..0] == [];
    var log := LogOf(table, two);
    assert log == [EntryFor(table, map[], fine), FAILED];
    TwoCells(log, s);
  }
}
