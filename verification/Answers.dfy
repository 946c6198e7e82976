/** What the router records and what `GET /spend` answers, entry by entry. */
module Answers {
  import opened Options
  import opened Ledger
  import opened Metering
  import opened Prices
  import opened Router
  import opened Spend
  import opened Tagging
  import Usage

  // ---------------------------------------------------------------------------------------
  // Adding up chosen entries one by one
  // ---------------------------------------------------------------------------------------

  type Choice = Entry -> bool

  function HowMany(log: seq<Entry>, chosen: Choice): nat {
    if log == [] then 0 else HowMany(log[..|log| - 1], chosen) + if chosen(log[|log| - 1]) then 1 else 0
  }

  function Added(log: seq<Entry>, chosen: Choice, part: Entry -> int): int {
    if log == [] then 0
    else Added(log[..|log| - 1], chosen, part) + if chosen(log[|log| - 1]) then part(log[|log| - 1]) else 0
  }

  function Money(log: seq<Entry>, chosen: Choice): real {
    if log == [] then 0.0
    else Money(log[..|log| - 1], chosen) + if chosen(log[|log| - 1]) then log[|log| - 1].usd else 0.0
  }

  const INPUT: Entry -> int := (e: Entry) => e.tokens.input
  const OUTPUT: Entry -> int := (e: Entry) => e.tokens.output
  const CACHE_WRITE: Entry -> int := (e: Entry) => e.tokens.cacheWrite
  const CACHE_READ: Entry -> int := (e: Entry) => e.tokens.cacheRead

  /** An aggregate is what the chosen entries come to: how many they are, each kind of token, and the money. */
  ghost predicate ComesTo(agg: Aggregate, log: seq<Entry>, chosen: Choice) {
    && agg.requests == HowMany(log, chosen) && agg.usd == Money(log, chosen)
    && agg.tokens.input == Added(log, chosen, INPUT) && agg.tokens.output == Added(log, chosen, OUTPUT)
    && agg.tokens.cacheWrite == Added(log, chosen, CACHE_WRITE)
    && agg.tokens.cacheRead == Added(log, chosen, CACHE_READ)
  }

  lemma {:induction false} TotalComesTo(log: seq<Entry>, s: Sel, chosen: Choice)
    requires forall e :: e in log ==> (chosen(e) <==> Matches(s, e))
    ensures ComesTo(Sum(Total, log, s), log, chosen)
  {
    if log != [] {
      var init, last := log[..|log| - 1], log[|log| - 1];
      assert last in log && forall e :: e in init ==> e in log;
      TotalComesTo(init, s, chosen);
    }
  }

  /** A selection without its usage-bearing entries of known models, and without all entries of known models. */
  function Unaccounted(chosen: Choice): Choice {
    (e: Entry) => chosen(e) && (!e.known || e.tokens == Tokens(0, 0, 0, 0))
  }

  function Unknown(chosen: Choice): Choice {
    (e: Entry) => chosen(e) && !e.known
  }

  lemma {:induction false} UnpricedComesTo(log: seq<Entry>, s: Sel, chosen: Choice)
    requires forall e :: e in log ==> (chosen(e) <==> Matches(s, e))
    ensures var u := Sum(Unpriced, log, s);
            && u.requests == HowMany(log, Unaccounted(chosen))
            && u.tokens.input == Added(log, Unknown(chosen), INPUT)
            && u.tokens.output == Added(log, Unknown(chosen), OUTPUT)
            && u.tokens.cacheWrite == Added(log, Unknown(chosen), CACHE_WRITE)
            && u.tokens.cacheRead == Added(log, Unknown(chosen), CACHE_READ)
  {
    if log != [] {
      var init, last := log[..|log| - 1], log[|log| - 1];
      assert last in log && forall e :: e in init ==> e in log;
      UnpricedComesTo(init, s, chosen);
    }
  }

  // ---------------------------------------------------------------------------------------
  // The answers
  // ---------------------------------------------------------------------------------------

  /** What a request for spend asks about: a prefix, and one run of it or all. */
  predicate Asks(prefix: string, run: string, e: Entry) {
    e.tags.prefix == prefix && (run == "" || e.tags.run == run)
  }

  function Asked(prefix: string, run: string): Choice {
    (e: Entry) => Asks(prefix, run, e)
  }

  function AskedTier(prefix: string, run: string, tier: string): Choice {
    (e: Entry) => Asks(prefix, run, e) && e.tier == tier
  }

  function AskedTicket(prefix: string, run: string, ticket: string): Choice {
    (e: Entry) => Asks(prefix, run, e) && e.tags.ticket == ticket
  }

  function AskedCell(prefix: string, run: string, model: string, tier: string): Choice {
    (e: Entry) => Asks(prefix, run, e) && e.model == model && e.tier == tier
  }

  /** The totals are what all entries asked about come to. The unpriced account counts the requests of unknown
      models and those without usage; it has the tokens and, but for the empty one, the names of the former. */
  lemma {:induction false} SnapshotInFull(log: seq<Entry>, prefix: string, run: string)
    ensures var asked, snap := Asked(prefix, run), SnapshotOf(log, Query(prefix, run));
            && ComesTo(snap.total, log, asked)
            && snap.unpriced.requests == HowMany(log, Unaccounted(asked))
            && snap.unpriced.tokens.input == Added(log, Unknown(asked), INPUT)
            && snap.unpriced.tokens.output == Added(log, Unknown(asked), OUTPUT)
            && snap.unpriced.tokens.cacheWrite == Added(log, Unknown(asked), CACHE_WRITE)
            && snap.unpriced.tokens.cacheRead == Added(log, Unknown(asked), CACHE_READ)
            && forall m :: m in snap.unpriced.models
                 <==> m != "" && exists e :: e in log && Asks(prefix, run, e) && !e.known && e.model == m
  {
    TotalComesTo(log, Query(prefix, run), Asked(prefix, run));
    UnpricedComesTo(log, Query(prefix, run), Asked(prefix, run));
  }

  /** by_tier has the tiers of the entries asked about, each with what its entries come to. */
  lemma {:induction false} TiersInFull(log: seq<Entry>, prefix: string, run: string)
    ensures var b := Breakdown(log, Query(prefix, run), TierAxis);
            && (forall k :: k in b <==> exists e :: e in log && Asks(prefix, run, e) && e.tier == k)
            && (forall k :: k in b ==> ComesTo(b[k], log, AskedTier(prefix, run, k)))
  {
    var q := Query(prefix, run);
    forall k | k in Breakdown(log, q, TierAxis)
      ensures ComesTo(Breakdown(log, q, TierAxis)[k], log, AskedTier(prefix, run, k))
    {
      TotalComesTo(log, With(q, TierAxis, Only({k})), AskedTier(prefix, run, k));
    }
  }

  /** by_ticket, likewise. */
  lemma {:induction false} TicketsInFull(log: seq<Entry>, prefix: string, run: string)
    ensures var b := Breakdown(log, Query(prefix, run), TicketAxis);
            && (forall k :: k in b <==> exists e :: e in log && Asks(prefix, run, e) && e.tags.ticket == k)
            && (forall k :: k in b ==> ComesTo(b[k], log, AskedTicket(prefix, run, k)))
  {
    var q := Query(prefix, run);
    forall k | k in Breakdown(log, q, TicketAxis)
      ensures ComesTo(Breakdown(log, q, TicketAxis)[k], log, AskedTicket(prefix, run, k))
    {
      TotalComesTo(log, With(q, TicketAxis, Only({k})), AskedTicket(prefix, run, k));
    }
  }

  /** And the groups by model and tier. */
  lemma {:induction false} CellsInFull(log: seq<Entry>, prefix: string, run: string)
    ensures var b := ByCell(log, Query(prefix, run));
            && (forall c :: c in b
                  <==> exists e :: e in log && Asks(prefix, run, e) && e.model == c.model && e.tier == c.tier)
            && (forall c :: c in b ==> ComesTo(b[c], log, AskedCell(prefix, run, c.model, c.tier)))
  {
    var q := Query(prefix, run);
    forall c | c in ByCell(log, q)
      ensures ComesTo(ByCell(log, q)[c], log, AskedCell(prefix, run, c.model, c.tier))
    {
      forall e | e in log ensures AskedCell(prefix, run, c.model, c.tier)(e) <==> Matches(CellSel(q, c), e) {
        MatchesCell(q, c, e);
      }
      TotalComesTo(log, CellSel(q, c), AskedCell(prefix, run, c.model, c.tier));
    }
  }

  /** After any run of the router, the money of each by_model entry is what its own tokens cost, and nothing
      without rates. */
  lemma {:induction false} ModelEntryPaysItsTokens(table: PriceTable, events: seq<Event>, q: Sel,
          entries: seq<ModelEntry>, i: nat)
    requires EntriesAnswer(table, ByCell(LogOf(table, events), q), entries) && i < |entries|
    ensures var e := entries[i];
            e.usd == Cost(table, e.cell.model, e.tokens).0 && (e.rates.None? ==> e.usd == 0.0)
  {
    SpendAuditable(table, events, q, entries[i].cell);
  }

  // ---------------------------------------------------------------------------------------
  // One request, from its event to its entry
  // ---------------------------------------------------------------------------------------

  /** The entry of the request at place `i` of a run. */
  function EntryAt(table: PriceTable, events: seq<Event>, i: nat): Entry
    requires i < |events| && events[i].Proxied?
  {
    EachRequestRecordedOnce(table, events, i);
    LogOf(table, events)[ProxiedCount(events[..i])]
  }

  /** A request during which anything fails leaves the mark of a failure. */
  lemma {:induction false} FailureInFull(table: PriceTable, events: seq<Event>, i: nat)
    requires i < |events| && events[i].Proxied?
    requires var f := events[i].exchange.faults; f.bodyRead || f.forward || f.metering
    ensures EntryAt(table, events, i)
         == Entry(Tags("untagged", "untagged", "untagged"), "", "untagged", Tokens(0, 0, 0, 0), 0.0, false)
  {
    EachRequestRecordedOnce(table, events, i);
  }

  /** Any other is recorded under its own model, with the tier the table has for it and at the cost of its tokens,
      which are what its response reports: those of a JSON body, or none if it has no usage or is of another
      type. */
  lemma {:induction false} RequestInFull(table: PriceTable, events: seq<Event>, i: nat)
    requires i < |events| && events[i].Proxied?
    requires var f := events[i].exchange.faults; !f.bodyRead && !f.forward && !f.metering
    ensures var x, e := events[i].exchange, EntryAt(table, events, i);
            && e.model == x.model && (e.known <==> x.model in table)
            && e.tier == (if x.model in table then table[x.model].tier else "untagged")
            && e.usd == Cost(table, x.model, e.tokens).0
            && (forall u :: x.response == Json(Some(Some(u))) ==> e.tokens == u)
            && ((x.response.Opaque? || x.response == Json(None) || x.response == Json(Some(None)))
                ==> e.tokens == Tokens(0, 0, 0, 0))
  {
    EachRequestRecordedOnce(table, events, i);
  }

  /** A stream that opens with usage is metered as that usage, with the output of the last delta that reports a
      positive one, and its own if none does. */
  lemma {:induction false} StreamInFull(table: PriceTable, events: seq<Event>, i: nat, opening: Usage.Event,
          rest: seq<Usage.Event>, start: Tokens)
    requires i < |events| && events[i].Proxied?
    requires var f := events[i].exchange.faults; !f.bodyRead && !f.forward && !f.metering
    requires events[i].exchange.response == Stream(Usage.Print([opening] + rest))
    requires opening.kind == Usage.MessageStart && opening.payload.asStart == Some(Some(start))
    requires forall e :: e in rest ==>
               e.kind != Usage.MessageStart && (e.kind == Usage.MessageDelta ==> e.payload.asDelta.Some?)
    ensures var t := EntryAt(table, events, i).tokens;
            && t == start.(output := t.output)
            && (forall j :: 0 <= j < |rest| && Usage.PositiveDelta(rest[j])
                            && (forall k :: j < k < |rest| ==> !Usage.PositiveDelta(rest[k]))
                  ==> t.output == rest[j].payload.asDelta.value.value.output)
            && ((forall k :: 0 <= k < |rest| ==> !Usage.PositiveDelta(rest[k])) ==> t == start)
  {
    EachRequestRecordedOnce(table, events, i);
    Usage.StreamReadsAsFinalUsage(opening, rest, start);
    forall j | 0 <= j < |rest| && Usage.PositiveDelta(rest[j])
               && (forall k :: j < k < |rest| ==> !Usage.PositiveDelta(rest[k]))
      ensures Usage.LastOutput(rest, start.output) == rest[j].payload.asDelta.value.value.output
    {
      Usage.LastOutputIff(rest, start.output, j);
    }
    if forall k :: 0 <= k < |rest| ==> !Usage.PositiveDelta(rest[k]) {
      Usage.NoOutput(rest, start.output);
    }
  }

  /** Under which run and ticket: the run of the header, or else of the path; the ticket of the header, if it is
      one; without such a header, the ticket last posted for the run; and "untagged" otherwise. */
  lemma {:induction false} TagsInFull(table: PriceTable, events: seq<Event>, i: nat)
    requires i < |events| && events[i].Proxied?
    requires var f := events[i].exchange.faults; !f.bodyRead && !f.forward && !f.metering
    ensures var r, tags := events[i].exchange.request, EntryAt(table, events, i).tags;
            && tags.run == (if r.headerRun != "" then r.headerRun else ExtractRunFromPath(r.path).run)
            && (forall p :: IsTicket(r.headerTicket, p) ==> tags.ticket == r.headerTicket && tags.prefix == p)
            && ((r.headerTicket != "" && forall p :: !IsTicket(r.headerTicket, p))
                ==> tags.ticket == "untagged" && tags.prefix == "untagged")
            && (forall t, p :: r.headerTicket == "" && GivenLast(Posts(events[..i]), tags.run, t) && IsTicket(t, p)
                  ==> tags.ticket == t && tags.prefix == p)
            && ((r.headerTicket == "" && forall t :: !GivenLast(Posts(events[..i]), tags.run, t))
                ==> tags.ticket == "untagged" && tags.prefix == "untagged")
  {
    var r, posts := events[i].exchange.request, Posts(events[..i]);
    EachRequestRecordedOnce(table, events, i);
    NoMarkIsTicket();
    ParseTicketIff(r.headerTicket, ParseTicket(r.headerTicket).prefix);
    forall p | IsTicket(r.headerTicket, p) ensures ParseTicket(r.headerTicket) == Ticket(r.headerTicket, p) {
      TicketSplitsOnce(r.headerTicket, p);
    }
    forall t, p | GivenLast(posts, RunOf(r), t) && IsTicket(t, p)
      ensures RunOf(r) in AfterPosts(posts) && AfterPosts(posts)[RunOf(r)] == t && ParseTicket(t) == Ticket(t, p)
    {
      LastPostWins(posts, RunOf(r), t);
      TicketSplitsOnce(t, p);
    }
    if RunOf(r) in AfterPosts(posts) {
      LastPostWins(posts, RunOf(r), AfterPosts(posts)[RunOf(r)]);
    }
  }
}
