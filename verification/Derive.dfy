/** The whole of `derive` over its sessions, the carry-forward attribution of its rows, and the guard
    that refuses to write a run twice: tools/metrics/derive.py. */
module Derive {
  import opened Options
  import opened Stamps
  import opened Reconcile
  import Seqs

  /** The run's own bounds, in whole seconds. */
  datatype Window = Window(lo: int, hi: int)

  datatype Session = Session(stem: string, launches: seq<Launch>, transcripts: seq<Run>)
  datatype Row = Row(session: string, claim: Claim)

  predicate InScope(w: Option<Window>, t: Option<Stamp>) {
    w.None? || (t.Some? && w.value.lo <= t.value.sec <= w.value.hi)
  }

  function KeepRuns(kids: seq<Run>, w: Option<Window>): seq<Run> {
    if kids == [] then []
    else (if InScope(w, kids[0].started) then [kids[0]] else []) + KeepRuns(kids[1..], w)
  }

  function ScopedRuns(s: Session, w: Option<Window>): seq<Run> {
    KeepRuns(SortBy(s.transcripts, (k: Run) => k.started), w)
  }

  function KeepLaunches(lchs: seq<Launch>, w: Option<Window>): seq<Launch> {
    if lchs == [] then []
    else (if InScope(w, lchs[0].requested) then [lchs[0]] else []) + KeepLaunches(lchs[1..], w)
  }

  function ClaimsOf(s: Session, w: Option<Window>): seq<Claim> {
    SessionClaims(KeepLaunches(s.launches, w), ScopedRuns(s, w))
  }

  function UnmatchedOf(s: Session, w: Option<Window>): seq<Launch> {
    SessionUnmatched(KeepLaunches(s.launches, w), ScopedRuns(s, w))
  }

  function RowsOf(stem: string, claims: seq<Claim>): seq<Row> {
    if claims == [] then [] else [Row(stem, claims[0])] + RowsOf(stem, claims[1..])
  }

  function DerivedRows(sessions: seq<Session>, w: Option<Window>): seq<Row> {
    if sessions == [] then []
    else RowsOf(sessions[0].stem, ClaimsOf(sessions[0], w)) + DerivedRows(sessions[1..], w)
  }

  function DerivedUnmatched(sessions: seq<Session>, w: Option<Window>): seq<Launch> {
    if sessions == [] then [] else UnmatchedOf(sessions[0], w) + DerivedUnmatched(sessions[1..], w)
  }

  method MakeRows(stem: string, claims: seq<Claim>) returns (rows: seq<Row>)
    ensures rows == RowsOf(stem, claims)
  {
    rows := [];
    var i := 0;
    while i < |claims|
      invariant i <= |claims|
      invariant RowsOf(stem, claims) == rows + RowsOf(stem, claims[i..])
    {
      assert claims[i..][1..] == claims[i + 1..];
      rows := rows + [Row(stem, claims[i])];
      i := i + 1;
    }
  }

  lemma {:induction false} KeptRuns(kids: seq<Run>, w: Option<Window>)
    ensures forall k :: k in KeepRuns(kids, w) <==> k in kids && InScope(w, k.started)
  {
    if kids != [] {
      KeptRuns(kids[1..], w);
      assert kids == [kids[0]] + kids[1..];
    }
  }

  lemma {:induction false} KeptLaunches(lchs: seq<Launch>, w: Option<Window>)
    ensures forall l :: l in KeepLaunches(lchs, w) <==> l in lchs && InScope(w, l.requested)
  {
    if lchs != [] {
      KeptLaunches(lchs[1..], w);
      assert lchs == [lchs[0]] + lchs[1..];
    }
  }

  /** Nothing is matched or reported from outside the window, its two bounds included, on either side, and
      nothing that is not the session's own. */
  lemma {:induction false} MatchedInScope(s: Session, w: Option<Window>)
    ensures forall c :: c in ClaimsOf(s, w) ==> c.launch in s.launches && c.run in s.transcripts
    ensures forall c :: c in ClaimsOf(s, w) && w.Some? ==>
              && c.launch.requested.Some? && w.value.lo <= c.launch.requested.value.sec <= w.value.hi
              && c.run.started.Some? && w.value.lo <= c.run.started.value.sec <= w.value.hi
    ensures forall l :: l in UnmatchedOf(s, w) ==> l in s.launches
    ensures forall l :: l in UnmatchedOf(s, w) && w.Some? ==>
              l.requested.Some? && w.value.lo <= l.requested.value.sec <= w.value.hi
  {
    var lchs, kids := KeepLaunches(s.launches, w), ScopedRuns(s, w);
    var key := (k: Run) => k.started;
    SessionClaimsSound(lchs, kids);
    SessionUnmatchedSound(lchs, kids);
    KeptLaunches(s.launches, w);
    KeptRuns(SortBy(s.transcripts, key), w);
    SortBySorts(s.transcripts, key);
    forall k | k in SortBy(s.transcripts, key) ensures k in s.transcripts {
      assert k in multiset(SortBy(s.transcripts, key));
    }
  }

  /** Both sides of a session are scoped to the same window before they are matched. */
  method MatchScoped(s: Session, w: Option<Window>) returns (claims: seq<Claim>, unmatched: seq<Launch>)
    ensures claims == ClaimsOf(s, w) && unmatched == UnmatchedOf(s, w)
    ensures forall c :: c in claims && w.Some? ==>
              && c.launch.requested.Some? && w.value.lo <= c.launch.requested.value.sec <= w.value.hi
              && c.run.started.Some? && w.value.lo <= c.run.started.value.sec <= w.value.hi
    ensures forall l :: l in unmatched && w.Some? ==>
              l.requested.Some? && w.value.lo <= l.requested.value.sec <= w.value.hi
  {
    claims, unmatched := MatchSession(KeepLaunches(s.launches, w), ScopedRuns(s, w));
    MatchedInScope(s, w);
  }

  method Derive(sessions: seq<Session>, w: Option<Window>) returns (rows: seq<Row>, unmatched: seq<Launch>)
    ensures rows == DerivedRows(sessions, w)
    ensures unmatched == DerivedUnmatched(sessions, w)
  {
    rows, unmatched := [], [];
    var rest := sessions;
    while rest != []
      invariant DerivedRows(sessions, w) == rows + DerivedRows(rest, w)
      invariant DerivedUnmatched(sessions, w) == unmatched + DerivedUnmatched(rest, w)
      decreases |rest|
    {
      var claims, gone := MatchScoped(rest[0], w);
      var more := MakeRows(rest[0].stem, claims);
      Seqs.Assoc(rows, more, DerivedRows(rest[1..], w));
      Seqs.Assoc(unmatched, gone, DerivedUnmatched(rest[1..], w));
      rows, unmatched, rest := rows + more, unmatched + gone, rest[1..];
    }
  }

  // ---------------------------------------------------------------------------------------
  // Every launch is on a row or reported
  // ---------------------------------------------------------------------------------------

  function RowLaunches(rows: seq<Row>): seq<Launch> {
    seq(|rows|, i requires 0 <= i < |rows| => rows[i].claim.launch)
  }

  /** How often a session has to account for a launch: as often as it lists it, if that is in the window, from
      its first second to its last, and a run of the session is. */
  function DueIn(s: Session, w: Option<Window>, l: Launch): nat {
    if && (w == None || (l.requested.Some? && w.value.lo <= l.requested.value.sec <= w.value.hi))
       && (exists k :: k in s.transcripts
             && (w == None || (k.started.Some? && w.value.lo <= k.started.value.sec <= w.value.hi)))
    then multiset(s.launches)[l] else 0
  }

  function Due(sessions: seq<Session>, w: Option<Window>, l: Launch): nat {
    if sessions == [] then 0 else DueIn(sessions[0], w, l) + Due(sessions[1..], w, l)
  }

  lemma {:induction false} KeptLaunchCount(lchs: seq<Launch>, w: Option<Window>, l: Launch)
    ensures multiset(KeepLaunches(lchs, w))[l] == if InScope(w, l.requested) then multiset(lchs)[l] else 0
  {
    if lchs != [] {
      KeptLaunchCount(lchs[1..], w, l);
      assert lchs == [lchs[0]] + lchs[1..];
    }
  }

  lemma {:induction false} ScopedRunsEmptyIff(s: Session, w: Option<Window>)
    ensures ScopedRuns(s, w) != [] <==> exists k :: k in s.transcripts && InScope(w, k.started)
  {
    var key := (k: Run) => k.started;
    var sorted := SortBy(s.transcripts, key);
    SortBySorts(s.transcripts, key);
    KeptRuns(sorted, w);
    forall k ensures k in sorted <==> k in s.transcripts {
      assert k in multiset(sorted) <==> k in multiset(s.transcripts);
    }
    if ScopedRuns(s, w) != [] {
      assert ScopedRuns(s, w)[0] in ScopedRuns(s, w);
    }
  }

  lemma {:induction false} DueIsScoped(s: Session, w: Option<Window>, l: Launch)
    ensures DueIn(s, w, l) == if ScopedRuns(s, w) == [] then 0 else multiset(KeepLaunches(s.launches, w))[l]
  {
    KeptLaunchCount(s.launches, w, l);
    ScopedRunsEmptyIff(s, w);
  }

  lemma {:induction false} MatchingAccounts(lchs: seq<Launch>, kids: seq<Run>, l: Launch)
    ensures multiset(LaunchesOf(SessionClaims(lchs, kids)))[l] + multiset(SessionUnmatched(lchs, kids))[l]
         == if kids == [] then 0 else multiset(lchs)[l]
  {
    if kids == [] {
      assert LaunchesOf([]) == [];
    } else {
      EveryLaunchAccountedIff(lchs, kids);
      CountsPart(lchs, LaunchesOf(SessionClaims(lchs, kids)), SessionUnmatched(lchs, kids), l);
    }
  }

  lemma {:induction false} SessionAccounts(s: Session, w: Option<Window>, l: Launch)
    ensures multiset(LaunchesOf(ClaimsOf(s, w)))[l] + multiset(UnmatchedOf(s, w))[l] == DueIn(s, w, l)
  {
    DueIsScoped(s, w, l);
    MatchingAccounts(KeepLaunches(s.launches, w), ScopedRuns(s, w), l);
  }

  lemma {:induction false} CountsPart<T>(all: seq<T>, a: seq<T>, b: seq<T>, x: T)
    requires multiset(all) == multiset(a) + multiset(b)
    ensures multiset(all)[x] == multiset(a)[x] + multiset(b)[x]
  {
  }

  lemma {:induction false} RowsKeepLaunches(stem: string, claims: seq<Claim>)
    ensures RowLaunches(RowsOf(stem, claims)) == LaunchesOf(claims)
  {
    if claims != [] {
      RowsKeepLaunches(stem, claims[1..]);
      assert RowLaunches(RowsOf(stem, claims)) == [claims[0].launch] + RowLaunches(RowsOf(stem, claims[1..]));
      assert LaunchesOf(claims) == [claims[0].launch] + LaunchesOf(claims[1..]);
    }
  }

  /** Every launch due is on a row or reported unmatched, as often as it is due, and no other is on either. */
  lemma {:induction false} DeriveAccounts(sessions: seq<Session>, w: Option<Window>, l: Launch)
    ensures multiset(RowLaunches(DerivedRows(sessions, w)))[l] + multiset(DerivedUnmatched(sessions, w))[l]
         == Due(sessions, w, l)
  {
    if sessions == [] {
      assert RowLaunches([]) == [];
    } else {
      var s, rest := sessions[0], sessions[1..];
      var rows := RowsOf(s.stem, ClaimsOf(s, w));
      DeriveAccounts(rest, w, l);
      SessionAccounts(s, w, l);
      RowsKeepLaunches(s.stem, ClaimsOf(s, w));
      RowLaunchesConcat(rows, DerivedRows(rest, w), l);
      CountsAdd(UnmatchedOf(s, w), DerivedUnmatched(rest, w), l);
    }
  }

  lemma {:induction false} CountsAdd<T>(a: seq<T>, b: seq<T>, x: T)
    ensures multiset(a + b)[x] == multiset(a)[x] + multiset(b)[x]
  {
  }

  lemma {:induction false} RowLaunchesConcat(a: seq<Row>, b: seq<Row>, l: Launch)
    ensures multiset(RowLaunches(a + b))[l] == multiset(RowLaunches(a))[l] + multiset(RowLaunches(b))[l]
  {
    assert RowLaunches(a + b) == RowLaunches(a) + RowLaunches(b);
  }

  lemma {:induction false} RowsOfStem(stem: string, claims: seq<Claim>)
    ensures forall r :: r in RowsOf(stem, claims) ==> r.session == stem && r.claim in claims
  {
    if claims != [] {
      RowsOfStem(stem, claims[1..]);
    }
  }

  /** Each row stands under the session whose launch and run it pairs, and both of them are in the window. */
  lemma {:induction false} RowIsItsSessions(sessions: seq<Session>, w: Option<Window>, r: Row)
    requires r in DerivedRows(sessions, w)
    ensures exists s :: s in sessions && s.stem == r.session && r.claim.launch in s.launches
                        && r.claim.run in s.transcripts
    ensures w.Some? ==>
              && r.claim.launch.requested.Some? && w.value.lo <= r.claim.launch.requested.value.sec <= w.value.hi
              && r.claim.run.started.Some? && w.value.lo <= r.claim.run.started.value.sec <= w.value.hi
  {
    var s := sessions[0];
    RowsOfStem(s.stem, ClaimsOf(s, w));
    MatchedInScope(s, w);
    if r !in RowsOf(s.stem, ClaimsOf(s, w)) {
      RowIsItsSessions(sessions[1..], w, r);
    }
  }

  // ---------------------------------------------------------------------------------------
  // Optimality for a session as it is really run
  // ---------------------------------------------------------------------------------------

  lemma {:induction false} KeepRunsSorted(kids: seq<Run>, w: Option<Window>)
    requires SortedStarts(kids)
    ensures SortedStarts(KeepRuns(kids, w))
  {
    if kids != [] {
      KeepRunsSorted(kids[1..], w);
      KeptRuns(kids[1..], w);
      var rest := KeepRuns(kids[1..], w);
      forall b | 0 <= b < |rest| && kids[0].started.Some? && rest[b].started.Some?
        ensures kids[0].started.value.sec <= rest[b].started.value.sec
      {
        assert rest[b] in rest;
        var j :| 0 <= j < |kids[1..]| && kids[1..][j] == rest[b];
        assert kids[j + 1] == rest[b];
      }
    }
  }

  lemma {:induction false} KeepRunsDistinct(kids: seq<Run>, w: Option<Window>)
    requires DistinctIds(kids)
    ensures DistinctIds(KeepRuns(kids, w))
  {
    if kids != [] {
      KeepRunsDistinct(kids[1..], w);
      KeptRuns(kids[1..], w);
      var rest := KeepRuns(kids[1..], w);
      forall b | 0 <= b < |rest| ensures kids[0].id != rest[b].id {
        assert rest[b] in rest;
        var j :| 0 <= j < |kids[1..]| && kids[1..][j] == rest[b];
        assert kids[j + 1] == rest[b];
      }
    }
  }

  lemma {:induction false} SameMultisetDistinct(a: seq<Run>, b: seq<Run>)
    requires multiset(a) == multiset(b) && DistinctIds(a)
    ensures DistinctIds(b)
  {
    forall i, j | 0 <= i < j < |b|
      ensures b[i].id != b[j].id
    {
      if b[i].id == b[j].id {
        assert b[i] in multiset(b) && b[j] in multiset(b);
        var x :| 0 <= x < |a| && a[x] == b[i];
        var y :| 0 <= y < |a| && a[y] == b[j];
        TwoPlaces(b, i, j);
        OnePlace(a, x);
      }
    }
  }

  lemma {:induction false} TwoPlaces<T>(s: seq<T>, i: nat, j: nat)
    requires i < j < |s| && s[i] == s[j]
    ensures multiset(s)[s[i]] >= 2
  {
    assert s == s[..j] + [s[j]] + s[j + 1..];
    assert s[i] in s[..j];
  }

  lemma {:induction false} OnePlace<T>(s: seq<T>, i: nat)
    requires i < |s| && forall j :: 0 <= j < |s| && j != i ==> s[j] != s[i]
    ensures multiset(s)[s[i]] == 1
  {
    assert s == s[..i] + [s[i]] + s[i + 1..];
    assert s[i] !in s[..i] && s[i] !in s[i + 1..];
  }

  /** With distinct transcript ids and launches in request order, the guesses of a session are as many
      as any injective assignment of the runs left over by the exact ids could make. The runs themselves
      may be given in any order: the session sorts them. */
  lemma {:induction false} SessionGuessesOptimal(s: Session, w: Option<Window>, m: map<nat, nat>)
    requires DistinctIds(s.transcripts) && SortedRequests(Unnamed(KeepLaunches(s.launches, w)))
    requires Assignment(m, Unnamed(KeepLaunches(s.launches, w)), 0, ScopedRuns(s, w),
                        ExactUsed(KeepLaunches(s.launches, w), ScopedRuns(s, w), {}))
    ensures |ExactClaims(KeepLaunches(s.launches, w), ScopedRuns(s, w), {})| + |m| <= |ClaimsOf(s, w)|
  {
    ScopedRunsSorted(s, w);
    var kids, lchs := ScopedRuns(s, w), KeepLaunches(s.launches, w);
    var used := ExactUsed(lchs, kids, {});
    GreedyIsOptimal(Unnamed(lchs), 0, kids, used, m);
    if kids == [] {
      NoRunsNoClaims(lchs, {});
      NoRunsNoGuesses(Unnamed(lchs), 0, used);
    }
  }

  lemma {:induction false} ScopedRunsSorted(s: Session, w: Option<Window>)
    requires DistinctIds(s.transcripts)
    ensures DistinctIds(ScopedRuns(s, w)) && SortedStarts(ScopedRuns(s, w))
  {
    var key := (k: Run) => k.started;
    var all := SortBy(s.transcripts, key);
    SortBySorts(s.transcripts, key);
    SameMultisetDistinct(s.transcripts, all);
    forall a, b | 0 <= a < b < |all| && all[a].started.Some? && all[b].started.Some?
      ensures all[a].started.value.sec <= all[b].started.value.sec
    {
      assert NotAfter(key(all[a]), key(all[b]));
    }
    KeepRunsSorted(all, w);
    KeepRunsDistinct(all, w);
  }

  lemma {:induction false} NoRunsNoGuesses(pending: seq<Launch>, i: nat, used: set<string>)
    requires i <= |pending|
    ensures GuessClaims(pending, i, [], used) == []
    decreases |pending| - i
  {
    if i < |pending| {
      NoRunsNoGuesses(pending, i + 1, used);
    }
  }

  lemma {:induction false} NoRunsNoClaims(lchs: seq<Launch>, used: set<string>)
    ensures ExactClaims(lchs, [], used) == []
  {
    if lchs != [] {
      NoRunsNoClaims(lchs[1..], used);
    }
  }

  // ---------------------------------------------------------------------------------------
  // The duplicate guard
  // ---------------------------------------------------------------------------------------

  function Count(rows: seq<Row>, id: string): nat {
    if rows == [] then 0 else (if rows[0].claim.run.id == id then 1 else 0) + Count(rows[1..], id)
  }

  /** The ids `main` refuses to write: non-empty and on more than one row. */
  function Dupes(rows: seq<Row>): set<string> {
    set r | r in rows && r.claim.run.id != "" && Count(rows, r.claim.run.id) > 1 :: r.claim.run.id
  }

  predicate ClaimedBy(s: Session, w: Option<Window>, id: string) {
    exists c :: c in ClaimsOf(s, w) && c.run.id == id
  }

  function SessionsClaiming(sessions: seq<Session>, w: Option<Window>, id: string): nat {
    if sessions == [] then 0
    else (if ClaimedBy(sessions[0], w, id) then 1 else 0) + SessionsClaiming(sessions[1..], w, id)
  }

  lemma {:induction false} CountConcat(a: seq<Row>, b: seq<Row>, id: string)
    ensures Count(a + b, id) == Count(a, id) + Count(b, id)
  {
    if a == [] {
      assert a + b == b;
    } else {
      assert (a + b)[1..] == a[1..] + b;
      CountConcat(a[1..], b, id);
    }
  }

  lemma {:induction false} CountedIsThere(rows: seq<Row>, id: string)
    ensures Count(rows, id) > 0 <==> exists r :: r in rows && r.claim.run.id == id
  {
    if rows != [] {
      CountedIsThere(rows[1..], id);
      assert rows == [rows[0]] + rows[1..];
    }
  }

  lemma {:induction false} CountInSession(stem: string, claims: seq<Claim>, id: string)
    requires RunsDistinct(claims)
    ensures Count(RowsOf(stem, claims), id) == if exists c :: c in claims && c.run.id == id then 1 else 0
  {
    if claims != [] {
      CountInSession(stem, claims[1..], id);
      assert claims == [claims[0]] + claims[1..];
      assert RowsOf(stem, claims)[1..] == RowsOf(stem, claims[1..]);
      if claims[0].run.id == id {
        assert claims[0] in claims;
        assert forall c :: c in claims[1..] ==> c.run.id != id;
      }
    }
  }

  lemma {:induction false} CountIsSessions(sessions: seq<Session>, w: Option<Window>, id: string)
    ensures Count(DerivedRows(sessions, w), id) == SessionsClaiming(sessions, w, id)
  {
    if sessions != [] {
      CountIsSessions(sessions[1..], w, id);
      var s := sessions[0];
      SessionClaimsSound(KeepLaunches(s.launches, w), ScopedRuns(s, w));
      CountInSession(s.stem, ClaimsOf(s, w), id);
      CountConcat(RowsOf(s.stem, ClaimsOf(s, w)), DerivedRows(sessions[1..], w), id);
    }
  }

  /** The guard refuses an id exactly when more than one session claims that run: nothing inside one
      session, whatever its launches look like, can trip it. */
  lemma {:induction false} GuardFiresIff(sessions: seq<Session>, w: Option<Window>, id: string)
    ensures id in Dupes(DerivedRows(sessions, w)) <==> id != "" && SessionsClaiming(sessions, w, id) > 1
  {
    CountIsSessions(sessions, w, id);
    CountedIsThere(DerivedRows(sessions, w), id);
  }

  // ---------------------------------------------------------------------------------------
  // Carry-forward attribution
  // ---------------------------------------------------------------------------------------

  datatype Via = Label | CarryForward
  datatype Attributed = Attributed(row: Row, via: Via)

  function KeyOf(r: Row): Option<string> {
    r.claim.launch.key
  }

  /** The ticket key in force at row `i`: its own, or the nearest one before it. */
  function CarriedKey(rows: seq<Row>, i: nat): Option<string>
    requires i < |rows|
  {
    if KeyOf(rows[i]).Some? then KeyOf(rows[i]) else if i == 0 then None else CarriedKey(rows, i - 1)
  }

  function Kept(rows: seq<Row>, n: nat, ticket: string): seq<Attributed>
    requires n <= |rows|
  {
    if n == 0 then []
    else if CarriedKey(rows, n - 1) != Some(ticket) then Kept(rows, n - 1, ticket)
    else Kept(rows, n - 1, ticket) + [Attributed(rows[n - 1], if KeyOf(rows[n - 1]).Some? then Label else CarryForward)]
  }

  function Unattributed(rows: seq<Row>, n: nat): nat
    requires n <= |rows|
  {
    if n == 0 then 0 else Unattributed(rows, n - 1) + if CarriedKey(rows, n - 1).None? then 1 else 0
  }

  function ByStart(rows: seq<Row>): seq<Row> {
    SortBy(rows, (r: Row) => r.claim.run.started)
  }

  /** Rows without a start stamp first, then by the start of their run. */
  ghost predicate InStartOrder(rows: seq<Row>) {
    forall a, b :: 0 <= a < b < |rows| ==>
      var s, t := rows[a].claim.run.started, rows[b].claim.run.started;
      s == None || (t.Some? && (s.value.sec < t.value.sec
                                || (s.value.sec == t.value.sec && s.value.frac <= t.value.frac)))
  }

  lemma {:induction false} ByStartSorts(rows: seq<Row>)
    ensures multiset(ByStart(rows)) == multiset(rows) && InStartOrder(ByStart(rows))
  {
    var key := (r: Row) => r.claim.run.started;
    SortBySorts(rows, key);
    forall a, b | 0 <= a < b < |ByStart(rows)|
      ensures var s, t := ByStart(rows)[a].claim.run.started, ByStart(rows)[b].claim.run.started;
              s == None || (t.Some? && (s.value.sec < t.value.sec
                                        || (s.value.sec == t.value.sec && s.value.frac <= t.value.frac)))
    {
      SortByInTime(rows, key, a, b);
    }
  }

  method Attribute(rows: seq<Row>, ticket: string) returns (out: seq<Attributed>, unattributed: nat)
    ensures out == Kept(ByStart(rows), |ByStart(rows)|, ticket)
    ensures unattributed == Unattributed(ByStart(rows), |ByStart(rows)|)
    ensures multiset(ByStart(rows)) == multiset(rows) && InStartOrder(ByStart(rows))
  {
    ByStartSorts(rows);
    var sorted := ByStart(rows);
    var cur: Option<string> := None;
    out, unattributed := [], 0;
    var i := 0;
    while i < |sorted|
      invariant i <= |sorted|
      invariant cur == if i == 0 then None else CarriedKey(sorted, i - 1)
      invariant out == Kept(sorted, i, ticket) && unattributed == Unattributed(sorted, i)
    {
      var found := KeyOf(sorted[i]);
      if found.Some? {
        cur := found;
      }
      if cur.None? {
        unattributed := unattributed + 1;
      } else if cur == Some(ticket) {
        out := out + [Attributed(sorted[i], if found.Some? then Label else CarryForward)];
      }
      i := i + 1;
    }
  }

  /** Row `j` is the nearest one at or before row `i` whose label carries a key. */
  predicate NearestKeyed(rows: seq<Row>, i: nat, j: int)
    requires i < |rows|
  {
    0 <= j <= i && KeyOf(rows[j]).Some? && forall k :: j < k <= i ==> KeyOf(rows[k]).None?
  }

  /** Row `i` belongs to `t` exactly when the nearest keyed label at or before it carries `t`. */
  lemma {:induction false} CarriedKeyIsNearest(rows: seq<Row>, i: nat, t: string)
    requires i < |rows|
    ensures CarriedKey(rows, i) == Some(t) <==> exists j :: NearestKeyed(rows, i, j) && KeyOf(rows[j]) == Some(t)
  {
    if KeyOf(rows[i]).Some? {
      assert NearestKeyed(rows, i, i);
    } else if i > 0 {
      CarriedKeyIsNearest(rows, i - 1, t);
      forall j ensures NearestKeyed(rows, i, j) <==> NearestKeyed(rows, i - 1, j) {
      }
    }
  }

  /** Row `i` is of the ticket: by its own label, or carried forward from the nearest keyed label before it. */
  ghost predicate OfTicket(rows: seq<Row>, i: nat, ticket: string, via: Via)
    requires i < |rows|
  {
    if rows[i].claim.launch.key.Some? then rows[i].claim.launch.key.value == ticket && via == Label
    else
      && via == CarryForward
      && exists j :: 0 <= j < i && rows[j].claim.launch.key == Some(ticket)
                     && forall k :: j < k <= i ==> rows[k].claim.launch.key == None
  }

  /** The places of the rows kept. */
  function KeptPlaces(rows: seq<Row>, n: nat, ticket: string): seq<nat>
    requires n <= |rows|
  {
    if n == 0 then []
    else KeptPlaces(rows, n - 1, ticket) + (if CarriedKey(rows, n - 1) == Some(ticket) then [n - 1] else [])
  }

  lemma {:induction false} PlacesCover(rows: seq<Row>, n: nat, ticket: string)
    requires n <= |rows|
    ensures forall i :: 0 <= i < n && CarriedKey(rows, i) == Some(ticket) ==> i in KeptPlaces(rows, n, ticket)
  {
    if n > 0 {
      PlacesCover(rows, n - 1, ticket);
    }
  }

  lemma {:induction false} PlacesHold(rows: seq<Row>, n: nat, ticket: string)
    requires n <= |rows|
    ensures KeptAt(rows, n, ticket, Kept(rows, n, ticket), KeptPlaces(rows, n, ticket))
  {
    if n > 0 {
      PlacesHold(rows, n - 1, ticket);
      var kept, places := Kept(rows, n - 1, ticket), KeptPlaces(rows, n - 1, ticket);
      if CarriedKey(rows, n - 1) == Some(ticket) {
        KeptIff(rows, n - 1, ticket);
        KeptAtStep(rows, n, ticket, kept, places, if KeyOf(rows[n - 1]).Some? then Label else CarryForward);
      } else {
        KeptAtMore(rows, n, ticket, kept, places);
        assert places + [] == places;
      }
    }
  }

  /** The rows kept are exactly those of the ticket, in their order, each with how it came by it. */
  lemma {:induction false} KeptExactly(rows: seq<Row>, n: nat, ticket: string) returns (places: seq<nat>)
    requires n <= |rows|
    ensures KeptAt(rows, n, ticket, Kept(rows, n, ticket), places)
    ensures forall i, via :: 0 <= i < n && OfTicket(rows, i, ticket, via) ==> i in places
  {
    places := KeptPlaces(rows, n, ticket);
    PlacesHold(rows, n, ticket);
    PlacesCover(rows, n, ticket);
    forall i, via | 0 <= i < n && OfTicket(rows, i, ticket, via) ensures i in places {
      KeptIff(rows, i, ticket);
    }
  }

  /** Row by row, where in the list what is kept comes from: `places`, in order. */
  ghost predicate KeptAt(rows: seq<Row>, n: nat, ticket: string, kept: seq<Attributed>, places: seq<nat>)
    requires n <= |rows|
  {
    && |places| == |kept| && (forall x :: 0 <= x < |places| ==> places[x] < n)
    && (forall x, y :: 0 <= x < y < |places| ==> places[x] < places[y])
    && forall x :: 0 <= x < |places| ==>
         kept[x].row == rows[places[x]] && OfTicket(rows, places[x], ticket, kept[x].via)
  }

  lemma {:induction false} KeptAtMore(rows: seq<Row>, n: nat, ticket: string, kept: seq<Attributed>, places: seq<nat>)
    requires 0 < n <= |rows| && KeptAt(rows, n - 1, ticket, kept, places)
    ensures KeptAt(rows, n, ticket, kept, places)
  {
  }

  lemma {:induction false} KeptAtStep(rows: seq<Row>, n: nat, ticket: string, kept: seq<Attributed>, places: seq<nat>,
          via: Via)
    requires 0 < n <= |rows| && KeptAt(rows, n - 1, ticket, kept, places) && OfTicket(rows, n - 1, ticket, via)
    ensures KeptAt(rows, n, ticket, kept + [Attributed(rows[n - 1], via)], places + [n - 1])
  {
  }

  lemma {:induction false} KeptIff(rows: seq<Row>, i: nat, ticket: string)
    requires i < |rows|
    ensures CarriedKey(rows, i) == Some(ticket)
        ==> OfTicket(rows, i, ticket, if KeyOf(rows[i]).Some? then Label else CarryForward)
    ensures (exists via :: OfTicket(rows, i, ticket, via)) ==> CarriedKey(rows, i) == Some(ticket)
  {
    CarriedKeyIsNearest(rows, i, ticket);
    if j :| NearestKeyed(rows, i, j) && KeyOf(rows[j]) == Some(ticket) {
      assert KeyOf(rows[i]).Some? ==> j == i;
    }
    if KeyOf(rows[i]).None? {
      forall j | 0 <= j < i && rows[j].claim.launch.key == Some(ticket)
                 && forall k :: j < k <= i ==> rows[k].claim.launch.key == None
        ensures NearestKeyed(rows, i, j)
      {
      }
    }
  }

  /** The unattributed rows are exactly the keyless prefix. */
  lemma {:induction false} UnattributedIsKeylessPrefix(rows: seq<Row>, n: nat)
    requires n <= |rows|
    ensures Unattributed(rows, n) <= n
    ensures forall i :: 0 <= i < n ==> (CarriedKey(rows, i).None? <==> i < Unattributed(rows, n))
    ensures forall i :: 0 <= i < Unattributed(rows, n) ==> KeyOf(rows[i]).None?
    ensures Unattributed(rows, n) < n ==> KeyOf(rows[Unattributed(rows, n)]).Some?
  {
    if n > 0 {
      UnattributedIsKeylessPrefix(rows, n - 1);
    }
  }

  /** Rows of every ticket in a list of distinct tickets, added up. */
  function KeptTotal(rows: seq<Row>, n: nat, tickets: seq<string>): nat
    requires n <= |rows|
  {
    if tickets == [] then 0 else |Kept(rows, n, tickets[0])| + KeptTotal(rows, n, tickets[1..])
  }

  function Occurs(tickets: seq<string>, t: Option<string>): nat {
    if tickets == [] then 0 else (if t == Some(tickets[0]) then 1 else 0) + Occurs(tickets[1..], t)
  }

  lemma {:induction false} OccursOnce(tickets: seq<string>, t: Option<string>)
    requires forall a, b :: 0 <= a < b < |tickets| ==> tickets[a] != tickets[b]
    ensures Occurs(tickets, t) == if t.Some? && t.value in tickets then 1 else 0
  {
    if tickets != [] {
      OccursOnce(tickets[1..], t);
    }
  }

  lemma {:induction false} KeptTotalStep(rows: seq<Row>, n: nat, tickets: seq<string>)
    requires 0 < n <= |rows|
    ensures KeptTotal(rows, n, tickets) == KeptTotal(rows, n - 1, tickets) + Occurs(tickets, CarriedKey(rows, n - 1))
  {
    if tickets != [] {
      KeptTotalStep(rows, n, tickets[1..]);
    }
  }

  /** Attribution partitions the rows: over all tickets whose key appears anywhere, the kept rows and
      the unattributed ones add up to all of them. */
  lemma {:induction false} AttributionPartitions(rows: seq<Row>, n: nat, tickets: seq<string>)
    requires n <= |rows|
    requires forall a, b :: 0 <= a < b < |tickets| ==> tickets[a] != tickets[b]
    requires forall i :: 0 <= i < |rows| && KeyOf(rows[i]).Some? ==> KeyOf(rows[i]).value in tickets
    ensures KeptTotal(rows, n, tickets) + Unattributed(rows, n) == n
  {
    if n == 0 {
      NothingKept(rows, tickets);
    } else {
      AttributionPartitions(rows, n - 1, tickets);
      KeptTotalStep(rows, n, tickets);
      OccursOnce(tickets, CarriedKey(rows, n - 1));
      CarriedKeyListed(rows, n - 1, tickets);
    }
  }

  lemma {:induction false} NothingKept(rows: seq<Row>, tickets: seq<string>)
    ensures KeptTotal(rows, 0, tickets) == 0
  {
    if tickets != [] {
      NothingKept(rows, tickets[1..]);
    }
  }

  lemma {:induction false} CarriedKeyListed(rows: seq<Row>, i: nat, tickets: seq<string>)
    requires i < |rows|
    requires forall i :: 0 <= i < |rows| && KeyOf(rows[i]).Some? ==> KeyOf(rows[i]).value in tickets
    ensures CarriedKey(rows, i).Some? ==> CarriedKey(rows, i).value in tickets
  {
    if KeyOf(rows[i]).None? && i > 0 {
      CarriedKeyListed(rows, i - 1, tickets);
    }
  }

  // ---------------------------------------------------------------------------------------
  // Guard after attribution: what `main` really checks
  // ---------------------------------------------------------------------------------------

  function PlainRows(out: seq<Attributed>): seq<Row> {
    if out == [] then [] else PlainRows(out[..|out| - 1]) + [out[|out| - 1].row]
  }

  lemma {:induction false} CountAppend(a: seq<Row>, r: Row, id: string)
    ensures Count(a + [r], id) == Count(a, id) + if r.claim.run.id == id then 1 else 0
  {
    CountConcat(a, [r], id);
  }

  lemma {:induction false} KeptWithin(rows: seq<Row>, n: nat, ticket: string, id: string)
    requires n <= |rows|
    ensures Count(PlainRows(Kept(rows, n, ticket)), id) <= Count(rows[..n], id)
  {
    if n > 0 {
      KeptWithin(rows, n - 1, ticket, id);
      var last := rows[n - 1];
      assert rows[..n] == rows[..n - 1] + [last];
      CountAppend(rows[..n - 1], last, id);
      if CarriedKey(rows, n - 1) == Some(ticket) {
        var before, now := Kept(rows, n - 1, ticket), Kept(rows, n, ticket);
        assert now[..|now| - 1] == before;
        CountAppend(PlainRows(before), last, id);
      }
    }
  }

  lemma {:induction false} CountInsert(x: Row, xs: seq<Row>, key: Row -> Option<Stamp>, id: string)
    ensures Count(Insert(x, xs, key), id) == Count([x] + xs, id)
  {
    if xs != [] && !NotAfter(key(x), key(xs[0])) {
      CountInsert(x, xs[1..], key, id);
      CountConcat([x], xs[1..], id);
      CountConcat([x], xs, id);
    }
  }

  lemma {:induction false} CountSorted(rows: seq<Row>, key: Row -> Option<Stamp>, id: string)
    ensures Count(SortBy(rows, key), id) == Count(rows, id)
  {
    if rows != [] {
      CountSorted(rows[1..], key, id);
      CountInsert(rows[0], SortBy(rows[1..], key), key, id);
    }
  }

  /** Attribution never creates a duplicate: an id the guard refuses after it was claimed by two
      sessions before it. So a file derived from one session is always written. */
  lemma {:induction false} AttributionAddsNoDuplicate(sessions: seq<Session>, w: Option<Window>, ticket: string,
          id: string)
    requires var rows := ByStart(DerivedRows(sessions, w)); id in Dupes(PlainRows(Kept(rows, |rows|, ticket)))
    ensures SessionsClaiming(sessions, w, id) > 1
  {
    var rows := DerivedRows(sessions, w);
    var sorted := ByStart(rows);
    CountSorted(rows, (r: Row) => r.claim.run.started, id);
    KeptWithin(sorted, |sorted|, ticket, id);
    assert sorted[..|sorted|] == sorted;
    CountIsSessions(sessions, w, id);
  }
}
