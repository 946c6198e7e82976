/** Pairing orchestrator launches with harness runs: `derive` in tools/metrics/derive.py.

    A launch is what the orchestrator's transcript says it asked for; a run is one subagent
    transcript. Exact ids are settled first, then a bounded time window guesses for the rest. */
module Reconcile {
  import opened Options
  import opened Stamps
  import Seqs

  /** Seconds after a request within which its subagent must have started. */
  const MATCH_WINDOW_S := 120

  /** `key` is the first ticket key in the launch's free-text label. A stamp is `None` when it is
      missing or does not parse. */
  datatype Launch = Launch(stage: Option<string>, key: Option<string>, requested: Option<Stamp>,
          agentId: Option<string>)
  datatype Run = Run(id: string, started: Option<Stamp>)
  datatype Claim = Claim(launch: Launch, run: Run)

  predicate Named(l: Launch) {
    l.agentId.Some? && l.agentId.value != ""
  }

  predicate WithinMatchWindow(requested: Option<Stamp>, started: Option<Stamp>) {
    var delta := Seconds(requested, started);
    delta.Some? && 0 <= delta.value <= MATCH_WINDOW_S
  }

  // ---------------------------------------------------------------------------------------
  // Specification of the two passes
  // ---------------------------------------------------------------------------------------

  /** The dictionary lookup `by_id.get(id)`: with repeated ids the last run wins. */
  function ById(kids: seq<Run>, id: string): (r: Option<nat>)
    ensures r.Some? ==> r.value < |kids| && kids[r.value].id == id
    ensures r.Some? ==> forall k :: r.value < k < |kids| ==> kids[k].id != id
    ensures r.None? <==> forall k :: 0 <= k < |kids| ==> kids[k].id != id
  {
    if kids == [] then None
    else if kids[|kids| - 1].id == id then Some(|kids| - 1)
    else ById(kids[..|kids| - 1], id)
  }

  predicate TakesExact(l: Launch, kids: seq<Run>, used: set<string>) {
    Named(l) && ById(kids, l.agentId.value).Some? && l.agentId.value !in used
  }

  function ExactUsed(lchs: seq<Launch>, kids: seq<Run>, used: set<string>): set<string> {
    if lchs == [] then used
    else if TakesExact(lchs[0], kids, used) then ExactUsed(lchs[1..], kids, used + {lchs[0].agentId.value})
    else ExactUsed(lchs[1..], kids, used)
  }

  function ExactClaims(lchs: seq<Launch>, kids: seq<Run>, used: set<string>): seq<Claim> {
    if lchs == [] then []
    else if TakesExact(lchs[0], kids, used) then
      [Claim(lchs[0], kids[ById(kids, lchs[0].agentId.value).value])]
      + ExactClaims(lchs[1..], kids, used + {lchs[0].agentId.value})
    else ExactClaims(lchs[1..], kids, used)
  }

  /** Launches that name a run which is not there, or which an earlier launch already took. */
  function ExactGone(lchs: seq<Launch>, kids: seq<Run>, used: set<string>): seq<Launch> {
    if lchs == [] then []
    else if TakesExact(lchs[0], kids, used) then ExactGone(lchs[1..], kids, used + {lchs[0].agentId.value})
    else (if Named(lchs[0]) then [lchs[0]] else []) + ExactGone(lchs[1..], kids, used)
  }

  /** Launches that name no run, in transcript order: all that the second pass may guess for. */
  function Unnamed(lchs: seq<Launch>): seq<Launch> {
    if lchs == [] then []
    else (if Named(lchs[0]) then [] else [lchs[0]]) + Unnamed(lchs[1..])
  }

  predicate Free(kids: seq<Run>, k: nat, used: set<string>, requested: Option<Stamp>)
    requires k < |kids|
  {
    kids[k].id !in used && WithinMatchWindow(requested, kids[k].started)
  }

  /** The first run, in list order, that is unused and starts inside the window. */
  function FirstFree(kids: seq<Run>, from: nat, used: set<string>, requested: Option<Stamp>): (r: Option<nat>)
    requires from <= |kids|
    ensures r.Some? ==> from <= r.value < |kids| && Free(kids, r.value, used, requested)
    ensures r.Some? ==> forall k :: from <= k < r.value ==> !Free(kids, k, used, requested)
    ensures r.None? ==> forall k :: from <= k < |kids| ==> !Free(kids, k, used, requested)
    decreases |kids| - from
  {
    if from == |kids| then None
    else if Free(kids, from, used, requested) then Some(from)
    else FirstFree(kids, from + 1, used, requested)
  }

  function GuessClaims(pending: seq<Launch>, i: nat, kids: seq<Run>, used: set<string>): seq<Claim>
    requires i <= |pending|
    decreases |pending| - i
  {
    if i == |pending| then []
    else
      match FirstFree(kids, 0, used, pending[i].requested)
      case None => GuessClaims(pending, i + 1, kids, used)
      case Some(k) => [Claim(pending[i], kids[k])] + GuessClaims(pending, i + 1, kids, used + {kids[k].id})
  }

  function GuessGone(pending: seq<Launch>, i: nat, kids: seq<Run>, used: set<string>): seq<Launch>
    requires i <= |pending|
    decreases |pending| - i
  {
    if i == |pending| then []
    else
      match FirstFree(kids, 0, used, pending[i].requested)
      case None => [pending[i]] + GuessGone(pending, i + 1, kids, used)
      case Some(k) => GuessGone(pending, i + 1, kids, used + {kids[k].id})
  }

  function SessionClaims(lchs: seq<Launch>, kids: seq<Run>): seq<Claim> {
    if kids == [] then []
    else ExactClaims(lchs, kids, {}) + GuessClaims(Unnamed(lchs), 0, kids, ExactUsed(lchs, kids, {}))
  }

  function SessionUnmatched(lchs: seq<Launch>, kids: seq<Run>): seq<Launch> {
    if kids == [] then []
    else ExactGone(lchs, kids, {}) + GuessGone(Unnamed(lchs), 0, kids, ExactUsed(lchs, kids, {}))
  }

  // ---------------------------------------------------------------------------------------
  // The loops
  // ---------------------------------------------------------------------------------------

  /** The generator inside `next(...)`: scan the runs in start order for the first free one. */
  method SearchFree(kids: seq<Run>, used: set<string>, requested: Option<Stamp>) returns (found: Option<nat>)
    ensures found == FirstFree(kids, 0, used, requested)
  {
    var k := 0;
    while k < |kids|
      invariant k <= |kids|
      invariant FirstFree(kids, 0, used, requested) == FirstFree(kids, k, used, requested)
    {
      if kids[k].id !in used && WithinMatchWindow(requested, kids[k].started) {
        return Some(k);
      }
      k := k + 1;
    }
    return None;
  }

  /** Pass 1: exact ids only. Launches that name nothing wait for pass 2. */
  method PassExact(lchs: seq<Launch>, kids: seq<Run>)
      returns (claims: seq<Claim>, unmatched: seq<Launch>, pending: seq<Launch>, used: set<string>)
    ensures claims == ExactClaims(lchs, kids, {}) && unmatched == ExactGone(lchs, kids, {})
    ensures pending == Unnamed(lchs) && used == ExactUsed(lchs, kids, {})
  {
    claims, unmatched, pending, used := [], [], [], {};
    var rest := lchs;
    while rest != []
      invariant ExactClaims(lchs, kids, {}) == claims + ExactClaims(rest, kids, used)
      invariant ExactGone(lchs, kids, {}) == unmatched + ExactGone(rest, kids, used)
      invariant ExactUsed(lchs, kids, {}) == ExactUsed(rest, kids, used)
      invariant Unnamed(lchs) == pending + Unnamed(rest)
      decreases |rest|
    {
      var lch, later := rest[0], rest[1..];
      if !Named(lch) {
        Seqs.Assoc(pending, [lch], Unnamed(later));
        pending := pending + [lch];
      } else {
        var kid := ById(kids, lch.agentId.value);
        if kid.Some? && kids[kid.value].id !in used {
          used := used + {kids[kid.value].id};
          Seqs.Assoc(claims, [Claim(lch, kids[kid.value])], ExactClaims(later, kids, used));
          claims := claims + [Claim(lch, kids[kid.value])];
        } else {
          Seqs.Assoc(unmatched, [lch], ExactGone(later, kids, used));
          unmatched := unmatched + [lch];
        }
      }
      rest := later;
    }
  }

  /** Pass 2: the time fallback, on what pass 1 left. */
  method PassGuess(pending: seq<Launch>, kids: seq<Run>, taken: set<string>)
      returns (claims: seq<Claim>, unmatched: seq<Launch>)
    ensures claims == GuessClaims(pending, 0, kids, taken) && unmatched == GuessGone(pending, 0, kids, taken)
  {
    claims, unmatched := [], [];
    var used := taken;
    var i := 0;
    while i < |pending|
      invariant i <= |pending|
      invariant GuessClaims(pending, 0, kids, taken) == claims + GuessClaims(pending, i, kids, used)
      invariant GuessGone(pending, 0, kids, taken) == unmatched + GuessGone(pending, i, kids, used)
    {
      var kid := SearchFree(kids, used, pending[i].requested);
      if kid.None? {
        Seqs.Assoc(unmatched, [pending[i]], GuessGone(pending, i + 1, kids, used));
        unmatched := unmatched + [pending[i]];
      } else {
        used := used + {kids[kid.value].id};
        Seqs.Assoc(claims, [Claim(pending[i], kids[kid.value])], GuessClaims(pending, i + 1, kids, used));
        claims := claims + [Claim(pending[i], kids[kid.value])];
      }
      i := i + 1;
    }
  }

  /** One session of `derive`, on the launches and runs already scoped to the run's window. */
  method MatchSession(lchs: seq<Launch>, kids: seq<Run>) returns (claims: seq<Claim>, unmatched: seq<Launch>)
    ensures claims == SessionClaims(lchs, kids)
    ensures unmatched == SessionUnmatched(lchs, kids)
    ensures forall c :: c in claims && (c.launch.agentId == None || c.launch.agentId == Some("")) ==>
              && c.launch.requested.Some? && c.run.started.Some?
              && 0 <= c.run.started.value.sec - c.launch.requested.value.sec <= 120
    ensures forall l, k :: l in unmatched && k in kids && (l.agentId == None || l.agentId == Some(""))
              && l.requested.Some? && k.started.Some?
              && 0 <= k.started.value.sec - l.requested.value.sec <= 120
              ==> exists c :: c in claims && c.run.id == k.id
  {
    SessionClaimsSound(lchs, kids);
    LeftUnmatched(lchs, kids);
    claims, unmatched := [], [];
    if kids == [] {
      return;
    }
    var pending, used;
    claims, unmatched, pending, used := PassExact(lchs, kids);
    var guessed, gone := PassGuess(pending, kids, used);
    claims, unmatched := claims + guessed, unmatched + gone;
  }

  // ---------------------------------------------------------------------------------------
  // Every launch is accounted for, and no run is claimed twice
  // ---------------------------------------------------------------------------------------

  function LaunchesOf(claims: seq<Claim>): seq<Launch> {
    seq(|claims|, i requires 0 <= i < |claims| => claims[i].launch)
  }

  ghost predicate RunsDistinct(claims: seq<Claim>) {
    forall a, b :: 0 <= a < b < |claims| ==> claims[a].run.id != claims[b].run.id
  }

  lemma {:induction false} LaunchesOfConcat(a: seq<Claim>, b: seq<Claim>)
    ensures LaunchesOf(a + b) == LaunchesOf(a) + LaunchesOf(b)
  {
  }

  lemma {:induction false} ExactAccounts(lchs: seq<Launch>, kids: seq<Run>, used: set<string>)
    ensures multiset(lchs)
         == multiset(LaunchesOf(ExactClaims(lchs, kids, used)))
          + multiset(ExactGone(lchs, kids, used)) + multiset(Unnamed(lchs))
  {
    if lchs != [] {
      assert lchs == [lchs[0]] + lchs[1..];
      if TakesExact(lchs[0], kids, used) {
        var used' := used + {lchs[0].agentId.value};
        ExactAccounts(lchs[1..], kids, used');
        var c := Claim(lchs[0], kids[ById(kids, lchs[0].agentId.value).value]);
        LaunchesOfConcat([c], ExactClaims(lchs[1..], kids, used'));
        assert LaunchesOf([c]) == [lchs[0]];
      } else {
        ExactAccounts(lchs[1..], kids, used);
      }
    }
  }

  lemma {:induction false} GuessAccounts(pending: seq<Launch>, i: nat, kids: seq<Run>, used: set<string>)
    requires i <= |pending|
    ensures multiset(pending[i..])
         == multiset(LaunchesOf(GuessClaims(pending, i, kids, used))) + multiset(GuessGone(pending, i, kids, used))
    decreases |pending| - i
  {
    if i < |pending| {
      assert pending[i..] == [pending[i]] + pending[i + 1..];
      match FirstFree(kids, 0, used, pending[i].requested)
      case None => GuessAccounts(pending, i + 1, kids, used);
      case Some(k) =>
        var used' := used + {kids[k].id};
        GuessAccounts(pending, i + 1, kids, used');
        var c := Claim(pending[i], kids[k]);
        LaunchesOfConcat([c], GuessClaims(pending, i + 1, kids, used'));
        assert LaunchesOf([c]) == [pending[i]];
    }
  }

  /** A launch of the session ends up claimed or unmatched, exactly once, if and only if the session
      still has a run in scope (or had no launch). A session whose runs were all scoped out is skipped
      before either pass, and its launches appear in neither list. */
  lemma {:induction false} EveryLaunchAccountedIff(lchs: seq<Launch>, kids: seq<Run>)
    ensures multiset(lchs)
         == multiset(LaunchesOf(SessionClaims(lchs, kids))) + multiset(SessionUnmatched(lchs, kids))
        <==> kids != [] || lchs == []
  {
    var got := multiset(LaunchesOf(SessionClaims(lchs, kids))) + multiset(SessionUnmatched(lchs, kids));
    if kids == [] {
      assert LaunchesOf([]) == [];
      assert got == multiset{};
      if lchs != [] {
        assert lchs[0] in multiset(lchs);
      }
    } else {
      var used := ExactUsed(lchs, kids, {});
      ExactAccounts(lchs, kids, {});
      GuessAccounts(Unnamed(lchs), 0, kids, used);
      assert Unnamed(lchs)[0..] == Unnamed(lchs);
      LaunchesOfConcat(ExactClaims(lchs, kids, {}), GuessClaims(Unnamed(lchs), 0, kids, used));
    }
  }

  lemma {:induction false} SessionUnmatchedSound(lchs: seq<Launch>, kids: seq<Run>)
    ensures forall l :: l in SessionUnmatched(lchs, kids) ==> l in lchs
  {
    if kids != [] {
      EveryLaunchAccountedIff(lchs, kids);
      forall l | l in SessionUnmatched(lchs, kids) ensures l in lchs {
        assert l in multiset(SessionUnmatched(lchs, kids));
        assert l in multiset(lchs);
      }
    }
  }

  lemma {:induction false} ExactClaimsFresh(lchs: seq<Launch>, kids: seq<Run>, used: set<string>)
    ensures used <= ExactUsed(lchs, kids, used)
    ensures forall c :: c in ExactClaims(lchs, kids, used) ==>
              c.run in kids && Named(c.launch) && c.run.id == c.launch.agentId.value
              && c.run.id !in used && c.run.id in ExactUsed(lchs, kids, used)
    ensures RunsDistinct(ExactClaims(lchs, kids, used))
  {
    if lchs != [] {
      if TakesExact(lchs[0], kids, used) {
        ExactClaimsFresh(lchs[1..], kids, used + {lchs[0].agentId.value});
      } else {
        ExactClaimsFresh(lchs[1..], kids, used);
      }
    }
  }

  /** Every run that some launch names is used up by the first pass, before any guess is made. */
  lemma {:induction false} NamedRunsAreUsed(lchs: seq<Launch>, kids: seq<Run>, used: set<string>, l: Launch)
    requires l in lchs && Named(l) && ById(kids, l.agentId.value).Some?
    ensures l.agentId.value in ExactUsed(lchs, kids, used)
  {
    var used' := if TakesExact(lchs[0], kids, used) then used + {lchs[0].agentId.value} else used;
    ExactClaimsFresh(lchs[1..], kids, used');
    if l != lchs[0] {
      NamedRunsAreUsed(lchs[1..], kids, used', l);
    }
  }

  lemma {:induction false} UnnamedAreUnnamed(lchs: seq<Launch>)
    ensures forall l :: l in Unnamed(lchs) <==> l in lchs && !Named(l)
  {
    if lchs != [] {
      UnnamedAreUnnamed(lchs[1..]);
    }
  }

  lemma {:induction false} GuessClaimsFresh(pending: seq<Launch>, i: nat, kids: seq<Run>, used: set<string>)
    requires i <= |pending|
    ensures forall c :: c in GuessClaims(pending, i, kids, used) ==>
              c.launch in pending && c.run in kids && c.run.id !in used
              && WithinMatchWindow(c.launch.requested, c.run.started)
    ensures RunsDistinct(GuessClaims(pending, i, kids, used))
    decreases |pending| - i
  {
    if i < |pending| {
      match FirstFree(kids, 0, used, pending[i].requested)
      case None => GuessClaimsFresh(pending, i + 1, kids, used);
      case Some(k) => GuessClaimsFresh(pending, i + 1, kids, used + {kids[k].id});
    }
  }

  /** What each claim of a session is worth: one claim per run; a launch that names a run gets exactly
      that run; a guess is only for a launch that names none, starts in the second of the request or within
      two minutes after it, and never takes a run that any launch of the session names. */
  lemma {:induction false} SessionClaimsSound(lchs: seq<Launch>, kids: seq<Run>)
    ensures RunsDistinct(SessionClaims(lchs, kids))
    ensures forall c :: c in SessionClaims(lchs, kids) ==> c.launch in lchs && c.run in kids
    ensures forall c :: c in SessionClaims(lchs, kids) && c.launch.agentId.Some? && c.launch.agentId.value != ""
              ==> c.run.id == c.launch.agentId.value
    ensures forall c :: c in SessionClaims(lchs, kids) && (c.launch.agentId == None || c.launch.agentId == Some(""))
              ==> && c.launch.requested.Some? && c.run.started.Some?
                  && 0 <= c.run.started.value.sec - c.launch.requested.value.sec <= 120
                  && forall l :: l in lchs && l.agentId.Some? && l.agentId.value != ""
                       ==> l.agentId.value != c.run.id
  {
    if kids != [] {
      var exact, used := ExactClaims(lchs, kids, {}), ExactUsed(lchs, kids, {});
      var guessed := GuessClaims(Unnamed(lchs), 0, kids, used);
      ExactClaimsFresh(lchs, kids, {});
      GuessClaimsFresh(Unnamed(lchs), 0, kids, used);
      UnnamedAreUnnamed(lchs);
      ExactLaunches(lchs, kids, {});
      forall c, l | c in guessed && l in lchs && Named(l)
        ensures l.agentId.value != c.run.id
      {
        if ById(kids, l.agentId.value).Some? {
          NamedRunsAreUsed(lchs, kids, {}, l);
        }
      }
      forall a, b | 0 <= a < b < |exact + guessed|
        ensures (exact + guessed)[a].run.id != (exact + guessed)[b].run.id
      {
        if a < |exact| <= b {
          assert exact[a] in exact && guessed[b - |exact|] in guessed;
        }
      }
    }
  }

  /** Every run used up by the first pass is claimed in it. */
  lemma {:induction false} ExactUsedIsClaimed(lchs: seq<Launch>, kids: seq<Run>, used: set<string>, id: string)
    requires id in ExactUsed(lchs, kids, used)
    ensures id in used || exists c :: c in ExactClaims(lchs, kids, used) && c.run.id == id
  {
    if lchs != [] {
      if TakesExact(lchs[0], kids, used) {
        var c := Claim(lchs[0], kids[ById(kids, lchs[0].agentId.value).value]);
        ExactUsedIsClaimed(lchs[1..], kids, used + {lchs[0].agentId.value}, id);
        assert c in ExactClaims(lchs, kids, used) && c.run.id == lchs[0].agentId.value;
      } else {
        ExactUsedIsClaimed(lchs[1..], kids, used, id);
      }
    }
  }

  lemma {:induction false} ExactGoneNames(lchs: seq<Launch>, kids: seq<Run>, used: set<string>)
    ensures forall l :: l in ExactGone(lchs, kids, used) ==> l in lchs && Named(l)
  {
    if lchs != [] {
      ExactGoneNames(lchs[1..], kids, if TakesExact(lchs[0], kids, used) then used + {lchs[0].agentId.value} else used);
    }
  }

  /** A launch the second pass leaves unplaced finds every run of its window taken: before it, or by then. */
  lemma {:induction false} GuessGoneReaches(pending: seq<Launch>, i: nat, kids: seq<Run>, used: set<string>, l: Launch,
          k: Run)
    requires i <= |pending| && l in GuessGone(pending, i, kids, used) && k in kids
    requires l.requested.Some? && k.started.Some? && 0 <= k.started.value.sec - l.requested.value.sec <= 120
    ensures k.id in used || exists c :: c in GuessClaims(pending, i, kids, used) && c.run.id == k.id
    decreases |pending| - i
  {
    match FirstFree(kids, 0, used, pending[i].requested)
    case None =>
      if l == pending[i] {
        var x :| 0 <= x < |kids| && kids[x] == k;
        assert !Free(kids, x, used, l.requested);
      } else {
        GuessGoneReaches(pending, i + 1, kids, used, l, k);
      }
    case Some(x) =>
      var c := Claim(pending[i], kids[x]);
      GuessGoneReaches(pending, i + 1, kids, used + {kids[x].id}, l, k);
      assert c in GuessClaims(pending, i, kids, used) && c.run.id == kids[x].id;
  }

  lemma {:induction false} NamelessLeft(lchs: seq<Launch>, kids: seq<Run>, l: Launch, k: Run)
    requires l in SessionUnmatched(lchs, kids) && k in kids && !Named(l)
    requires l.requested.Some? && k.started.Some? && 0 <= k.started.value.sec - l.requested.value.sec <= 120
    ensures exists c :: c in SessionClaims(lchs, kids) && c.run.id == k.id
  {
    var used := ExactUsed(lchs, kids, {});
    ExactGoneNames(lchs, kids, {});
    GuessGoneReaches(Unnamed(lchs), 0, kids, used, l, k);
    if k.id in used {
      ExactUsedIsClaimed(lchs, kids, {}, k.id);
      var c :| c in ExactClaims(lchs, kids, {}) && c.run.id == k.id;
      assert c in SessionClaims(lchs, kids);
    } else {
      var c :| c in GuessClaims(Unnamed(lchs), 0, kids, used) && c.run.id == k.id;
      assert c in SessionClaims(lchs, kids);
    }
  }

  lemma {:induction false} NamerLeft(lchs: seq<Launch>, kids: seq<Run>, l: Launch, k: Run)
    requires l in SessionUnmatched(lchs, kids) && k in kids && l.agentId == Some(k.id) && k.id != ""
    ensures exists c :: c in SessionClaims(lchs, kids) && c.run.id == k.id && c.launch.agentId == Some(k.id)
  {
    SessionUnmatchedSound(lchs, kids);
    NamedRunsAreUsed(lchs, kids, {}, l);
    ExactUsedIsClaimed(lchs, kids, {}, k.id);
    ExactClaimsFresh(lchs, kids, {});
    var c :| c in ExactClaims(lchs, kids, {}) && c.run.id == k.id;
    assert c in SessionClaims(lchs, kids);
  }

  /** What it means to be left unmatched, in seconds: for a launch that names no run, that every run of the
      session that starts in the second of the request or within two minutes after it is claimed; for one
      that names a run, that the run is not there or a launch that names it too has claimed it. */
  lemma {:induction false} LeftUnmatched(lchs: seq<Launch>, kids: seq<Run>)
    ensures forall l, k :: l in SessionUnmatched(lchs, kids) && k in kids
              && (l.agentId == None || l.agentId == Some("")) && l.requested.Some? && k.started.Some?
              && 0 <= k.started.value.sec - l.requested.value.sec <= 120
              ==> exists c :: c in SessionClaims(lchs, kids) && c.run.id == k.id
    ensures forall l, k :: l in SessionUnmatched(lchs, kids) && k in kids && l.agentId == Some(k.id) && k.id != ""
              ==> exists c :: c in SessionClaims(lchs, kids) && c.run.id == k.id && c.launch.agentId == Some(k.id)
  {
    forall l, k | l in SessionUnmatched(lchs, kids) && k in kids
                  && (l.agentId == None || l.agentId == Some("")) && l.requested.Some? && k.started.Some?
                  && 0 <= k.started.value.sec - l.requested.value.sec <= 120
      ensures exists c :: c in SessionClaims(lchs, kids) && c.run.id == k.id
    {
      NamelessLeft(lchs, kids, l, k);
    }
    forall l, k | l in SessionUnmatched(lchs, kids) && k in kids && l.agentId == Some(k.id) && k.id != ""
      ensures exists c :: c in SessionClaims(lchs, kids) && c.run.id == k.id && c.launch.agentId == Some(k.id)
    {
      NamerLeft(lchs, kids, l, k);
    }
  }

  lemma {:induction false} EarliestGuess(pending: seq<Launch>, i: nat, kids: seq<Run>, used: set<string>, a: nat)
      returns (x: nat)
    requires i <= |pending| && a < |GuessClaims(pending, i, kids, used)|
    ensures var guesses := GuessClaims(pending, i, kids, used);
            && x < |kids| && guesses[a].run == kids[x]
            && forall y :: 0 <= y < x && WithinMatchWindow(guesses[a].launch.requested, kids[y].started)
                 ==> kids[y].id in used || ClaimedBefore(guesses, a, kids[y].id)
    decreases |pending| - i
  {
    match FirstFree(kids, 0, used, pending[i].requested)
    case None => x := EarliestGuess(pending, i + 1, kids, used, a);
    case Some(k) =>
      var first, rest := Claim(pending[i], kids[k]), GuessClaims(pending, i + 1, kids, used + {kids[k].id});
      assert GuessClaims(pending, i, kids, used) == [first] + rest;
      if a == 0 {
        x := k;
        forall y | 0 <= y < x && WithinMatchWindow(first.launch.requested, kids[y].started)
          ensures kids[y].id in used
        {
          assert !Free(kids, y, used, pending[i].requested);
        }
      } else {
        x := EarliestGuess(pending, i + 1, kids, used + {kids[k].id}, a - 1);
        forall y | 0 <= y < x && WithinMatchWindow(rest[a - 1].launch.requested, kids[y].started)
          ensures kids[y].id in used || ClaimedBefore([first] + rest, a, kids[y].id)
        {
          ClaimedBeforeStep(first, rest, a, kids[y].id);
        }
      }
  }

  predicate ClaimedBefore(claims: seq<Claim>, a: nat, id: string)
    requires a <= |claims|
  {
    exists b :: 0 <= b < a && claims[b].run.id == id
  }

  lemma {:induction false} ClaimedBeforeStep(first: Claim, rest: seq<Claim>, a: nat, id: string)
    requires 0 < a <= |rest| + 1
    ensures ClaimedBefore([first] + rest, a, id) <==> first.run.id == id || ClaimedBefore(rest, a - 1, id)
  {
    var all := [first] + rest;
    if ClaimedBefore(rest, a - 1, id) {
      var b :| 0 <= b < a - 1 && rest[b].run.id == id;
      assert all[b + 1].run.id == id;
    }
    if b :| 0 < b < a && all[b].run.id == id {
      assert rest[b - 1].run.id == id;
    }
    assert all[0] == first;
  }

  /** Which run a guess takes: the first of the session, in its order, that starts in the second of the request
      or within two minutes after it and is not claimed before. */
  lemma {:induction false} GuessIsEarliest(lchs: seq<Launch>, kids: seq<Run>, a: nat) returns (x: nat)
    requires a < |SessionClaims(lchs, kids)|
    requires SessionClaims(lchs, kids)[a].launch.agentId == None
          || SessionClaims(lchs, kids)[a].launch.agentId == Some("")
    ensures var claims := SessionClaims(lchs, kids);
            && x < |kids| && claims[a].run == kids[x]
            && forall y :: 0 <= y < x && kids[y].started.Some? && claims[a].launch.requested.Some?
                           && 0 <= kids[y].started.value.sec - claims[a].launch.requested.value.sec <= 120
                 ==> exists b :: 0 <= b < a && claims[b].run.id == kids[y].id
  {
    var claims, exact, used := SessionClaims(lchs, kids), ExactClaims(lchs, kids, {}), ExactUsed(lchs, kids, {});
    ExactClaimsFresh(lchs, kids, {});
    assert forall b :: 0 <= b < |exact| ==> exact[b] in exact && Named(exact[b].launch) && claims[b] == exact[b];
    x := EarliestGuess(Unnamed(lchs), 0, kids, used, a - |exact|);
    forall y | 0 <= y < x && WithinMatchWindow(claims[a].launch.requested, kids[y].started)
      ensures exists b :: 0 <= b < a && claims[b].run.id == kids[y].id
    {
      if kids[y].id in used {
        ExactUsedIsClaimed(lchs, kids, {}, kids[y].id);
        var c :| c in exact && c.run.id == kids[y].id;
        var b :| 0 <= b < |exact| && exact[b] == c;
        assert claims[b] == c;
      } else {
        var b :| 0 <= b < a - |exact|
              && GuessClaims(Unnamed(lchs), 0, kids, used)[b].run.id == kids[y].id;
        assert claims[|exact| + b].run.id == kids[y].id;
      }
    }
  }

  lemma {:induction false} ExactLaunches(lchs: seq<Launch>, kids: seq<Run>, used: set<string>)
    ensures forall c :: c in ExactClaims(lchs, kids, used) ==> c.launch in lchs
  {
    if lchs != [] {
      ExactLaunches(lchs[1..], kids, if TakesExact(lchs[0], kids, used) then used + {lchs[0].agentId.value} else used);
    }
  }

  /** Completeness of the first pass: if a launch names a run that is in scope, that run is claimed,
      by the first launch that names it. */
  lemma {:induction false} ExactIdAlwaysClaimed(lchs: seq<Launch>, kids: seq<Run>, i: nat)
    requires i < |lchs| && Named(lchs[i]) && ById(kids, lchs[i].agentId.value).Some?
    requires forall j :: 0 <= j < i && Named(lchs[j]) ==> lchs[j].agentId.value != lchs[i].agentId.value
    ensures exists c :: c in SessionClaims(lchs, kids) && c.launch == lchs[i] && c.run.id == lchs[i].agentId.value
  {
    var c := FirstNamerClaims(lchs, kids, {}, i);
    assert c in SessionClaims(lchs, kids);
  }

  lemma {:induction false} FirstNamerClaims(lchs: seq<Launch>, kids: seq<Run>, used: set<string>, i: nat)
      returns (c: Claim)
    requires i < |lchs| && Named(lchs[i]) && ById(kids, lchs[i].agentId.value).Some?
    requires lchs[i].agentId.value !in used
    requires forall j :: 0 <= j < i && Named(lchs[j]) ==> lchs[j].agentId.value != lchs[i].agentId.value
    ensures c in ExactClaims(lchs, kids, used) && c.launch == lchs[i] && c.run.id == lchs[i].agentId.value
    decreases i
  {
    if i == 0 {
      c := Claim(lchs[0], kids[ById(kids, lchs[0].agentId.value).value]);
    } else {
      var rest := lchs[1..];
      assert forall j :: 0 <= j < |rest| ==> rest[j] == lchs[j + 1];
      c := FirstNamerClaims(rest, kids,
        if TakesExact(lchs[0], kids, used) then used + {lchs[0].agentId.value} else used, i - 1);
    }
  }

  // ---------------------------------------------------------------------------------------
  // The greedy second pass is optimal and never crosses
  // ---------------------------------------------------------------------------------------

  ghost predicate DistinctIds(kids: seq<Run>) {
    forall a, b :: 0 <= a < b < |kids| ==> kids[a].id != kids[b].id
  }

  ghost predicate SortedStarts(kids: seq<Run>) {
    forall a, b :: 0 <= a < b < |kids| && kids[a].started.Some? && kids[b].started.Some? ==>
      kids[a].started.value.sec <= kids[b].started.value.sec
  }

  ghost predicate SortedRequests(pending: seq<Launch>) {
    forall a, b :: 0 <= a < b < |pending| && pending[a].requested.Some? && pending[b].requested.Some? ==>
      pending[a].requested.value.sec <= pending[b].requested.value.sec
  }

  ghost predicate Injective(m: map<nat, nat>) {
    forall a, b :: a in m && b in m && a != b ==> m[a] != m[b]
  }

  /** Any way at all of giving waiting launches (from `i` on) distinct unused runs that start in the second
      of the request or within two minutes after it. */
  ghost predicate Assignment(m: map<nat, nat>, pending: seq<Launch>, i: nat, kids: seq<Run>, used: set<string>) {
    && (forall l :: l in m ==> i <= l < |pending| && m[l] < |kids| && kids[m[l]].id !in used
                               && pending[l].requested.Some? && kids[m[l]].started.Some?
                               && 0 <= kids[m[l]].started.value.sec - pending[l].requested.value.sec <= 120)
    && Injective(m)
  }

  lemma {:induction false} NothingToAssign(m: map<nat, nat>, pending: seq<Launch>, kids: seq<Run>, used: set<string>)
    requires Assignment(m, pending, |pending|, kids, used)
    ensures |m| == 0
  {
    assert m.Keys == {};
  }

  /** A launch that finds no free run is in no assignment. */
  lemma {:induction false} NothingFree(m: map<nat, nat>, pending: seq<Launch>, i: nat, kids: seq<Run>,
          used: set<string>)
    requires i < |pending| && Assignment(m, pending, i, kids, used)
    requires FirstFree(kids, 0, used, pending[i].requested).None?
    ensures Assignment(m, pending, i + 1, kids, used)
  {
    assert i in m ==> Free(kids, m[i], used, pending[i].requested);
  }

  lemma {:induction false} MapWithout(m: map<nat, nat>, k: nat)
    requires k in m
    ensures |m - {k}| == |m| - 1
  {
    assert (m - {k}).Keys == m.Keys - {k};
  }

  /** Take launch `i` out of an assignment. */
  lemma {:induction false} DropLaunch(m: map<nat, nat>, pending: seq<Launch>, i: nat, kids: seq<Run>, used: set<string>)
      returns (m': map<nat, nat>)
    requires i < |pending| && Assignment(m, pending, i, kids, used)
    ensures Assignment(m', pending, i + 1, kids, used)
    ensures |m'| == if i in m then |m| - 1 else |m|
    ensures forall l :: l in m' ==> l in m && m'[l] == m[l]
  {
    m' := m;
    if i in m {
      MapWithout(m, i);
      m' := m - {i};
    }
  }

  /** Take run `g` out of an assignment. */
  lemma {:induction false} DropRun(m: map<nat, nat>, pending: seq<Launch>, i: nat, kids: seq<Run>, used: set<string>,
          g: nat)
      returns (m': map<nat, nat>)
    requires i <= |pending| && g < |kids| && DistinctIds(kids) && Assignment(m, pending, i, kids, used)
    ensures Assignment(m', pending, i, kids, used + {kids[g].id})
    ensures |m'| >= |m| - 1
    ensures (forall l :: l in m ==> m[l] != g) ==> |m'| == |m|
  {
    m' := m;
    if j :| j in m && m[j] == g {
      MapWithout(m, j);
      m' := m - {j};
    }
    forall l | l in m' ensures Free(kids, m'[l], used + {kids[g].id}, pending[l].requested) {
      assert l in m && m'[l] != g;
    }
  }

  /** Take both out; the assignment loses at most the two pairs they were in. */
  lemma {:induction false} DropPair(m: map<nat, nat>, pending: seq<Launch>, i: nat, kids: seq<Run>, used: set<string>,
          g: nat)
      returns (m': map<nat, nat>)
    requires i < |pending| && g < |kids| && DistinctIds(kids)
    requires Assignment(m, pending, i, kids, used)
    ensures Assignment(m', pending, i + 1, kids, used + {kids[g].id})
    ensures |m'| >= |m| - 2
    ensures i !in m || m[i] == g || (forall j :: j in m ==> m[j] != g) ==> |m'| >= |m| - 1
  {
    var mid := DropLaunch(m, pending, i, kids, used);
    m' := DropRun(mid, pending, i + 1, kids, used, g);
    if i in m && m[i] == g {
      assert forall l :: l in mid ==> l != i && mid[l] != g;
    }
  }

  lemma {:induction false} Swapped(m: map<nat, nat>, i: nat, j: nat) returns (m': map<nat, nat>)
    requires i in m && j in m && i != j && Injective(m)
    ensures m'.Keys == m.Keys - {i} && |m'| == |m| - 1
    ensures forall l :: l in m' ==> m'[l] == (if l == j then m[i] else m[l]) && m'[l] != m[j]
    ensures Injective(m')
  {
    MapWithout(m, i);
    m' := (m - {i})[j := m[i]];
    assert m'.Keys == (m - {i}).Keys;
  }

  /** Give launch `j` the run that launch `i` held, and drop `i`. */
  lemma {:induction false} Reassign(m: map<nat, nat>, pending: seq<Launch>, i: nat, kids: seq<Run>, used: set<string>,
          g: nat, j: nat)
      returns (m': map<nat, nat>)
    requires i < |pending| && g < |kids| && DistinctIds(kids)
    requires Assignment(m, pending, i, kids, used)
    requires i in m && j in m && m[j] == g && m[i] != g
    requires Free(kids, m[i], used, pending[j].requested)
    ensures Assignment(m', pending, i + 1, kids, used + {kids[g].id})
    ensures |m'| == |m| - 1
  {
    var k, used' := m[i], used + {kids[g].id};
    m' := Swapped(m, i, j);
    forall l | l in m'
      ensures i + 1 <= l < |pending| && m'[l] < |kids| && Free(kids, m'[l], used', pending[l].requested)
    {
      assert l in m && m'[l] == if l == j then k else m[l];
      assert kids[m'[l]].id != kids[g].id;
    }
  }

  /** Windows have equal length: a later request still reaches a run that an earlier request reaches,
      if it reaches some run that starts no later than that one. */
  lemma {:induction false} LaterRequestReaches(early: Option<Stamp>, late: Option<Stamp>, sooner: Option<Stamp>,
          later: Option<Stamp>)
    requires WithinMatchWindow(early, later) && WithinMatchWindow(late, sooner)
    requires early.value.sec <= late.value.sec && sooner.value.sec <= later.value.sec
    ensures WithinMatchWindow(late, later)
  {
  }

  lemma {:induction false} Exchange(m: map<nat, nat>, pending: seq<Launch>, i: nat, kids: seq<Run>, used: set<string>,
          g: nat)
      returns (m': map<nat, nat>)
    requires i < |pending| && DistinctIds(kids) && SortedStarts(kids) && SortedRequests(pending)
    requires Assignment(m, pending, i, kids, used)
    requires FirstFree(kids, 0, used, pending[i].requested) == Some(g)
    ensures Assignment(m', pending, i + 1, kids, used + {kids[g].id})
    ensures |m'| >= |m| - 1
  {
    if i in m && m[i] != g {
      assert Free(kids, m[i], used, pending[i].requested);
      assert g < m[i];
      if j :| j in m && m[j] == g {
        assert Free(kids, g, used, pending[j].requested);
        LaterRequestReaches(pending[i].requested, pending[j].requested, kids[g].started, kids[m[i]].started);
        m' := Reassign(m, pending, i, kids, used, g, j);
        return;
      }
    }
    m' := DropPair(m, pending, i, kids, used, g);
  }

  /** With requests in transcript order, no injective assignment of the remaining runs inside the match
      window places more launches than the earliest-free-run greedy does. */
  lemma {:induction false} GreedyIsOptimal(pending: seq<Launch>, i: nat, kids: seq<Run>, used: set<string>,
          m: map<nat, nat>)
    requires i <= |pending| && DistinctIds(kids) && SortedStarts(kids) && SortedRequests(pending)
    requires Assignment(m, pending, i, kids, used)
    ensures |m| <= |GuessClaims(pending, i, kids, used)|
    decreases |pending| - i, 1
  {
    if i == |pending| {
      NothingToAssign(m, pending, kids, used);
    } else if FirstFree(kids, 0, used, pending[i].requested).None? {
      NothingFree(m, pending, i, kids, used);
      GreedyIsOptimal(pending, i + 1, kids, used, m);
    } else {
      OptimalAfter(pending, i, kids, used, m, FirstFree(kids, 0, used, pending[i].requested).value);
    }
  }

  lemma {:induction false} OptimalAfter(pending: seq<Launch>, i: nat, kids: seq<Run>, used: set<string>,
          m: map<nat, nat>, g: nat)
    requires i < |pending| && DistinctIds(kids) && SortedStarts(kids) && SortedRequests(pending)
    requires Assignment(m, pending, i, kids, used) && FirstFree(kids, 0, used, pending[i].requested) == Some(g)
    ensures |m| <= 1 + |GuessClaims(pending, i + 1, kids, used + {kids[g].id})|
    decreases |pending| - i, 0
  {
    var m' := Exchange(m, pending, i, kids, used, g);
    GreedyIsOptimal(pending, i + 1, kids, used + {kids[g].id}, m');
  }

  /** In any order at all the greedy still places at least half of what is possible. */
  lemma {:induction false} GreedyIsHalfOptimal(pending: seq<Launch>, i: nat, kids: seq<Run>, used: set<string>,
          m: map<nat, nat>)
    requires i <= |pending| && DistinctIds(kids)
    requires Assignment(m, pending, i, kids, used)
    ensures |m| <= 2 * |GuessClaims(pending, i, kids, used)|
    decreases |pending| - i, 1
  {
    if i == |pending| {
      NothingToAssign(m, pending, kids, used);
    } else if FirstFree(kids, 0, used, pending[i].requested).None? {
      NothingFree(m, pending, i, kids, used);
      GreedyIsHalfOptimal(pending, i + 1, kids, used, m);
    } else {
      HalfAfter(pending, i, kids, used, m, FirstFree(kids, 0, used, pending[i].requested).value);
    }
  }

  lemma {:induction false} HalfAfter(pending: seq<Launch>, i: nat, kids: seq<Run>, used: set<string>,
          m: map<nat, nat>, g: nat)
    requires i < |pending| && DistinctIds(kids) && g < |kids|
    requires Assignment(m, pending, i, kids, used)
    ensures |m| <= 2 + 2 * |GuessClaims(pending, i + 1, kids, used + {kids[g].id})|
    decreases |pending| - i, 0
  {
    var m' := DropPair(m, pending, i, kids, used, g);
    GreedyIsHalfOptimal(pending, i + 1, kids, used + {kids[g].id}, m');
  }

  lemma {:induction false} FirstTakesAll(first: Launch, second: Launch, a: Run, b: Run)
    requires WithinMatchWindow(first.requested, a.started)
    requires !WithinMatchWindow(second.requested, b.started)
    ensures GuessClaims([first, second], 0, [a, b], {}) == [Claim(first, a)]
  {
    var pending, kids := [first, second], [a, b];
    assert FirstFree(kids, 0, {}, first.requested) == Some(0);
    assert FirstFree(kids, 2, {} + {a.id}, second.requested) == None;
    assert FirstFree(kids, 1, {} + {a.id}, second.requested) == None;
    assert GuessClaims(pending, 2, kids, {} + {a.id}) == [];
    assert GuessClaims(pending, 1, kids, {} + {a.id}) == [];
  }

  /** Optimality does need the order: two launches listed latest first, where the greedy places one
      and another assignment places both. */
  lemma {:induction false} OrderIsNeeded()
    ensures exists pending: seq<Launch>, kids: seq<Run>, m: map<nat, nat> ::
              DistinctIds(kids) && SortedStarts(kids) && Assignment(m, pending, 0, kids, {})
              && |GuessClaims(pending, 0, kids, {})| < |m|
  {
    var late := Launch(None, None, Some(Stamp(100, 0)), None);
    var early := Launch(None, None, Some(Stamp(0, 0)), None);
    var a, b := Run("a", Some(Stamp(100, 0))), Run("b", Some(Stamp(150, 0)));
    var pending, kids := [late, early], [a, b];
    var m: map<nat, nat> := map[0 := 1, 1 := 0];
    FirstTakesAll(late, early, a, b);
    assert m.Keys == {0, 1};
    assert Assignment(m, pending, 0, kids, {});
  }

  lemma {:induction false} EarlierRequestReaches(early: Option<Stamp>, late: Option<Stamp>, sooner: Option<Stamp>,
          later: Option<Stamp>)
    requires WithinMatchWindow(early, later) && WithinMatchWindow(late, sooner)
    requires early.value.sec <= late.value.sec && sooner.value.sec <= later.value.sec
    ensures WithinMatchWindow(early, sooner)
  {
  }

  lemma {:induction false} LaterPickIsLater(pending: seq<Launch>, i: nat, kids: seq<Run>, used: set<string>, x: nat,
          j: nat, y: nat)
    requires i < j < |pending| && SortedStarts(kids) && SortedRequests(pending)
    requires FirstFree(kids, 0, used, pending[i].requested) == Some(x)
    requires y < |kids| && Free(kids, y, used + {kids[x].id}, pending[j].requested)
    ensures x < y
  {
    assert kids[y].id != kids[x].id;
    if y < x {
      assert !Free(kids, y, used, pending[i].requested);
      EarlierRequestReaches(pending[i].requested, pending[j].requested, kids[y].started, kids[x].started);
    }
  }

  lemma {:induction false} GuessAt(pending: seq<Launch>, i: nat, kids: seq<Run>, used: set<string>, a: nat)
      returns (j: nat, x: nat)
    requires i <= |pending| && a < |GuessClaims(pending, i, kids, used)|
    ensures i <= j < |pending| && x < |kids| && GuessClaims(pending, i, kids, used)[a] == Claim(pending[j], kids[x])
    ensures Free(kids, x, used, pending[j].requested)
    decreases |pending| - i
  {
    var pick := FirstFree(kids, 0, used, pending[i].requested);
    if pick.None? {
      j, x := GuessAt(pending, i + 1, kids, used, a);
    } else if a == 0 {
      j, x := i, pick.value;
    } else {
      j, x := GuessAt(pending, i + 1, kids, used + {kids[pick.value].id}, a - 1);
    }
  }

  /** Guesses never cross: claims are made in launch order, and each takes a later run than the one before. */
  lemma {:induction false} GreedyNeverCrosses(pending: seq<Launch>, i: nat, kids: seq<Run>, used: set<string>, a: nat,
          b: nat)
      returns (j: nat, x: nat, k: nat, y: nat)
    requires i <= |pending| && SortedStarts(kids) && SortedRequests(pending)
    requires a < b < |GuessClaims(pending, i, kids, used)|
    ensures i <= j < k < |pending| && x < y < |kids|
    ensures GuessClaims(pending, i, kids, used)[a] == Claim(pending[j], kids[x])
    ensures GuessClaims(pending, i, kids, used)[b] == Claim(pending[k], kids[y])
    decreases |pending| - i
  {
    var pick := FirstFree(kids, 0, used, pending[i].requested);
    if pick.None? {
      j, x, k, y := GreedyNeverCrosses(pending, i + 1, kids, used, a, b);
    } else {
      var used' := used + {kids[pick.value].id};
      if a == 0 {
        j, x := i, pick.value;
        k, y := GuessAt(pending, i + 1, kids, used', b - 1);
        LaterPickIsLater(pending, i, kids, used, x, k, y);
      } else {
        j, x, k, y := GreedyNeverCrosses(pending, i + 1, kids, used', a - 1, b - 1);
      }
    }
  }
}
