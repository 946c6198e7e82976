/** What a pass of the rewriter brings into a file, and when the file still parses with it. */
module ConfBrought {
  import opened Options
  import opened ConfLines
  import opened ConfSync
  import opened ConfFixpoint
  import opened ConfParse
  import opened ConfAudit

  // ---------------------------------------------------------------------------------------
  // The names of the tables every file must have
  // ---------------------------------------------------------------------------------------

  predicate MustHave(sec: Section) {
    sec == PrReview || (sec.Tier? && IsTarget(sec.tier))
  }

  /** A key of the table as the rewriter writes it. */
  predicate WrittenIn(sec: Section, k: Key) {
    if sec == PrReview then k == Backend || k == Effort
    else k == Provider || k == Model || k == Version || k == Effort
  }

  function PinDef(t: TierName, k: Key): Def {
    Def(KeyPath(Some(Tier(t)), k), true)
  }

  /** A name the table defines as the rewriter writes it. */
  ghost predicate Owns(sec: Section, d: Def) {
    d == Def(SectionName(sec), false) || exists k :: WrittenIn(sec, k) && d == Def(KeyPath(Some(sec), k), true)
  }

  lemma {:induction false} TierLetters(t: TierName)
    requires IsTarget(t)
    ensures |TierKey(t)| > 0 && SectionName(Tier(t))[0] == 't' && SectionName(Tier(t))[6] == TierKey(t)[0]
    ensures forall u :: IsTarget(u) && u != t ==> TierKey(u)[0] != TierKey(t)[0]
  {
  }

  lemma {:induction false} OwnStart(sec: Section, d: Def)
    requires Owns(sec, d)
    ensures SectionName(sec) <= d.name
  {
  }

  /** Two different names of such tables, of one table or of two, can always stand together. */
  lemma {:induction false} OwnsApart(sec: Section, other: Section, d: Def, e: Def)
    requires MustHave(sec) && MustHave(other) && Owns(sec, d) && Owns(other, e) && (sec != other || d != e)
    ensures !Clash(d, e)
  {
    OwnStart(sec, d);
    OwnStart(other, e);
    if sec != other {
      OtherTable(sec, other, d, e);
    } else {
      SameTable(sec, d, e);
    }
  }

  lemma {:induction false} OtherTable(sec: Section, other: Section, d: Def, e: Def)
    requires MustHave(sec) && MustHave(other) && sec != other && SectionName(sec) <= d.name
    requires SectionName(other) <= e.name
    ensures !Clash(d, e)
  {
    if sec.Tier? {
      TierLetters(sec.tier);
    }
    if other.Tier? {
      TierLetters(other.tier);
    }
    assert SectionName(PrReview)[0] == 'p' && |SectionName(PrReview)| == 9;
    assert d.name[0] == SectionName(sec)[0] && d.name[6] == SectionName(sec)[6];
    assert e.name[0] == SectionName(other)[0] && e.name[6] == SectionName(other)[6];
  }

  lemma {:induction false} SameTable(sec: Section, d: Def, e: Def)
    requires MustHave(sec) && Owns(sec, d) && Owns(sec, e) && d != e
    ensures !Clash(d, e)
  {
    if d.key && e.key {
      var k :| WrittenIn(sec, k) && d == Def(KeyPath(Some(sec), k), true);
      var j :| WrittenIn(sec, j) && e == Def(KeyPath(Some(sec), j), true);
      SameTableKeys(sec, k, j);
    }
  }

  lemma {:induction false} SameTableKeys(sec: Section, k: Key, j: Key)
    requires WrittenIn(sec, k) && WrittenIn(sec, j) && k != j
    ensures !Clash(Def(KeyPath(Some(sec), k), true), Def(KeyPath(Some(sec), j), true))
  {
    var n := |SectionName(sec)| + 1;
    KeyLetters(sec, k, j);
    assert KeyPath(Some(sec), k)[n] == KeyName(k)[0] && KeyPath(Some(sec), j)[n] == KeyName(j)[0];
  }

  lemma {:induction false} KeyLetters(sec: Section, k: Key, j: Key)
    requires WrittenIn(sec, k) && WrittenIn(sec, j) && k != j
    ensures |KeyName(k)| > 0 && |KeyName(j)| > 0 && KeyName(k)[0] != KeyName(j)[0]
  {
  }

  // ---------------------------------------------------------------------------------------
  // What a pass brings
  // ---------------------------------------------------------------------------------------

  predicate MissingPin(k: Key) {
    k == Version || k == Effort
  }

  /** A tier table with a model in double quotes gains the pins it does not have in double quotes. */
  predicate GainsPin(lines: seq<Line>, t: TierName, k: Key) {
    MissingPin(k) && TierHas(lines, t, Model, Quotes) && !TierHas(lines, t, k, Quotes)
  }

  /** The names a pass brings: those of a required table the file has no header for, and the pins its tier
      tables gain. */
  ghost predicate Brings(lines: seq<Line>, d: Def) {
    || (exists sec :: MustHave(sec) && !HasHeader(lines, sec) && Owns(sec, d))
    || (exists t, k :: IsTarget(t) && GainsPin(lines, t, k) && d == PinDef(t, k))
  }

  lemma {:induction false} TierOwned(t: TierName, d: Def)
    requires IsTarget(t)
    ensures TierDefs(t, d) == if Owns(Tier(t), d) then 1 else 0
  {
    var sec := Tier(t);
    assert WrittenIn(sec, Provider) && WrittenIn(sec, Model) && WrittenIn(sec, Version) && WrittenIn(sec, Effort);
    forall k, j | WrittenIn(sec, k) && WrittenIn(sec, j) && k != j
      ensures KeyPath(Some(sec), k) != KeyPath(Some(sec), j)
    {
      PathsDiffer(sec, k, j);
    }
  }

  lemma {:induction false} PathsDiffer(sec: Section, k: Key, j: Key)
    requires WrittenIn(sec, k) && WrittenIn(sec, j) && k != j
    ensures KeyPath(Some(sec), k) != KeyPath(Some(sec), j)
  {
    SameTableKeys(sec, k, j);
  }

  lemma {:induction false} PrReviewOwned(d: Def)
    ensures PrReviewDefs(d) == if Owns(PrReview, d) then 1 else 0
  {
    assert WrittenIn(PrReview, Backend) && WrittenIn(PrReview, Effort);
    PathsDiffer(PrReview, Backend, Effort);
  }

  /** No two required tables define one name. */
  lemma {:induction false} OwnedOnce(sec: Section, other: Section, d: Def)
    requires MustHave(sec) && MustHave(other) && Owns(sec, d) && Owns(other, d)
    ensures sec == other
  {
    if sec != other {
      OwnsApart(sec, other, d, d);
    }
  }

  ghost predicate AbsentOwns(lines: seq<Line>, tiers: seq<TierName>, d: Def) {
    exists t :: t in tiers && !HasHeader(lines, Tier(t)) && Owns(Tier(t), d)
  }

  lemma {:induction false} AbsentTiersOnce(lines: seq<Line>, tiers: seq<TierName>, d: Def)
    requires (forall t :: t in tiers ==> IsTarget(t)) && forall i, j :: 0 <= i < j < |tiers| ==> tiers[i] != tiers[j]
    ensures AbsentTierDefs(lines, tiers, d) == if AbsentOwns(lines, tiers, d) then 1 else 0
    decreases |tiers|
  {
    if tiers != [] {
      TierOwned(tiers[0], d);
      AbsentTiersOnce(lines, tiers[1..], d);
      assert tiers == [tiers[0]] + tiers[1..];
      if AbsentOwns(lines, tiers[1..], d) && Owns(Tier(tiers[0]), d) {
        var t :| t in tiers[1..] && !HasHeader(lines, Tier(t)) && Owns(Tier(t), d);
        OwnedOnce(Tier(tiers[0]), Tier(t), d);
        assert false;
      }
    }
  }

  lemma {:induction false} AbsentOnce(lines: seq<Line>, d: Def)
    ensures AbsentDefs(lines, d)
         == if exists sec :: MustHave(sec) && !HasHeader(lines, sec) && Owns(sec, d) then 1 else 0
  {
    AbsentTiersOnce(lines, TIER_ORDER, d);
    PrReviewOwned(d);
    assert MustHave(PrReview);
    if AbsentOwns(lines, TIER_ORDER, d) {
      var t :| t in TIER_ORDER && !HasHeader(lines, Tier(t)) && Owns(Tier(t), d);
      assert MustHave(Tier(t));
      if Owns(PrReview, d) {
        OwnedOnce(Tier(t), PrReview, d);
      }
    }
    forall sec | MustHave(sec) && !HasHeader(lines, sec) && Owns(sec, d) && sec != PrReview
      ensures AbsentOwns(lines, TIER_ORDER, d)
    {
      assert sec.tier in TIER_ORDER;
    }
  }

  lemma {:induction false} GainElsewhere(t: Pins, u: TierName, k: Key)
    requires IsTarget(u) && MissingPin(k) && t.cur != Some(Tier(u))
    ensures GainAt(t, PinDef(u, k)) == 0
  {
    if InTargetTier(t.cur) {
      var d := PinDef(u, k);
      assert WrittenIn(Tier(u), k) && Owns(Tier(u), d);
      assert WrittenIn(t.cur.value, Version) && WrittenIn(t.cur.value, Effort);
      if Owns(t.cur.value, d) {
        OwnedOnce(Tier(u), t.cur.value, d);
      }
    }
  }

  lemma {:induction false} GainHere(t: Pins, u: TierName, k: Key)
    requires IsTarget(u) && MissingPin(k) && t.cur == Some(Tier(u))
    ensures GainAt(t, PinDef(u, k)) == if t.model && !PinSeen(t, k) then 1 else 0
  {
    PathsDiffer(Tier(u), Version, Effort);
  }

  /** The table being read pins the key in double quotes, as `pinned` says, or the tier's table will. */
  predicate PinsAhead(cur: Option<Section>, rest: seq<Line>, u: TierName, k: Key, pinned: bool) {
    (cur == Some(Tier(u)) && pinned) || Has(cur, rest, Some(Tier(u)), Probe(k, Quotes))
  }

  function PinSeen(t: Pins, k: Key): bool {
    if k == Model then t.model else if k == Version then t.version else t.effort
  }

  lemma {:induction false} AheadStep(t: Pins, rest: seq<Line>, u: TierName, k: Key)
    requires k == Model || MissingPin(k)
    requires NoArrays(rest) && rest != [] && (rest[0].Header? ==> t.cur != Some(Tier(u)))
    ensures PinsAhead(t.cur, rest, u, k, PinSeen(t, k))
       <==> PinsAhead(Next(t, rest[0]).cur, rest[1..], u, k, PinSeen(Next(t, rest[0]), k))
  {
    assert rest[0] in rest;
  }

  /** How many more headers of the tier's name may follow. */
  predicate OneTableLeft(t: Pins, rest: seq<Line>, u: TierName) {
    Defs(t.cur, rest, Def(SectionName(Tier(u)), false)) <= if t.cur == Some(Tier(u)) then 0 else 1
  }

  /** The tier's table gains the pin when it is closed. */
  predicate WillGain(t: Pins, rest: seq<Line>, u: TierName, k: Key) {
    PinsAhead(t.cur, rest, u, Model, t.model) && !PinsAhead(t.cur, rest, u, k, PinSeen(t, k))
  }

  lemma {:induction false} GainedIs(t: Pins, rest: seq<Line>, u: TierName, k: Key)
    requires IsTarget(u) && MissingPin(k) && NoArrays(rest) && OneTableLeft(t, rest, u)
    ensures Gained(t, rest, PinDef(u, k)) == if WillGain(t, rest, u, k) then 1 else 0
    decreases |rest|
  {
    if t.cur == Some(Tier(u)) {
      GainHere(t, u, k);
    } else {
      GainElsewhere(t, u, k);
    }
    if rest != [] {
      assert rest[0] in rest && NoArrays(rest[1..]);
      GainedIs(Next(t, rest[0]), rest[1..], u, k);
      if rest[0].Header? && t.cur == Some(Tier(u)) {
        TierIsOver(t, rest, u, Model);
        TierIsOver(t, rest, u, k);
      } else {
        AheadStep(t, rest, u, Model);
        AheadStep(t, rest, u, k);
      }
    }
  }

  /** At the next header, the tier's table has all it will have. */
  lemma {:induction false} TierIsOver(t: Pins, rest: seq<Line>, u: TierName, k: Key)
    requires NoArrays(rest) && OneTableLeft(t, rest, u) && t.cur == Some(Tier(u)) && rest != [] && rest[0].Header?
    ensures PinsAhead(t.cur, rest, u, k, PinSeen(t, k)) <==> PinSeen(t, k)
    ensures forall pinned :: !PinsAhead(Some(rest[0].sec), rest[1..], u, k, pinned)
  {
    NothingOfTier(Some(rest[0].sec), rest[1..], u, Probe(k, Quotes));
  }

  lemma {:induction false} NothingOfTier(cur: Option<Section>, rest: seq<Line>, u: TierName, p: Probe)
    requires cur != Some(Tier(u)) && NoArrays(rest) && Defs(cur, rest, Def(SectionName(Tier(u)), false)) == 0
    ensures !Has(cur, rest, Some(Tier(u)), p)
    decreases |rest|
  {
    if rest != [] {
      assert rest[0] in rest && NoArrays(rest[1..]);
      NothingOfTier(TomlSection(cur, rest[0]), rest[1..], u, p);
    }
  }

  lemma {:induction false} GainedNothing(t: Pins, rest: seq<Line>, d: Def)
    requires forall u, k :: IsTarget(u) && MissingPin(k) ==> d != PinDef(u, k)
    ensures Gained(t, rest, d) == 0
    decreases |rest|
  {
    if InTargetTier(t.cur) {
      assert d != PinDef(t.cur.value.tier, Version) && d != PinDef(t.cur.value.tier, Effort);
    }
    if rest != [] {
      GainedNothing(Next(t, rest[0]), rest[1..], d);
    }
  }

  /** A file that parses names every table once. */
  lemma {:induction false} OneOfEach(lines: seq<Line>, d: Def)
    requires WellFormed(lines)
    ensures Defs(None, lines, d) <= 1
  {
    var all := (e: Def) => Defs(None, lines, e);
    assert Apart(all);
    if all(d) > 1 {
      assert Clash(d, d);
    }
  }

  lemma {:induction false} GainedOnce(lines: seq<Line>, d: Def)
    requires WellFormed(lines) && NoArrays(lines)
    ensures Gained(START, lines, d)
         == if exists t, k :: IsTarget(t) && GainsPin(lines, t, k) && d == PinDef(t, k) then 1 else 0
  {
    if exists t, k :: IsTarget(t) && MissingPin(k) && d == PinDef(t, k) {
      var u, j :| IsTarget(u) && MissingPin(j) && d == PinDef(u, j);
      OneOfEach(lines, Def(SectionName(Tier(u)), false));
      GainedIs(START, lines, u, j);
      forall t, k | IsTarget(t) && GainsPin(lines, t, k) && d == PinDef(t, k) ensures t == u && k == j {
        PinOnce(t, k, u, j);
      }
    } else {
      GainedNothing(START, lines, d);
    }
  }

  lemma {:induction false} PinOnce(t: TierName, k: Key, u: TierName, j: Key)
    requires IsTarget(t) && IsTarget(u) && MissingPin(k) && MissingPin(j) && PinDef(t, k) == PinDef(u, j)
    ensures t == u && k == j
  {
    var d := PinDef(t, k);
    assert WrittenIn(Tier(t), k) && WrittenIn(Tier(u), j);
    assert Owns(Tier(t), d) && Owns(Tier(u), d);
    OwnedOnce(Tier(t), Tier(u), d);
    if k != j {
      PathsDiffer(Tier(t), k, j);
    }
  }

  function Brought(lines: seq<Line>, d: Def): nat {
    Gained(START, lines, d) + AbsentDefs(lines, d)
  }

  /** Whatever a pass brings into a file that parses, it brings once. */
  lemma {:induction false} BroughtOnce(lines: seq<Line>, d: Def)
    requires WellFormed(lines) && NoArrays(lines)
    ensures Brought(lines, d) == if Brings(lines, d) then 1 else 0
  {
    GainedOnce(lines, d);
    AbsentOnce(lines, d);
    if exists t, k :: IsTarget(t) && GainsPin(lines, t, k) && d == PinDef(t, k) {
      var t, k :| IsTarget(t) && GainsPin(lines, t, k) && d == PinDef(t, k);
      PinOwner(lines, t, k);
      forall sec | MustHave(sec) && !HasHeader(lines, sec) ensures !Owns(sec, d) {
        if Owns(sec, d) {
          OwnedOnce(sec, Tier(t), d);
        }
      }
    }
  }

  /** A pin is gained by a table the file has. */
  lemma {:induction false} PinOwner(lines: seq<Line>, t: TierName, k: Key)
    requires IsTarget(t) && GainsPin(lines, t, k) && NoArrays(lines)
    ensures HasHeader(lines, Tier(t)) && MustHave(Tier(t)) && Owns(Tier(t), PinDef(t, k))
  {
    assert WrittenIn(Tier(t), k);
    if !HasHeader(lines, Tier(t)) {
      NoHeaderNoKeys(None, lines, Tier(t), Probe(Model, Quotes));
    }
  }

  lemma {:induction false} BringsOwned(lines: seq<Line>, d: Def)
    requires Brings(lines, d) && NoArrays(lines)
    ensures exists sec :: MustHave(sec) && Owns(sec, d)
  {
    if !(exists sec :: MustHave(sec) && !HasHeader(lines, sec) && Owns(sec, d)) {
      var t, k :| IsTarget(t) && GainsPin(lines, t, k) && d == PinDef(t, k);
      PinOwner(lines, t, k);
    }
  }

  lemma {:induction false} BroughtApart(lines: seq<Line>)
    requires WellFormed(lines) && NoArrays(lines)
    ensures Apart(d => Brought(lines, d))
  {
    forall d, e | Brought(lines, d) > 0 && Brought(lines, e) > 0 && (d != e || Brought(lines, d) > 1)
      ensures !Clash(d, e)
    {
      BroughtOnce(lines, d);
      BroughtOnce(lines, e);
      BringsOwned(lines, d);
      BringsOwned(lines, e);
      var sec :| MustHave(sec) && Owns(sec, d);
      var other :| MustHave(other) && Owns(other, e);
      OwnsApart(sec, other, d, e);
    }
  }

  // ---------------------------------------------------------------------------------------
  // When a file still parses
  // ---------------------------------------------------------------------------------------

  ghost predicate Beside(f: Def -> nat, g: Def -> nat) {
    forall d, e :: f(d) > 0 && g(e) > 0 ==> !Clash(d, e) && !Clash(e, d)
  }

  lemma {:induction false} ApartSum(f: Def -> nat, g: Def -> nat, sum: Def -> nat)
    requires Apart(f) && Apart(g) && forall d :: sum(d) == f(d) + g(d)
    ensures Apart(sum) <==> Beside(f, g)
  {
    if Apart(sum) {
      forall d, e | f(d) > 0 && g(e) > 0 ensures !Clash(d, e) && !Clash(e, d) {
        assert sum(d) > 0 && sum(e) > 0 && (d != e || sum(d) > 1);
      }
    }
    if Beside(f, g) {
      forall d, e | sum(d) > 0 && sum(e) > 0 && (d != e || sum(d) > 1) ensures !Clash(d, e) {
        assert (f(d) > 0 || g(d) > 0) && (f(e) > 0 || g(e) > 0);
      }
    }
  }

  /** A name the file defines stands beside everything a pass brings. */
  ghost predicate Welcomes(lines: seq<Line>, e: Def) {
    forall d :: Brings(lines, d) ==> !Clash(d, e) && !Clash(e, d)
  }

  /** A file that parses, with single-line identifier keys alone in what is retired, parses after a pass if
      and only if no name that stays in it clashes with one the pass brings; in particular if no name in it
      does. A pin outside double quotes in a tier table with a model in double quotes is such a clash. */
  lemma {:induction false} PlainParsesIff(lines: seq<Line>, stamp: string)
    requires WellFormed(lines) && PlainRetired(None, lines) && NoArrays(lines)
    ensures Parses(Synced(lines, stamp)) <==> forall e :: Defs(None, Kept(None, lines), e) > 0 ==> Welcomes(lines, e)
    ensures (forall e :: Defs(None, lines, e) > 0 ==> Welcomes(lines, e)) ==> Parses(Synced(lines, stamp))
  {
    var kept, brought := (d: Def) => Defs(None, Kept(None, lines), d), (d: Def) => Brought(lines, d);
    RetiringKeepsForm(lines);
    BroughtApart(lines);
    ParsesIff(lines, stamp);
    ApartSame(kept, d => Defs(None, Kept(None, lines), d));
    ApartSum(kept, brought, d => DefsAfter(lines, d));
    forall d ensures (brought(d) > 0 <==> Brings(lines, d)) && kept(d) <= Defs(None, lines, d) {
      BroughtOnce(lines, d);
      KeptDefines(None, None, lines, d);
    }
    BesideWelcomes(lines, kept, brought);
  }

  lemma {:induction false} BesideWelcomes(lines: seq<Line>, kept: Def -> nat, brought: Def -> nat)
    requires forall d :: brought(d) > 0 <==> Brings(lines, d)
    ensures Beside(kept, brought) <==> forall e :: kept(e) > 0 ==> Welcomes(lines, e)
  {
  }

  // ---------------------------------------------------------------------------------------
  // A pin outside double quotes is pinned again
  // ---------------------------------------------------------------------------------------

  lemma {:induction false} HasDefines(cur: Option<Section>, lines: seq<Line>, sec: Section, k: Key)
    ensures (if Has(cur, lines, Some(sec), Probe(k, Quotes)) then 1 else 0)
          + (if Has(cur, lines, Some(sec), Probe(k, Bare)) then 1 else 0)
         <= Defs(cur, lines, Def(KeyPath(Some(sec), k), true))
    decreases |lines|
  {
    if lines != [] {
      HasDefines(TomlSection(cur, lines[0]), lines[1..], sec, k);
    }
  }

  /** A tier table with a model in double quotes, and a version or an effort outside them, has that pin twice
      after a pass, which no reader of the file accepts. */
  lemma {:induction false} BarePinBreaks(lines: seq<Line>, stamp: string, t: TierName, k: Key)
    requires NoArrays(lines) && IsTarget(t) && (k == Version || k == Effort)
    requires TierHas(lines, t, Model, Quotes) && TierHas(lines, t, k, Bare)
    ensures !Parses(Synced(lines, stamp))
  {
    SyncedHas(lines, stamp, Some(Tier(t)), Probe(k, Quotes));
    SyncedHas(lines, stamp, Some(Tier(t)), Probe(k, Bare));
    HasDefines(None, Synced(lines, stamp), Tier(t), k);
    var d := PinDef(t, k);
    if WellFormed(Synced(lines, stamp)) {
      OneOfEach(Synced(lines, stamp), d);
    }
  }

  /** So `effort = 'high'`, at the target already, breaks a file that parses. */
  lemma {:induction false} SecondEffortClashes(stamp: string)
    ensures exists lines :: Breaks(lines, stamp) && PlainRetired(None, lines)
  {
    SecondEffortBreaks(Quoted(Canonical, Model, "opus", Rest("")), Assign(Canonical, Effort, Literal("high")), stamp);
  }

  lemma {:induction false} SecondEffortBreaks(model: Line, effort: Line, stamp: string)
    requires model.Quoted? && model.key == Model && effort == Assign(Canonical, Effort, Literal("high"))
    ensures Breaks([Header(Tier(Huge), Rest("")), model] + [effort], stamp)
    ensures PlainRetired(None, [Header(Tier(Huge), Rest("")), model] + [effort])
  {
    var head, sec := Header(Tier(Huge), Rest("")), Some(Tier(Huge));
    var lines := [head, model] + [effort];
    assert lines[1..] == [model, effort] && lines[1..][1..] == [effort] && [effort][1..] == [];
    assert Has(sec, [effort], sec, Probe(Effort, Bare));
    assert Has(sec, lines[1..], sec, Probe(Model, Quotes)) && Has(sec, lines[1..], sec, Probe(Effort, Bare));
    BarePinBreaks(lines, stamp, Huge, Effort);
    SecondEffortInput(lines, model, effort);
    assert PlainRetired(sec, [effort]) && PlainRetired(sec, lines[1..]);
  }

  lemma {:induction false} SecondEffortInput(lines: seq<Line>, model: Line, effort: Line)
    requires model.Quoted? && model.key == Model && effort == Assign(Canonical, Effort, Literal("high"))
    requires lines == [Header(Tier(Huge), Rest("")), model] + [effort]
    ensures Parses(lines)
  {
    var sec := Tier(Huge);
    var a, b, c := Def(SectionName(sec), false), PinDef(Huge, Model), PinDef(Huge, Effort);
    assert WrittenIn(sec, Model) && WrittenIn(sec, Effort);
    PathsDiffer(sec, Model, Effort);
    forall d ensures Defs(None, lines, d) == One(a, d) + One(b, d) + One(c, d) {
      OneTable(None, sec, model, d);
      DefsConcat(None, [lines[0], model], [effort], d);
      DefsOfOne(Some(sec), effort, d);
    }
    forall d, e | Defs(None, lines, d) > 0 && Defs(None, lines, e) > 0 && (d != e || Defs(None, lines, d) > 1)
      ensures !Clash(d, e)
    {
      OwnsApart(sec, sec, d, e);
    }
    ScanNeutral(Some(false), lines);
  }
}
