/** The checks of tools/fleet-sync/audit-project-conf.py, as the specification the rewriter is judged by. */
module ConfAudit {
  import opened Options
  import opened ConfLines
  import opened ConfSync
  import opened ConfFixpoint
  import opened ConfParse

  // ---------------------------------------------------------------------------------------
  // What the audit sees
  // ---------------------------------------------------------------------------------------

  predicate Any(lines: seq<Line>, p: Probe) {
    exists l :: l in lines && Hit(l, p)
  }

  /** Table `sec` (`None` for the top level) has the key, in that form. */
  predicate Has(cur: Option<Section>, lines: seq<Line>, sec: Option<Section>, p: Probe)
    decreases |lines|
  {
    lines != [] &&
    (var here := TomlSection(cur, lines[0]);
     (here == sec && Hit(lines[0], p)) || Has(here, lines[1..], sec, p))
  }

  /** Every quoted value of the key in table `sec` is the wanted one. */
  predicate AllSetTo(cur: Option<Section>, lines: seq<Line>, sec: Section, k: Key, want: string)
    decreases |lines|
  {
    lines == [] ||
    (var here := TomlSection(cur, lines[0]);
     && (here == Some(sec) && IsPinLine(lines[0], k) ==> lines[0].value == want)
     && AllSetTo(here, lines[1..], sec, k, want))
  }

  predicate TierHas(lines: seq<Line>, t: TierName, k: Key, f: Form) {
    Has(None, lines, Some(Tier(t)), Probe(k, f))
  }

  /** The tier has the key, and wherever it does, in quotes of either kind, as the wanted string. */
  predicate KeyIs(lines: seq<Line>, t: TierName, k: Key, want: string) {
    && (TierHas(lines, t, k, Quotes) || TierHas(lines, t, k, Bare))
    && AllSetTo(None, lines, Tier(t), k, want) && !TierHas(lines, t, k, BareNot(want))
  }

  /** The audit's tier check. A tier with no table falls back to a default that pins no version, and
      so never passes. */
  predicate TierPasses(lines: seq<Line>, t: TierName) {
    HasHeader(lines, Tier(t)) && KeyIs(lines, t, Model, TargetModel(t)) && KeyIs(lines, t, Version, TARGET_VERSION)
  }

  /** A retired table written as a value: a key of that name that is not empty, or one inside an inline
      `fleet`. */
  predicate GoneInline(lines: seq<Line>, g: GoneTable) {
    Has(None, lines, GoneParent(g), Probe(Word(GoneKey(g)), Full))
    || (!g.Autonomous? && Has(None, lines, None, Probe(Word("fleet"), Within(GoneKey(g)))))
  }

  /** The audit complains of a retired table that still holds something: a key, a sub-table, or a value. */
  ghost predicate GoneTableFails(lines: seq<Line>, g: GoneTable) {
    || (exists p :: Has(None, lines, Some(Gone(g)), p))
    || (exists rest :: HasHeader(lines, UnderGone(g, rest)))
    || GoneInline(lines, g)
  }

  /** A sub-table named by a retired key. */
  function UnderKey(sec: Section, k: Key, rest: string): Section {
    if sec == PrReview then UnderReview(k, rest) else UnderStages(k, rest)
  }

  /** The key a table with retired keys would have as a value. */
  function HostKey(sec: Section): Key {
    Word(SectionName(sec))
  }

  /** The audit looks a retired key up in its table, and finds a key, a sub-table, or a name in the value
      that stands for the table. */
  ghost predicate RetiredKeyFails(lines: seq<Line>, sec: Section, k: Key) {
    || Has(None, lines, Some(sec), Probe(k, Quotes)) || Has(None, lines, Some(sec), Probe(k, Bare))
    || (exists rest :: HasHeader(lines, UnderKey(sec, k, rest)))
    || Has(None, lines, None, Probe(HostKey(sec), Lists(KeyName(k))))
  }

  /** The audit reads top-level directories, in quotes of either kind. */
  function TopRead(lines: seq<Line>, k: Key): Option<string> {
    match TopMatch(lines, Probe(k, Form.Any))
    case None => None
    case Some(l) => ReadsAs(l)
  }

  predicate NestingFails(lines: seq<Line>) {
    Nested(TopRead(lines, TrackingDir), TopRead(lines, ArchiveDir))
  }

  predicate Unset(dir: Option<string>) {
    dir.None? || dir.value == ""
  }

  predicate DirectoriesSet(lines: seq<Line>) {
    !Unset(TopRead(lines, TrackingDir)) && !Unset(TopRead(lines, ArchiveDir))
  }

  ghost predicate TiersClean(lines: seq<Line>) {
    forall t :: IsTarget(t) ==> TierPasses(lines, t)
  }

  ghost predicate TablesClean(lines: seq<Line>) {
    forall g :: !GoneTableFails(lines, g)
  }

  ghost predicate KeysClean(lines: seq<Line>) {
    forall sec, k :: RetiredKey(Some(sec), k) ==> !RetiredKeyFails(lines, sec, k)
  }

  /** Gathering the items for review raises: one of the tables looked into is something else. */
  predicate ReviewRaises(lines: seq<Line>) {
    || Has(None, lines, None, Probe(Word("pr_review"), NoTable))
    || Has(None, lines, None, Probe(Word("workflow"), NoTable))
    || Has(None, lines, None, Probe(Word("complexity"), NoTable))
    || Has(None, lines, None, Probe(Word("fleet"), NoTable))
    || Has(None, lines, None, Probe(Word("fleet"), HoldsNoTable("agents")))
    || Has(None, lines, Some(Table("fleet")), Probe(Word("agents"), NoTable))
  }

  /** The file parses, the audit runs to its end, and its list of failures is empty. */
  ghost predicate AuditClean(lines: seq<Line>) {
    && Parses(lines)
    && TiersClean(lines) && TablesClean(lines) && KeysClean(lines)
    && DirectoriesSet(lines) && !NestingFails(lines)
    && !ReviewRaises(lines)
  }

  // ---------------------------------------------------------------------------------------
  // Following a key through a pass
  // ---------------------------------------------------------------------------------------

  lemma {:induction false} HasConcat(cur: Option<Section>, a: seq<Line>, b: seq<Line>, sec: Option<Section>, p: Probe)
    ensures Has(cur, a + b, sec, p) <==> Has(cur, a, sec, p) || Has(TomlAfter(cur, a), b, sec, p)
    decreases |a|
  {
    if a == [] {
      assert a + b == b;
    } else {
      assert (a + b)[1..] == a[1..] + b;
      HasConcat(TomlSection(cur, a[0]), a[1..], b, sec, p);
    }
  }

  lemma {:induction false} HasFlat(cur: Option<Section>, lines: seq<Line>, sec: Option<Section>, p: Probe)
    requires forall l :: l in lines ==> !l.Header? && !l.ArrayHeader?
    ensures Has(cur, lines, sec, p) <==> cur == sec && Any(lines, p)
    ensures TomlAfter(cur, lines) == cur
    decreases |lines|
  {
    if lines != [] {
      HasFlat(cur, lines[1..], sec, p);
      assert lines == [lines[0]] + lines[1..];
    }
  }

  lemma {:induction false} AnyConcat(a: seq<Line>, b: seq<Line>, p: Probe)
    ensures Any(a + b, p) <==> Any(a, p) || Any(b, p)
  {
    if Any(a, p) {
      var l :| l in a && Hit(l, p);
      assert l in a + b;
    }
    if Any(b, p) {
      var l :| l in b && Hit(l, p);
      assert l in a + b;
    }
  }

  /** The key is an identifier, the table not a retired one, and a form that looks into a value is asked of
      keys no rule is about. */
  predicate Probed(sec: Option<Section>, p: Probe) {
    && !InGone(sec) && !p.key.Dashed?
    && (LooksInside(p.form) ==> p.key.Word? || p.key == Provider || (p.key == Effort && sec == Some(PrReview)))
  }

  /** A closed table gains what `p` asks for. */
  predicate Adds(cur: Option<Section>, blk: seq<Line>, p: Probe) {
    InTargetTier(cur) && HasPin(blk, Model) && (p.form.Quotes? || p.form.Any?)
    && ((p.key == Version && !HasPin(blk, Version)) || (p.key == Effort && !HasPin(blk, Effort)))
  }

  lemma {:induction false} CloseAny(cur: Option<Section>, blk: seq<Line>, stamp: string, p: Probe)
    requires Probed(cur, p) || p.form.Quotes?
    ensures Any(Close(cur, blk, stamp), p) <==> Any(blk, p) || Adds(cur, blk, p)
  {
    CloseMembers(cur, blk, stamp);
    if Adds(cur, blk, p) {
      var l := if p.key == Version then VersionLine(stamp) else EffortLine(stamp);
      assert l in Fill(blk, stamp) && Hit(l, p);
    }
  }

  lemma {:induction false} InertNoHit(blk: seq<Line>, p: Probe)
    requires !p.key.Dashed? && forall l :: l in blk ==> Inert(l)
    ensures !Any(blk, p)
  {
  }

  lemma {:induction false} CloseHas(pcur: Option<Section>, cur: Option<Section>, blk: seq<Line>, stamp: string,
          sec: Option<Section>, p: Probe)
    requires BlockOk(cur, blk) && NoArrays(blk) && Probed(sec, p) && (cur.None? ==> pcur.None?)
    ensures Has(pcur, Close(cur, blk, stamp), sec, p) <==> cur == sec && (Any(blk, p) || Adds(cur, blk, p))
    ensures TomlAfter(pcur, Close(cur, blk, stamp)) == Landing(pcur, cur)
  {
    if InGone(cur) || cur.None? {
      HasFlat(pcur, blk, sec, p);
      if InGone(cur) {
        InertNoHit(blk, p);
      }
    } else {
      TableHas(cur, blk, stamp, sec, p);
    }
  }

  lemma {:induction false} TableHas(cur: Option<Section>, blk: seq<Line>, stamp: string, sec: Option<Section>, p: Probe)
    requires BlockOk(cur, blk) && NoArrays(blk) && Probed(sec, p) && cur.Some? && !InGone(cur)
    ensures forall pcur ::
              Has(pcur, Close(cur, blk, stamp), sec, p) <==> cur == sec && (Any(blk, p) || Adds(cur, blk, p))
    ensures forall pcur :: TomlAfter(pcur, Close(cur, blk, stamp)) == cur
  {
    var all := Close(cur, blk, stamp);
    if cur == sec {
      CloseAny(cur, blk, stamp, p);
    }
    CloseMembers(cur, blk, stamp);
    CloseTail(cur, blk, stamp);
    FillIsKeys(blk, stamp);
    HasFlat(cur, all[1..], sec, p);
    assert all == [all[0]] + all[1..];
    AnyConcat([all[0]], all[1..], p);
    assert !Hit(all[0], p) && !Any([all[0]], p);
  }

  /** How a key line fares: kept in its form, unless its table or the key itself is retired. */
  lemma {:induction false} RewriteHit(cur: Option<Section>, nest: Option<Move>, stamp: string, l: Line, p: Probe)
    requires !l.Header? && (InGone(cur) || Probed(cur, p)) && !p.key.Dashed?
    ensures Hit(Rewrite(cur, nest, stamp, l), p) <==> Hit(l, p) && !InGone(cur) && !RetiredKey(cur, p.key)
  {
  }

  /** Some table `sec` of the rest, as the rewriter cuts tables, pins a model. */
  predicate PinsModel(cur: Option<Section>, blk: seq<Line>, rest: seq<Line>, sec: Option<Section>) {
    (cur == sec && HasPin(blk, Model)) || Has(cur, rest, sec, Probe(Model, Quotes))
  }

  /** Table `sec` will hold key `p`: it does already and the key is not retired, or it is a version or
      effort and the table pins a target tier's model. */
  predicate WillHave(cur: Option<Section>, blk: seq<Line>, rest: seq<Line>, sec: Option<Section>, p: Probe) {
    || (cur == sec && Any(blk, p))
    || (Has(cur, rest, sec, p) && !RetiredKey(sec, p.key))
    || (InTargetTier(sec) && p.form.Quotes? && (p.key == Version || p.key == Effort) && PinsModel(cur, blk, rest, sec))
  }

  lemma {:induction false} WillHaveAtEnd(cur: Option<Section>, blk: seq<Line>, sec: Option<Section>, p: Probe)
    requires !p.form.Any?
    ensures WillHave(cur, blk, [], sec, p) <==> cur == sec && (Any(blk, p) || Adds(cur, blk, p))
  {
    AnyIsPin(blk, p);
  }

  lemma {:induction false} AnyIsPin(blk: seq<Line>, p: Probe)
    ensures p.form.Quotes? ==> (Any(blk, p) <==> HasPin(blk, p.key))
  {
    if Any(blk, p) {
      var l :| l in blk && Hit(l, p);
    }
    if p.form.Quotes? && HasPin(blk, p.key) {
      var l :| l in blk && IsPinLine(l, p.key);
      assert Hit(l, p);
    }
  }

  lemma {:induction false} WillHaveAtHeader(cur: Option<Section>, blk: seq<Line>, rest: seq<Line>, l: Line,
          sec: Option<Section>, p: Probe)
    requires rest != [] && rest[0].Header? && !IsKeyLine(l)
    ensures WillHave(cur, blk, rest, sec, p)
       <==> WillHave(cur, blk, [], sec, p) || WillHave(Some(rest[0].sec), [l], rest[1..], sec, p)
  {
    assert !Any([l], p) && !HasPin([l], Model);
  }

  lemma {:induction false} WillHaveAtLine(cur: Option<Section>, blk: seq<Line>, rest: seq<Line>, l: Line,
          sec: Option<Section>, p: Probe)
    requires rest != [] && !rest[0].Header? && !rest[0].ArrayHeader? && Probed(sec, p)
    requires cur == sec ==> (Hit(l, p) <==> Hit(rest[0], p) && !RetiredKey(cur, p.key))
    requires cur == sec ==> (IsPinLine(l, Model) <==> IsPinLine(rest[0], Model))
    ensures WillHave(cur, blk, rest, sec, p) <==> WillHave(cur, blk + [l], rest[1..], sec, p)
  {
    AnyConcat(blk, [l], p);
    PinAppend(blk, l, Model);
    assert Any([l], p) <==> Hit(l, p) by { assert l in [l]; }
  }

  /** After a pass, table `sec` holds exactly the keys it will have. */
  lemma {:induction false} FinishHas(pcur: Option<Section>, cur: Option<Section>, blk: seq<Line>, rest: seq<Line>,
          nest: Option<Move>, stamp: string, sec: Option<Section>, p: Probe)
    requires BlockOk(cur, blk) && NoArrays(blk) && NoArrays(rest) && (cur.None? ==> pcur.None?)
    requires Probed(sec, p) && !p.form.Any?
    ensures Has(pcur, Finish(cur, blk, rest, nest, stamp), sec, p) <==> WillHave(cur, blk, rest, sec, p)
    decreases |rest|
  {
    if rest == [] {
      CloseHas(pcur, cur, blk, stamp, sec, p);
      WillHaveAtEnd(cur, blk, sec, p);
    } else {
      var here := SectionAt(cur, rest[0]);
      var l := Rewrite(here, nest, stamp, rest[0]);
      assert rest[0] in rest && NoArrays(rest[1..]);
      if rest[0].Header? {
        CloseHas(pcur, cur, blk, stamp, sec, p);
        WillHaveAtEnd(cur, blk, sec, p);
        HeaderBlock(here, rest[0], nest, stamp);
        FinishHas(Landing(pcur, cur), here, [l], rest[1..], nest, stamp, sec, p);
        HasConcat(pcur, Close(cur, blk, stamp), Finish(here, [l], rest[1..], nest, stamp), sec, p);
        WillHaveAtHeader(cur, blk, rest, l, sec, p);
      } else {
        LineBlock(cur, blk, rest[0], nest, stamp);
        if cur == sec {
          RewriteHit(cur, nest, stamp, rest[0], p);
          RewriteHit(cur, nest, stamp, rest[0], Probe(Model, Quotes));
        }
        FinishHas(pcur, cur, blk + [l], rest[1..], nest, stamp, sec, p);
        WillHaveAtLine(cur, blk, rest, l, sec, p);
      }
    }
  }

  // ---------------------------------------------------------------------------------------
  // Appended tables
  // ---------------------------------------------------------------------------------------

  lemma {:induction false} NoHeaderNoKeys(cur: Option<Section>, lines: seq<Line>, sec: Section, p: Probe)
    requires cur != Some(sec) && !HasHeader(lines, sec) && NoArrays(lines)
    ensures !Has(cur, lines, Some(sec), p) && TomlAfter(cur, lines) != Some(sec)
    decreases |lines|
  {
    if lines != [] {
      assert lines == [lines[0]] + lines[1..];
      HeaderConcat([lines[0]], lines[1..], sec);
      OneHeader(lines[0], sec);
      assert lines[0] in lines && NoArrays(lines[1..]);
      NoHeaderNoKeys(TomlSection(cur, lines[0]), lines[1..], sec, p);
    }
  }

  lemma {:induction false} TableKeys(cur: Option<Section>, table: seq<Line>, sec: Option<Section>, p: Probe)
    requires table != [] && table[0].Header? && forall l :: l in table[1..] ==> !l.Header? && !l.ArrayHeader?
    ensures Has(cur, [Blank("")] + table, sec, p) <==> sec == Some(table[0].sec) && Any(table[1..], p)
    ensures TomlAfter(cur, [Blank("")] + table) == Some(table[0].sec)
  {
    assert ([Blank("")] + table)[1..] == table;
    HasFlat(Some(table[0].sec), table[1..], sec, p);
  }

  /** What `p` finds in the tables that are appended. */
  predicate Appended(lines: seq<Line>, stamp: string, sec: Option<Section>, p: Probe) {
    sec.Some? && !HasHeader(lines, sec.value)
    && ((InTargetTier(sec) && Any(TierTable(sec.value.tier, stamp)[1..], p))
        || (sec == Some(PrReview) && Any(PrReviewTable(stamp)[1..], p)))
  }

  lemma {:induction false} MissingTiersHas(cur: Option<Section>, lines: seq<Line>, tiers: seq<TierName>, stamp: string,
          sec: Option<Section>, p: Probe)
    ensures Has(cur, MissingTiers(lines, tiers, stamp), sec, p)
       <==> sec.Some? && sec.value.Tier? && sec.value.tier in tiers && !HasHeader(lines, sec.value)
            && Any(TierTable(sec.value.tier, stamp)[1..], p)
    decreases |tiers|
  {
    if tiers != [] {
      if HasHeader(lines, Tier(tiers[0])) {
        MissingTiersHas(cur, lines, tiers[1..], stamp, sec, p);
        assert MissingTiers(lines, tiers, stamp) == MissingTiers(lines, tiers[1..], stamp);
      } else {
        var chunk := [Blank("")] + TierTable(tiers[0], stamp);
        TableKeys(cur, TierTable(tiers[0], stamp), sec, p);
        MissingTiersHas(Some(Tier(tiers[0])), lines, tiers[1..], stamp, sec, p);
        HasConcat(cur, chunk, MissingTiers(lines, tiers[1..], stamp), sec, p);
      }
    }
  }

  lemma {:induction false} MissingPrHas(cur: Option<Section>, lines: seq<Line>, stamp: string, sec: Option<Section>,
          p: Probe)
    ensures Has(cur, MissingPr(lines, stamp), sec, p)
       <==> sec == Some(PrReview) && !HasHeader(lines, PrReview) && Any(PrReviewTable(stamp)[1..], p)
  {
    if !HasHeader(lines, PrReview) {
      TableKeys(cur, PrReviewTable(stamp), sec, p);
    }
  }

  lemma {:induction false} MissingHas(cur: Option<Section>, lines: seq<Line>, stamp: string, sec: Option<Section>,
          p: Probe)
    ensures Has(cur, Missing(lines, stamp) + [Blank("")], sec, p) <==> Appended(lines, stamp, sec, p)
  {
    var tiers, pr := MissingTiers(lines, TIER_ORDER, stamp), MissingPr(lines, stamp);
    MissingTiersHas(cur, lines, TIER_ORDER, stamp, sec, p);
    MissingPrHas(TomlAfter(cur, tiers), lines, stamp, sec, p);
    HasConcat(cur, tiers, pr, sec, p);
    HasConcat(cur, tiers + pr, [Blank("")], sec, p);
    HasFlat(TomlAfter(cur, tiers + pr), [Blank("")], sec, p);
  }

  lemma {:induction false} TierBodyAny(t: TierName, stamp: string, p: Probe)
    ensures p.key == Model || p.key == Version
        ==> (Any(TierTable(t, stamp)[1..], p) <==> Hit(TierPin(t, p.key, stamp), p))
    ensures p.key.Word? ==> !Any(TierTable(t, stamp)[1..], p)
  {
    var body := TierTable(t, stamp)[1..];
    assert body[1] == TierPin(t, Model, stamp) && body[2] == TierPin(t, Version, stamp);
    assert body[1] in body && body[2] in body;
  }

  /** The line of an appended tier table that pins its model or version. */
  function TierPin(t: TierName, k: Key, stamp: string): Line {
    if k == Model then Quoted(Canonical, Model, TargetModel(t), Rest("")) else VersionLine(stamp)
  }

  lemma {:induction false} PrBodyAny(stamp: string, p: Probe)
    requires p.key.Word? || RetiredKey(Some(PrReview), p.key)
    ensures !Any(PrReviewTable(stamp)[1..], p)
  {
  }

  // ---------------------------------------------------------------------------------------
  // What the audit finds after one pass
  // ---------------------------------------------------------------------------------------

  lemma {:induction false} SyncedHas(lines: seq<Line>, stamp: string, sec: Option<Section>, p: Probe)
    requires NoArrays(lines) && Probed(sec, p) && !p.form.Any?
    ensures Has(None, Synced(lines, stamp), sec, p)
        <==> WillHave(None, [], lines, sec, p) || Appended(lines, stamp, sec, p)
  {
    var body, add := Body(lines, stamp), Missing(lines, stamp);
    FinishHas(None, None, [], lines, NestedFix(lines), stamp, sec, p);
    MissingHas(TomlAfter(None, TrimBlanks(body)), lines, stamp, sec, p);
    JoinedHas(body, add, sec, p);
  }

  /** The trimmed body and what is appended to it, if anything is. */
  lemma {:induction false} JoinedHas(body: seq<Line>, add: seq<Line>, sec: Option<Section>, p: Probe)
    ensures Has(None, if add == [] then body else TrimBlanks(body) + add + [Blank("")], sec, p)
        <==> Has(None, body, sec, p) || Has(TomlAfter(None, TrimBlanks(body)), add + [Blank("")], sec, p)
  {
    var kept := TrimBlanks(body);
    if add == [] {
      assert add + [Blank("")] == [Blank("")];
      HasFlat(TomlAfter(None, kept), [Blank("")], sec, p);
    } else {
      var blanks := TrimSplits(body);
      HasConcat(None, kept, blanks, sec, p);
      HasFlat(TomlAfter(None, kept), blanks, sec, p);
      HasConcat(None, kept, add + [Blank("")], sec, p);
      assert kept + (add + [Blank("")]) == kept + add + [Blank("")];
    }
  }

  /** A key no rule is about is found afterwards where it was, and as it was. */
  lemma {:induction false} SyncedWord(lines: seq<Line>, stamp: string, sec: Option<Section>, p: Probe)
    requires NoArrays(lines) && Probed(sec, p) && p.key.Word? && !p.form.Any?
    ensures Has(None, Synced(lines, stamp), sec, p) <==> Has(None, lines, sec, p)
  {
    SyncedHas(lines, stamp, sec, p);
    if sec.Some? && sec.value.Tier? {
      TierBodyAny(sec.value.tier, stamp, p);
    }
    PrBodyAny(stamp, p);
  }

  lemma {:induction false} FineSetsPins(t: Pins, lines: seq<Line>, tier: TierName)
    requires Fine(t, lines) && NoArrays(lines) && IsTarget(tier)
    ensures AllSetTo(t.cur, lines, Tier(tier), Model, TargetModel(tier))
    ensures AllSetTo(t.cur, lines, Tier(tier), Version, TARGET_VERSION)
    decreases |lines|
  {
    if lines != [] {
      assert lines[0] in lines && NoArrays(lines[1..]);
      FineSetsPins(Next(t, lines[0]), lines[1..], tier);
    }
  }

  lemma {:induction false} FinishNoArrays(cur: Option<Section>, blk: seq<Line>, rest: seq<Line>, nest: Option<Move>,
          stamp: string)
    requires NoArrays(blk) && NoArrays(rest)
    ensures NoArrays(Finish(cur, blk, rest, nest, stamp))
    decreases |rest|
  {
    CloseMembers(cur, blk, stamp);
    FillIsKeys(blk, stamp);
    if rest != [] {
      var l := Rewrite(SectionAt(cur, rest[0]), nest, stamp, rest[0]);
      assert rest[0] in rest && NoArrays(rest[1..]);
      RewriteKeepsKind(SectionAt(cur, rest[0]), nest, stamp, rest[0]);
      assert NoArrays([l]) && NoArrays(blk + [l]);
      FinishNoArrays(SectionAt(cur, rest[0]), if rest[0].Header? then [l] else blk + [l], rest[1..], nest, stamp);
    }
  }

  lemma {:induction false} SyncedNoArrays(lines: seq<Line>, stamp: string)
    requires NoArrays(lines)
    ensures NoArrays(Synced(lines, stamp))
  {
    FinishNoArrays(None, [], lines, NestedFix(lines), stamp);
    MissingTiersSimple(lines, TIER_ORDER, stamp);
    var blanks := TrimSplits(Body(lines, stamp));
    assert forall l :: l in TrimBlanks(Body(lines, stamp)) ==> l in Body(lines, stamp);
    assert NoArrays(MissingPr(lines, stamp));
  }

  /** What a tier table must be for one pass to bring it to the target: it has a model, one outside double
      quotes is the target's already, and so for the version, which may be absent if the model is in double
      quotes. */
  predicate TierRepairable(lines: seq<Line>, t: TierName) {
    && (TierHas(lines, t, Model, Quotes) || TierHas(lines, t, Model, Bare))
    && (TierHas(lines, t, Model, Quotes) || TierHas(lines, t, Version, Quotes) || TierHas(lines, t, Version, Bare))
    && !TierHas(lines, t, Model, BareNot(TargetModel(t))) && !TierHas(lines, t, Version, BareNot(TARGET_VERSION))
  }

  /** After one pass the audit's check of a target tier passes if and only if the file had no table for it,
      or one that can be repaired. */
  lemma {:induction false} TierPassesIff(lines: seq<Line>, stamp: string, t: TierName)
    requires NoArrays(lines) && IsTarget(t)
    ensures TierPasses(Synced(lines, stamp), t) <==> (HasHeader(lines, Tier(t)) ==> TierRepairable(lines, t))
  {
    SyncedPinHas(lines, stamp, t, Model);
    SyncedPinHas(lines, stamp, t, Version);
    SyncedSetsPins(lines, stamp, t);
    SyncedHeaders(lines, stamp, Tier(t));
  }

  /** Where a tier's model and version come from. */
  lemma {:induction false} SyncedPinHas(lines: seq<Line>, stamp: string, t: TierName, k: Key)
    requires NoArrays(lines) && IsTarget(t) && (k == Model || k == Version)
    ensures TierHas(Synced(lines, stamp), t, k, Quotes)
       <==> || !HasHeader(lines, Tier(t)) || TierHas(lines, t, k, Quotes)
            || (k == Version && TierHas(lines, t, Model, Quotes))
    ensures TierHas(Synced(lines, stamp), t, k, Bare) <==> TierHas(lines, t, k, Bare)
    ensures TierHas(Synced(lines, stamp), t, k, BareNot(PinTarget(t, k)))
        <==> TierHas(lines, t, k, BareNot(PinTarget(t, k)))
    ensures !HasHeader(lines, Tier(t))
        ==> !TierHas(lines, t, k, Bare) && !TierHas(lines, t, k, BareNot(PinTarget(t, k)))
  {
    SyncedPinForm(lines, stamp, t, k, Quotes);
    SyncedPinForm(lines, stamp, t, k, Bare);
    SyncedPinForm(lines, stamp, t, k, BareNot(PinTarget(t, k)));
    if !HasHeader(lines, Tier(t)) {
      NoHeaderNoKeys(None, lines, Tier(t), Probe(k, Bare));
      NoHeaderNoKeys(None, lines, Tier(t), Probe(k, BareNot(PinTarget(t, k))));
    }
  }

  lemma {:induction false} SyncedPinForm(lines: seq<Line>, stamp: string, t: TierName, k: Key, f: Form)
    requires NoArrays(lines) && IsTarget(t) && (k == Model || k == Version) && (f.Quotes? || f.Bare? || f.BareNot?)
    ensures TierHas(Synced(lines, stamp), t, k, f)
       <==> || TierHas(lines, t, k, f)
            || (f.Quotes? && (!HasHeader(lines, Tier(t)) || (k == Version && TierHas(lines, t, Model, Quotes))))
  {
    SyncedHas(lines, stamp, Some(Tier(t)), Probe(k, f));
    TierBodyAny(t, stamp, Probe(k, f));
  }

  lemma {:induction false} SyncedSetsPins(lines: seq<Line>, stamp: string, t: TierName)
    requires NoArrays(lines) && IsTarget(t)
    ensures AllSetTo(None, Synced(lines, stamp), Tier(t), Model, TargetModel(t))
    ensures AllSetTo(None, Synced(lines, stamp), Tier(t), Version, TARGET_VERSION)
  {
    OnePassSettles(lines, stamp);
    SyncedNoArrays(lines, stamp);
    FineSetsPins(START, Synced(lines, stamp), t);
  }

  /** What a pass cannot take away of a retired table: its sub-tables, and the table written as a value. */
  ghost predicate GoneRemains(lines: seq<Line>, g: GoneTable) {
    (exists rest :: HasHeader(lines, UnderGone(g, rest))) || GoneInline(lines, g)
  }

  /** After one pass a retired table fails the audit if and only if the file has a sub-table of it, or has it
      as a value that is not empty. */
  lemma {:induction false} GoneTableFailsIff(lines: seq<Line>, stamp: string, g: GoneTable)
    requires NoArrays(lines)
    ensures GoneTableFails(Synced(lines, stamp), g) <==> GoneRemains(lines, g)
  {
    SyncedHeaders(lines, stamp, Gone(g));
    SyncedNoArrays(lines, stamp);
    forall p ensures !Has(None, Synced(lines, stamp), Some(Gone(g)), p) {
      NoHeaderNoKeys(None, Synced(lines, stamp), Gone(g), p);
    }
    forall rest ensures HasHeader(Synced(lines, stamp), UnderGone(g, rest)) <==> HasHeader(lines, UnderGone(g, rest)) {
      SyncedHeaders(lines, stamp, UnderGone(g, rest));
    }
    SyncedWord(lines, stamp, GoneParent(g), Probe(Word(GoneKey(g)), Full));
    SyncedWord(lines, stamp, None, Probe(Word("fleet"), Within(GoneKey(g))));
  }

  /** What a pass cannot take away of a retired key. */
  ghost predicate KeyRemains(lines: seq<Line>, sec: Section, k: Key) {
    (exists rest :: HasHeader(lines, UnderKey(sec, k, rest)))
      || Has(None, lines, None, Probe(HostKey(sec), Lists(KeyName(k))))
  }

  /** After one pass no line sets a retired key in its table, so it fails the audit if and only if the file
      has a sub-table named by it, or a value in the place of the table. */
  lemma {:induction false} RetiredKeyFailsIff(lines: seq<Line>, stamp: string, sec: Section, k: Key)
    requires NoArrays(lines) && RetiredKey(Some(sec), k)
    ensures RetiredKeyFails(Synced(lines, stamp), sec, k) <==> KeyRemains(lines, sec, k)
    ensures !Has(None, Synced(lines, stamp), Some(sec), Probe(k, Quotes))
        && !Has(None, Synced(lines, stamp), Some(sec), Probe(k, Bare))
  {
    RetiredKeyGone(lines, stamp, sec, Probe(k, Quotes));
    RetiredKeyGone(lines, stamp, sec, Probe(k, Bare));
    SyncedWord(lines, stamp, None, Probe(HostKey(sec), Lists(KeyName(k))));
    forall rest
      ensures HasHeader(Synced(lines, stamp), UnderKey(sec, k, rest)) <==> HasHeader(lines, UnderKey(sec, k, rest))
    {
      SyncedHeaders(lines, stamp, UnderKey(sec, k, rest));
    }
  }

  lemma {:induction false} RetiredKeyGone(lines: seq<Line>, stamp: string, sec: Section, p: Probe)
    requires NoArrays(lines) && RetiredKey(Some(sec), p.key) && (p.form.Quotes? || p.form.Bare?)
    ensures !Has(None, Synced(lines, stamp), Some(sec), p)
  {
    SyncedHas(lines, stamp, Some(sec), p);
    if sec == PrReview {
      PrBodyAny(stamp, p);
    }
  }

  /** The tracking directory the audit reads after one pass. */
  function TrackingLeft(lines: seq<Line>): Option<string> {
    match TopMatch(lines, Probe(TrackingDir, Form.Any))
    case None => None
    case Some(l) =>
      var nest := NestedFix(lines);
      if l.Quoted? && nest.Some? && l.value == nest.value.from then Some(nest.value.dest) else ReadsAs(l)
  }

  lemma {:induction false} TopReadAfter(lines: seq<Line>, stamp: string)
    ensures TopRead(Synced(lines, stamp), TrackingDir) == TrackingLeft(lines)
    ensures TopRead(Synced(lines, stamp), ArchiveDir) == TopRead(lines, ArchiveDir)
  {
    TopMatchHits(lines, Probe(TrackingDir, Form.Any));
    TopMatchHits(lines, Probe(ArchiveDir, Form.Any));
    TopMatchAfter(lines, stamp, Probe(TrackingDir, Form.Any));
    TopMatchAfter(lines, stamp, Probe(ArchiveDir, Form.Any));
  }

  /** After one pass the audit finds the archive nested if and only if the tracking directory the pass
      leaves still contains the top-level archive_dir it was given. */
  lemma {:induction false} NestingFailsIff(lines: seq<Line>, stamp: string)
    ensures NestingFails(Synced(lines, stamp)) <==> Nested(TrackingLeft(lines), TopRead(lines, ArchiveDir))
  {
    TopReadAfter(lines, stamp);
  }

  /** A pass sets no directory, and empties none. */
  lemma {:induction false} UnsetIff(lines: seq<Line>, stamp: string)
    ensures Unset(TopRead(Synced(lines, stamp), TrackingDir)) <==> Unset(TopRead(lines, TrackingDir))
    ensures Unset(TopRead(Synced(lines, stamp), ArchiveDir)) <==> Unset(TopRead(lines, ArchiveDir))
  {
    TopReadAfter(lines, stamp);
  }

  // ---------------------------------------------------------------------------------------
  // The whole verdict
  // ---------------------------------------------------------------------------------------

  ghost predicate TiersRepairable(lines: seq<Line>) {
    forall t :: IsTarget(t) && HasHeader(lines, Tier(t)) ==> TierRepairable(lines, t)
  }

  ghost predicate NothingRemains(lines: seq<Line>) {
    (forall g :: !GoneRemains(lines, g)) && forall sec, k :: RetiredKey(Some(sec), k) ==> !KeyRemains(lines, sec, k)
  }

  /** What one pass can bring to the target: told from the file as it is. */
  ghost predicate Repairable(lines: seq<Line>) {
    && Whole(Kept(None, lines)) && Apart(d => DefsAfter(lines, d))
    && TiersRepairable(lines) && NothingRemains(lines)
    && DirectoriesSet(lines) && !Nested(TrackingLeft(lines), TopRead(lines, ArchiveDir))
    && !ReviewRaises(lines)
  }

  lemma {:induction false} TiersCleanIff(lines: seq<Line>, stamp: string)
    requires NoArrays(lines)
    ensures TiersClean(Synced(lines, stamp)) <==> TiersRepairable(lines)
  {
    forall t | IsTarget(t)
      ensures TierPasses(Synced(lines, stamp), t) <==> (HasHeader(lines, Tier(t)) ==> TierRepairable(lines, t))
    {
      TierPassesIff(lines, stamp, t);
    }
  }

  lemma {:induction false} RetiredCleanIff(lines: seq<Line>, stamp: string)
    requires NoArrays(lines)
    ensures TablesClean(Synced(lines, stamp)) && KeysClean(Synced(lines, stamp)) <==> NothingRemains(lines)
  {
    forall g ensures GoneTableFails(Synced(lines, stamp), g) <==> GoneRemains(lines, g) {
      GoneTableFailsIff(lines, stamp, g);
    }
    forall sec, k | RetiredKey(Some(sec), k)
      ensures RetiredKeyFails(Synced(lines, stamp), sec, k) <==> KeyRemains(lines, sec, k)
    {
      RetiredKeyFailsIff(lines, stamp, sec, k);
    }
  }

  /** A pass does not touch what raises. */
  lemma {:induction false} ReviewRaisesIff(lines: seq<Line>, stamp: string)
    requires NoArrays(lines)
    ensures ReviewRaises(Synced(lines, stamp)) <==> ReviewRaises(lines)
  {
    SyncedWord(lines, stamp, None, Probe(Word("pr_review"), NoTable));
    SyncedWord(lines, stamp, None, Probe(Word("workflow"), NoTable));
    SyncedWord(lines, stamp, None, Probe(Word("complexity"), NoTable));
    SyncedWord(lines, stamp, None, Probe(Word("fleet"), NoTable));
    SyncedWord(lines, stamp, None, Probe(Word("fleet"), HoldsNoTable("agents")));
    SyncedWord(lines, stamp, Some(Table("fleet")), Probe(Word("agents"), NoTable));
  }

  /** One pass leaves a file that parses and that the audit finds nothing to say about if and only if: with
      its retired lines struck out no value is cut, and nothing then defined, gained or appended clashes;
      every target tier it has can be repaired; nothing of a retired table or key remains; both directories
      are set; the archive is not under the tracking directory the pass leaves; and no table the audit goes
      on to look into is something else. */
  lemma {:induction false} AuditCleanIff(lines: seq<Line>, stamp: string)
    requires NoArrays(lines)
    ensures AuditClean(Synced(lines, stamp)) <==> Repairable(lines)
  {
    ParsesIff(lines, stamp);
    TiersCleanIff(lines, stamp);
    RetiredCleanIff(lines, stamp);
    UnsetIff(lines, stamp);
    NestingFailsIff(lines, stamp);
    ReviewRaisesIff(lines, stamp);
  }
}
