/** When one pass of the config rewriter is enough, and that repeating it always ends. */
module ConfFixpoint {
  import opened Options
  import Seqs
  import opened ConfLines
  import opened ConfSync

  // ---------------------------------------------------------------------------------------
  // A scan that says whether a file is at the target already
  // ---------------------------------------------------------------------------------------

  datatype Pins = Pins(cur: Option<Section>, model: bool, version: bool, effort: bool)

  const START := Pins(None, false, false, false)

  /** A tier table that pins its model pins version and effort too. */
  predicate Pinned(t: Pins) {
    InTargetTier(t.cur) && t.model ==> t.version && t.effort
  }

  function Next(t: Pins, l: Line): Pins {
    if l.Header? then Pins(Some(l.sec), false, false, false)
    else
      Pins(t.cur, t.model || IsPinLine(l, Model), t.version || IsPinLine(l, Version),
           t.effort || IsPinLine(l, Effort))
  }

  function After(t: Pins, lines: seq<Line>): Pins
    decreases |lines|
  {
    if lines == [] then t else After(Next(t, lines[0]), lines[1..])
  }

  /** Nothing in section `cur` asks for this line to change. */
  predicate Quiet(cur: Option<Section>, l: Line) {
    RewriteNotes(cur, None, l) == []
  }

  predicate Fine(t: Pins, lines: seq<Line>)
    decreases |lines|
  {
    lines == [] ||
    (var t' := Next(t, lines[0]);
     (lines[0].Header? ==> Pinned(t)) && Quiet(t'.cur, lines[0]) && Fine(t', lines[1..]))
  }

  predicate Complete(lines: seq<Line>) {
    HasHeader(lines, Tier(Huge)) && HasHeader(lines, Tier(Large)) && HasHeader(lines, Tier(Medium))
    && HasHeader(lines, Tier(Small)) && HasHeader(lines, PrReview)
  }

  /** At the target, apart from an archive nested inside the tracking directory. */
  predicate Settled(lines: seq<Line>) {
    Fine(START, lines) && Pinned(After(START, lines)) && Complete(lines)
  }

  /** The first line of a key, in some form, above every header. */
  function TopMatch(lines: seq<Line>, p: Probe): Option<Line> {
    if lines == [] || lines[0].Header? then None
    else if Hit(lines[0], p) then Some(lines[0])
    else TopMatch(lines[1..], p)
  }

  function TopValue(lines: seq<Line>, k: Key): Option<string> {
    match TopMatch(lines, Probe(k, Quotes))
    case None => None
    case Some(l) => ReadsAs(l)
  }

  function TopTracking(lines: seq<Line>): Option<string> {
    TopValue(lines, TrackingDir)
  }

  /** The nested-directory rule has nothing left to move. */
  predicate Unnested(lines: seq<Line>) {
    !Nested(TopTracking(lines), FirstValue(lines, ArchiveDir))
  }

  lemma {:induction false} AfterConcat(t: Pins, a: seq<Line>, b: seq<Line>)
    ensures After(t, a + b) == After(After(t, a), b)
    ensures Fine(t, a + b) <==> Fine(t, a) && Fine(After(t, a), b)
    decreases |a|
  {
    if a == [] {
      assert a + b == b;
    } else {
      assert (a + b)[1..] == a[1..] + b;
      AfterConcat(Next(t, a[0]), a[1..], b);
    }
  }

  // ---------------------------------------------------------------------------------------
  // The output of a pass is settled
  // ---------------------------------------------------------------------------------------

  /** A line that no section can make the rewriter touch, and that pins nothing. */
  predicate Inert(l: Line) {
    !l.Header? && !l.YesNo? && !HasIdentKey(l)
  }

  /** What is known of the rewritten lines of the table being read. */
  ghost predicate BlockOk(cur: Option<Section>, blk: seq<Line>) {
    if InGone(cur) then forall l :: l in blk ==> Inert(l)
    else if cur.None? then forall l :: l in blk ==> !l.Header? && Quiet(cur, l)
    else
      && blk != [] && blk[0].Header? && Some(blk[0].sec) == cur
      && forall l :: l in blk[1..] ==> !l.Header? && Quiet(cur, l)
  }

  lemma {:induction false} RewriteSettles(cur: Option<Section>, nest: Option<Move>, stamp: string, l: Line)
    requires !l.Header?
    ensures !Rewrite(cur, nest, stamp, l).Header?
    ensures Quiet(cur, Rewrite(cur, nest, stamp, l))
    ensures InGone(cur) ==> Inert(Rewrite(cur, nest, stamp, l))
  {
  }

  lemma {:induction false} InertIsQuiet(cur: Option<Section>, l: Line)
    requires Inert(l)
    ensures Quiet(cur, l)
  {
  }

  lemma {:induction false} FlatFine(t: Pins, lines: seq<Line>)
    requires forall l :: l in lines ==> !l.Header? && Quiet(t.cur, l)
    ensures Fine(t, lines)
    ensures After(t, lines) == Pins(t.cur, t.model || HasPin(lines, Model), t.version || HasPin(lines, Version),
                                     t.effort || HasPin(lines, Effort))
    decreases |lines|
  {
    if lines != [] {
      FlatFine(Next(t, lines[0]), lines[1..]);
      assert lines == [lines[0]] + lines[1..];
    }
  }

  lemma {:induction false} FillIsQuiet(cur: Option<Section>, blk: seq<Line>, stamp: string)
    requires InTargetTier(cur)
    ensures forall l :: l in Fill(blk, stamp) ==> !l.Header? && Quiet(cur, l) && !IsPinLine(l, Model)
    ensures HasPin(blk + Fill(blk, stamp), Version) && HasPin(blk + Fill(blk, stamp), Effort)
  {
    var f := Fill(blk, stamp);
    if !HasPin(blk, Version) {
      assert VersionLine(stamp) in blk + f;
    }
    if !HasPin(blk, Effort) {
      assert EffortLine(stamp) in blk + f;
    }
  }

  lemma {:induction false} CloseMembers(cur: Option<Section>, blk: seq<Line>, stamp: string)
    ensures forall l :: l in blk ==> l in Close(cur, blk, stamp)
    ensures forall l :: l in Close(cur, blk, stamp) ==> l in blk || (InTargetTier(cur) && l in Fill(blk, stamp))
    ensures InTargetTier(cur) && HasPin(blk, Model) ==>
              forall l :: l in Fill(blk, stamp) ==> l in Close(cur, blk, stamp)
    ensures blk != [] ==> Close(cur, blk, stamp) != [] && Close(cur, blk, stamp)[0] == blk[0]
  {
    if InTargetTier(cur) && LastModel(blk).Some? {
      var m := LastModel(blk).value;
      assert blk == blk[..m + 1] + blk[m + 1..];
    }
  }

  lemma {:induction false} CloseTail(cur: Option<Section>, blk: seq<Line>, stamp: string)
    requires blk != [] && blk[0].Header?
    ensures forall l :: l in Close(cur, blk, stamp)[1..] ==>
              l in blk[1..] || (InTargetTier(cur) && l in Fill(blk, stamp))
  {
    if InTargetTier(cur) && LastModel(blk).Some? {
      var m := LastModel(blk).value;
      assert m > 0;
      Seqs.Inserted(blk, m, Fill(blk, stamp));
    }
  }

  /** A closed table is fine wherever it follows a properly pinned one, and is properly pinned itself. */
  lemma {:induction false} CloseFine(cur: Option<Section>, blk: seq<Line>, stamp: string, t: Pins)
    requires BlockOk(cur, blk) && Pinned(t) && (cur.None? ==> t == START)
    ensures Fine(t, Close(cur, blk, stamp)) && Pinned(After(t, Close(cur, blk, stamp)))
  {
    if InGone(cur) {
      forall l | l in blk ensures !l.Header? && Quiet(t.cur, l) && !IsPinLine(l, Model) {
        InertIsQuiet(t.cur, l);
      }
      FlatFine(t, blk);
    } else if cur.None? {
      FlatFine(t, blk);
    } else {
      var all := Close(cur, blk, stamp);
      CloseMembers(cur, blk, stamp);
      CloseTail(cur, blk, stamp);
      var head, body := all[0], all[1..];
      var t' := Next(t, head);
      if InTargetTier(cur) {
        FillIsQuiet(cur, blk, stamp);
      }
      FlatFine(t', body);
      if InTargetTier(cur) && HasPin(body, Model) {
        ClosePins(cur, blk, stamp);
      }
    }
  }

  lemma {:induction false} PinInTail(all: seq<Line>, l: Line, k: Key)
    requires all != [] && all[0].Header? && l in all && IsPinLine(l, k)
    ensures HasPin(all[1..], k)
  {
    assert all == [all[0]] + all[1..];
    assert l in all[1..];
  }

  lemma {:induction false} ClosePins(cur: Option<Section>, blk: seq<Line>, stamp: string)
    requires InTargetTier(cur) && blk != [] && blk[0].Header?
    requires HasPin(Close(cur, blk, stamp)[1..], Model)
    ensures HasPin(Close(cur, blk, stamp)[1..], Version) && HasPin(Close(cur, blk, stamp)[1..], Effort)
  {
    var all := Close(cur, blk, stamp);
    CloseMembers(cur, blk, stamp);
    CloseTail(cur, blk, stamp);
    FillIsQuiet(cur, blk, stamp);
    var m :| m in all[1..] && IsPinLine(m, Model);
    assert m in blk;
    var v :| v in blk + Fill(blk, stamp) && IsPinLine(v, Version);
    var e :| e in blk + Fill(blk, stamp) && IsPinLine(e, Effort);
    PinInTail(all, v, Version);
    PinInTail(all, e, Effort);
  }

  lemma {:induction false} FinishFine(cur: Option<Section>, blk: seq<Line>, rest: seq<Line>, nest: Option<Move>,
          stamp: string, t: Pins)
    requires BlockOk(cur, blk) && Pinned(t) && (cur.None? ==> t == START)
    ensures Fine(t, Finish(cur, blk, rest, nest, stamp)) && Pinned(After(t, Finish(cur, blk, rest, nest, stamp)))
    decreases |rest|
  {
    if rest == [] {
      CloseFine(cur, blk, stamp, t);
    } else {
      var here := SectionAt(cur, rest[0]);
      var l := Rewrite(here, nest, stamp, rest[0]);
      if rest[0].Header? {
        CloseFine(cur, blk, stamp, t);
        var t' := After(t, Close(cur, blk, stamp));
        FinishFine(here, [l], rest[1..], nest, stamp, t');
        AfterConcat(t, Close(cur, blk, stamp), Finish(here, [l], rest[1..], nest, stamp));
      } else {
        RewriteSettles(here, nest, stamp, rest[0]);
        BlockGrows(cur, blk, l);
        FinishFine(cur, blk + [l], rest[1..], nest, stamp, t);
      }
    }
  }

  lemma {:induction false} BlockGrows(cur: Option<Section>, blk: seq<Line>, l: Line)
    requires BlockOk(cur, blk) && !l.Header? && Quiet(cur, l) && (InGone(cur) ==> Inert(l))
    ensures BlockOk(cur, blk + [l])
  {
    if blk != [] {
      assert (blk + [l])[1..] == blk[1..] + [l];
    }
  }

  // ---------------------------------------------------------------------------------------
  // Trimming and appending
  // ---------------------------------------------------------------------------------------

  lemma {:induction false} TrimSplits(lines: seq<Line>) returns (blanks: seq<Line>)
    ensures lines == TrimBlanks(lines) + blanks
    ensures forall l :: l in blanks ==> l.Blank?
  {
    if lines != [] && lines[|lines| - 1].Blank? {
      var init, last := lines[..|lines| - 1], lines[|lines| - 1];
      var bs := TrimSplits(init);
      blanks := bs + [last];
      assert lines == init + [last];
    } else {
      blanks := [];
    }
  }

  lemma {:induction false} BlanksAreFine(t: Pins, lines: seq<Line>)
    requires forall l :: l in lines ==> l.Blank?
    ensures Fine(t, lines) && After(t, lines) == t
  {
    FlatFine(t, lines);
  }

  lemma {:induction false} TierBodyQuiet(tier: TierName, stamp: string)
    requires IsTarget(tier)
    ensures forall l :: l in TierTable(tier, stamp)[1..] ==> !l.Header? && Quiet(Some(Tier(tier)), l)
    ensures HasPin(TierTable(tier, stamp)[1..], Version) && HasPin(TierTable(tier, stamp)[1..], Effort)
  {
    var body := TierTable(tier, stamp)[1..];
    assert body == [Quoted(Canonical, Provider, "anthropic", Rest("")),
                    Quoted(Canonical, Model, TargetModel(tier), Rest("")), VersionLine(stamp), EffortLine(stamp)];
    assert body[2] in body && body[3] in body;
  }

  lemma {:induction false} TableFine(t: Pins, head: Line, body: seq<Line>)
    requires Pinned(t) && head.Header? && !head.sec.Gone?
    requires forall l :: l in body ==> !l.Header? && Quiet(Some(head.sec), l)
    requires InTargetTier(Some(head.sec)) ==> HasPin(body, Version) && HasPin(body, Effort)
    ensures Fine(t, [Blank("")] + ([head] + body)) && Pinned(After(t, [Blank("")] + ([head] + body)))
  {
    BlanksAreFine(t, [Blank("")]);
    FlatFine(Next(t, head), body);
    assert ([head] + body)[1..] == body;
    AfterConcat(t, [Blank("")], [head] + body);
  }

  lemma {:induction false} TierTableFine(t: Pins, tier: TierName, stamp: string)
    requires Pinned(t) && IsTarget(tier)
    ensures Fine(t, [Blank("")] + TierTable(tier, stamp)) && Pinned(After(t, [Blank("")] + TierTable(tier, stamp)))
  {
    var table := TierTable(tier, stamp);
    TierBodyQuiet(tier, stamp);
    TableFine(t, table[0], table[1..]);
    assert table == [table[0]] + table[1..];
  }

  lemma {:induction false} PrReviewTableFine(t: Pins, stamp: string)
    requires Pinned(t)
    ensures Fine(t, [Blank("")] + PrReviewTable(stamp)) && Pinned(After(t, [Blank("")] + PrReviewTable(stamp)))
  {
    var table := PrReviewTable(stamp);
    TableFine(t, table[0], table[1..]);
    assert table == [table[0]] + table[1..];
  }

  lemma {:induction false} MissingTiersFine(t: Pins, lines: seq<Line>, tiers: seq<TierName>, stamp: string)
    requires Pinned(t) && forall x :: x in tiers ==> IsTarget(x)
    ensures Fine(t, MissingTiers(lines, tiers, stamp)) && Pinned(After(t, MissingTiers(lines, tiers, stamp)))
    decreases |tiers|
  {
    if tiers != [] {
      if HasHeader(lines, Tier(tiers[0])) {
        MissingTiersFine(t, lines, tiers[1..], stamp);
        assert MissingTiers(lines, tiers, stamp) == MissingTiers(lines, tiers[1..], stamp);
      } else {
        var chunk := [Blank("")] + TierTable(tiers[0], stamp);
        TierTableFine(t, tiers[0], stamp);
        MissingTiersFine(After(t, chunk), lines, tiers[1..], stamp);
        AfterConcat(t, chunk, MissingTiers(lines, tiers[1..], stamp));
      }
    }
  }

  lemma {:induction false} MissingFine(t: Pins, lines: seq<Line>, stamp: string)
    requires Pinned(t)
    ensures Fine(t, Missing(lines, stamp)) && Pinned(After(t, Missing(lines, stamp)))
  {
    var tiers := MissingTiers(lines, TIER_ORDER, stamp);
    MissingTiersFine(t, lines, TIER_ORDER, stamp);
    if HasHeader(lines, PrReview) {
      assert Missing(lines, stamp) == tiers;
    } else {
      PrReviewTableFine(After(t, tiers), stamp);
      AfterConcat(t, tiers, MissingPr(lines, stamp));
    }
  }

  lemma {:induction false} SyncedFine(lines: seq<Line>, stamp: string)
    ensures Fine(START, Synced(lines, stamp)) && Pinned(After(START, Synced(lines, stamp)))
  {
    var body, add := Body(lines, stamp), Missing(lines, stamp);
    FinishFine(None, [], lines, NestedFix(lines), stamp, START);
    if add != [] {
      var kept := TrimBlanks(body);
      var blanks := TrimSplits(body);
      AfterConcat(START, kept, blanks);
      var t := After(START, kept);
      BlanksAreFine(t, blanks);
      MissingFine(t, lines, stamp);
      AfterConcat(START, kept, add);
      BlanksAreFine(After(t, add), [Blank("")]);
      AfterConcat(START, kept + add, [Blank("")]);
    }
  }

  // ---------------------------------------------------------------------------------------
  // Every required table is there afterwards
  // ---------------------------------------------------------------------------------------

  lemma {:induction false} HeaderConcat(a: seq<Line>, b: seq<Line>, sec: Section)
    ensures HasHeader(a + b, sec) <==> HasHeader(a, sec) || HasHeader(b, sec)
  {
    if HasHeader(a, sec) {
      var l :| l in a && l.Header? && l.sec == sec;
      assert l in a + b;
    }
    if HasHeader(b, sec) {
      var l :| l in b && l.Header? && l.sec == sec;
      assert l in a + b;
    }
  }

  lemma {:induction false} CloseHeaders(cur: Option<Section>, blk: seq<Line>, stamp: string, sec: Section)
    ensures HasHeader(Close(cur, blk, stamp), sec) <==> HasHeader(blk, sec)
  {
    CloseMembers(cur, blk, stamp);
  }

  /** Headers survive, except those of retired tables, which all go. */
  lemma {:induction false} FinishHeaders(cur: Option<Section>, blk: seq<Line>, rest: seq<Line>, nest: Option<Move>,
          stamp: string, sec: Section)
    ensures HasHeader(Finish(cur, blk, rest, nest, stamp), sec)
       <==> HasHeader(blk, sec) || (!sec.Gone? && HasHeader(rest, sec))
    decreases |rest|
  {
    CloseHeaders(cur, blk, stamp, sec);
    if rest != [] {
      var here := SectionAt(cur, rest[0]);
      var l := Rewrite(here, nest, stamp, rest[0]);
      assert rest == [rest[0]] + rest[1..];
      HeaderConcat([rest[0]], rest[1..], sec);
      OneHeader(rest[0], sec);
      OneHeader(l, sec);
      if rest[0].Header? {
        FinishHeaders(here, [l], rest[1..], nest, stamp, sec);
        HeaderConcat(Close(cur, blk, stamp), Finish(here, [l], rest[1..], nest, stamp), sec);
      } else {
        RewriteSettles(here, nest, stamp, rest[0]);
        FinishHeaders(cur, blk + [l], rest[1..], nest, stamp, sec);
        HeaderConcat(blk, [l], sec);
      }
    }
  }

  lemma {:induction false} OneHeader(l: Line, sec: Section)
    ensures HasHeader([l], sec) <==> l.Header? && l.sec == sec
  {
    assert l in [l];
  }

  lemma {:induction false} TrimKeepsHeaders(lines: seq<Line>, sec: Section)
    ensures HasHeader(TrimBlanks(lines), sec) <==> HasHeader(lines, sec)
  {
    var blanks := TrimSplits(lines);
    HeaderConcat(TrimBlanks(lines), blanks, sec);
  }

  lemma {:induction false} MissingTiersHeaders(lines: seq<Line>, tiers: seq<TierName>, stamp: string, sec: Section)
    ensures HasHeader(MissingTiers(lines, tiers, stamp), sec)
        <==> sec.Tier? && sec.tier in tiers && !HasHeader(lines, sec)
  {
    if tiers != [] {
      MissingTiersHeaders(lines, tiers[1..], stamp, sec);
      var rest := MissingTiers(lines, tiers[1..], stamp);
      if HasHeader(lines, Tier(tiers[0])) {
        assert MissingTiers(lines, tiers, stamp) == rest;
      } else {
        TierChunkHeaders(tiers[0], stamp, sec);
        HeaderConcat([Blank("")] + TierTable(tiers[0], stamp), rest, sec);
      }
    }
  }

  lemma {:induction false} TierChunkHeaders(t: TierName, stamp: string, sec: Section)
    ensures HasHeader([Blank("")] + TierTable(t, stamp), sec) <==> sec == Tier(t)
  {
    var chunk := [Blank("")] + TierTable(t, stamp);
    assert chunk[1] in chunk;
  }

  lemma {:induction false} MissingPrHeaders(lines: seq<Line>, stamp: string, sec: Section)
    ensures HasHeader(MissingPr(lines, stamp), sec) <==> sec == PrReview && !HasHeader(lines, PrReview)
  {
    var pr := MissingPr(lines, stamp);
    if pr != [] {
      assert pr == [Blank(""), PrReviewTable(stamp)[0], PrReviewTable(stamp)[1], PrReviewTable(stamp)[2]];
      assert pr[1] in pr;
    }
  }

  /** Exactly the headers of the input that are not retired, and the required ones that were absent. */
  lemma {:induction false} SyncedHeaders(lines: seq<Line>, stamp: string, sec: Section)
    ensures HasHeader(Synced(lines, stamp), sec)
       <==> (!sec.Gone? && HasHeader(lines, sec)) || (sec.Tier? && IsTarget(sec.tier)) || sec == PrReview
  {
    var body, add := Body(lines, stamp), Missing(lines, stamp);
    FinishHeaders(None, [], lines, NestedFix(lines), stamp, sec);
    MissingTiersHeaders(lines, TIER_ORDER, stamp, sec);
    assert TIER_ORDER == [Huge, Large, Medium, Small];
    MissingPrHeaders(lines, stamp, sec);
    HeaderConcat(MissingTiers(lines, TIER_ORDER, stamp), MissingPr(lines, stamp), sec);
    if add != [] {
      TrimKeepsHeaders(body, sec);
      HeaderConcat(TrimBlanks(body), add, sec);
      HeaderConcat(TrimBlanks(body) + add, [Blank("")], sec);
    }
  }

  /** After one pass a file is at the target in every respect but, possibly, a nested archive. */
  lemma {:induction false} OnePassSettles(lines: seq<Line>, stamp: string)
    ensures Settled(Synced(lines, stamp))
  {
    SyncedFine(lines, stamp);
    SyncedHeaders(lines, stamp, Tier(Huge));
    SyncedHeaders(lines, stamp, Tier(Large));
    SyncedHeaders(lines, stamp, Tier(Medium));
    SyncedHeaders(lines, stamp, Tier(Small));
    SyncedHeaders(lines, stamp, PrReview);
  }

  // ---------------------------------------------------------------------------------------
  // No notes means no change, and the other way round
  // ---------------------------------------------------------------------------------------

  predicate RealMove(nest: Option<Move>) {
    nest.Some? ==> nest.value.from != nest.value.dest
  }

  lemma {:induction false} MovedDiffers(td: string)
    ensures Moved(td) != td
  {
    var m := Moved(td);
    assert m[|m| - 1] == 'e';
    assert td != [] && td[|td| - 1] == 'e' ==> StripSlashes(td) == td;
  }

  lemma {:induction false} RewriteSame(cur: Option<Section>, nest: Option<Move>, stamp: string, l: Line)
    requires RealMove(nest)
    ensures RewriteNotes(cur, nest, l) == [] <==> Rewrite(cur, nest, stamp, l) == l
  {
  }

  lemma {:induction false} CloseSame(cur: Option<Section>, blk: seq<Line>, stamp: string)
    ensures |Close(cur, blk, stamp)| >= |blk|
    ensures |Close(cur, blk, stamp)| == |blk| <==> CloseNotes(cur, blk) == []
    ensures CloseNotes(cur, blk) == [] ==> Close(cur, blk, stamp) == blk
  {
    if InTargetTier(cur) && LastModel(blk).Some? {
      var m, fill := LastModel(blk).value, Fill(blk, stamp);
      var before, after := blk[..m + 1], blk[m + 1..];
      NothingToFillIff(cur, blk, stamp);
      assert blk == before + after;
      assert Close(cur, blk, stamp) == before + fill + after;
      if fill == [] {
        assert before + fill == before;
      }
    }
  }

  lemma {:induction false} NothingToFillIff(cur: Option<Section>, blk: seq<Line>, stamp: string)
    requires InTargetTier(cur) && LastModel(blk).Some?
    ensures |Fill(blk, stamp)| == 0 <==> CloseNotes(cur, blk) == []
  {
    assert |Fill(blk, stamp)| == (if HasPin(blk, Version) then 0 else 1) + (if HasPin(blk, Effort) then 0 else 1);
    assert |CloseNotes(cur, blk)| == |Fill(blk, stamp)|;
  }

  lemma {:induction false} FinishGrows(cur: Option<Section>, blk: seq<Line>, rest: seq<Line>, nest: Option<Move>,
          stamp: string)
    ensures |Finish(cur, blk, rest, nest, stamp)| >= |blk| + |rest|
    ensures |Finish(cur, blk, rest, nest, stamp)| == |blk| + |rest| ==> blk <= Finish(cur, blk, rest, nest, stamp)
    decreases |rest|
  {
    CloseSame(cur, blk, stamp);
    if rest != [] {
      var here := SectionAt(cur, rest[0]);
      var l := Rewrite(here, nest, stamp, rest[0]);
      FinishGrows(here, if rest[0].Header? then [l] else blk + [l], rest[1..], nest, stamp);
    }
  }

  lemma {:induction false} FinishSame(cur: Option<Section>, blk: seq<Line>, rest: seq<Line>, nest: Option<Move>,
          stamp: string)
    requires RealMove(nest)
    ensures FinishNotes(cur, blk, rest, nest, stamp) == [] <==> Finish(cur, blk, rest, nest, stamp) == blk + rest
    decreases |rest|
  {
    CloseSame(cur, blk, stamp);
    if rest == [] {
      assert blk + [] == blk;
    } else if rest[0].Header? {
      SameAtHeader(cur, blk, rest, nest, stamp);
      var here := SectionAt(cur, rest[0]);
      FinishSame(here, [Rewrite(here, nest, stamp, rest[0])], rest[1..], nest, stamp);
    } else {
      SameAtLine(cur, blk, rest, nest, stamp);
      FinishSame(cur, blk + [Rewrite(cur, nest, stamp, rest[0])], rest[1..], nest, stamp);
    }
  }

  lemma {:induction false} SameAtHeader(cur: Option<Section>, blk: seq<Line>, rest: seq<Line>, nest: Option<Move>,
          stamp: string)
    requires RealMove(nest) && rest != [] && rest[0].Header?
    ensures var here := SectionAt(cur, rest[0]);
            var l := Rewrite(here, nest, stamp, rest[0]);
            Finish(cur, blk, rest, nest, stamp) == blk + rest
            <==> && CloseNotes(cur, blk) == [] && RewriteNotes(here, nest, rest[0]) == []
                 && Finish(here, [l], rest[1..], nest, stamp) == [l] + rest[1..]
  {
    var here := SectionAt(cur, rest[0]);
    var l := Rewrite(here, nest, stamp, rest[0]);
    var tail := Finish(here, [l], rest[1..], nest, stamp);
    CloseSame(cur, blk, stamp);
    RewriteSame(here, nest, stamp, rest[0]);
    FinishGrows(here, [l], rest[1..], nest, stamp);
    SameInParts(Close(cur, blk, stamp), tail, blk, rest, l);
  }

  /** Parts that can only grow give back the whole exactly when each part is given back. */
  lemma {:induction false} SameInParts(c: seq<Line>, tail: seq<Line>, blk: seq<Line>, rest: seq<Line>, l: Line)
    requires rest != [] && |c| >= |blk| && |tail| >= |rest|
    requires |tail| == |rest| ==> [l] <= tail
    ensures c + tail == blk + rest <==> c == blk && l == rest[0] && tail == [l] + rest[1..]
  {
    assert rest == [rest[0]] + rest[1..];
    if c + tail == blk + rest {
      assert |c + tail| == |blk + rest|;
      Seqs.SplitSame(c, tail, blk, rest);
    }
  }

  lemma {:induction false} SameAtLine(cur: Option<Section>, blk: seq<Line>, rest: seq<Line>, nest: Option<Move>,
          stamp: string)
    requires RealMove(nest) && rest != [] && !rest[0].Header?
    ensures var l := Rewrite(cur, nest, stamp, rest[0]);
            Finish(cur, blk, rest, nest, stamp) == blk + rest
            <==> && RewriteNotes(cur, nest, rest[0]) == []
                 && Finish(cur, blk + [l], rest[1..], nest, stamp) == blk + [l] + rest[1..]
  {
    var l := Rewrite(cur, nest, stamp, rest[0]);
    RewriteSame(cur, nest, stamp, rest[0]);
    FinishGrows(cur, blk + [l], rest[1..], nest, stamp);
    assert rest == [rest[0]] + rest[1..];
    Seqs.Assoc(blk, [rest[0]], rest[1..]);
    if Finish(cur, blk, rest, nest, stamp) == blk + rest {
      assert (blk + [l])[|blk|] == l && (blk + rest)[|blk|] == rest[0];
    }
  }

  lemma {:induction false} MissingNotesIff(lines: seq<Line>, tiers: seq<TierName>, stamp: string)
    ensures MissingTierNotes(lines, tiers) == [] <==> MissingTiers(lines, tiers, stamp) == []
  {
    if tiers != [] {
      MissingNotesIff(lines, tiers[1..], stamp);
    }
  }

  /** A pass reports nothing exactly when it changes nothing, so "no notes" may stand for "already at
      target", and a date alone never rewrites a file. */
  lemma {:induction false} NoNotesIffUnchanged(lines: seq<Line>, stamp: string)
    ensures SyncNotes(lines, stamp) == [] <==> Synced(lines, stamp) == lines
  {
    var nest := NestedFix(lines);
    if nest.Some? {
      MovedDiffers(nest.value.from);
    }
    FinishSame(None, [], lines, nest, stamp);
    assert [] + lines == lines;
    NothingMissingIff(lines, stamp);
    if Synced(lines, stamp) == lines {
      SameMissesNothing(lines, stamp);
    }
  }

  lemma {:induction false} NothingMissingIff(lines: seq<Line>, stamp: string)
    ensures MissingNotes(lines) == [] <==> Missing(lines, stamp) == []
  {
    MissingNotesIff(lines, TIER_ORDER, stamp);
  }

  lemma {:induction false} SameMissesNothing(lines: seq<Line>, stamp: string)
    requires Synced(lines, stamp) == lines
    ensures Missing(lines, stamp) == []
  {
    OnePassSettles(lines, stamp);
    MissingTiersNone(lines, TIER_ORDER, stamp);
  }

  lemma {:induction false} MissingTiersNone(lines: seq<Line>, tiers: seq<TierName>, stamp: string)
    requires forall t :: t in tiers ==> HasHeader(lines, Tier(t))
    ensures MissingTiers(lines, tiers, stamp) == []
  {
    if tiers != [] {
      MissingTiersNone(lines, tiers[1..], stamp);
    }
  }

  // ---------------------------------------------------------------------------------------
  // Exactly which files a pass leaves alone
  // ---------------------------------------------------------------------------------------

  /** No top-level line of `rest` is one the nested-directory rule would move. */
  predicate NothingToMove(cur: Option<Section>, rest: seq<Line>, nest: Option<Move>) {
    cur.Some? || rest == [] || rest[0].Header?
    || ((nest.Some? && IsPinLine(rest[0], TrackingDir) ==> rest[0].value != nest.value.from)
        && NothingToMove(cur, rest[1..], nest))
  }

  lemma {:induction false} FineUnchanged(cur: Option<Section>, blk: seq<Line>, rest: seq<Line>, nest: Option<Move>,
          stamp: string, t: Pins)
    requires t == Pins(cur, HasPin(blk, Model), HasPin(blk, Version), HasPin(blk, Effort))
    requires Fine(t, rest) && Pinned(After(t, rest)) && NothingToMove(cur, rest, nest)
    ensures FinishNotes(cur, blk, rest, nest, stamp) == []
    decreases |rest|
  {
    if rest != [] {
      var here := SectionAt(cur, rest[0]);
      var t' := Next(t, rest[0]);
      assert Quiet(here, rest[0]);
      assert RewriteNotes(here, nest, rest[0]) == [];
      RewriteSame(here, None, stamp, rest[0]);
      var l := Rewrite(here, nest, stamp, rest[0]);
      assert l == rest[0];
      if rest[0].Header? {
        NoPins(l);
        FineUnchanged(here, [l], rest[1..], nest, stamp, t');
      } else {
        PinAppend(blk, l, Model);
        PinAppend(blk, l, Version);
        PinAppend(blk, l, Effort);
        FineUnchanged(cur, blk + [l], rest[1..], nest, stamp, t');
      }
    }
  }

  lemma {:induction false} NoPins(l: Line)
    requires l.Header?
    ensures !HasPin([l], Model) && !HasPin([l], Version) && !HasPin([l], Effort)
  {
  }

  lemma {:induction false} TopIsFirst(lines: seq<Line>, k: Key)
    ensures TopValue(lines, k).Some? ==> FirstValue(lines, k) == TopValue(lines, k)
  {
    if lines != [] && !lines[0].Header? {
      TopIsFirst(lines[1..], k);
    }
  }

  lemma {:induction false} NoTopNothingToMove(lines: seq<Line>, nest: Option<Move>)
    requires TopTracking(lines).None?
    ensures NothingToMove(None, lines, nest)
  {
    if lines != [] && !lines[0].Header? {
      NoTopNothingToMove(lines[1..], nest);
    }
  }

  lemma {:induction false} SomethingMoves(lines: seq<Line>, nest: Option<Move>, stamp: string, blk: seq<Line>)
    requires nest.Some? && TopTracking(lines) == Some(nest.value.from)
    ensures FinishNotes(None, blk, lines, nest, stamp) != []
    decreases |lines|
  {
    if !IsPinLine(lines[0], TrackingDir) {
      SomethingMoves(lines[1..], nest, stamp, blk + [Rewrite(None, nest, stamp, lines[0])]);
    }
  }

  lemma {:induction false} UnchangedIsSettled(lines: seq<Line>, stamp: string)
    requires Synced(lines, stamp) == lines
    ensures Settled(lines) && Unnested(lines)
  {
    OnePassSettles(lines, stamp);
    if !Unnested(lines) {
      TopIsFirst(lines, TrackingDir);
      SomethingMoves(lines, NestedFix(lines), stamp, []);
      NoNotesIffUnchanged(lines, stamp);
    }
  }

  lemma {:induction false} SettledIsUnchanged(lines: seq<Line>, stamp: string)
    requires Settled(lines) && Unnested(lines)
    ensures Synced(lines, stamp) == lines
  {
    var nest := NestedFix(lines);
    TopIsFirst(lines, TrackingDir);
    if nest.None? {
      NoNestNothingToMove(lines);
    } else {
      NoTopNothingToMove(lines, nest);
    }
    FineUnchanged(None, [], lines, nest, stamp, START);
    MissingTiersNone(lines, TIER_ORDER, stamp);
    NothingMissingIff(lines, stamp);
    NoNotesIffUnchanged(lines, stamp);
  }

  /** A pass leaves a file alone if and only if it is settled and has no nested archive. */
  lemma {:induction false} UnchangedIff(lines: seq<Line>, stamp: string)
    ensures Synced(lines, stamp) == lines <==> Settled(lines) && Unnested(lines)
  {
    if Synced(lines, stamp) == lines {
      UnchangedIsSettled(lines, stamp);
    }
    if Settled(lines) && Unnested(lines) {
      SettledIsUnchanged(lines, stamp);
    }
  }

  lemma {:induction false} NoNestNothingToMove(lines: seq<Line>)
    ensures NothingToMove(None, lines, None)
  {
    if lines != [] && !lines[0].Header? {
      NoNestNothingToMove(lines[1..]);
    }
  }

  // ---------------------------------------------------------------------------------------
  // When a second pass is needed, told before the first
  // ---------------------------------------------------------------------------------------

  /** The archive_dir that will still be there afterwards: the first one outside the retired tables. */
  function SurvivingArchive(cur: Option<Section>, lines: seq<Line>): Option<string>
    decreases |lines|
  {
    if lines == [] then None
    else
      var here := SectionAt(cur, lines[0]);
      if IsPinLine(lines[0], ArchiveDir) && !InGone(here) then Some(lines[0].value)
      else SurvivingArchive(here, lines[1..])
  }

  /** The top-level tracking_dir one pass leaves behind. */
  function TrackingAfter(lines: seq<Line>): Option<string> {
    match TopTracking(lines)
    case None => None
    case Some(td) => if Nested(Some(td), FirstValue(lines, ArchiveDir)) then Some(Moved(td)) else Some(td)
  }

  predicate NeedsAnotherPass(lines: seq<Line>) {
    Nested(TrackingAfter(lines), SurvivingArchive(None, lines))
  }

  lemma {:induction false} FirstValueConcat(a: seq<Line>, b: seq<Line>, k: Key)
    ensures FirstValue(a + b, k) == if FirstValue(a, k).Some? then FirstValue(a, k) else FirstValue(b, k)
  {
    if a == [] {
      assert a + b == b;
    } else {
      assert (a + b)[1..] == a[1..] + b;
      FirstValueConcat(a[1..], b, k);
    }
  }

  lemma {:induction false} NoValue(lines: seq<Line>, k: Key)
    requires !HasPin(lines, k)
    ensures FirstValue(lines, k) == None
  {
    if lines != [] {
      assert lines == [lines[0]] + lines[1..];
      NoValue(lines[1..], k);
    }
  }

  lemma {:induction false} CloseArchive(cur: Option<Section>, blk: seq<Line>, stamp: string)
    ensures FirstValue(Close(cur, blk, stamp), ArchiveDir) == FirstValue(blk, ArchiveDir)
  {
    if InTargetTier(cur) && LastModel(blk).Some? {
      var m, fill := LastModel(blk).value, Fill(blk, stamp);
      NoValue(fill, ArchiveDir);
      FirstValueConcat(blk[..m + 1], fill, ArchiveDir);
      FirstValueConcat(blk[..m + 1] + fill, blk[m + 1..], ArchiveDir);
      FirstValueConcat(blk[..m + 1], blk[m + 1..], ArchiveDir);
      assert blk == blk[..m + 1] + blk[m + 1..];
    }
  }

  lemma {:induction false} RewriteArchive(cur: Option<Section>, nest: Option<Move>, stamp: string, l: Line)
    ensures FirstValue([Rewrite(cur, nest, stamp, l)], ArchiveDir)
         == if IsPinLine(l, ArchiveDir) && !InGone(cur) then Some(l.value) else None
  {
  }

  lemma {:induction false} FinishArchive(cur: Option<Section>, blk: seq<Line>, rest: seq<Line>, nest: Option<Move>,
          stamp: string)
    ensures FirstValue(Finish(cur, blk, rest, nest, stamp), ArchiveDir)
         == if FirstValue(blk, ArchiveDir).Some? then FirstValue(blk, ArchiveDir) else SurvivingArchive(cur, rest)
    decreases |rest|
  {
    CloseArchive(cur, blk, stamp);
    if rest != [] {
      var here := SectionAt(cur, rest[0]);
      var l := Rewrite(here, nest, stamp, rest[0]);
      RewriteArchive(here, nest, stamp, rest[0]);
      if rest[0].Header? {
        FinishArchive(here, [l], rest[1..], nest, stamp);
        FirstValueConcat(Close(cur, blk, stamp), Finish(here, [l], rest[1..], nest, stamp), ArchiveDir);
      } else {
        FinishArchive(cur, blk + [l], rest[1..], nest, stamp);
        FirstValueConcat(blk, [l], ArchiveDir);
      }
    }
  }

  predicate IsDirectory(p: Probe) {
    (p.key == TrackingDir || p.key == ArchiveDir) && (p.form.Any? || p.form.Quotes?)
  }

  lemma {:induction false} TierChunkNoDirectory(t: TierName, stamp: string, p: Probe)
    requires IsDirectory(p)
    ensures !HasPin([Blank("")] + TierTable(t, stamp), p.key) && TopMatch([Blank("")] + TierTable(t, stamp), p).None?
  {
    assert ([Blank("")] + TierTable(t, stamp))[1..] == TierTable(t, stamp);
  }

  lemma {:induction false} MissingTiersNoDirectory(lines: seq<Line>, tiers: seq<TierName>, stamp: string, p: Probe)
    requires IsDirectory(p)
    ensures !HasPin(MissingTiers(lines, tiers, stamp), p.key) && TopMatch(MissingTiers(lines, tiers, stamp), p).None?
  {
    if tiers != [] {
      MissingTiersNoDirectory(lines, tiers[1..], stamp, p);
      if !HasHeader(lines, Tier(tiers[0])) {
        TierChunkNoDirectory(tiers[0], stamp, p);
        TopConcat([Blank("")] + TierTable(tiers[0], stamp), MissingTiers(lines, tiers[1..], stamp), p);
      } else {
        assert MissingTiers(lines, tiers, stamp) == MissingTiers(lines, tiers[1..], stamp);
      }
    }
  }

  lemma {:induction false} TopConcat(a: seq<Line>, b: seq<Line>, p: Probe)
    ensures TopMatch(a, p).Some? ==> TopMatch(a + b, p) == TopMatch(a, p)
    ensures TopMatch(a, p).None? && TopMatch(b, p).None? ==> TopMatch(a + b, p).None?
    ensures (forall l :: l in a ==> !l.Header?) && TopMatch(a, p).None? ==> TopMatch(a + b, p) == TopMatch(b, p)
  {
    if a == [] {
      assert a + b == b;
    } else {
      assert (a + b)[1..] == a[1..] + b;
      TopConcat(a[1..], b, p);
    }
  }

  lemma {:induction false} TopOfInert(lines: seq<Line>, p: Probe)
    requires IsDirectory(p) && forall l :: l in lines ==> Inert(l)
    ensures TopMatch(lines, p).None?
  {
    if lines != [] {
      assert lines[0] in lines;
      TopOfInert(lines[1..], p);
    }
  }

  /** What follows a retired table that was commented out at the top of the file adds no top-level key. */
  lemma {:induction false} FinishTopGone(cur: Option<Section>, blk: seq<Line>, rest: seq<Line>, nest: Option<Move>,
          stamp: string, p: Probe)
    requires cur.Some? && BlockOk(cur, blk) && IsDirectory(p)
    ensures TopMatch(Finish(cur, blk, rest, nest, stamp), p).None?
    decreases |rest|
  {
    CloseMembers(cur, blk, stamp);
    if InGone(cur) {
      TopOfInert(blk, p);
    }
    if rest != [] {
      var here := SectionAt(cur, rest[0]);
      var l := Rewrite(here, nest, stamp, rest[0]);
      if rest[0].Header? {
        FinishTopGone(here, [l], rest[1..], nest, stamp, p);
        TopConcat(Close(cur, blk, stamp), Finish(here, [l], rest[1..], nest, stamp), p);
      } else {
        RewriteSettles(here, nest, stamp, rest[0]);
        BlockGrows(cur, blk, l);
        FinishTopGone(cur, blk + [l], rest[1..], nest, stamp, p);
      }
    }
  }

  /** What becomes of a top-level line. */
  function MapTop(nest: Option<Move>, l: Option<Line>): Option<Line> {
    if l.Some? then Some(Tidy(None, nest, l.value)) else None
  }

  lemma {:induction false} FinishTop(blk: seq<Line>, rest: seq<Line>, nest: Option<Move>, stamp: string, p: Probe)
    requires IsDirectory(p) && forall l :: l in blk ==> !l.Header?
    ensures TopMatch(Finish(None, blk, rest, nest, stamp), p)
         == if TopMatch(blk, p).Some? then TopMatch(blk, p) else MapTop(nest, TopMatch(rest, p))
    decreases |rest|
  {
    if rest != [] {
      var here := SectionAt(None, rest[0]);
      var l := Rewrite(here, nest, stamp, rest[0]);
      if rest[0].Header? {
        FinishTopGone(here, [l], rest[1..], nest, stamp, p);
        TopConcat(blk, Finish(here, [l], rest[1..], nest, stamp), p);
      } else {
        RewriteSettles(here, nest, stamp, rest[0]);
        FinishTop(blk + [l], rest[1..], nest, stamp, p);
        TopConcat(blk, [l], p);
      }
    }
  }

  /** What trimming and appending do to the directories: nothing. */
  lemma {:induction false} AppendingKeepsDirectories(lines: seq<Line>, stamp: string, p: Probe)
    requires IsDirectory(p)
    ensures TopMatch(Synced(lines, stamp), p) == TopMatch(Body(lines, stamp), p)
    ensures FirstValue(Synced(lines, stamp), p.key) == FirstValue(Body(lines, stamp), p.key)
  {
    var body, add := Body(lines, stamp), Missing(lines, stamp);
    if add != [] {
      var blanks := TrimSplits(body);
      var kept := TrimBlanks(body);
      NoValue(blanks, p.key);
      FirstValueConcat(kept, blanks, p.key);
      BlanksNoTop(blanks, p);
      TopConcat(kept, blanks, p);
      MissingAddsNoDirectory(lines, stamp, p);
      NoValue(add + [Blank("")], p.key);
      FirstValueConcat(kept, add + [Blank("")], p.key);
      TopConcat(kept, add + [Blank("")], p);
      assert kept + (add + [Blank("")]) == kept + add + [Blank("")];
    }
  }

  /** A top-level directory line stays where it is, whatever its form, but for the one that is moved. */
  lemma {:induction false} TopMatchAfter(lines: seq<Line>, stamp: string, p: Probe)
    requires IsDirectory(p)
    ensures TopMatch(Synced(lines, stamp), p) == MapTop(NestedFix(lines), TopMatch(lines, p))
  {
    FinishTop([], lines, NestedFix(lines), stamp, p);
    AppendingKeepsDirectories(lines, stamp, p);
  }

  lemma {:induction false} TopMatchHits(lines: seq<Line>, p: Probe)
    ensures TopMatch(lines, p).Some? ==> Hit(TopMatch(lines, p).value, p)
  {
    if lines != [] && !lines[0].Header? {
      TopMatchHits(lines[1..], p);
    }
  }

  /** The two directories as the next pass will read them. */
  lemma {:induction false} DirectoriesAfter(lines: seq<Line>, stamp: string)
    ensures TopTracking(Synced(lines, stamp)) == TrackingAfter(lines)
    ensures FirstValue(Synced(lines, stamp), ArchiveDir) == SurvivingArchive(None, lines)
  {
    TopIsFirst(lines, TrackingDir);
    TopMatchHits(lines, Probe(TrackingDir, Quotes));
    TopMatchAfter(lines, stamp, Probe(TrackingDir, Quotes));
    FinishArchive(None, [], lines, NestedFix(lines), stamp);
    AppendingKeepsDirectories(lines, stamp, Probe(ArchiveDir, Quotes));
  }

  lemma {:induction false} BlanksNoTop(lines: seq<Line>, p: Probe)
    requires forall l :: l in lines ==> l.Blank?
    ensures TopMatch(lines, p).None?
  {
    if lines != [] {
      assert lines[0] in lines;
      BlanksNoTop(lines[1..], p);
    }
  }

  lemma {:induction false} PrAddsNoDirectory(lines: seq<Line>, stamp: string, p: Probe)
    requires IsDirectory(p)
    ensures !HasPin(MissingPr(lines, stamp), p.key) && TopMatch(MissingPr(lines, stamp), p).None?
  {
    var pr := MissingPr(lines, stamp);
    if pr != [] {
      assert pr[1..] == PrReviewTable(stamp);
    }
  }

  lemma {:induction false} MissingAddsNoDirectory(lines: seq<Line>, stamp: string, p: Probe)
    requires IsDirectory(p)
    ensures !HasPin(Missing(lines, stamp) + [Blank("")], p.key)
    ensures TopMatch(Missing(lines, stamp) + [Blank("")], p).None?
  {
    var tiers, pr := MissingTiers(lines, TIER_ORDER, stamp), MissingPr(lines, stamp);
    MissingTiersNoDirectory(lines, TIER_ORDER, stamp, p);
    PrAddsNoDirectory(lines, stamp, p);
    TopConcat(tiers, pr, p);
    TopConcat(tiers + pr, [Blank("")], p);
  }

  /** One pass reaches a fixed point, whatever the dates of the two passes, if and only if the archive that
      survives it is not nested in the tracking directory it leaves. */
  lemma {:induction false} OnePassIff(lines: seq<Line>, stamp: string, later: string)
    ensures Synced(Synced(lines, stamp), later) == Synced(lines, stamp) <==> !NeedsAnotherPass(lines)
  {
    OnePassSettles(lines, stamp);
    DirectoriesAfter(lines, stamp);
    UnchangedIff(Synced(lines, stamp), later);
  }

  lemma {:induction false} StripKeeps(s: string)
    requires s != [] && s[|s| - 1] != '/'
    ensures StripSlashes(s) == s
  {
  }

  /** When no retired table holds the first archive_dir, a second pass is needed exactly for an archive
      under `tracking_dir/ticket-active/`. */
  lemma {:induction false} SecondPassOnlyUnderTicketActive(lines: seq<Line>)
    requires SurvivingArchive(None, lines) == FirstValue(lines, ArchiveDir)
    ensures NeedsAnotherPass(lines) <==>
            var td, ad := TopTracking(lines), FirstValue(lines, ArchiveDir);
            td.Some? && td.value != "" && ad.Some? && Moved(td.value) + "/" <= ad.value
  {
    var td, ad := TopTracking(lines), FirstValue(lines, ArchiveDir);
    if td.Some? && ad.Some? {
      var m := Moved(td.value);
      assert m[|m| - 1] == 'e';
      StripKeeps(m);
      if m + "/" <= ad.value {
        assert StripSlashes(td.value) + "/" <= m;
      }
    }
  }

  // ---------------------------------------------------------------------------------------
  // Repeating the pass always ends
  // ---------------------------------------------------------------------------------------

  /** `n` passes, each with the date of its own day. */
  function Iterate(lines: seq<Line>, stamps: nat -> string, n: nat): seq<Line> {
    if n == 0 then lines else Synced(Iterate(lines, stamps, n - 1), stamps(n - 1))
  }

  lemma {:induction false} SettledHasNoRetired(cur: Option<Section>, lines: seq<Line>, t: Pins)
    requires t.cur == cur && Fine(t, lines) && !InGone(cur)
    ensures SurvivingArchive(cur, lines) == FirstValue(lines, ArchiveDir)
    decreases |lines|
  {
    if lines != [] {
      SettledHasNoRetired(SectionAt(cur, lines[0]), lines[1..], Next(t, lines[0]));
    }
  }

  ghost predicate Stable(lines: seq<Line>) {
    forall later :: Synced(lines, later) == lines
  }

  /** At most so many passes can move `tracking_dir`: each makes it fourteen characters longer, and it has to
      stay shorter than the `archive_dir` it contains. */
  function MovesLeft(td: Option<string>, ad: Option<string>): nat {
    if Nested(td, ad) then (|ad.value| - |StripSlashes(td.value)| + 13) / 14 else 0
  }

  lemma {:induction false} MoveLeavesFewer(td: Option<string>, ad: Option<string>)
    requires Nested(td, ad)
    ensures MovesLeft(Some(Moved(td.value)), ad) < MovesLeft(td, ad)
  {
    var m := Moved(td.value);
    assert m[|m| - 1] == 'e';
    StripKeeps(m);
    assert |m| == |StripSlashes(td.value)| + 14;
  }

  /** Each pass that moves the tracking directory makes it longer, and it can never outgrow the archive
      directory it contains: that bounds the number of passes. */
  lemma {:induction false} KeepsSettling(lines: seq<Line>, stamps: nat -> string, k: nat) returns (n: nat)
    requires Settled(Iterate(lines, stamps, k))
    ensures n >= k && Stable(Iterate(lines, stamps, n))
    ensures var now := Iterate(lines, stamps, k); n <= k + MovesLeft(TopTracking(now), FirstValue(now, ArchiveDir))
    decreases var now := Iterate(lines, stamps, k); MovesLeft(TopTracking(now), FirstValue(now, ArchiveDir))
  {
    var now := Iterate(lines, stamps, k);
    var td, ad := TopTracking(now), FirstValue(now, ArchiveDir);
    if Nested(td, ad) {
      var next := Iterate(lines, stamps, k + 1);
      OnePassSettles(now, stamps(k));
      DirectoriesAfter(now, stamps(k));
      SettledHasNoRetired(None, now, START);
      var m := Moved(td.value);
      assert m[|m| - 1] == 'e';
      StripKeeps(m);
      assert TopTracking(next) == Some(m) && FirstValue(next, ArchiveDir) == ad;
      MoveLeavesFewer(td, ad);
      n := KeepsSettling(lines, stamps, k + 1);
    } else {
      n := k;
      forall later ensures Synced(now, later) == now {
        UnchangedIff(now, later);
      }
    }
  }

  /** From any file, repeating the pass reaches a file that no later pass changes: after the first pass, no
      more are needed than the distance between the two directories it leaves allows. */
  lemma {:induction false} AlwaysReachesFixedPoint(lines: seq<Line>, stamps: nat -> string)
    ensures exists n: nat :: n <= 1 + MovesLeft(TrackingAfter(lines), SurvivingArchive(None, lines))
                             && Stable(Iterate(lines, stamps, n))
  {
    OnePassSettles(lines, stamps(0));
    DirectoriesAfter(lines, stamps(0));
    assert Iterate(lines, stamps, 1) == Synced(Iterate(lines, stamps, 0), stamps(0));
    var n := KeepsSettling(lines, stamps, 1);
  }
}
