/** What a pass of the rewriter leaves in a file, value by value and note by note. */
module ConfTarget {
  import opened Options
  import opened ConfLines
  import opened ConfSync
  import opened ConfFixpoint
  import opened ConfParse
  import opened ConfFrame
  import opened ConfAudit

  // ---------------------------------------------------------------------------------------
  // Where a line is, and what is found where
  // ---------------------------------------------------------------------------------------

  /** The header the line is under, if any. */
  predicate NearestHeader(lines: seq<Line>, i: nat, j: int)
    requires i < |lines|
  {
    0 <= j <= i && lines[j].Header? && forall k :: j < k <= i ==> !lines[k].Header?
  }

  /** A line is in the table of the nearest header at or above it; above every header it is in none. */
  lemma {:induction false} SectionExactly(lines: seq<Line>, i: nat)
    requires i < |lines|
    ensures forall j :: NearestHeader(lines, i, j) ==> SectionOf(None, lines, i) == Some(lines[j].sec)
    ensures (forall j :: 0 <= j <= i ==> !lines[j].Header?) ==> SectionOf(None, lines, i) == None
  {
    SectionSteps(None, lines, i);
    if i > 0 {
      SectionExactly(lines, i - 1);
      forall j | NearestHeader(lines, i, j) && j < i ensures NearestHeader(lines, i - 1, j) {
      }
    }
  }

  lemma {:induction false} SectionSteps(cur: Option<Section>, lines: seq<Line>, i: nat)
    requires i < |lines|
    ensures SectionOf(cur, lines, i) == SectionAt(if i == 0 then cur else SectionOf(cur, lines, i - 1), lines[i])
    decreases i
  {
    if i > 0 {
      SectionSteps(SectionAt(cur, lines[0]), lines[1..], i - 1);
    }
  }

  /** A table has a key in some form exactly when a line of it does. */
  lemma {:induction false} HasExactly(cur: Option<Section>, lines: seq<Line>, sec: Option<Section>, p: Probe)
    requires NoArrays(lines)
    ensures Has(cur, lines, sec, p)
       <==> exists i :: 0 <= i < |lines| && SectionOf(cur, lines, i) == sec && Hit(lines[i], p)
    decreases |lines|
  {
    if lines != [] {
      var here := SectionAt(cur, lines[0]);
      assert lines[0] in lines && NoArrays(lines[1..]);
      HasExactly(here, lines[1..], sec, p);
      if i :| 0 <= i < |lines[1..]| && SectionOf(here, lines[1..], i) == sec && Hit(lines[1..][i], p) {
        assert SectionOf(cur, lines, i + 1) == sec && lines[i + 1] == lines[1..][i];
      }
      if i :| 0 < i < |lines| && SectionOf(cur, lines, i) == sec && Hit(lines[i], p) {
        assert SectionOf(here, lines[1..], i - 1) == sec && lines[1..][i - 1] == lines[i];
      }
    }
  }

  /** And all its values of a key are the wanted one exactly when every line of it that sets one agrees. */
  lemma {:induction false} AllSetExactly(cur: Option<Section>, lines: seq<Line>, sec: Section, k: Key, want: string)
    requires NoArrays(lines)
    ensures AllSetTo(cur, lines, sec, k, want)
       <==> forall i :: 0 <= i < |lines| && SectionOf(cur, lines, i) == Some(sec) && lines[i].Quoted?
                        && lines[i].key == k
              ==> lines[i].value == want
    decreases |lines|
  {
    if lines != [] {
      var here := SectionAt(cur, lines[0]);
      assert lines[0] in lines && NoArrays(lines[1..]);
      AllSetExactly(here, lines[1..], sec, k, want);
      assert forall i :: 0 < i < |lines| ==>
               SectionOf(cur, lines, i) == SectionOf(here, lines[1..], i - 1) && lines[i] == lines[1..][i - 1];
      assert forall i :: 0 <= i < |lines[1..]| ==>
               SectionOf(cur, lines, i + 1) == SectionOf(here, lines[1..], i) && lines[i + 1] == lines[1..][i];
    }
  }

  /** The keys the rules are about, as they are spelled in a file. */
  lemma {:induction false} KeysSpelled()
    ensures KeyName(Provider) == "provider" && KeyName(Model) == "model" && KeyName(Version) == "version"
         && KeyName(Effort) == "effort" && KeyName(Backend) == "backend" && KeyName(TrackingDir) == "tracking_dir"
         && KeyName(ArchiveDir) == "archive_dir" && KeyName(Fix) == "fix" && KeyName(CoderabbitFix) == "coderabbit_fix"
         && KeyName(GreptileFix) == "greptile_fix" && KeyName(Run) == "run"
  {
  }

  /** And the tables. */
  lemma {:induction false} TablesSpelled(g: GoneTable, t: TierName)
    ensures GoneName(g) == (if g == Autonomous then GoneKey(g) else "fleet." + GoneKey(g))
    ensures GoneKey(g) == match g
            case Autonomous => "autonomous"
            case FleetAgents => "agents"
            case FleetMonitoring => "monitoring"
            case FleetBudget => "budget"
            case FleetRouter => "router"
    ensures SectionName(Gone(g)) == GoneName(g) && SectionName(Tier(t)) == "tiers." + TierKey(t)
    ensures TierKey(Huge) == "huge" && TierKey(Large) == "large" && TierKey(Medium) == "medium"
         && TierKey(Small) == "small"
    ensures SectionName(PrReview) == "pr_review" && SectionName(StageTiers) == "stage_tiers"
  {
    assert "" + GoneKey(g) == GoneKey(g);
  }

  // ---------------------------------------------------------------------------------------
  // The values of the target
  // ---------------------------------------------------------------------------------------

  lemma {:induction false} FineSetsEffort(t: Pins, lines: seq<Line>, tier: TierName)
    requires Fine(t, lines) && NoArrays(lines) && IsTarget(tier)
    ensures AllSetTo(t.cur, lines, Tier(tier), Effort, "high") && AllSetTo(t.cur, lines, PrReview, Backend, "claude")
    decreases |lines|
  {
    if lines != [] {
      assert lines[0] in lines && NoArrays(lines[1..]);
      FineSetsEffort(Next(t, lines[0]), lines[1..], tier);
    }
  }

  /** Whatever the file was, after a pass every model, version and effort in double quotes is the target's in the
      four target tiers, and so is every backend in the review table. */
  lemma {:induction false} TargetValues(lines: seq<Line>, stamp: string, t: TierName)
    requires NoArrays(lines) && (t == Huge || t == Large || t == Medium || t == Small)
    ensures AllSetTo(None, Synced(lines, stamp), Tier(t), Model, if t == Huge || t == Large then "opus" else "sonnet")
    ensures AllSetTo(None, Synced(lines, stamp), Tier(t), Version, "5")
    ensures AllSetTo(None, Synced(lines, stamp), Tier(t), Effort, "high")
    ensures AllSetTo(None, Synced(lines, stamp), PrReview, Backend, "claude")
  {
    OnePassSettles(lines, stamp);
    SyncedNoArrays(lines, stamp);
    FineSetsPins(START, Synced(lines, stamp), t);
    FineSetsEffort(START, Synced(lines, stamp), t);
  }

  // ---------------------------------------------------------------------------------------
  // The tables appended
  // ---------------------------------------------------------------------------------------

  lemma {:induction false} AbsentNothing(lines: seq<Line>, stamp: string, sec: Section, p: Probe)
    requires NoArrays(lines) && !HasHeader(lines, sec) && Probed(Some(sec), p) && !p.form.Any?
    ensures Has(None, Synced(lines, stamp), Some(sec), p) <==> Appended(lines, stamp, Some(sec), p)
  {
    SyncedHas(lines, stamp, Some(sec), p);
    NoHeaderNoKeys(None, lines, sec, p);
    NoHeaderNoKeys(None, lines, sec, Probe(Model, Quotes));
  }

  lemma {:induction false} AbsentTierHas(lines: seq<Line>, stamp: string, t: TierName, p: Probe)
    requires NoArrays(lines) && IsTarget(t) && !HasHeader(lines, Tier(t)) && Probed(Some(Tier(t)), p) && !p.form.Any?
    ensures Has(None, Synced(lines, stamp), Some(Tier(t)), p) <==> ConfAudit.Any(TierTable(t, stamp)[1..], p)
  {
    AbsentNothing(lines, stamp, Tier(t), p);
  }

  /** A target tier the file had no table for has one afterwards: provider, model, version and effort, each in
      double quotes and nowhere outside them, and the provider is no other than "anthropic". */
  lemma {:induction false} AppendedTierSets(lines: seq<Line>, stamp: string, t: TierName, k: Key)
    requires NoArrays(lines) && (t == Huge || t == Large || t == Medium || t == Small)
    requires !HasHeader(lines, Tier(t)) && (k == Provider || k == Model || k == Version || k == Effort)
    ensures TierHas(Synced(lines, stamp), t, k, Quotes) && !TierHas(Synced(lines, stamp), t, k, Bare)
    ensures !TierHas(Synced(lines, stamp), t, Provider, QuotesNot("anthropic"))
  {
    TierTableHits(t, stamp, k);
    AbsentTierHas(lines, stamp, t, Probe(k, Quotes));
    AbsentTierHas(lines, stamp, t, Probe(k, Bare));
    AbsentTierHas(lines, stamp, t, Probe(Provider, QuotesNot("anthropic")));
  }

  lemma {:induction false} AnyOfFour(a: Line, b: Line, c: Line, d: Line, p: Probe)
    ensures ConfAudit.Any([a, b, c, d], p) <==> Hit(a, p) || Hit(b, p) || Hit(c, p) || Hit(d, p)
  {
    var lines := [a, b, c, d];
    assert a in lines && b in lines && c in lines && d in lines;
  }

  lemma {:induction false} TierTableHits(t: TierName, stamp: string, k: Key)
    requires k == Provider || k == Model || k == Version || k == Effort
    ensures ConfAudit.Any(TierTable(t, stamp)[1..], Probe(k, Quotes))
    ensures !ConfAudit.Any(TierTable(t, stamp)[1..], Probe(k, Bare))
    ensures !ConfAudit.Any(TierTable(t, stamp)[1..], Probe(Provider, QuotesNot("anthropic")))
  {
    var table := TierTable(t, stamp);
    assert table[1..] == [table[1], table[2], table[3], table[4]];
    AnyOfFour(table[1], table[2], table[3], table[4], Probe(k, Quotes));
    AnyOfFour(table[1], table[2], table[3], table[4], Probe(k, Bare));
    AnyOfFour(table[1], table[2], table[3], table[4], Probe(Provider, QuotesNot("anthropic")));
  }

  lemma {:induction false} AbsentReviewHas(lines: seq<Line>, stamp: string, p: Probe)
    requires NoArrays(lines) && !HasHeader(lines, PrReview) && Probed(Some(PrReview), p) && !p.form.Any?
    ensures Has(None, Synced(lines, stamp), Some(PrReview), p)
       <==> Hit(PrReviewTable(stamp)[1], p) || Hit(PrReviewTable(stamp)[2], p)
  {
    AbsentNothing(lines, stamp, PrReview, p);
    var body := PrReviewTable(stamp)[1..];
    assert body == [PrReviewTable(stamp)[1], PrReviewTable(stamp)[2]];
    assert body[0] in body && body[1] in body;
  }

  /** And so for a review table: backend and effort, and the effort is no other than "high". */
  lemma {:induction false} AppendedReviewSets(lines: seq<Line>, stamp: string, k: Key)
    requires NoArrays(lines) && !HasHeader(lines, PrReview) && (k == Backend || k == Effort)
    ensures Has(None, Synced(lines, stamp), Some(PrReview), Probe(k, Quotes))
    ensures !Has(None, Synced(lines, stamp), Some(PrReview), Probe(k, Bare))
    ensures !Has(None, Synced(lines, stamp), Some(PrReview), Probe(Effort, QuotesNot("high")))
  {
    AbsentReviewHas(lines, stamp, Probe(k, Quotes));
    AbsentReviewHas(lines, stamp, Probe(k, Bare));
    AbsentReviewHas(lines, stamp, Probe(Effort, QuotesNot("high")));
  }

  /** A table the file has keeps its provider as it was. */
  lemma {:induction false} ProviderKept(lines: seq<Line>, stamp: string, t: TierName, value: string)
    requires NoArrays(lines) && HasHeader(lines, Tier(t))
    ensures TierHas(Synced(lines, stamp), t, Provider, QuotesNot(value))
       <==> TierHas(lines, t, Provider, QuotesNot(value))
  {
    SyncedHas(lines, stamp, Some(Tier(t)), Probe(Provider, QuotesNot(value)));
  }

  /** A tier table as it is appended. */
  function Written(t: TierName, model: string, stamp: string): seq<Line> {
    [Header(Tier(t), SetOn(stamp)), Quoted(Canonical, Provider, "anthropic", Rest("")),
     Quoted(Canonical, Model, model, Rest("")), Quoted(Canonical, Version, "5", SetOn(stamp)),
     Quoted(Canonical, Effort, "high", SetOn(stamp))]
  }

  function IfAbsent(lines: seq<Line>, sec: Section, table: seq<Line>): seq<Line> {
    if HasHeader(lines, sec) then [] else [Blank("")] + table
  }

  lemma {:induction false} MissingFirst(lines: seq<Line>, t: TierName, rest: seq<TierName>, stamp: string)
    ensures MissingTiers(lines, [t] + rest, stamp)
         == IfAbsent(lines, Tier(t), TierTable(t, stamp)) + MissingTiers(lines, rest, stamp)
  {
    assert ([t] + rest)[0] == t && ([t] + rest)[1..] == rest;
  }

  /** The tables a file lacks are appended from the highest tier to the lowest, the review table last, each after
      a blank line: a stamped header, and the target's values in canonical order, version and effort stamped. */
  lemma {:induction false} MissingInTurn(lines: seq<Line>, stamp: string)
    ensures Missing(lines, stamp)
         == IfAbsent(lines, Tier(Huge), Written(Huge, "opus", stamp))
          + (IfAbsent(lines, Tier(Large), Written(Large, "opus", stamp))
             + (IfAbsent(lines, Tier(Medium), Written(Medium, "sonnet", stamp))
                + IfAbsent(lines, Tier(Small), Written(Small, "sonnet", stamp))))
          + IfAbsent(lines, PrReview, [Header(PrReview, SetOn(stamp)), Quoted(Canonical, Backend, "claude", Rest("")),
                                       Quoted(Canonical, Effort, "high", Rest(""))])
  {
    MissingFirst(lines, Huge, [Large, Medium, Small], stamp);
    MissingFirst(lines, Large, [Medium, Small], stamp);
    MissingFirst(lines, Medium, [Small], stamp);
    MissingFirst(lines, Small, [], stamp);
    assert TIER_ORDER == [Huge] + [Large, Medium, Small] && [Large, Medium, Small] == [Large] + [Medium, Small];
    assert [Medium, Small] == [Medium] + [Small] && [Small] == [Small] + [];
    var last := IfAbsent(lines, Tier(Small), TierTable(Small, stamp));
    assert last + [] == last;
  }

  /** Pins are put in after the last model of a table, should it have several. */
  lemma {:induction false} AfterLastModel(blk: seq<Line>, k: nat)
    requires LastModel(blk).Some? && LastModel(blk).value < k < |blk|
    ensures !(blk[k].Quoted? && blk[k].key == Model)
  {
    if k < |blk| - 1 {
      AfterLastModel(blk[..|blk| - 1], k);
    }
  }

  /** Where a table lacked a version or an effort and has a model, the line put in is stamped too. */
  lemma {:induction false} PinsWritten(blk: seq<Line>, stamp: string)
    ensures Fill(blk, stamp)
         == (if exists l :: l in blk && l.Quoted? && l.key == Version then []
             else [Quoted(Canonical, Version, "5", SetOn(stamp))])
          + (if exists l :: l in blk && l.Quoted? && l.key == Effort then []
             else [Quoted(Canonical, Effort, "high", SetOn(stamp))])
  {
    assert HasPin(blk, Version) <==> exists l :: l in blk && l.Quoted? && l.key == Version;
    assert HasPin(blk, Effort) <==> exists l :: l in blk && l.Quoted? && l.key == Effort;
  }

  // ---------------------------------------------------------------------------------------
  // The lines rewritten
  // ---------------------------------------------------------------------------------------

  lemma {:induction false} WovenKeeps(rew: seq<Line>, out: seq<Line>, gap: ConfFrame.Gap, stamp: string, l: Line)
    requires Woven(rew, out, gap, stamp) && l in rew
    ensures l in out
    decreases |out|
  {
    if rew != [] && out[0] == rew[0] && Woven(rew[1..], out[1..], GapAfter(rew[0]), stamp) {
      if l != rew[0] {
        WovenKeeps(rew[1..], out[1..], GapAfter(rew[0]), stamp, l);
      }
    } else if gap.Both? && out[0] == VersionLine(stamp) && Woven(rew, out[1..], EffortOnly, stamp) {
      WovenKeeps(rew, out[1..], EffortOnly, stamp, l);
    } else {
      WovenKeeps(rew, out[1..], ConfFrame.Nothing, stamp, l);
    }
  }

  /** Each line, rewritten, is in the new file, but for blanks at the end. */
  lemma {:induction false} RewrittenIsThere(lines: seq<Line>, stamp: string, i: nat)
    requires i < |lines|
    ensures var l := Rewrite(SectionOf(None, lines, i), NestedFix(lines), stamp, lines[i]);
            l.Blank? || l in Synced(lines, stamp)
  {
    var rew := RewriteAll(None, lines, NestedFix(lines), stamp);
    var body, blanks := SyncKeepsFrame(lines, stamp);
    RewriteAllAt(None, lines, NestedFix(lines), stamp, i);
    assert rew[i] in rew;
    WovenKeeps(rew, body + blanks, ConfFrame.Nothing, stamp, rew[i]);
  }

  /** A model, version or effort in a target tier is set to the target's value in its place. A comment that now
      contradicts it gives way to one that keeps the old value; any other text after the value stays. */
  lemma {:induction false} PinsRewritten(lines: seq<Line>, stamp: string, i: nat, t: TierName)
    requires i < |lines| && SectionOf(None, lines, i) == Some(Tier(t))
    requires (t == Huge || t == Large || t == Medium || t == Small) && lines[i].Quoted?
    requires lines[i].key == Model || lines[i].key == Version || lines[i].key == Effort
    ensures var l := lines[i];
            var want := if l.key == Model then (if t == Huge || t == Large then "opus" else "sonnet")
                        else if l.key == Version then "5" else "high";
            var tail := if l.value == want || (l.tail.Rest? && '#' !in l.tail.text) then l.tail
                        else WasSetOn(l.value, stamp);
            Quoted(l.lead, l.key, want, tail) in Synced(lines, stamp)
  {
    RewrittenIsThere(lines, stamp, i);
  }

  /** What is retired is commented out whole. */
  lemma {:induction false} RetiredCommentedOut(lines: seq<Line>, stamp: string, i: nat)
    requires i < |lines|
    requires var sec, l := SectionOf(None, lines, i), lines[i];
             || (sec.Some? && sec.value.Gone? && (l.Header? || (IsKeyLine(l) && !l.key.Dashed?)))
             || (sec == Some(PrReview) && IsKeyLine(l) && l.key in [Fix, CoderabbitFix, GreptileFix])
             || (sec == Some(StageTiers) && IsKeyLine(l) && l.key == Run)
    ensures Retired(lines[i]) in Synced(lines, stamp)
  {
    RewrittenIsThere(lines, stamp, i);
  }

  /** The backend of the review table becomes "claude", and a bare yes or no anywhere else true or false, with
      its comment. */
  lemma {:induction false} OthersRepaired(lines: seq<Line>, stamp: string, i: nat)
    requires i < |lines|
    ensures var sec, l := SectionOf(None, lines, i), lines[i];
            && ((sec == Some(PrReview) && l.Quoted? && l.key == Backend)
                ==> Quoted(l.lead, Backend, "claude", l.tail) in Synced(lines, stamp))
            && ((l.YesNo? && !InGone(sec) && !(sec == Some(PrReview) && l.key in [Fix, CoderabbitFix, GreptileFix])
                 && !(sec == Some(StageTiers) && l.key == Run))
                ==> Assign(l.lead, l.key, Repaired(l.yes, l.comment)) in Synced(lines, stamp))
  {
    RewrittenIsThere(lines, stamp, i);
  }

  // ---------------------------------------------------------------------------------------
  // The directories
  // ---------------------------------------------------------------------------------------

  /** The first value of a key in double quotes, at place `i` of the file. */
  predicate FirstQuoted(lines: seq<Line>, k: Key, i: int) {
    && 0 <= i < |lines| && lines[i].Quoted? && lines[i].key == k
    && forall j :: 0 <= j < i ==> !(lines[j].Quoted? && lines[j].key == k)
  }

  lemma {:induction false} FirstValueIff(lines: seq<Line>, k: Key)
    ensures forall i :: FirstQuoted(lines, k, i) ==> FirstValue(lines, k) == Some(lines[i].value)
    ensures FirstValue(lines, k).Some? ==> exists i :: FirstQuoted(lines, k, i)
  {
    if lines != [] {
      FirstValueIff(lines[1..], k);
      if IsPinLine(lines[0], k) {
        assert FirstQuoted(lines, k, 0);
      } else {
        forall i | FirstQuoted(lines, k, i) ensures FirstQuoted(lines[1..], k, i - 1) {
        }
        if i :| FirstQuoted(lines[1..], k, i) {
          assert FirstQuoted(lines, k, i + 1);
        }
      }
    }
  }

  /** A directory without the slashes it ends in. */
  predicate Unslashed(dir: string, base: string) {
    && base <= dir && (forall j :: |base| <= j < |dir| ==> dir[j] == '/')
    && (base == "" || base[|base| - 1] != '/')
  }

  lemma {:induction false} UnslashedOnce(dir: string, a: string, b: string)
    requires Unslashed(dir, a) && Unslashed(dir, b)
    ensures a == b
  {
  }

  /** The tracking directory is to move exactly when the first archive_dir of the file lies under the first
      tracking_dir, whatever slashes that ends in; to `ticket-active` inside it. */
  lemma {:induction false} MoveExactly(lines: seq<Line>, i: int, j: int, base: string)
    requires FirstQuoted(lines, TrackingDir, i) && FirstQuoted(lines, ArchiveDir, j) && Unslashed(lines[i].value, base)
    ensures NestedFix(lines)
         == if lines[i].value != "" && base + "/" <= lines[j].value
            then Some(Move(lines[i].value, base + "/ticket-active")) else None
  {
    FirstValueIff(lines, TrackingDir);
    FirstValueIff(lines, ArchiveDir);
    UnslashedOnce(lines[i].value, base, StripSlashes(lines[i].value));
  }

  lemma {:induction false} NothingToMove(lines: seq<Line>)
    requires (forall i :: !FirstQuoted(lines, TrackingDir, i)) || (forall i :: !FirstQuoted(lines, ArchiveDir, i))
    ensures NestedFix(lines) == None
  {
    FirstValueIff(lines, TrackingDir);
    FirstValueIff(lines, ArchiveDir);
  }

  /** When it is, every top-level tracking_dir of that very value is rewritten. */
  lemma {:induction false} DirectoryMoved(lines: seq<Line>, stamp: string, i: nat)
    requires i < |lines| && SectionOf(None, lines, i) == None && lines[i].Quoted? && lines[i].key == TrackingDir
    requires NestedFix(lines).Some? && lines[i].value == NestedFix(lines).value.from
    ensures Quoted(lines[i].lead, TrackingDir, NestedFix(lines).value.dest, lines[i].tail) in Synced(lines, stamp)
  {
    RewrittenIsThere(lines, stamp, i);
  }

  // ---------------------------------------------------------------------------------------
  // The notes
  // ---------------------------------------------------------------------------------------

  /** What the pass reports of one line: a pin or a backend that was not the target's, with the value it had; a
      retired table by its header and a retired key by its line; a bare yes or no that stays; a directory moved. */
  predicate LineNoted(sec: Option<Section>, nest: Option<Move>, l: Line, n: Note) {
    var gone := sec.Some? && sec.value.Gone?;
    var retired := IsKeyLine(l) && (|| (gone && !l.key.Dashed?)
                                    || (sec == Some(PrReview) && l.key in [Fix, CoderabbitFix, GreptileFix])
                                    || (sec == Some(StageTiers) && l.key == Run));
    match n
    case ValueSet(s, key, was) =>
      && sec == Some(s) && l.Quoted? && l.key == key && l.value == was
      && (|| (s == PrReview && key == Backend && was != "claude")
          || (s == Tier(Huge) && ((key == Model && was != "opus") || (key == Version && was != "5")
                                  || (key == Effort && was != "high")))
          || (s == Tier(Large) && ((key == Model && was != "opus") || (key == Version && was != "5")
                                   || (key == Effort && was != "high")))
          || (s == Tier(Medium) && ((key == Model && was != "sonnet") || (key == Version && was != "5")
                                    || (key == Effort && was != "high")))
          || (s == Tier(Small) && ((key == Model && was != "sonnet") || (key == Version && was != "5")
                                   || (key == Effort && was != "high"))))
    case TableRetired(g) => sec == Some(Gone(g)) && l.Header?
    case KeyRetired(s, key) => sec == Some(s) && retired && l.key == key
    case YesNoFixed(key) => l.YesNo? && !retired && l.key == key
    case TrackingMoved(was) =>
      && sec == None && l.Quoted? && l.key == TrackingDir && l.value == was
      && nest.Some? && was == nest.value.from
    case _ => false
  }

  /** And of one part of the file: the version or the effort put in, in a target tier with a model. */
  predicate InsertNoted(part: Part, n: Note) {
    match n
    case VersionInserted(t) =>
      && part.cur == Some(Tier(t)) && (t == Huge || t == Large || t == Medium || t == Small)
      && HasPin(part.lines, Model) && !HasPin(part.lines, Version)
    case EffortInserted(t) =>
      && part.cur == Some(Tier(t)) && (t == Huge || t == Large || t == Medium || t == Small)
      && HasPin(part.lines, Model) && !HasPin(part.lines, Effort)
    case _ => false
  }

  predicate AppendNoted(lines: seq<Line>, n: Note) {
    || (n == PrReviewAppended && !HasHeader(lines, PrReview))
    || (n.TierAppended? && n.tier in [Huge, Large, Medium, Small] && !HasHeader(lines, Tier(n.tier)))
  }

  lemma {:induction false} LineNotedIff(sec: Option<Section>, nest: Option<Move>, l: Line, n: Note)
    ensures n in RewriteNotes(sec, nest, l) <==> LineNoted(sec, nest, l, n)
  {
  }

  lemma {:induction false} InsertNotedIff(part: Part, nest: Option<Move>, stamp: string, n: Note)
    requires OnePart(part)
    ensures n in CloseNotes(part.cur, RewriteAll(None, part.lines, nest, stamp)) <==> InsertNoted(part, n)
  {
    if InTargetTier(part.cur) {
      var rew := RewriteAll(None, part.lines, nest, stamp);
      TierHasPin(part, nest, stamp, Model);
      TierHasPin(part, nest, stamp, Version);
      TierHasPin(part, nest, stamp, Effort);
    }
  }

  lemma {:induction false} TierHasPin(part: Part, nest: Option<Move>, stamp: string, k: Key)
    requires OnePart(part) && InTargetTier(part.cur) && IsPin(k)
    ensures HasPin(RewriteAll(None, part.lines, nest, stamp), k) <==> HasPin(part.lines, k)
  {
    TierPinsKept(part, nest, stamp, k);
    PinCountZero(RewriteAll(None, part.lines, nest, stamp), k);
    PinCountZero(part.lines, k);
  }

  predicate SomeLineNoted(cur: Option<Section>, rest: seq<Line>, nest: Option<Move>, n: Note)
    decreases |rest|
  {
    rest != []
    && (var here := SectionAt(cur, rest[0]);
        n in RewriteNotes(here, nest, rest[0]) || SomeLineNoted(here, rest[1..], nest, n))
  }

  lemma {:induction false} SomeLineNotedIff(cur: Option<Section>, rest: seq<Line>, nest: Option<Move>, n: Note)
    ensures SomeLineNoted(cur, rest, nest, n)
       <==> exists i :: 0 <= i < |rest| && LineNoted(SectionOf(cur, rest, i), nest, rest[i], n)
    decreases |rest|
  {
    if rest != [] {
      var here := SectionAt(cur, rest[0]);
      SomeLineNotedIff(here, rest[1..], nest, n);
      LineNotedIff(here, nest, rest[0], n);
      if i :| 0 <= i < |rest[1..]| && LineNoted(SectionOf(here, rest[1..], i), nest, rest[1..][i], n) {
        assert SectionOf(cur, rest, i + 1) == SectionOf(here, rest[1..], i) && rest[i + 1] == rest[1..][i];
      }
      if i :| 0 < i < |rest| && LineNoted(SectionOf(cur, rest, i), nest, rest[i], n) {
        assert SectionOf(cur, rest, i) == SectionOf(here, rest[1..], i - 1) && rest[i] == rest[1..][i - 1];
      }
    }
  }

  predicate SomePartNoted(parts: seq<Part>, n: Note) {
    exists part :: part in parts && InsertNoted(part, n)
  }

  lemma {:induction false} FirstPartNoted(part: Part, parts: seq<Part>, n: Note)
    ensures SomePartNoted([part] + parts, n) <==> InsertNoted(part, n) || SomePartNoted(parts, n)
  {
    assert part in [part] + parts;
    assert forall p :: p in parts ==> p in [part] + parts;
  }

  lemma {:induction false} FinishNotesMembers(cur: Option<Section>, done: seq<Line>, rest: seq<Line>,
          nest: Option<Move>, stamp: string, n: Note)
    requires OnePart(Part(cur, done))
    ensures n in FinishNotes(cur, RewriteAll(None, done, nest, stamp), rest, nest, stamp)
       <==> SomeLineNoted(cur, rest, nest, n) || SomePartNoted(Parts(cur, done, rest), n)
    decreases |rest|
  {
    var rew := RewriteAll(None, done, nest, stamp);
    InsertNotedIff(Part(cur, done), nest, stamp, n);
    if rest == [] {
      FirstPartNoted(Part(cur, done), [], n);
      assert Parts(cur, done, rest) == [Part(cur, done)] + [];
    } else if rest[0].Header? {
      var here := Some(rest[0].sec);
      var l := Rewrite(here, nest, stamp, rest[0]);
      FinishNotesMembers(here, [rest[0]], rest[1..], nest, stamp, n);
      FirstPartNoted(Part(cur, done), Parts(here, [rest[0]], rest[1..]), n);
      assert [rest[0]][1..] == [] && RewriteAll(None, [rest[0]], nest, stamp) == [l];
    } else {
      PartGrows(cur, done, rest[0]);
      RewriteAllAppend(cur, done, rest[0], nest, stamp);
      FinishNotesMembers(cur, done + [rest[0]], rest[1..], nest, stamp, n);
    }
  }

  lemma {:induction false} AppendNotedIff(lines: seq<Line>, tiers: seq<TierName>, n: Note)
    ensures n in MissingTierNotes(lines, tiers)
       <==> n.TierAppended? && n.tier in tiers && !HasHeader(lines, Tier(n.tier))
  {
    if tiers != [] {
      AppendNotedIff(lines, tiers[1..], n);
    }
  }

  /** The notes of a pass are exactly what it did: every note stands for a line it rewrote, a pin it put in or a
      table it appended, and each of these has its note. */
  lemma {:induction false} NotesExactly(lines: seq<Line>, stamp: string, n: Note)
    ensures n in SyncNotes(lines, stamp)
       <==> || (exists i :: 0 <= i < |lines| && LineNoted(SectionOf(None, lines, i), NestedFix(lines), lines[i], n))
            || (exists part :: part in Parts(None, [], lines) && InsertNoted(part, n))
            || AppendNoted(lines, n)
  {
    var nest := NestedFix(lines);
    FinishNotesMembers(None, [], lines, nest, stamp, n);
    assert RewriteAll(None, [], nest, stamp) == [];
    SomeLineNotedIff(None, lines, nest, n);
    AppendNotedIff(lines, TIER_ORDER, n);
  }
}
