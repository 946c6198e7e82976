/** The config rewriter: `sync` in tools/fleet-sync/sync-project-conf.py. */
module ConfSync {
  import opened Options
  import Seqs
  import opened ConfLines

  // ---------------------------------------------------------------------------------------
  // Rewriting one line
  // ---------------------------------------------------------------------------------------

  datatype Note =
    | ValueSet(sec: Section, key: Key, was: string)
    | EffortInserted(tier: TierName)
    | VersionInserted(tier: TierName)
    | TableRetired(table: GoneTable)
    | KeyRetired(sec: Section, key: Key)
    | YesNoFixed(key: Key)
    | TrackingMoved(was: string)
    | TierAppended(tier: TierName)
    | PrReviewAppended

  predicate HasComment(t: Tail) {
    !t.Rest? || '#' in t.text
  }

  /** A new value replaces the comment that it contradicts, if there is one, and keeps the old value in it. */
  function SetValue(l: Line, want: string, stamp: string): Line
    requires l.Quoted?
  {
    if l.value == want then l
    else Quoted(l.lead, l.key, want, if HasComment(l.tail) then WasSetOn(l.value, stamp) else l.tail)
  }

  predicate IsPin(k: Key) {
    k == Model || k == Version || k == Effort
  }

  function PinTarget(t: TierName, k: Key): string {
    if k == Model then TargetModel(t) else if k == Version then TARGET_VERSION else TARGET_EFFORT
  }

  /** A tracking_dir and the directory it has to become. */
  datatype Move = Move(from: string, dest: string)

  function Tidy(cur: Option<Section>, nest: Option<Move>, l: Line): Line {
    if l.Quoted? && cur == Some(PrReview) && l.key == Backend then Quoted(l.lead, l.key, "claude", l.tail)
    else if l.YesNo? then
      Assign(l.lead, l.key, Repaired(l.yes, l.comment))
    else if l.Quoted? && nest.Some? && cur.None? && l.key == TrackingDir && l.value == nest.value.from then
      Quoted(l.lead, l.key, nest.value.dest, l.tail)
    else l
  }

  /** What one line becomes. For a header, `cur` is the section it opens. */
  function Rewrite(cur: Option<Section>, nest: Option<Move>, stamp: string, l: Line): Line {
    if l.Quoted? && InTargetTier(cur) && IsPin(l.key) then SetValue(l, PinTarget(cur.value.tier, l.key), stamp)
    else if InGone(cur) && (l.Header? || HasIdentKey(l)) then Retired(l)
    else if IsKeyLine(l) && RetiredKey(cur, l.key) then Retired(l)
    else Tidy(cur, nest, l)
  }

  function RewriteNotes(cur: Option<Section>, nest: Option<Move>, l: Line): seq<Note> {
    if l.Quoted? && InTargetTier(cur) && IsPin(l.key) then
      if l.value == PinTarget(cur.value.tier, l.key) then [] else [ValueSet(cur.value, l.key, l.value)]
    else if InGone(cur) && l.Header? then [TableRetired(cur.value.table)]
    else if InGone(cur) && HasIdentKey(l) then [KeyRetired(cur.value, l.key)]
    else if IsKeyLine(l) && RetiredKey(cur, l.key) then [KeyRetired(cur.value, l.key)]
    else if l.Quoted? && cur == Some(PrReview) && l.key == Backend then
      if l.value == "claude" then [] else [ValueSet(PrReview, Backend, l.value)]
    else if l.YesNo? then [YesNoFixed(l.key)]
    else if l.Quoted? && nest.Some? && cur.None? && l.key == TrackingDir && l.value == nest.value.from then
      [TrackingMoved(l.value)]
    else []
  }

  // ---------------------------------------------------------------------------------------
  // Closing a table: pins that were absent go right after its last model line
  // ---------------------------------------------------------------------------------------

  function VersionLine(stamp: string): Line {
    Quoted(Canonical, Version, TARGET_VERSION, SetOn(stamp))
  }

  function EffortLine(stamp: string): Line {
    Quoted(Canonical, Effort, TARGET_EFFORT, SetOn(stamp))
  }

  predicate IsPinLine(l: Line, k: Key) {
    l.Quoted? && l.key == k
  }

  predicate HasPin(blk: seq<Line>, k: Key) {
    exists l :: l in blk && IsPinLine(l, k)
  }

  function LastModel(blk: seq<Line>): (r: Option<nat>)
    ensures r.Some? ==> r.value < |blk| && IsPinLine(blk[r.value], Model)
    ensures r.Some? <==> HasPin(blk, Model)
  {
    if blk == [] then None
    else
      assert blk == blk[..|blk| - 1] + [blk[|blk| - 1]];
      if IsPinLine(blk[|blk| - 1], Model) then Some(|blk| - 1) else LastModel(blk[..|blk| - 1])
  }

  function Fill(blk: seq<Line>, stamp: string): seq<Line> {
    (if HasPin(blk, Version) then [] else [VersionLine(stamp)])
      + (if HasPin(blk, Effort) then [] else [EffortLine(stamp)])
  }

  function Close(cur: Option<Section>, blk: seq<Line>, stamp: string): seq<Line> {
    if InTargetTier(cur) && LastModel(blk).Some? then
      var m := LastModel(blk).value;
      blk[..m + 1] + Fill(blk, stamp) + blk[m + 1..]
    else blk
  }

  function CloseNotes(cur: Option<Section>, blk: seq<Line>): seq<Note> {
    if InTargetTier(cur) && LastModel(blk).Some? then
      (if HasPin(blk, Effort) then [] else [EffortInserted(cur.value.tier)])
      + (if HasPin(blk, Version) then [] else [VersionInserted(cur.value.tier)])
    else []
  }

  // ---------------------------------------------------------------------------------------
  // The whole pass
  // ---------------------------------------------------------------------------------------

  /** `blk` is the rewritten part of the table being read; `rest` is what is still to come. */
  function Finish(cur: Option<Section>, blk: seq<Line>, rest: seq<Line>, nest: Option<Move>, stamp: string): seq<Line>
    decreases |rest|
  {
    if rest == [] then Close(cur, blk, stamp)
    else
      var here := SectionAt(cur, rest[0]);
      var l := Rewrite(here, nest, stamp, rest[0]);
      if rest[0].Header? then Close(cur, blk, stamp) + Finish(here, [l], rest[1..], nest, stamp)
      else Finish(cur, blk + [l], rest[1..], nest, stamp)
  }

  function FinishNotes(cur: Option<Section>, blk: seq<Line>, rest: seq<Line>, nest: Option<Move>,
          stamp: string): seq<Note>
    decreases |rest|
  {
    if rest == [] then CloseNotes(cur, blk)
    else
      var here := SectionAt(cur, rest[0]);
      var l, n := Rewrite(here, nest, stamp, rest[0]), RewriteNotes(here, nest, rest[0]);
      if rest[0].Header? then CloseNotes(cur, blk) + n + FinishNotes(here, [l], rest[1..], nest, stamp)
      else n + FinishNotes(cur, blk + [l], rest[1..], nest, stamp)
  }

  /** The first quoted value of a key anywhere in the file, whatever the section. */
  function FirstValue(lines: seq<Line>, k: Key): Option<string> {
    if lines == [] then None
    else if IsPinLine(lines[0], k) then Some(lines[0].value)
    else FirstValue(lines[1..], k)
  }

  function StripSlashes(s: string): (r: string)
    ensures |r| <= |s| && r <= s
    ensures r != [] ==> r[|r| - 1] != '/'
    ensures forall i :: |r| <= i < |s| ==> s[i] == '/'
  {
    if s != [] && s[|s| - 1] == '/' then StripSlashes(s[..|s| - 1]) else s
  }

  /** `archive_dir` lies inside `tracking_dir`. */
  predicate Nested(td: Option<string>, ad: Option<string>) {
    td.Some? && ad.Some? && td.value != "" && ad.value != "" && StripSlashes(td.value) + "/" <= ad.value
  }

  function Moved(td: string): string {
    StripSlashes(td) + "/ticket-active"
  }

  function NestedFix(lines: seq<Line>): Option<Move> {
    var td := FirstValue(lines, TrackingDir);
    if Nested(td, FirstValue(lines, ArchiveDir)) then Some(Move(td.value, Moved(td.value))) else None
  }

  predicate HasHeader(lines: seq<Line>, sec: Section) {
    exists l :: l in lines && l.Header? && l.sec == sec
  }

  function TierTable(t: TierName, stamp: string): seq<Line> {
    [Header(Tier(t), SetOn(stamp)), Quoted(Canonical, Provider, "anthropic", Rest("")),
     Quoted(Canonical, Model, TargetModel(t), Rest("")), VersionLine(stamp), EffortLine(stamp)]
  }

  function PrReviewTable(stamp: string): seq<Line> {
    [Header(PrReview, SetOn(stamp)),
     Quoted(Canonical, Backend, "claude", Rest("")), Quoted(Canonical, Effort, "high", Rest(""))]
  }

  function MissingTiers(lines: seq<Line>, tiers: seq<TierName>, stamp: string): seq<Line> {
    if tiers == [] then []
    else
      var here := if HasHeader(lines, Tier(tiers[0])) then [] else [Blank("")] + TierTable(tiers[0], stamp);
      here + MissingTiers(lines, tiers[1..], stamp)
  }

  function MissingTierNotes(lines: seq<Line>, tiers: seq<TierName>): seq<Note> {
    if tiers == [] then []
    else
      var here := if HasHeader(lines, Tier(tiers[0])) then [] else [TierAppended(tiers[0])];
      here + MissingTierNotes(lines, tiers[1..])
  }

  function MissingPr(lines: seq<Line>, stamp: string): seq<Line> {
    if HasHeader(lines, PrReview) then [] else [Blank("")] + PrReviewTable(stamp)
  }

  function Missing(lines: seq<Line>, stamp: string): seq<Line> {
    MissingTiers(lines, TIER_ORDER, stamp) + MissingPr(lines, stamp)
  }

  function MissingNotes(lines: seq<Line>): seq<Note> {
    MissingTierNotes(lines, TIER_ORDER) + (if HasHeader(lines, PrReview) then [] else [PrReviewAppended])
  }

  function TrimBlanks(lines: seq<Line>): seq<Line> {
    if lines != [] && lines[|lines| - 1].Blank? then TrimBlanks(lines[..|lines| - 1]) else lines
  }

  function Body(lines: seq<Line>, stamp: string): seq<Line> {
    Finish(None, [], lines, NestedFix(lines), stamp)
  }

  function Synced(lines: seq<Line>, stamp: string): seq<Line> {
    var add := Missing(lines, stamp);
    if add == [] then Body(lines, stamp) else TrimBlanks(Body(lines, stamp)) + add + [Blank("")]
  }

  function SyncNotes(lines: seq<Line>, stamp: string): seq<Note> {
    FinishNotes(None, [], lines, NestedFix(lines), stamp) + MissingNotes(lines)
  }

  // ---------------------------------------------------------------------------------------
  // The loop, with its deferred insertions by index
  // ---------------------------------------------------------------------------------------

  function InsertAt(out: seq<Line>, at: nat, l: Line): seq<Line>
    requires at <= |out|
  {
    out[..at] + [l] + out[at..]
  }

  lemma {:induction false} InsertTwice(out: seq<Line>, at: nat, first: Line, second: Line)
    requires at <= |out|
    ensures InsertAt(InsertAt(out, at, first), at, second) == out[..at] + [second, first] + out[at..]
  {
    var once := InsertAt(out, at, first);
    assert once[..at] == out[..at] && once[at..] == [first] + out[at..];
  }

  /** The two insertions of `close_tier`: effort first, version after it, at the same index. */
  function InsertPins(out: seq<Line>, at: nat, sawVersion: bool, sawEffort: bool, stamp: string): seq<Line>
    requires at <= |out|
  {
    var once := if sawEffort then out else InsertAt(out, at, EffortLine(stamp));
    if sawVersion then once else InsertAt(once, at, VersionLine(stamp))
  }

  lemma {:induction false} InsertPinsIsFill(out: seq<Line>, at: nat, blk: seq<Line>, stamp: string)
    requires at <= |out|
    ensures InsertPins(out, at, HasPin(blk, Version), HasPin(blk, Effort), stamp)
         == out[..at] + Fill(blk, stamp) + out[at..]
  {
    var v, e := VersionLine(stamp), EffortLine(stamp);
    if HasPin(blk, Version) && HasPin(blk, Effort) {
      assert Fill(blk, stamp) == [];
      assert out[..at] + [] + out[at..] == out;
    } else if HasPin(blk, Version) {
      assert Fill(blk, stamp) == [e];
    } else if HasPin(blk, Effort) {
      assert Fill(blk, stamp) == [v];
    } else {
      assert Fill(blk, stamp) == [v, e];
      InsertTwice(out, at, e, v);
    }
  }

  lemma {:induction false} CloseIsSplice(cur: Option<Section>, done: seq<Line>, blk: seq<Line>, stamp: string)
    requires InTargetTier(cur) && LastModel(blk).Some?
    ensures var at := |done| + LastModel(blk).value + 1;
            done + Close(cur, blk, stamp) == (done + blk)[..at] + Fill(blk, stamp) + (done + blk)[at..]
  {
    Seqs.InsertedAfter(done, blk, LastModel(blk).value, Fill(blk, stamp));
  }

  lemma {:induction false} CloseIsInsertion(cur: Option<Section>, done: seq<Line>, blk: seq<Line>, stamp: string)
    requires InTargetTier(cur) && LastModel(blk).Some?
    ensures done + Close(cur, blk, stamp)
         == InsertPins(done + blk, |done| + LastModel(blk).value + 1, HasPin(blk, Version), HasPin(blk, Effort), stamp)
  {
    CloseIsSplice(cur, done, blk, stamp);
    InsertPinsIsFill(done + blk, |done| + LastModel(blk).value + 1, blk, stamp);
  }

  /** What the loop remembers about the table it is inside. `modelIdx` is an index into the output. */
  datatype Scan = Scan(cur: Option<Section>, pending: Option<TierName>, sawVersion: bool, sawEffort: bool,
                       modelIdx: Option<nat>)

  function Opened(cur: Option<Section>): Scan {
    Scan(cur, if InTargetTier(cur) then Some(cur.value.tier) else None, false, false, None)
  }

  /** The output so far is `done` and then `blk`, the rewritten lines of the table being read. */
  ghost predicate Tracks(s: Scan, done: seq<Line>, blk: seq<Line>) {
    && s.pending == Opened(s.cur).pending
    && (s.pending.Some? ==>
          && s.sawVersion == HasPin(blk, Version) && s.sawEffort == HasPin(blk, Effort)
          && s.modelIdx == match LastModel(blk) case None => None case Some(m) => Some(|done| + m))
  }

  /** `close_tier`: effort is inserted first and version after it, at the same index. */
  method CloseTier(out: seq<Line>, notes: seq<Note>, s: Scan, stamp: string, ghost done: seq<Line>,
          ghost blk: seq<Line>)
      returns (out': seq<Line>, notes': seq<Note>)
    requires out == done + blk && Tracks(s, done, blk)
    ensures out' == done + Close(s.cur, blk, stamp)
    ensures notes' == notes + CloseNotes(s.cur, blk)
  {
    out', notes' := out, notes;
    if s.pending.Some? && s.modelIdx.Some? {
      var at := s.modelIdx.value + 1;
      if !s.sawEffort {
        out' := InsertAt(out', at, EffortLine(stamp));
        notes' := notes' + [EffortInserted(s.pending.value)];
      }
      if !s.sawVersion {
        out' := InsertAt(out', at, VersionLine(stamp));
        notes' := notes' + [VersionInserted(s.pending.value)];
      }
      assert out' == InsertPins(out, at, s.sawVersion, s.sawEffort, stamp);
      CloseIsInsertion(s.cur, done, blk, stamp);
    }
  }

  lemma {:induction false} PinAppend(blk: seq<Line>, l: Line, k: Key)
    ensures HasPin(blk + [l], k) <==> HasPin(blk, k) || IsPinLine(l, k)
  {
    assert l in blk + [l];
    assert forall x :: x in blk ==> x in blk + [l];
  }

  lemma {:induction false} LastModelAppend(blk: seq<Line>, l: Line)
    ensures LastModel(blk + [l]) == if IsPinLine(l, Model) then Some(|blk|) else LastModel(blk)
  {
    assert (blk + [l])[..|blk|] == blk;
  }

  method RewriteLine(cur: Option<Section>, nest: Option<Move>, stamp: string, line: Line)
      returns (out: Line, notes: seq<Note>)
    ensures out == Rewrite(cur, nest, stamp, line)
    ensures notes == RewriteNotes(cur, nest, line)
  {
    out, notes := line, [];
    if InTargetTier(cur) && line.Quoted? && IsPin(line.key) {
      if line.value != PinTarget(cur.value.tier, line.key) {
        notes := [ValueSet(cur.value, line.key, line.value)];
        out := SetValue(line, PinTarget(cur.value.tier, line.key), stamp);
      }
      return;
    }
    if InGone(cur) || (IsKeyLine(line) && RetiredKey(cur, line.key)) {
      if line.Header? {
        return Retired(line), [TableRetired(cur.value.table)];
      }
      if HasIdentKey(line) {
        return Retired(line), [KeyRetired(cur.value, line.key)];
      }
    }
    if cur == Some(PrReview) && line.Quoted? && line.key == Backend && line.value != "claude" {
      notes := [ValueSet(PrReview, Backend, line.value)];
      out := Quoted(line.lead, line.key, "claude", line.tail);
    }
    if line.YesNo? {
      notes := notes + [YesNoFixed(line.key)];
      out := Assign(line.lead, line.key, Repaired(line.yes, line.comment));
    }
    if nest.Some? && cur.None? && line.Quoted? && line.key == TrackingDir && line.value == nest.value.from {
      notes := notes + [TrackingMoved(line.value)];
      out := Quoted(line.lead, line.key, nest.value.dest, line.tail);
    }
  }

  /** Rewrite one line and append it, noting where a model line went and which pins were seen. */
  method AddLine(out: seq<Line>, notes: seq<Note>, s: Scan, nest: Option<Move>, stamp: string, line: Line,
          ghost done: seq<Line>, ghost blk: seq<Line>)
      returns (out': seq<Line>, notes': seq<Note>, s': Scan)
    requires out == done + blk && Tracks(s, done, blk)
    ensures out' == done + (blk + [Rewrite(s.cur, nest, stamp, line)])
    ensures notes' == notes + RewriteNotes(s.cur, nest, line)
    ensures s'.cur == s.cur && Tracks(s', done, blk + [Rewrite(s.cur, nest, stamp, line)])
  {
    s' := s;
    var l, n := RewriteLine(s.cur, nest, stamp, line);
    if s.pending.Some? && line.Quoted? {
      if line.key == Model {
        s' := s'.(modelIdx := Some(|out|));
      } else if line.key == Version {
        s' := s'.(sawVersion := true);
      } else if line.key == Effort {
        s' := s'.(sawEffort := true);
      }
    }
    PinAppend(blk, l, Version);
    PinAppend(blk, l, Effort);
    LastModelAppend(blk, l);
    out', notes' := out + [l], notes + n;
  }

  /** What one absent tier adds. */
  method TierChunk(tier: TierName, seen: bool, stamp: string) returns (chunk: seq<Line>, notes: seq<Note>)
    ensures seen ==> chunk == [] && notes == []
    ensures !seen ==> chunk == [Blank("")] + TierTable(tier, stamp) && notes == [TierAppended(tier)]
  {
    chunk, notes := [], [];
    if !seen {
      notes := notes + [TierAppended(tier)];
      chunk := chunk + [Blank("")] + TierTable(tier, stamp);
    }
  }

  lemma {:induction false} MissingHead(lines: seq<Line>, rest: seq<TierName>, stamp: string, chunk: seq<Line>,
          notes: seq<Note>)
    requires rest != []
    requires HasHeader(lines, Tier(rest[0])) ==> chunk == [] && notes == []
    requires !HasHeader(lines, Tier(rest[0])) ==>
               chunk == [Blank("")] + TierTable(rest[0], stamp) && notes == [TierAppended(rest[0])]
    ensures MissingTiers(lines, rest, stamp) == chunk + MissingTiers(lines, rest[1..], stamp)
    ensures MissingTierNotes(lines, rest) == notes + MissingTierNotes(lines, rest[1..])
  {
  }

  method AppendTiers(lines: seq<Line>, tiers: seq<TierName>, seenTiers: set<TierName>, stamp: string)
      returns (add: seq<Line>, notes: seq<Note>)
    requires forall t :: t in seenTiers <==> HasHeader(lines, Tier(t))
    ensures add == MissingTiers(lines, tiers, stamp) && notes == MissingTierNotes(lines, tiers)
  {
    add, notes := [], [];
    var rest := tiers;
    while rest != []
      invariant MissingTiers(lines, tiers, stamp) == add + MissingTiers(lines, rest, stamp)
      invariant MissingTierNotes(lines, tiers) == notes + MissingTierNotes(lines, rest)
      decreases |rest|
    {
      var chunk, more := TierChunk(rest[0], rest[0] in seenTiers, stamp);
      MissingHead(lines, rest, stamp, chunk, more);
      Seqs.Assoc(add, chunk, MissingTiers(lines, rest[1..], stamp));
      Seqs.Assoc(notes, more, MissingTierNotes(lines, rest[1..]));
      add, notes, rest := add + chunk, notes + more, rest[1..];
    }
  }

  method PopBlanks(lines: seq<Line>) returns (out: seq<Line>)
    ensures out == TrimBlanks(lines)
  {
    out := lines;
    while out != [] && out[|out| - 1].Blank?
      invariant TrimBlanks(out) == TrimBlanks(lines)
    {
      out := out[..|out| - 1];
    }
  }

  lemma {:induction false} HeaderAppend(lines: seq<Line>, l: Line, sec: Section)
    ensures HasHeader(lines + [l], sec) <==> HasHeader(lines, sec) || (l.Header? && l.sec == sec)
  {
    assert l in lines + [l];
    assert forall x :: x in lines ==> x in lines + [l];
  }

  lemma {:induction false} Advance(total: seq<Line>, done: seq<Line>, cur: Option<Section>, blk: seq<Line>,
          lines: seq<Line>, i: nat, nest: Option<Move>, stamp: string)
    requires i < |lines| && total == done + Finish(cur, blk, lines[i..], nest, stamp)
    ensures var here := SectionAt(cur, lines[i]);
            var l := Rewrite(here, nest, stamp, lines[i]);
            total == if lines[i].Header?
                     then done + Close(cur, blk, stamp) + Finish(here, [] + [l], lines[i + 1..], nest, stamp)
                     else done + Finish(cur, blk + [l], lines[i + 1..], nest, stamp)
  {
    Seqs.Next(lines, i);
    var here := SectionAt(cur, lines[i]);
    var l := Rewrite(here, nest, stamp, lines[i]);
    assert [] + [l] == [l];
    Seqs.Assoc(done, Close(cur, blk, stamp), Finish(here, [l], lines[i + 1..], nest, stamp));
  }

  lemma {:induction false} AdvanceNotes(total: seq<Note>, notes: seq<Note>, cur: Option<Section>, blk: seq<Line>,
          lines: seq<Line>, i: nat, nest: Option<Move>, stamp: string)
    requires i < |lines| && total == notes + FinishNotes(cur, blk, lines[i..], nest, stamp)
    ensures var here := SectionAt(cur, lines[i]);
            var l, n := Rewrite(here, nest, stamp, lines[i]), RewriteNotes(here, nest, lines[i]);
            total == if lines[i].Header?
                     then notes + CloseNotes(cur, blk) + n + FinishNotes(here, [] + [l], lines[i + 1..], nest, stamp)
                     else notes + n + FinishNotes(cur, blk + [l], lines[i + 1..], nest, stamp)
  {
    Seqs.Next(lines, i);
    var here := SectionAt(cur, lines[i]);
    var l, n := Rewrite(here, nest, stamp, lines[i]), RewriteNotes(here, nest, lines[i]);
    if lines[i].Header? {
      assert [] + [l] == [l];
      var rest := FinishNotes(here, [l], lines[i + 1..], nest, stamp);
      Seqs.Assoc(notes, CloseNotes(cur, blk) + n, rest);
      Seqs.Assoc(notes, CloseNotes(cur, blk), n);
    } else {
      Seqs.Assoc(notes, n, FinishNotes(cur, blk + [l], lines[i + 1..], nest, stamp));
    }
  }

  ghost predicate Seen(lines: seq<Line>, tiers: set<TierName>, pr: bool) {
    (forall t :: t in tiers <==> HasHeader(lines, Tier(t))) && pr == HasHeader(lines, PrReview)
  }

  method NoteSeen(ghost before: seq<Line>, line: Line, tiers: set<TierName>, pr: bool)
      returns (tiers': set<TierName>, pr': bool)
    requires Seen(before, tiers, pr)
    ensures Seen(before + [line], tiers', pr')
  {
    tiers', pr' := tiers, pr;
    if line.Header? && line.sec.Tier? {
      tiers' := tiers' + {line.sec.tier};
    }
    if line.Header? && line.sec == PrReview {
      pr' := true;
    }
    forall sec
      ensures HasHeader(before + [line], sec) <==> HasHeader(before, sec) || (line.Header? && line.sec == sec)
    {
      HeaderAppend(before, line, sec);
    }
  }

  /** The single pass over the lines, before anything is appended. */
  method SyncBody(lines: seq<Line>, stamp: string)
      returns (out: seq<Line>, notes: seq<Note>, seenTiers: set<TierName>, seenPr: bool)
    ensures out == Body(lines, stamp)
    ensures notes == FinishNotes(None, [], lines, NestedFix(lines), stamp)
    ensures Seen(lines, seenTiers, seenPr)
  {
    out, notes, seenTiers, seenPr := [], [], {}, false;
    var nest, s := NestedFix(lines), Opened(None);
    ghost var done: seq<Line>, blk: seq<Line> := [], [];
    var i := 0;
    while i < |lines|
      invariant i <= |lines| && out == done + blk && Tracks(s, done, blk)
      invariant Body(lines, stamp) == done + Finish(s.cur, blk, lines[i..], nest, stamp)
      invariant FinishNotes(None, [], lines, nest, stamp) == notes + FinishNotes(s.cur, blk, lines[i..], nest, stamp)
      invariant Seen(lines[..i], seenTiers, seenPr)
    {
      var line := lines[i];
      Advance(Body(lines, stamp), done, s.cur, blk, lines, i, nest, stamp);
      AdvanceNotes(FinishNotes(None, [], lines, nest, stamp), notes, s.cur, blk, lines, i, nest, stamp);
      assert lines[..i + 1] == lines[..i] + [line];
      seenTiers, seenPr := NoteSeen(lines[..i], line, seenTiers, seenPr);
      if line.Header? {
        out, notes := CloseTier(out, notes, s, stamp, done, blk);
        done, blk := out, [];
        s := Opened(Some(line.sec));
      }
      out, notes, s := AddLine(out, notes, s, nest, stamp, line, done, blk);
      blk := blk + [Rewrite(s.cur, nest, stamp, line)];
      i := i + 1;
    }
    assert lines[..i] == lines;
    out, notes := CloseTier(out, notes, s, stamp, done, blk);
  }

  /** One pass over the file. */
  method Sync(lines: seq<Line>, stamp: string) returns (out: seq<Line>, notes: seq<Note>)
    ensures out == Synced(lines, stamp)
    ensures notes == SyncNotes(lines, stamp)
  {
    var seenTiers, seenPr;
    out, notes, seenTiers, seenPr := SyncBody(lines, stamp);
    var add, more := AppendTiers(lines, TIER_ORDER, seenTiers, stamp);
    if !seenPr {
      more := more + [PrReviewAppended];
      add := add + ([Blank("")] + PrReviewTable(stamp));
    }
    notes := notes + more;
    if add != [] {
      out := PopBlanks(out);
      out := out + add + [Blank("")];
    }
  }
}
