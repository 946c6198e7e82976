/** What the config rewriter leaves alone. */
module ConfFrame {
  import opened Options
  import Seqs
  import opened ConfLines
  import opened ConfSync
  import ConfFixpoint

  /** Every line rewritten in its place: no line is dropped, added or moved. */
  function RewriteAll(cur: Option<Section>, lines: seq<Line>, nest: Option<Move>, stamp: string): (r: seq<Line>)
    ensures |r| == |lines|
    decreases |lines|
  {
    if lines == [] then []
    else
      var here := SectionAt(cur, lines[0]);
      [Rewrite(here, nest, stamp, lines[0])] + RewriteAll(here, lines[1..], nest, stamp)
  }

  /** The section line `i` is in. */
  function SectionOf(cur: Option<Section>, lines: seq<Line>, i: nat): Option<Section>
    requires i < |lines|
    decreases i
  {
    if i == 0 then SectionAt(cur, lines[0]) else SectionOf(SectionAt(cur, lines[0]), lines[1..], i - 1)
  }

  /** What may be put in here: nothing, an effort, or a version and then an effort. */
  datatype Gap = Nothing | EffortOnly | Both

  function GapAfter(l: Line): Gap {
    if IsPinLine(l, Model) then Both else Nothing
  }

  /** `out` is `rew` with nothing but absent pins put in: at most one version and then at most one effort,
      right after a model line. */
  predicate Woven(rew: seq<Line>, out: seq<Line>, gap: Gap, stamp: string)
    decreases |out|
  {
    if out == [] then rew == []
    else
      || (rew != [] && out[0] == rew[0] && Woven(rew[1..], out[1..], GapAfter(rew[0]), stamp))
      || (gap.Both? && out[0] == VersionLine(stamp) && Woven(rew, out[1..], EffortOnly, stamp))
      || (!gap.Nothing? && out[0] == EffortLine(stamp) && Woven(rew, out[1..], Nothing, stamp))
  }

  lemma {:induction false} WovenAnyGap(rew: seq<Line>, out: seq<Line>, gap: Gap, stamp: string)
    requires Woven(rew, out, Nothing, stamp)
    ensures Woven(rew, out, gap, stamp)
  {
  }

  lemma {:induction false} WovenSelf(lines: seq<Line>, gap: Gap, stamp: string)
    ensures Woven(lines, lines, gap, stamp)
    decreases |lines|
  {
    if lines != [] {
      WovenSelf(lines[1..], GapAfter(lines[0]), stamp);
    }
  }

  lemma {:induction false} WovenConcat(a: seq<Line>, x: seq<Line>, gap: Gap, b: seq<Line>, y: seq<Line>, stamp: string)
    requires Woven(a, x, gap, stamp) && Woven(b, y, Nothing, stamp)
    ensures Woven(a + b, x + y, gap, stamp)
    decreases |x|
  {
    if x == [] {
      assert a + b == b && x + y == y;
      WovenAnyGap(b, y, gap, stamp);
    } else {
      assert (x + y)[1..] == x[1..] + y;
      if a != [] && x[0] == a[0] && Woven(a[1..], x[1..], GapAfter(a[0]), stamp) {
        WovenConcat(a[1..], x[1..], GapAfter(a[0]), b, y, stamp);
        assert (a + b)[1..] == a[1..] + b;
      } else if gap.Both? && x[0] == VersionLine(stamp) && Woven(a, x[1..], EffortOnly, stamp) {
        WovenConcat(a, x[1..], EffortOnly, b, y, stamp);
      } else {
        WovenConcat(a, x[1..], Nothing, b, y, stamp);
      }
    }
  }

  /** A model line followed by whatever pins its table lacked. */
  lemma {:induction false} FillWoven(model: Line, blk: seq<Line>, stamp: string)
    requires IsPinLine(model, Model)
    ensures Woven([model], [model] + Fill(blk, stamp), Nothing, stamp)
  {
    var v, e, fill := VersionLine(stamp), EffortLine(stamp), Fill(blk, stamp);
    assert Woven([], [], Nothing, stamp) && Woven([], [], EffortOnly, stamp) && Woven([], [], Both, stamp);
    assert [e][1..] == [] && [v][1..] == [] && [v, e][1..] == [e];
    assert Woven([], [e], EffortOnly, stamp) && Woven([], [e], Both, stamp);
    assert Woven([], [v], Both, stamp) && Woven([], [v, e], Both, stamp);
    assert fill == [] || fill == [e] || fill == [v] || fill == [v, e];
    var out := [model] + fill;
    assert out[1..] == fill && [model][1..] == [];
  }

  lemma {:induction false} InsertionWoven(before: seq<Line>, model: Line, blk: seq<Line>, rest: seq<Line>,
          stamp: string)
    requires IsPinLine(model, Model)
    ensures Woven(before + ([model] + rest), before + ([model] + Fill(blk, stamp) + rest), Nothing, stamp)
  {
    WovenSelf(before, Nothing, stamp);
    WovenSelf(rest, Nothing, stamp);
    FillWoven(model, blk, stamp);
    WovenConcat([model], [model] + Fill(blk, stamp), Nothing, rest, rest, stamp);
    WovenConcat(before, before, Nothing, [model] + rest, [model] + Fill(blk, stamp) + rest, stamp);
  }

  lemma {:induction false} CloseWoven(cur: Option<Section>, blk: seq<Line>, stamp: string)
    ensures Woven(blk, Close(cur, blk, stamp), Nothing, stamp)
  {
    if InTargetTier(cur) && LastModel(blk).Some? {
      var m := LastModel(blk).value;
      var model, rest := blk[m], blk[m + 1..];
      InsertionWoven(blk[..m], model, blk, rest, stamp);
      Seqs.Inserted(blk, m, Fill(blk, stamp));
    } else {
      WovenSelf(blk, Nothing, stamp);
    }
  }

  lemma {:induction false} FinishWoven(cur: Option<Section>, blk: seq<Line>, rest: seq<Line>, nest: Option<Move>,
          stamp: string)
    ensures Woven(blk + RewriteAll(cur, rest, nest, stamp), Finish(cur, blk, rest, nest, stamp), Nothing, stamp)
    decreases |rest|
  {
    CloseWoven(cur, blk, stamp);
    if rest == [] {
      assert blk + [] == blk;
    } else {
      var here := SectionAt(cur, rest[0]);
      var l := Rewrite(here, nest, stamp, rest[0]);
      var tail := RewriteAll(here, rest[1..], nest, stamp);
      if rest[0].Header? {
        FinishWoven(here, [l], rest[1..], nest, stamp);
        WovenConcat(blk, Close(cur, blk, stamp), Nothing, [l] + tail, Finish(here, [l], rest[1..], nest, stamp), stamp);
      } else {
        FinishWoven(cur, blk + [l], rest[1..], nest, stamp);
        assert blk + [l] + tail == blk + ([l] + tail);
      }
    }
  }

  /** The whole edit: each line in place, absent pins woven in after model lines, trailing blanks dropped
      only when required tables follow them. */
  lemma {:induction false} SyncKeepsFrame(lines: seq<Line>, stamp: string) returns (body: seq<Line>, blanks: seq<Line>)
    ensures Woven(RewriteAll(None, lines, NestedFix(lines), stamp), body + blanks, Nothing, stamp)
    ensures forall l :: l in blanks ==> l.Blank?
    ensures Missing(lines, stamp) == [] ==> blanks == [] && Synced(lines, stamp) == body
    ensures Missing(lines, stamp) != [] ==> Synced(lines, stamp) == body + Missing(lines, stamp) + [Blank("")]
    ensures Missing(lines, stamp) != [] ==> body == [] || !body[|body| - 1].Blank?
  {
    FinishWoven(None, [], lines, NestedFix(lines), stamp);
    assert [] + RewriteAll(None, lines, NestedFix(lines), stamp) == RewriteAll(None, lines, NestedFix(lines), stamp);
    body, blanks := Body(lines, stamp), [];
    if Missing(lines, stamp) != [] {
      blanks := ConfFixpoint.TrimSplits(body);
      TrimmedEnd(body);
      body := TrimBlanks(body);
    } else {
      assert body + blanks == body;
    }
  }

  lemma {:induction false} TrimmedEnd(lines: seq<Line>)
    ensures TrimBlanks(lines) == [] || !TrimBlanks(lines)[|TrimBlanks(lines)| - 1].Blank?
  {
    if lines != [] && lines[|lines| - 1].Blank? {
      TrimmedEnd(lines[..|lines| - 1]);
    }
  }

  lemma {:induction false} RewriteAllAt(cur: Option<Section>, lines: seq<Line>, nest: Option<Move>, stamp: string,
          i: nat)
    requires i < |lines|
    ensures RewriteAll(cur, lines, nest, stamp)[i] == Rewrite(SectionOf(cur, lines, i), nest, stamp, lines[i])
    decreases i
  {
    if i > 0 {
      RewriteAllAt(SectionAt(cur, lines[0]), lines[1..], nest, stamp, i - 1);
    }
  }

  /** What the rules are about, and nothing else: a retired table's header and identifier keys, a key retired
      by itself, a bare yes or no, a pin or a backend that is not the target's, and a tracking directory
      that is to move. */
  predicate Targeted(sec: Option<Section>, nest: Option<Move>, l: Line) {
    || (InGone(sec) && (l.Header? || HasIdentKey(l)))
    || (IsKeyLine(l) && RetiredKey(sec, l.key))
    || l.YesNo?
    || (l.Quoted? && InTargetTier(sec) && IsPin(l.key) && l.value != PinTarget(sec.value.tier, l.key))
    || (l.Quoted? && sec == Some(PrReview) && l.key == Backend && l.value != "claude")
    || (l.Quoted? && sec.None? && l.key == TrackingDir && nest.Some? && l.value == nest.value.from)
  }

  /** A line survives untouched, and unmentioned, if and only if no rule is about it. */
  lemma {:induction false} UntargetedLinesSurvive(lines: seq<Line>, stamp: string, i: nat)
    requires i < |lines|
    ensures var sec, nest := SectionOf(None, lines, i), NestedFix(lines);
            && (RewriteAll(None, lines, nest, stamp)[i] == lines[i] <==> !Targeted(sec, nest, lines[i]))
            && (RewriteNotes(sec, nest, lines[i]) == [] <==> !Targeted(sec, nest, lines[i]))
  {
    var nest := NestedFix(lines);
    if nest.Some? {
      ConfFixpoint.MovedDiffers(nest.value.from);
    }
    RewriteAllAt(None, lines, nest, stamp, i);
    ConfFixpoint.RewriteSame(SectionOf(None, lines, i), nest, stamp, lines[i]);
    NotedIff(SectionOf(None, lines, i), nest, lines[i]);
  }

  lemma {:induction false} NotedIff(sec: Option<Section>, nest: Option<Move>, l: Line)
    ensures RewriteNotes(sec, nest, l) == [] <==> !Targeted(sec, nest, l)
  {
  }

  function PinCount(lines: seq<Line>, k: Key): nat {
    if lines == [] then 0 else (if IsPinLine(lines[0], k) then 1 else 0) + PinCount(lines[1..], k)
  }

  lemma {:induction false} PinCountConcat(a: seq<Line>, b: seq<Line>, k: Key)
    ensures PinCount(a + b, k) == PinCount(a, k) + PinCount(b, k)
  {
    if a == [] {
      assert a + b == b;
    } else {
      assert (a + b)[1..] == a[1..] + b;
      PinCountConcat(a[1..], b, k);
    }
  }

  lemma {:induction false} PinCountZero(lines: seq<Line>, k: Key)
    ensures PinCount(lines, k) == 0 <==> !HasPin(lines, k)
  {
    if lines != [] {
      PinCountZero(lines[1..], k);
      assert lines == [lines[0]] + lines[1..];
    }
  }

  /** A table gains at most one version and one effort line, each only when it had none and pins a model;
      its model lines stay as many as they were. */
  lemma {:induction false} CloseAddsAtMostOne(cur: Option<Section>, blk: seq<Line>, stamp: string)
    ensures PinCount(Close(cur, blk, stamp), Model) == PinCount(blk, Model)
    ensures forall k :: k == Version || k == Effort ==>
              PinCount(Close(cur, blk, stamp), k)
              == if InTargetTier(cur) && HasPin(blk, Model) && !HasPin(blk, k) then 1 else PinCount(blk, k)
  {
    if InTargetTier(cur) && LastModel(blk).Some? {
      CloseCounts(cur, blk, stamp, Model);
      CloseCounts(cur, blk, stamp, Version);
      CloseCounts(cur, blk, stamp, Effort);
      PinCountZero(blk, Version);
      PinCountZero(blk, Effort);
      FillCounts(blk, stamp);
    }
  }

  lemma {:induction false} CloseCounts(cur: Option<Section>, blk: seq<Line>, stamp: string, k: Key)
    requires InTargetTier(cur) && LastModel(blk).Some?
    ensures PinCount(Close(cur, blk, stamp), k) == PinCount(blk, k) + PinCount(Fill(blk, stamp), k)
  {
    var m, fill := LastModel(blk).value, Fill(blk, stamp);
    var before, after := blk[..m + 1], blk[m + 1..];
    assert Close(cur, blk, stamp) == before + fill + after && blk == before + after;
    PinCountConcat(before, fill, k);
    PinCountConcat(before + fill, after, k);
    PinCountConcat(before, after, k);
  }

  lemma {:induction false} FillCounts(blk: seq<Line>, stamp: string)
    ensures PinCount(Fill(blk, stamp), Model) == 0
    ensures PinCount(Fill(blk, stamp), Version) == if HasPin(blk, Version) then 0 else 1
    ensures PinCount(Fill(blk, stamp), Effort) == if HasPin(blk, Effort) then 0 else 1
  {
    var v := if HasPin(blk, Version) then [] else [VersionLine(stamp)];
    var e := if HasPin(blk, Effort) then [] else [EffortLine(stamp)];
    assert Fill(blk, stamp) == v + e;
    PinCountConcat(v, e, Model);
    PinCountConcat(v, e, Version);
    PinCountConcat(v, e, Effort);
    assert forall k, l :: PinCount([l], k) == if IsPinLine(l, k) then 1 else 0;
  }

  // ---------------------------------------------------------------------------------------
  // Table by table over the whole file
  // ---------------------------------------------------------------------------------------

  /** A table of the file, from its header to the line before the next, or what stands above every header. */
  datatype Part = Part(cur: Option<Section>, lines: seq<Line>)

  /** The file cut into its parts; `done` is the beginning of the one being read. */
  function Parts(cur: Option<Section>, done: seq<Line>, rest: seq<Line>): seq<Part>
    decreases |rest|
  {
    if rest == [] then [Part(cur, done)]
    else if rest[0].Header? then [Part(cur, done)] + Parts(Some(rest[0].sec), [rest[0]], rest[1..])
    else Parts(cur, done + [rest[0]], rest[1..])
  }

  function Uncut(parts: seq<Part>): seq<Line> {
    if parts == [] then [] else parts[0].lines + Uncut(parts[1..])
  }

  /** The lines of one part after a pass. */
  function PartAfter(part: Part, nest: Option<Move>, stamp: string): seq<Line> {
    Close(part.cur, RewriteAll(None, part.lines, nest, stamp), stamp)
  }

  function PartsAfter(parts: seq<Part>, nest: Option<Move>, stamp: string): seq<Line> {
    if parts == [] then [] else PartAfter(parts[0], nest, stamp) + PartsAfter(parts[1..], nest, stamp)
  }

  predicate OnePart(part: Part) {
    if part.cur.None? then forall l :: l in part.lines ==> !l.Header?
    else
      && part.lines != [] && part.lines[0].Header? && part.cur == Some(part.lines[0].sec)
      && forall l :: l in part.lines[1..] ==> !l.Header?
  }

  lemma {:induction false} PartsUncut(cur: Option<Section>, done: seq<Line>, rest: seq<Line>)
    requires OnePart(Part(cur, done))
    ensures Uncut(Parts(cur, done, rest)) == done + rest
    ensures forall p :: p in Parts(cur, done, rest) ==> OnePart(p)
    decreases |rest|
  {
    if rest == [] {
      assert Parts(cur, done, rest)[1..] == [];
    } else if rest[0].Header? {
      PartsUncut(Some(rest[0].sec), [rest[0]], rest[1..]);
      var parts := Parts(cur, done, rest);
      assert parts[1..] == Parts(Some(rest[0].sec), [rest[0]], rest[1..]);
      assert [rest[0]] + rest[1..] == rest;
    } else {
      PartGrows(cur, done, rest[0]);
      PartsUncut(cur, done + [rest[0]], rest[1..]);
      assert done + [rest[0]] + rest[1..] == done + rest;
    }
  }

  lemma {:induction false} PartGrows(cur: Option<Section>, done: seq<Line>, l: Line)
    requires OnePart(Part(cur, done)) && !l.Header?
    ensures OnePart(Part(cur, done + [l]))
  {
    if done != [] {
      assert (done + [l])[1..] == done[1..] + [l];
    }
  }

  lemma {:induction false} RewriteAllAppend(cur: Option<Section>, done: seq<Line>, l: Line, nest: Option<Move>,
          stamp: string)
    requires OnePart(Part(cur, done)) && !l.Header?
    ensures RewriteAll(None, done + [l], nest, stamp)
        == RewriteAll(None, done, nest, stamp) + [Rewrite(cur, nest, stamp, l)]
  {
    if cur.None? {
      FlatAppend(None, done, l, nest, stamp);
    } else {
      assert (done + [l])[1..] == done[1..] + [l];
      FlatAppend(cur, done[1..], l, nest, stamp);
    }
  }

  lemma {:induction false} FlatAppend(cur: Option<Section>, done: seq<Line>, l: Line, nest: Option<Move>, stamp: string)
    requires !l.Header? && forall x :: x in done ==> !x.Header?
    ensures RewriteAll(cur, done + [l], nest, stamp)
        == RewriteAll(cur, done, nest, stamp) + [Rewrite(cur, nest, stamp, l)]
    decreases |done|
  {
    if done == [] {
      assert [] + [l] == [l] && [l][1..] == [];
    } else {
      assert (done + [l])[1..] == done[1..] + [l];
      FlatAppend(cur, done[1..], l, nest, stamp);
    }
  }

  lemma {:induction false} FinishIsParts(cur: Option<Section>, done: seq<Line>, rest: seq<Line>, nest: Option<Move>,
          stamp: string)
    requires OnePart(Part(cur, done))
    ensures Finish(cur, RewriteAll(None, done, nest, stamp), rest, nest, stamp)
        == PartsAfter(Parts(cur, done, rest), nest, stamp)
    decreases |rest|
  {
    var parts := Parts(cur, done, rest);
    if rest == [] {
      assert parts[1..] == [];
    } else if rest[0].Header? {
      var here := Some(rest[0].sec);
      FinishIsParts(here, [rest[0]], rest[1..], nest, stamp);
      assert parts[1..] == Parts(here, [rest[0]], rest[1..]);
      assert [rest[0]][1..] == [];
      assert RewriteAll(None, [rest[0]], nest, stamp) == [Rewrite(here, nest, stamp, rest[0])];
    } else {
      PartGrows(cur, done, rest[0]);
      RewriteAllAppend(cur, done, rest[0], nest, stamp);
      FinishIsParts(cur, done + [rest[0]], rest[1..], nest, stamp);
    }
  }

  /** A pass goes over the file table by table: it is cut at its headers, and what each part becomes, in
      order, is the new file before anything is appended. */
  lemma {:induction false} BodyIsParts(lines: seq<Line>, stamp: string)
    ensures Body(lines, stamp) == PartsAfter(Parts(None, [], lines), NestedFix(lines), stamp)
    ensures Uncut(Parts(None, [], lines)) == lines
    ensures forall p :: p in Parts(None, [], lines) ==> OnePart(p)
  {
    FinishIsParts(None, [], lines, NestedFix(lines), stamp);
    PartsUncut(None, [], lines);
    assert [] + lines == lines;
  }

  lemma {:induction false} RewriteKeepsPins(cur: Option<Section>, lines: seq<Line>, nest: Option<Move>, stamp: string,
          k: Key)
    requires InTargetTier(cur) && IsPin(k) && forall l :: l in lines ==> !l.Header?
    ensures PinCount(RewriteAll(cur, lines, nest, stamp), k) == PinCount(lines, k)
    decreases |lines|
  {
    if lines != [] {
      assert lines[0] in lines;
      RewriteKeepsPins(cur, lines[1..], nest, stamp, k);
    }
  }

  /** Each target tier table of the file gains at most one version and one effort line, and each only when it
      had none and pins a model; no other part of the file gains any line at all. */
  lemma {:induction false} EachTableGainsAtMostOne(lines: seq<Line>, stamp: string, part: Part, k: Key)
    requires part in Parts(None, [], lines) && IsPin(k)
    ensures var after := PartAfter(part, NestedFix(lines), stamp);
            if InTargetTier(part.cur) then
              PinCount(after, k)
              == if k != Model && HasPin(part.lines, Model) && !HasPin(part.lines, k) then 1
                 else PinCount(part.lines, k)
            else |after| == |part.lines|
  {
    var nest := NestedFix(lines);
    var rew := RewriteAll(None, part.lines, nest, stamp);
    PartsUncut(None, [], lines);
    CloseAddsAtMostOne(part.cur, rew, stamp);
    if InTargetTier(part.cur) {
      TierPinsKept(part, nest, stamp, k);
      TierPinsKept(part, nest, stamp, Model);
      PinCountZero(rew, k);
      PinCountZero(rew, Model);
      PinCountZero(part.lines, k);
      PinCountZero(part.lines, Model);
    }
  }

  lemma {:induction false} TierPinsKept(part: Part, nest: Option<Move>, stamp: string, k: Key)
    requires OnePart(part) && InTargetTier(part.cur) && IsPin(k)
    ensures PinCount(RewriteAll(None, part.lines, nest, stamp), k) == PinCount(part.lines, k)
  {
    RewriteKeepsPins(part.cur, part.lines[1..], nest, stamp, k);
  }
}
