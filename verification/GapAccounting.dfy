/** Is the clock accounted for: `gaps` in tools/metrics/derive.py. */
module GapAccounting {
  import opened Options
  import opened Stamps
  import opened RunLog

  const GAP_THRESHOLD_S := 120
  const WAITING: Option<string> := Some("waiting_for_user")

  /** The slice after line `i`, up to line `i + 1`; nothing when a stamp does not parse. */
  function Delta(lines: seq<Line>, i: nat): int
    requires i + 1 < |lines|
  {
    match Seconds(lines[i].at, lines[i + 1].at)
    case None => 0
    case Some(d) => d
  }

  /** How many slices there are: none without lines. */
  function Slices(lines: seq<Line>): nat {
    if lines == [] then 0 else |lines| - 1
  }

  /** After the first `n` lines no span is open. */
  ghost predicate NoneOpen(lines: seq<Line>, n: nat)
    requires n <= |lines|
  {
    forall s :: !IsOpen(lines, n, s)
  }

  ghost predicate OnlyOpen(lines: seq<Line>, n: nat, stage: Option<string>)
    requires n <= |lines|
  {
    forall s :: IsOpen(lines, n, s) <==> s == stage
  }

  datatype Class = Itemised | Residual | Bracketed | Inside

  /** What accounts for the slice after line `i`: nothing (long or short), the owner's answer, or work. */
  ghost function ClassOf(lines: seq<Line>, i: nat): Class
    requires i + 1 < |lines|
  {
    if NoneOpen(lines, i + 1) then (if Delta(lines, i) > GAP_THRESHOLD_S then Itemised else Residual)
    else if OnlyOpen(lines, i + 1, WAITING) then Bracketed
    else Inside
  }

  /** Seconds of the first `n` slices that are of one class. */
  ghost function TimeIn(lines: seq<Line>, n: nat, c: Class): int
    requires n == 0 || n < |lines|
  {
    if n == 0 then 0 else TimeIn(lines, n - 1, c) + if ClassOf(lines, n - 1) == c then Delta(lines, n - 1) else 0
  }

  ghost function CountIn(lines: seq<Line>, n: nat, c: Class): nat
    requires n == 0 || n < |lines|
  {
    if n == 0 then 0 else CountIn(lines, n - 1, c) + if ClassOf(lines, n - 1) == c then 1 else 0
  }

  datatype Gap = Gap(seconds: int, from: nat)

  ghost function GapsIn(lines: seq<Line>, n: nat): seq<Gap>
    requires n == 0 || n < |lines|
  {
    if n == 0 then []
    else GapsIn(lines, n - 1) + (if ClassOf(lines, n - 1) == Itemised then [Gap(Delta(lines, n - 1), n - 1)] else [])
  }

  function GapTotal(gaps: seq<Gap>): int {
    if gaps == [] then 0 else GapTotal(gaps[..|gaps| - 1]) + gaps[|gaps| - 1].seconds
  }

  ghost predicate OpenAre(open: set<Option<string>>, lines: seq<Line>, n: nat)
    requires n <= |lines|
  {
    forall s :: s in open <==> IsOpen(lines, n, s)
  }

  /** Every open span is tracked, not only the wait for an answer. */
  method Track(open: set<Option<string>>, lines: seq<Line>, i: nat) returns (now: set<Option<string>>)
    requires i < |lines| && OpenAre(open, lines, i)
    ensures OpenAre(now, lines, i + 1)
  {
    now := open;
    if lines[i].event.Span? {
      if lines[i].event.started {
        now := now + {lines[i].stage};
      } else {
        now := now - {lines[i].stage};
      }
    }
    forall s ensures s in now <==> IsOpen(lines, i + 1, s) {
      IsOpenStep(lines, i + 1, s);
    }
  }

  /** A line as it stands in the record, with the place of its stamp among all texts: the order lines are
      sorted in, whether the stamp parses or not. A line without a stamp has no place. */
  datatype Claim = Claim(rank: Option<nat>, line: Line)

  function RankOf(c: Claim): Option<Stamp> {
    if c.rank.Some? then Some(Stamp(c.rank.value, 0)) else None
  }

  function Stamped(claims: seq<Claim>): seq<Claim> {
    if claims == [] then [] else (if claims[0].rank.Some? then [claims[0]] else []) + Stamped(claims[1..])
  }

  function LinesOf(claims: seq<Claim>): seq<Line> {
    seq(|claims|, i requires 0 <= i < |claims| => claims[i].line)
  }

  /** The lines that carry a stamp, sorted by it. */
  function Timeline(claims: seq<Claim>): seq<Line> {
    LinesOf(SortBy(Stamped(claims), RankOf))
  }

  lemma {:induction false} StampedMembers(claims: seq<Claim>)
    ensures forall c :: c in Stamped(claims) <==> c in claims && c.rank.Some?
  {
    if claims != [] {
      StampedMembers(claims[1..]);
      assert claims == [claims[0]] + claims[1..];
    }
  }

  predicate Ordered(a: Claim, b: Claim) {
    a.rank.Some? && b.rank.Some? && a.rank.value <= b.rank.value && a.line.at.Some? && b.line.at.Some?
  }

  /** The text of a stamp orders it as its time does, where it parses. */
  ghost predicate TextIsTime(claims: seq<Claim>) {
    forall a, b :: a in claims && b in claims && Ordered(a, b) ==> a.line.at.value.sec <= b.line.at.value.sec
  }

  ghost predicate InOrder(lines: seq<Line>) {
    forall i, j :: 0 <= i < j < |lines| && lines[i].at.Some? && lines[j].at.Some? ==>
      lines[i].at.value.sec <= lines[j].at.value.sec
  }

  lemma {:induction false} RankedOrder(claims: seq<Claim>)
    ensures var sorted := SortBy(Stamped(claims), RankOf);
            && (forall c :: c in sorted ==> c in claims && c.rank.Some?)
            && (forall i, j :: 0 <= i < j < |sorted| ==> NotAfter(RankOf(sorted[i]), RankOf(sorted[j])))
  {
    var sorted := SortBy(Stamped(claims), RankOf);
    StampedMembers(claims);
    SortBySorts(Stamped(claims), RankOf);
    forall c | c in sorted ensures c in claims && c.rank.Some? {
      assert c in multiset(sorted);
    }
  }

  /** Sorting by the text puts the lines in time order. */
  lemma {:induction false} TimelineInOrder(claims: seq<Claim>)
    requires TextIsTime(claims)
    ensures InOrder(Timeline(claims))
  {
    var sorted := SortBy(Stamped(claims), RankOf);
    RankedOrder(claims);
    forall i, j | 0 <= i < j < |sorted| && sorted[i].line.at.Some? && sorted[j].line.at.Some?
      ensures sorted[i].line.at.value.sec <= sorted[j].line.at.value.sec
    {
      assert sorted[i] in sorted && sorted[j] in sorted;
      assert NotAfter(RankOf(sorted[i]), RankOf(sorted[j]));
      assert Ordered(sorted[i], sorted[j]);
    }
  }

  /** The claims of one rank, in their order. */
  function OfRank(claims: seq<Claim>, r: nat): seq<Claim> {
    if claims == [] then [] else (if claims[0].rank == Some(r) then [claims[0]] else []) + OfRank(claims[1..], r)
  }

  lemma {:induction false} OfRankHaving(claims: seq<Claim>, r: nat)
    ensures Having(claims, RankOf, Some(Stamp(r, 0))) == OfRank(claims, r) == OfRank(Stamped(claims), r)
  {
    if claims != [] {
      OfRankHaving(claims[1..], r);
      var rest := Stamped(claims[1..]);
      if claims[0].rank.Some? {
        assert ([claims[0]] + rest)[1..] == rest;
      } else {
        assert Stamped(claims) == rest;
      }
    }
  }

  lemma {:induction false} StampedCount(claims: seq<Claim>, c: Claim)
    ensures multiset(Stamped(claims))[c] == if c.rank.Some? then multiset(claims)[c] else 0
  {
    if claims != [] {
      StampedCount(claims[1..], c);
      assert claims == [claims[0]] + claims[1..];
    }
  }

  /** The timeline is the record's stamped lines, all of them and nothing else, sorted by stamp; lines of one
      stamp keep the order of the record. */
  lemma {:induction false} TimelineExactly(claims: seq<Claim>) returns (sorted: seq<Claim>)
    ensures |Timeline(claims)| == |sorted| && forall i :: 0 <= i < |sorted| ==> Timeline(claims)[i] == sorted[i].line
    ensures forall c :: multiset(sorted)[c] == if c.rank.Some? then multiset(claims)[c] else 0
    ensures forall c :: c in sorted <==> c in claims && c.rank.Some?
    ensures forall i, j :: 0 <= i < j < |sorted| && sorted[i].rank.Some? && sorted[j].rank.Some?
              ==> sorted[i].rank.value <= sorted[j].rank.value
    ensures forall r: nat :: OfRank(sorted, r) == OfRank(claims, r)
  {
    sorted := SortBy(Stamped(claims), RankOf);
    RankedOrder(claims);
    SortBySorts(Stamped(claims), RankOf);
    forall c ensures multiset(sorted)[c] == if c.rank.Some? then multiset(claims)[c] else 0 {
      StampedCount(claims, c);
    }
    forall c ensures c in sorted <==> c in claims && c.rank.Some? {
      assert c in multiset(sorted) <==> c in multiset(Stamped(claims));
      StampedMembers(claims);
    }
    forall r: nat ensures OfRank(sorted, r) == OfRank(claims, r) {
      SortByStable(Stamped(claims), RankOf, Some(Stamp(r, 0)));
      OfRankHaving(sorted, r);
      OfRankHaving(Stamped(claims), r);
      OfRankHaving(claims, r);
    }
    RanksRise(claims);
  }

  lemma {:induction false} RanksRise(claims: seq<Claim>)
    ensures var sorted := SortBy(Stamped(claims), RankOf);
            forall i, j :: 0 <= i < j < |sorted| && sorted[i].rank.Some? && sorted[j].rank.Some?
              ==> sorted[i].rank.value <= sorted[j].rank.value
  {
    var sorted := SortBy(Stamped(claims), RankOf);
    forall i, j | 0 <= i < j < |sorted| && sorted[i].rank.Some? && sorted[j].rank.Some?
      ensures sorted[i].rank.value <= sorted[j].rank.value
    {
      SortByInTime(Stamped(claims), RankOf, i, j);
    }
  }

  lemma {:induction false} ClassByOpen(lines: seq<Line>, i: nat, open: set<Option<string>>)
    requires i + 1 < |lines| && OpenAre(open, lines, i + 1)
    ensures ClassOf(lines, i) == if open == {} then (if Delta(lines, i) > GAP_THRESHOLD_S then Itemised else Residual)
                                 else if open == {WAITING} then Bracketed
                                 else Inside
  {
    OpenSetClass(lines, i + 1, open);
  }

  /** One pass over the sorted lines. Each itemised gap is given by the line it comes after. */
  method SortedGaps(lines: seq<Line>) returns (itemised: seq<Gap>, residue: int, residueCount: nat, bracketed: int)
    ensures itemised == GapsIn(lines, Slices(lines))
    ensures residue == TimeIn(lines, Slices(lines), Residual) && residueCount == CountIn(lines, Slices(lines), Residual)
    ensures bracketed == TimeIn(lines, Slices(lines), Bracketed)
  {
    itemised, residue, residueCount, bracketed := [], 0, 0, 0;
    var open: set<Option<string>> := {};
    var i := 0;
    while i < Slices(lines)
      invariant i <= Slices(lines) && OpenAre(open, lines, i)
      invariant itemised == GapsIn(lines, i)
      invariant residue == TimeIn(lines, i, Residual) && residueCount == CountIn(lines, i, Residual)
      invariant bracketed == TimeIn(lines, i, Bracketed)
    {
      open := Track(open, lines, i);
      ClassByOpen(lines, i, open);
      var d := Delta(lines, i);
      if open != {} {
        if open == {WAITING} {
          bracketed := bracketed + d;
        }
      } else if d > GAP_THRESHOLD_S {
        itemised := itemised + [Gap(d, i)];
      } else {
        residue := residue + d;
        residueCount := residueCount + 1;
      }
      i := i + 1;
    }
  }

  /** The lines that carry a stamp are sorted by it, and gone through once. */
  method Gaps(claims: seq<Claim>) returns (itemised: seq<Gap>, residue: int, residueCount: nat, bracketed: int)
    ensures itemised == GapsIn(Timeline(claims), Slices(Timeline(claims)))
    ensures residue == TimeIn(Timeline(claims), Slices(Timeline(claims)), Residual)
    ensures residueCount == CountIn(Timeline(claims), Slices(Timeline(claims)), Residual)
    ensures bracketed == TimeIn(Timeline(claims), Slices(Timeline(claims)), Bracketed)
    ensures forall first, last :: Extent(claims, first, last) ==>
              GapTotal(itemised) + residue + bracketed + TimeIn(Timeline(claims), Slices(Timeline(claims)), Inside)
              == last.line.at.value.sec - first.line.at.value.sec
  {
    itemised, residue, residueCount, bracketed := SortedGaps(Timeline(claims));
    forall first, last | Extent(claims, first, last)
      ensures GapTotal(itemised) + residue + bracketed + TimeIn(Timeline(claims), Slices(Timeline(claims)), Inside)
           == last.line.at.value.sec - first.line.at.value.sec
    {
      RecordConserved(claims, first, last);
    }
  }

  lemma {:induction false} OpenSetClass(lines: seq<Line>, n: nat, open: set<Option<string>>)
    requires n <= |lines| && OpenAre(open, lines, n)
    ensures open == {} <==> NoneOpen(lines, n)
    ensures open == {WAITING} <==> OnlyOpen(lines, n, WAITING)
  {
    if open != {} {
      var s :| s in open;
      assert IsOpen(lines, n, s);
    }
    if OnlyOpen(lines, n, WAITING) {
      forall s ensures s in open <==> s == WAITING {
        assert IsOpen(lines, n, s) <==> s == WAITING;
      }
    }
    if open == {WAITING} {
      forall s ensures IsOpen(lines, n, s) <==> s == WAITING {
        assert s in open <==> IsOpen(lines, n, s);
      }
    }
  }

  /** Seconds of the first `n` slices during which no span is open. */
  ghost function UncoveredTime(lines: seq<Line>, n: nat): int
    requires n == 0 || n < |lines|
  {
    if n == 0 then 0
    else UncoveredTime(lines, n - 1) + if NoneOpen(lines, n) then Delta(lines, n - 1) else 0
  }

  function Clock(lines: seq<Line>, n: nat): int
    requires n == 0 || n < |lines|
  {
    if n == 0 then 0 else Clock(lines, n - 1) + Delta(lines, n - 1)
  }

  lemma {:induction false} ClassesAddUp(lines: seq<Line>, n: nat)
    requires n == 0 || n < |lines|
    ensures TimeIn(lines, n, Itemised) + TimeIn(lines, n, Residual) + TimeIn(lines, n, Bracketed)
        + TimeIn(lines, n, Inside)
         == Clock(lines, n)
    ensures TimeIn(lines, n, Itemised) + TimeIn(lines, n, Residual) == UncoveredTime(lines, n)
    ensures GapTotal(GapsIn(lines, n)) == TimeIn(lines, n, Itemised)
  {
    if n > 0 {
      ClassesAddUp(lines, n - 1);
      var before, now := GapsIn(lines, n - 1), GapsIn(lines, n);
      if ClassOf(lines, n - 1) == Itemised {
        assert now[..|now| - 1] == before;
      } else {
        assert now == before;
      }
    }
  }

  lemma {:induction false} ClockTelescopes(lines: seq<Line>, n: nat)
    requires n < |lines| && forall i :: 0 <= i <= n ==> lines[i].at.Some?
    ensures Clock(lines, n) == lines[n].at.value.sec - lines[0].at.value.sec
  {
    if n > 0 {
      ClockTelescopes(lines, n - 1);
    }
  }

  /** Nothing of the clock is dropped: itemised, residue, bracketed and the time inside other spans make up
      exactly the time from the first line to the last, and the first two exactly the time with no span
      open, when every stamp parses. */
  lemma {:induction false} ClockConserved(lines: seq<Line>)
    requires forall i :: 0 <= i < |lines| ==> lines[i].at.Some?
    ensures var n := Slices(lines);
            GapTotal(GapsIn(lines, n)) + TimeIn(lines, n, Residual) + TimeIn(lines, n, Bracketed)
              + TimeIn(lines, n, Inside)
            == if lines == [] then 0 else lines[n].at.value.sec - lines[0].at.value.sec
    ensures GapTotal(GapsIn(lines, Slices(lines))) + TimeIn(lines, Slices(lines), Residual)
        == UncoveredTime(lines, Slices(lines))
  {
    ClassesAddUp(lines, Slices(lines));
    if lines != [] {
      ClockTelescopes(lines, Slices(lines));
    }
  }

  /** A record whose stamps all parse, in the order of their texts, with its earliest line and its latest. */
  ghost predicate Extent(claims: seq<Claim>, first: Claim, last: Claim) {
    && TextIsTime(claims) && (forall c :: c in claims && c.rank.Some? ==> c.line.at.Some?)
    && first in claims && first.rank.Some? && last in claims && last.rank.Some?
    && forall c :: c in claims && c.rank.Some? ==>
         first.line.at.value.sec <= c.line.at.value.sec <= last.line.at.value.sec
  }

  lemma {:induction false} TimelineEnds(claims: seq<Claim>, first: Claim, last: Claim)
    requires Extent(claims, first, last)
    ensures var lines := Timeline(claims);
            && lines != [] && (forall i :: 0 <= i < |lines| ==> lines[i].at.Some?)
            && lines[0].at.value.sec == first.line.at.value.sec
            && lines[|lines| - 1].at.value.sec == last.line.at.value.sec
  {
    TimelineInOrder(claims);
    var a := LineOnTimeline(claims, first);
    var b := LineOnTimeline(claims, last);
    forall i | 0 <= i < |Timeline(claims)|
      ensures var at := Timeline(claims)[i].at;
              at.Some? && first.line.at.value.sec <= at.value.sec <= last.line.at.value.sec
    {
      var c := ClaimOnTimeline(claims, i);
    }
  }

  lemma {:induction false} LineOnTimeline(claims: seq<Claim>, c: Claim) returns (i: nat)
    requires c in claims && c.rank.Some?
    ensures i < |Timeline(claims)| && Timeline(claims)[i] == c.line
  {
    var sorted := TimelineExactly(claims);
    i :| 0 <= i < |sorted| && sorted[i] == c;
  }

  lemma {:induction false} ClaimOnTimeline(claims: seq<Claim>, i: nat) returns (c: Claim)
    requires i < |Timeline(claims)|
    ensures c in claims && c.rank.Some? && Timeline(claims)[i] == c.line
  {
    var sorted := TimelineExactly(claims);
    c := sorted[i];
    assert c in sorted;
  }

  /** From the record itself: what `gaps` reports, with the time inside other spans, makes up its latest stamp
      minus its earliest. */
  lemma {:induction false} RecordConserved(claims: seq<Claim>, first: Claim, last: Claim)
    requires Extent(claims, first, last)
    ensures var lines := Timeline(claims);
            var n := Slices(lines);
            GapTotal(GapsIn(lines, n)) + TimeIn(lines, n, Residual) + TimeIn(lines, n, Bracketed)
              + TimeIn(lines, n, Inside)
            == last.line.at.value.sec - first.line.at.value.sec
  {
    TimelineEnds(claims, first, last);
    ClockConserved(Timeline(claims));
  }

  /** Where the slice after line `i` goes, and what it adds there: over two minutes with no span open, to the
      itemised gaps; shorter, to the residue; with nothing open but the wait for the user, to the bracketed
      time; and nowhere while any other span is open. A stamp that does not parse makes it nothing. */
  lemma {:induction false} SliceGoes(lines: seq<Line>, i: nat)
    requires i + 1 < |lines|
    ensures var a, b := lines[i].at, lines[i + 1].at;
            var d := if a.Some? && b.Some? then b.value.sec - a.value.sec else 0;
            var none, waiting := NoneOpen(lines, i + 1), OnlyOpen(lines, i + 1, Some("waiting_for_user"));
            && GapsIn(lines, i + 1) == GapsIn(lines, i) + (if none && d > 120 then [Gap(d, i)] else [])
            && TimeIn(lines, i + 1, Residual) == TimeIn(lines, i, Residual) + (if none && d <= 120 then d else 0)
            && CountIn(lines, i + 1, Residual) == CountIn(lines, i, Residual) + (if none && d <= 120 then 1 else 0)
            && TimeIn(lines, i + 1, Bracketed) == TimeIn(lines, i, Bracketed) + (if waiting then d else 0)
            && TimeIn(lines, i + 1, Inside) == TimeIn(lines, i, Inside) + (if !none && !waiting then d else 0)
  {
    assert OnlyOpen(lines, i + 1, WAITING) ==> IsOpen(lines, i + 1, WAITING);
  }

  /** The itemised gaps are exactly the slices over two minutes that no span accounts for, in order. */
  lemma {:induction false} ItemisedExactly(lines: seq<Line>, n: nat)
    requires n == 0 || n < |lines|
    ensures forall g :: g in GapsIn(lines, n) <==>
              && g.from < n && g.seconds == Delta(lines, g.from) && g.seconds > 120 && NoneOpen(lines, g.from + 1)
    ensures forall a, b :: 0 <= a < b < |GapsIn(lines, n)| ==> GapsIn(lines, n)[a].from < GapsIn(lines, n)[b].from
  {
    if n > 0 {
      ItemisedExactly(lines, n - 1);
      var before := GapsIn(lines, n - 1);
      forall a | 0 <= a < |before| ensures before[a].from < n - 1 {
        assert before[a] in before;
      }
    }
  }

  // ---------------------------------------------------------------------------------------
  // What a stamp that does not parse costs
  // ---------------------------------------------------------------------------------------

  /** The last stamp that parses among the first `n + 1` lines, in seconds. */
  function LastParsed(lines: seq<Line>, n: nat): int
    requires n < |lines| && lines[0].at.Some?
  {
    if lines[n].at.Some? then lines[n].at.value.sec else LastParsed(lines, n - 1)
  }

  /** Time that passed across lines whose stamps do not parse, up to line `n`. */
  function Lost(lines: seq<Line>, n: nat): int
    requires n < |lines| && lines[0].at.Some?
  {
    if n == 0 then 0
    else if lines[n].at.Some? && lines[n - 1].at.None? then
      Lost(lines, n - 1) + (lines[n].at.value.sec - LastParsed(lines, n - 1))
    else Lost(lines, n - 1)
  }

  /** What the slices add up to is short by exactly that. */
  lemma {:induction false} ClockAndLost(lines: seq<Line>, n: nat)
    requires n < |lines| && lines[0].at.Some?
    ensures Clock(lines, n) + Lost(lines, n) == LastParsed(lines, n) - lines[0].at.value.sec
  {
    if n > 0 {
      ClockAndLost(lines, n - 1);
    }
  }

  /** No time passes across a line whose stamp does not parse. */
  predicate NothingLost(lines: seq<Line>, n: nat)
    requires n < |lines| && lines[0].at.Some?
  {
    forall i :: 0 < i <= n && lines[i].at.Some? && lines[i - 1].at.None?
      ==> lines[i].at.value.sec == LastParsed(lines, i - 1)
  }

  lemma {:induction false} LastParsedInOrder(lines: seq<Line>, n: nat, j: nat)
    requires n < j < |lines| && lines[0].at.Some? && lines[j].at.Some? && InOrder(lines)
    ensures LastParsed(lines, n) <= lines[j].at.value.sec
  {
    if lines[n].at.None? {
      LastParsedInOrder(lines, n - 1, j);
    }
  }

  lemma {:induction false} LostIff(lines: seq<Line>, n: nat)
    requires n < |lines| && lines[0].at.Some? && InOrder(lines)
    ensures Lost(lines, n) >= 0 && (Lost(lines, n) == 0 <==> NothingLost(lines, n))
  {
    if n > 0 {
      LostIff(lines, n - 1);
      var crosses := lines[n].at.Some? && lines[n - 1].at.None?;
      assert NothingLost(lines, n)
        <==> NothingLost(lines, n - 1) && (crosses ==> lines[n].at.value.sec == LastParsed(lines, n - 1));
      if lines[n].at.Some? {
        LastParsedInOrder(lines, n - 1, n);
      }
    }
  }

  /** Over lines in time order, from one that parses to one that parses, the whole clock is accounted for
      if and only if no time passes across a line whose stamp does not parse; otherwise part of it is
      silently dropped. */
  lemma {:induction false} ClockConservedIff(lines: seq<Line>)
    requires lines != [] && lines[0].at.Some? && lines[|lines| - 1].at.Some? && InOrder(lines)
    ensures var n := |lines| - 1;
            && Clock(lines, n) <= lines[n].at.value.sec - lines[0].at.value.sec
            && (Clock(lines, n) == lines[n].at.value.sec - lines[0].at.value.sec <==> NothingLost(lines, n))
  {
    ClockAndLost(lines, |lines| - 1);
    LostIff(lines, |lines| - 1);
  }

  /** A stamp that does not parse drops time silently: here the whole run. */
  lemma {:induction false} UnparsedStampLosesTime()
    ensures exists lines: seq<Line> :: |lines| == 3 && lines[0].at.Some? && lines[2].at.Some?
              && lines[2].at.value.sec - lines[0].at.value.sec == 1000 && Clock(lines, 2) == 0
  {
    var first := Line(Some(Stamp(0, 0)), Note, None, NoLaunch);
    var bad := first.(at := None);
    var last := first.(at := Some(Stamp(1000, 0)));
    var lines := [first, bad, last];
    assert Clock(lines, 1) == Clock(lines, 0) + Delta(lines, 0);
    assert Clock(lines, 2) == Clock(lines, 1) + Delta(lines, 1);
  }
}
