/** What the harness knows about the end of a span left open: `span_end` in tools/metrics/derive.py. */
module SpanEnds {
  import opened Options
  import RunLog
  import Seqs
  import opened Stamps

  /** A harness row; `stage` is its label in lower case. */
  datatype Row = Row(stage: string, started: Option<Stamp>, finished: Option<Stamp>)

  /** The stages documented to launch no worker. */
  const NO_LAUNCH_STAGES: set<string> := {"intake", "branch", "phase0-commit", "pr", "bot-read", "merge", "close"}

  datatype End =
    | LaunchesNothing
    | NotFound
    | AllPredate(count: nat, earliest: Row)
    | Ended(pick: Row, others: seq<Row>, outside: bool)

  predicate Candidate(r: Row, key: string) {
    r.finished.Some? && Seqs.Contains(r.stage, key)
  }

  function Candidates(rows: seq<Row>, key: string): seq<Row> {
    if rows == [] then [] else (if Candidate(rows[0], key) then [rows[0]] else []) + Candidates(rows[1..], key)
  }

  function Ordered(rows: seq<Row>, key: string): seq<Row> {
    SortBy(Candidates(rows, key), (r: Row) => r.started)
  }

  /** The launch started at or after the span opened, compared at whole seconds. */
  predicate NotBefore(r: Row, at: Stamp) {
    r.started.Some? && r.started.value.sec >= at.sec
  }

  function Survivors(rows: seq<Row>, at: Stamp): seq<Row> {
    if rows == [] then [] else (if NotBefore(rows[0], at) then [rows[0]] else []) + Survivors(rows[1..], at)
  }

  /** `rows` are the launches in the run's window, `later` all of them. */
  function SpanEnd(key: string, at: Stamp, rows: seq<Row>, later: seq<Row>): End {
    if key in NO_LAUNCH_STAGES then LaunchesNothing
    else
      var inside := Ordered(rows, key);
      var cand := if inside == [] then Ordered(later, key) else inside;
      if cand == [] then NotFound
      else
        var after := Survivors(cand, at);
        if after == [] then AllPredate(|cand|, cand[0]) else Ended(after[0], after[1..], inside == [])
  }

  lemma {:induction false} CandidatesMembers(rows: seq<Row>, key: string)
    ensures forall r :: r in Candidates(rows, key) <==> r in rows && Candidate(r, key)
  {
    if rows != [] {
      CandidatesMembers(rows[1..], key);
      assert rows == [rows[0]] + rows[1..];
    }
  }

  lemma {:induction false} OrderedMembers(rows: seq<Row>, key: string)
    ensures forall r :: r in Ordered(rows, key) <==> r in rows && Candidate(r, key)
    ensures SortedBy(Ordered(rows, key), (r: Row) => r.started)
  {
    var cand := Candidates(rows, key);
    CandidatesMembers(rows, key);
    SortBySorts(cand, (r: Row) => r.started);
    forall r ensures r in Ordered(rows, key) <==> r in cand {
      assert r in multiset(Ordered(rows, key)) <==> r in multiset(cand);
    }
  }

  lemma {:induction false} SurvivorsMembers(rows: seq<Row>, at: Stamp)
    requires SortedBy(rows, (r: Row) => r.started)
    ensures forall r :: r in Survivors(rows, at) <==> r in rows && NotBefore(r, at)
    ensures Survivors(rows, at) != [] ==>
              forall r :: r in rows && NotBefore(r, at) ==> NotAfter(Survivors(rows, at)[0].started, r.started)
  {
    if rows != [] {
      var key := (r: Row) => r.started;
      assert SortedBy(rows[1..], key);
      SurvivorsMembers(rows[1..], at);
      assert rows == [rows[0]] + rows[1..];
      if NotBefore(rows[0], at) {
        forall r | r in rows ensures NotAfter(rows[0].started, r.started) {
          var i :| 0 <= i < |rows| && rows[i] == r;
          assert NotAfter(key(rows[0]), key(rows[i])) || i == 0;
        }
      }
    }
  }

  /** A finished launch matching the stage that the span may have opened. */
  ghost predicate Worker(r: Row, rows: seq<Row>, key: string, at: Stamp) {
    r in rows && Candidate(r, key) && NotBefore(r, at)
  }

  ghost predicate AnyMatch(rows: seq<Row>, key: string) {
    exists r :: r in rows && Candidate(r, key)
  }

  lemma {:induction false} OrderedEmptyIff(rows: seq<Row>, key: string)
    ensures Ordered(rows, key) == [] <==> !AnyMatch(rows, key)
  {
    OrderedMembers(rows, key);
    if Ordered(rows, key) != [] {
      assert Ordered(rows, key)[0] in Ordered(rows, key);
    }
  }

  /** Any end reported is that of the earliest matching finished launch that started at or after the span
      opened, looked for outside the window only when nothing in it matches at all; it cannot precede the
      span unless that launch ended before it started; and a no-launch stage never gets one. */
  lemma {:induction false} ReportedEndIsEarliest(key: string, at: Stamp, rows: seq<Row>, later: seq<Row>)
    requires SpanEnd(key, at, rows, later).Ended?
    ensures var e := SpanEnd(key, at, rows, later);
            var source := if e.outside then later else rows;
            && key !in NO_LAUNCH_STAGES
            && Worker(e.pick, source, key, at)
            && (forall r :: Worker(r, source, key, at) ==> NotAfter(e.pick.started, r.started))
            && (forall r :: r == e.pick || r in e.others <==> Worker(r, source, key, at))
            && (e.outside <==> !AnyMatch(rows, key))
            && (e.pick.finished.value.sec >= e.pick.started.value.sec ==> e.pick.finished.value.sec >= at.sec)
  {
    var e := SpanEnd(key, at, rows, later);
    var source := if e.outside then later else rows;
    var after := Survivors(Ordered(source, key), at);
    assert after == [after[0]] + after[1..];
    OrderedEmptyIff(rows, key);
    OrderedMembers(source, key);
    SurvivorsMembers(Ordered(source, key), at);
    assert e.pick in Survivors(Ordered(source, key), at);
  }

  /** What counts as the span's worker: a launch with an end, whose label holds the stage's name, that started
      in the second the span opened or later; and the stages that have none. */
  lemma {:induction false} WorkerIff(r: Row, rows: seq<Row>, key: string, at: Stamp)
    ensures Worker(r, rows, key, at)
       <==> && r in rows && r.finished.Some? && r.started.Some? && r.started.value.sec >= at.sec
            && exists before, after :: r.stage == before + key + after
    ensures key in NO_LAUNCH_STAGES
       <==> key in ["intake", "branch", "phase0-commit", "pr", "bot-read", "merge", "close"]
  {
    Seqs.ContainsIff(r.stage, key);
  }

  lemma {:induction false} CandidatesCount(rows: seq<Row>, key: string, r: Row)
    ensures multiset(Candidates(rows, key))[r] == if Candidate(r, key) then multiset(rows)[r] else 0
  {
    if rows != [] {
      CandidatesCount(rows[1..], key, r);
      assert rows == [rows[0]] + rows[1..];
    }
  }

  /** When every match predates the span: there is one, none of them started in the second it opened or later,
      and what is told of them is how many they are and the earliest, one without a start stamp before all. */
  lemma {:induction false} AllPredateExactly(key: string, at: Stamp, rows: seq<Row>, later: seq<Row>)
      returns (matches: seq<Row>)
    requires SpanEnd(key, at, rows, later).AllPredate?
    ensures var v := SpanEnd(key, at, rows, later);
            var source := if AnyMatch(rows, key) then rows else later;
            && (forall r :: multiset(matches)[r] == if Candidate(r, key) then multiset(source)[r] else 0)
            && v.count == |matches| && v.earliest in matches
            && (forall r :: r in matches ==> r.started.None? || r.started.value.sec < at.sec)
            && (forall r :: r in matches && r.started.None? ==> v.earliest.started.None?)
            && (forall r :: r in matches && v.earliest.started.Some? && r.started.Some? ==>
                  v.earliest.started.value.sec <= r.started.value.sec)
  {
    var source := if AnyMatch(rows, key) then rows else later;
    OrderedEmptyIff(rows, key);
    matches := Ordered(source, key);
    OrderedMembers(source, key);
    SurvivorsMembers(matches, at);
    SortBySorts(Candidates(source, key), (r: Row) => r.started);
    forall r ensures multiset(matches)[r] == if Candidate(r, key) then multiset(source)[r] else 0 {
      CandidatesCount(source, key, r);
    }
    forall r | r in matches
      ensures r.started.None? || r.started.value.sec < at.sec
    {
      assert NotBefore(r, at) ==> r in Survivors(matches, at);
    }
    FirstIsEarliest(matches);
  }

  lemma {:induction false} FirstIsEarliest(matches: seq<Row>)
    requires matches != [] && SortedBy(matches, (r: Row) => r.started)
    ensures forall r :: r in matches && r.started.None? ==> matches[0].started.None?
    ensures forall r :: r in matches && matches[0].started.Some? && r.started.Some? ==>
              matches[0].started.value.sec <= r.started.value.sec
  {
    var key := (r: Row) => r.started;
    forall r | r in matches ensures NotAfter(matches[0].started, r.started) || r == matches[0] {
      var i :| 0 <= i < |matches| && matches[i] == r;
      assert i == 0 || NotAfter(key(matches[0]), key(matches[i]));
    }
  }

  /** Exactly when an end is reported. */
  lemma {:induction false} EndReportedIff(key: string, at: Stamp, rows: seq<Row>, later: seq<Row>)
    ensures SpanEnd(key, at, rows, later).Ended?
       <==> && key !in NO_LAUNCH_STAGES
            && (|| (exists r :: Worker(r, rows, key, at))
                || (!AnyMatch(rows, key) && exists r :: Worker(r, later, key, at)))
    ensures SpanEnd(key, at, rows, later).NotFound?
       <==> key !in NO_LAUNCH_STAGES && !AnyMatch(rows, key) && !AnyMatch(later, key)
    ensures SpanEnd(key, at, rows, later).LaunchesNothing? <==> key in NO_LAUNCH_STAGES
  {
    var inside := Ordered(rows, key);
    OrderedEmptyIff(rows, key);
    OrderedEmptyIff(later, key);
    OrderedMembers(rows, key);
    OrderedMembers(later, key);
    SurvivorsMembers(inside, at);
    SurvivorsMembers(Ordered(later, key), at);
    var after := Survivors(if inside == [] then Ordered(later, key) else inside, at);
    if after != [] {
      assert after[0] in after;
      assert Worker(after[0], if inside == [] then later else rows, key, at);
    }
  }

  /** So a worker cut off past the window is missed when an earlier round of its stage lies inside it:
      the search stops at the in-window match, although that one predates the span. */
  lemma {:induction false} EarlierRoundHidesWorker()
    ensures exists key, at, rows, later :: key !in NO_LAUNCH_STAGES
              && (forall r :: r in rows ==> r in later) && (exists r :: Worker(r, later, key, at))
              && SpanEnd(key, at, rows, later).AllPredate?
  {
    var key := "review";
    var first := Row(key, Some(Stamp(10, 0)), Some(Stamp(20, 0)));
    var second := Row(key, Some(Stamp(110, 0)), Some(Stamp(120, 0)));
    var at := Stamp(100, 0);
    var rows, later := [first], [first, second];
    assert key[0..][..|key|] == key;
    assert Seqs.Contains(key, key);
    assert Worker(second, later, key, at);
    EndReportedIff(key, at, rows, later);
    assert first in rows && AnyMatch(rows, key);
    assert key[1] == 'e' && |key| == 6;
    assert key !in NO_LAUNCH_STAGES by {
      assert "branch"[0] != key[0] && "intake"[0] != key[0];
    }
    assert SpanEnd(key, at, rows, later).AllPredate?;
  }

  // ---------------------------------------------------------------------------------------
  // From the record to the reported ends
  // ---------------------------------------------------------------------------------------

  /** The span loop of `crosscheck`: every span the record leaves open, with what is known of its end. `lower`
      is the stage's text in lower case; a span whose own stamp does not parse is not reported on here. */
  method ReportSpans(lines: seq<RunLog.Line>, lower: Option<string> -> string, rows: seq<Row>, later: seq<Row>)
      returns (ends: map<Option<string>, End>)
    ensures forall s, i | RunLog.LastSpan(lines, |lines|, s, i) ::
              s in ends <==> lines[i].event.started && lines[i].at.Some?
    ensures forall s, i | s in ends && RunLog.LastSpan(lines, |lines|, s, i) ::
              lines[i].at.Some? && ends[s] == SpanEnd(lower(s), lines[i].at.value, rows, later)
    ensures forall s :: s in ends ==> RunLog.IsOpen(lines, |lines|, s)
  {
    var unclosed := RunLog.PairSpans(lines);
    ends := map s | s in unclosed && unclosed[s].Some? :: SpanEnd(lower(s), unclosed[s].value, rows, later);
    forall s, i | RunLog.LastSpan(lines, |lines|, s, i)
      ensures RunLog.IsOpen(lines, |lines|, s) <==> lines[i].event.started
    {
      LastSpanUnique(lines, s, i);
    }
  }

  lemma {:induction false} LastSpanUnique(lines: seq<RunLog.Line>, s: Option<string>, i: int)
    requires RunLog.LastSpan(lines, |lines|, s, i)
    ensures forall j :: RunLog.LastSpan(lines, |lines|, s, j) ==> j == i
    ensures RunLog.IsOpen(lines, |lines|, s) <==> lines[i].event.started
  {
    forall j | RunLog.LastSpan(lines, |lines|, s, j) ensures j == i {
      assert RunLog.IsSpan(lines[i], s) && RunLog.IsSpan(lines[j], s);
    }
  }

  /** For every span the record leaves open, any end reported is that of the earliest matching finished launch
      not started before the last start of that stage, after which the record holds no span line of it; so it
      does not precede the open unless that launch ended before it started, and a stage that launches nothing
      gets none. */
  lemma {:induction false} OpenSpanEnd(lines: seq<RunLog.Line>, s: Option<string>, i: int,
          lower: Option<string> -> string, rows: seq<Row>, later: seq<Row>)
    requires RunLog.IsOpen(lines, |lines|, s) && RunLog.LastSpan(lines, |lines|, s, i) && lines[i].at.Some?
    ensures lines[i].event.started && forall j :: i < j < |lines| ==> !RunLog.IsSpan(lines[j], s)
    ensures var e, at := SpanEnd(lower(s), lines[i].at.value, rows, later), lines[i].at.value;
            e.Ended? ==>
              var source := if e.outside then later else rows;
              && lower(s) !in NO_LAUNCH_STAGES
              && Worker(e.pick, source, lower(s), at)
              && (forall r :: Worker(r, source, lower(s), at) ==> NotAfter(e.pick.started, r.started))
              && (e.outside <==> !AnyMatch(rows, lower(s)))
              && (e.pick.finished.value.sec >= e.pick.started.value.sec ==> e.pick.finished.value.sec >= at.sec)
  {
    LastSpanUnique(lines, s, i);
    var at := lines[i].at.value;
    if SpanEnd(lower(s), at, rows, later).Ended? {
      ReportedEndIsEarliest(lower(s), at, rows, later);
    }
  }
}
