/** The orchestrator's own record of a run, and which of its spans are open: the claims that
    tools/metrics/derive.py checks against the harness. */
module RunLog {
  import opened Options
  import opened Stamps

  /** A span line either starts its stage's span or, in any other state, ends it. */
  datatype Event = Span(started: bool) | Note | OtherEvent(name: string)

  /** `launch` says whether a launch note is attached, and if so whether it names a tier. */
  datatype Launch = NoLaunch | Launched(tier: bool)
  datatype Line = Line(at: Option<Stamp>, event: Event, stage: Option<string>, launch: Launch)

  predicate IsSpan(l: Line, stage: Option<string>) {
    l.event.Span? && l.stage == stage
  }

  /** Line `i` is the last span line of its stage among the first `n`. */
  predicate LastSpan(lines: seq<Line>, n: nat, stage: Option<string>, i: int)
    requires n <= |lines|
  {
    0 <= i < n && IsSpan(lines[i], stage) && forall j :: i < j < n ==> !IsSpan(lines[j], stage)
  }

  /** After the first `n` lines the stage's span is open: the last word on it was a start. */
  ghost predicate IsOpen(lines: seq<Line>, n: nat, stage: Option<string>)
    requires n <= |lines|
  {
    exists i :: LastSpan(lines, n, stage, i) && lines[i].event.started
  }

  lemma {:induction false} LastSpanStep(lines: seq<Line>, n: nat, stage: Option<string>, i: int)
    requires 0 < n <= |lines|
    ensures LastSpan(lines, n, stage, i)
       <==> if IsSpan(lines[n - 1], stage) then i == n - 1 else LastSpan(lines, n - 1, stage, i)
  {
  }

  lemma {:induction false} IsOpenStep(lines: seq<Line>, n: nat, stage: Option<string>)
    requires 0 < n <= |lines|
    ensures IsOpen(lines, n, stage)
       <==> if IsSpan(lines[n - 1], stage) then lines[n - 1].event.started else IsOpen(lines, n - 1, stage)
  {
    LastSpanStep(lines, n, stage, n - 1);
    if i :| LastSpan(lines, n, stage, i) && lines[i].event.started {
      LastSpanStep(lines, n, stage, i);
    }
    if i :| LastSpan(lines, n - 1, stage, i) && lines[i].event.started {
      LastSpanStep(lines, n, stage, i);
    }
  }

  /** The pairing fold of `crosscheck`: what is left open at the end, with the stamp of its own start. */
  method PairSpans(lines: seq<Line>) returns (unclosed: map<Option<string>, Option<Stamp>>)
    ensures forall s :: s in unclosed <==> IsOpen(lines, |lines|, s)
    ensures forall s, i :: s in unclosed && LastSpan(lines, |lines|, s, i) ==> unclosed[s] == lines[i].at
  {
    unclosed := map[];
    var n := 0;
    while n < |lines|
      invariant n <= |lines|
      invariant forall s :: s in unclosed <==> IsOpen(lines, n, s)
      invariant forall s, i :: s in unclosed && LastSpan(lines, n, s, i) ==> unclosed[s] == lines[i].at
    {
      var d := lines[n];
      ghost var before := unclosed;
      if d.event.Span? {
        if d.event.started {
          unclosed := unclosed[d.stage := d.at];
        } else {
          unclosed := unclosed - {d.stage};
        }
      }
      n := n + 1;
      forall s ensures s in unclosed <==> IsOpen(lines, n, s) {
        IsOpenStep(lines, n, s);
      }
      forall s, i | s in unclosed && LastSpan(lines, n, s, i) ensures unclosed[s] == lines[i].at {
        LastSpanStep(lines, n, s, i);
      }
    }
  }
}
