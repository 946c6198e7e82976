/** Launch notes against launches, when attribution leaves the true count uncertain:
    `launch_note_check` in tools/metrics/derive.py. */
module LaunchNotes {
  import opened Options
  import opened Stamps
  import opened RunLog

  datatype Verdict =
    | Pass
    | Undecidable
    | Shortfall(missing: nat, tierLossLow: int, tierLossHigh: int)
    | Interrupted(inFlight: nat)
    | Phantom(count: nat)

  function NoteCount(claims: seq<Line>): nat {
    if claims == [] then 0
    else NoteCount(claims[..|claims| - 1]) + if claims[|claims| - 1].launch.Launched? then 1 else 0
  }

  function TieredCount(claims: seq<Line>): nat {
    if claims == [] then 0
    else TieredCount(claims[..|claims| - 1]) + if claims[|claims| - 1].launch == Launched(true) then 1 else 0
  }

  /** The record ends in the note that closes the run; one further up does not count. */
  predicate Closed(claims: seq<Line>) {
    claims != [] && claims[|claims| - 1].event == Note && claims[|claims| - 1].stage == Some("run_closed")
  }

  function LastStamp(claims: seq<Line>): Option<Stamp> {
    if claims == [] then None
    else
      var before, at := LastStamp(claims[..|claims| - 1]), claims[|claims| - 1].at;
      if NotAfter(before, at) then at else before
  }

  predicate StartsAfter(started: Option<Stamp>, last: Option<Stamp>) {
    started.Some? && (last.None? || started.value.sec > last.value.sec)
  }

  /** Launches the harness knows of that started after the record's last line. */
  function InFlight(later: seq<Option<Stamp>>, last: Option<Stamp>): nat {
    if later == [] then 0 else (if StartsAfter(later[0], last) then 1 else 0) + InFlight(later[1..], last)
  }

  function Flying(claims: seq<Line>, later: seq<Option<Stamp>>): nat {
    if Closed(claims) then 0 else InFlight(later, LastStamp(claims))
  }

  /** `rows` launches are attributed to this ticket, and `dropped` more may or may not be its own. */
  function Check(claims: seq<Line>, rows: nat, later: seq<Option<Stamp>>, dropped: nat): Verdict {
    var notes := NoteCount(claims);
    if notes == rows then (if dropped == 0 then Pass else Undecidable)
    else if notes < rows then
      Shortfall(rows - notes, rows - TieredCount(claims), rows - TieredCount(claims) + dropped)
    else if Flying(claims, later) > 0 then Interrupted(Flying(claims, later))
    else if dropped >= notes - rows then Undecidable
    else Phantom(notes - rows - dropped)
  }

  lemma {:induction false} OneMore(marked: set<int>, more: set<int>, n: int)
    requires n !in marked && more == marked + {n}
    ensures |more| == |marked| + 1
  {
  }

  lemma {:induction false} NotesCounted(claims: seq<Line>, n: nat)
    requires n <= |claims|
    ensures NoteCount(claims[..n]) == |set i | 0 <= i < n && claims[i].launch.Launched?|
  {
    var now := set i | 0 <= i < n && claims[i].launch.Launched?;
    if n == 0 {
      assert now == {};
    } else {
      NotesCounted(claims, n - 1);
      assert claims[..n][..n - 1] == claims[..n - 1];
      var before := set i | 0 <= i < n - 1 && claims[i].launch.Launched?;
      if claims[n - 1].launch.Launched? {
        OneMore(before, now, n - 1);
      } else {
        assert now == before;
      }
    }
  }

  lemma {:induction false} TieredCounted(claims: seq<Line>, n: nat)
    requires n <= |claims|
    ensures TieredCount(claims[..n]) == |set i | 0 <= i < n && claims[i].launch == Launched(true)|
  {
    var now := set i | 0 <= i < n && claims[i].launch == Launched(true);
    if n == 0 {
      assert now == {};
    } else {
      TieredCounted(claims, n - 1);
      assert claims[..n][..n - 1] == claims[..n - 1];
      var before := set i | 0 <= i < n - 1 && claims[i].launch == Launched(true);
      if claims[n - 1].launch == Launched(true) {
        OneMore(before, now, n - 1);
      } else {
        assert now == before;
      }
    }
  }

  /** The last stamp is one of the record's, and no other is later. */
  lemma {:induction false} LastStampIsLatest(claims: seq<Line>)
    ensures LastStamp(claims).Some? ==> exists c :: c in claims && c.at == LastStamp(claims)
    ensures forall c :: c in claims && c.at.Some? ==>
              LastStamp(claims).Some? && c.at.value.sec <= LastStamp(claims).value.sec
  {
    if claims != [] {
      var init, last := claims[..|claims| - 1], claims[|claims| - 1];
      LastStampIsLatest(init);
      assert claims == init + [last];
      if LastStamp(claims) == last.at {
        assert last in claims;
      } else {
        var c :| c in init && c.at == LastStamp(init);
        assert c in claims;
      }
    }
  }

  lemma {:induction false} InFlightCounted(later: seq<Option<Stamp>>, n: nat, last: Option<Stamp>)
    requires n <= |later|
    ensures InFlight(later[n..], last) == |set i | n <= i < |later| && StartsAfter(later[i], last)|
    decreases |later| - n
  {
    var now := set i | n <= i < |later| && StartsAfter(later[i], last);
    if n == |later| {
      assert now == {};
    } else {
      InFlightCounted(later, n + 1, last);
      assert later[n..][1..] == later[n + 1..];
      var rest := set i | n + 1 <= i < |later| && StartsAfter(later[i], last);
      if StartsAfter(later[n], last) {
        OneMore(rest, now, n);
      } else {
        assert now == rest;
      }
    }
  }

  /** The counts the verdict rests on, from the record itself: notes are the lines with a launch note, tiered
      ones those that name a tier; a launch is in flight if it started after every stamp of the record, and
      none is once the last line is the note that closes the run. */
  lemma {:induction false} CountsExactly(claims: seq<Line>, later: seq<Option<Stamp>>)
    ensures NoteCount(claims) == |set i | 0 <= i < |claims| && claims[i].launch.Launched?|
    ensures TieredCount(claims) == |set i | 0 <= i < |claims| && claims[i].launch == Launched(true)|
    ensures claims != [] && claims[|claims| - 1].event == Note && claims[|claims| - 1].stage == Some("run_closed")
        ==> Flying(claims, later) == 0
    ensures claims == [] || claims[|claims| - 1].event != Note || claims[|claims| - 1].stage != Some("run_closed")
        ==> Flying(claims, later)
            == |set i | 0 <= i < |later| && later[i].Some?
                        && (forall c :: c in claims && c.at.Some? ==> later[i].value.sec > c.at.value.sec)|
  {
    NotesCounted(claims, |claims|);
    TieredCounted(claims, |claims|);
    LastStampIsLatest(claims);
    InFlightCounted(later, 0, LastStamp(claims));
    assert claims[..|claims|] == claims && later[0..] == later;
    var byLast := set i | 0 <= i < |later| && StartsAfter(later[i], LastStamp(claims));
    var byAll := set i | 0 <= i < |later| && later[i].Some?
                        && (forall c :: c in claims && c.at.Some? ==> later[i].value.sec > c.at.value.sec);
    assert byLast == byAll;
  }

  /** The true number of this ticket's launches may be `k`. */
  predicate Possible(k: int, rows: nat, dropped: nat) {
    rows <= k <= rows + dropped
  }

  /** A pass is given exactly when the notes agree with every possible count, a shortfall exactly when they
      fall short of every one, a phantom exactly when they exceed every one and nothing was in flight, and
      "undecidable" exactly when some possible count agrees and another does not. */
  lemma {:induction false} VerdictIff(claims: seq<Line>, rows: nat, later: seq<Option<Stamp>>, dropped: nat)
    ensures var v, notes := Check(claims, rows, later, dropped), NoteCount(claims);
            && (v.Pass? <==> forall k :: Possible(k, rows, dropped) ==> notes == k)
            && (v.Shortfall? <==> forall k :: Possible(k, rows, dropped) ==> notes < k)
            && (v.Phantom? <==> Flying(claims, later) == 0 && forall k :: Possible(k, rows, dropped) ==> notes > k)
            && (v.Undecidable? <==> && (exists k :: Possible(k, rows, dropped) && notes == k)
                                    && (exists k :: Possible(k, rows, dropped) && notes != k)
                                    && (notes > rows ==> Flying(claims, later) == 0))
  {
    assert Possible(rows, rows, dropped) && Possible(rows + dropped, rows, dropped);
    if Possible(NoteCount(claims), rows, dropped) {
    }
  }

  /** The numbers in the verdicts: launches surely missing a note, the exact range of lost tiers, and the
      claims no possible count explains. */
  lemma {:induction false} VerdictNumbers(claims: seq<Line>, rows: nat, later: seq<Option<Stamp>>, dropped: nat)
    ensures var v, notes, tiered := Check(claims, rows, later, dropped), NoteCount(claims), TieredCount(claims);
            && (v.Shortfall? ==>
                  && (forall k :: Possible(k, rows, dropped) ==> v.missing <= k - notes)
                  && (exists k :: Possible(k, rows, dropped) && v.missing == k - notes)
                  && (forall k :: Possible(k, rows, dropped) <==> v.tierLossLow <= k - tiered <= v.tierLossHigh))
            && (v.Phantom? ==>
                  && v.count > 0 && (forall k :: Possible(k, rows, dropped) ==> v.count <= notes - k)
                  && (exists k :: Possible(k, rows, dropped) && v.count == notes - k))
  {
    assert Possible(rows, rows, dropped) && Possible(rows + dropped, rows, dropped);
  }

  /** An interruption explains all the extra notes only if, for some possible count, there are as many
      launches in flight as extra notes. */
  predicate Explained(notes: nat, rows: nat, dropped: nat, inFlight: nat) {
    notes <= rows + dropped + inFlight
  }

  /** The verdict "interrupted" clears every extra note if and only if the launches in flight and the
      dropped ones together cover the difference. */
  lemma {:induction false} InterruptedClearsIff(claims: seq<Line>, rows: nat, later: seq<Option<Stamp>>, dropped: nat)
    requires Check(claims, rows, later, dropped).Interrupted?
    ensures (exists k ::
               Possible(k, rows, dropped) && NoteCount(claims) - k <= Check(claims, rows, later, dropped).inFlight)
       <==> Explained(NoteCount(claims), rows, dropped, Flying(claims, later))
  {
    assert Possible(rows + dropped, rows, dropped);
  }

  lemma {:induction false} AllNotes(note: Line, n: nat)
    requires note.launch.Launched?
    ensures NoteCount(seq(n, _ => note)) == n
    ensures LastStamp(seq(n, _ => note)) == if n == 0 then None else note.at
  {
    if n > 0 {
      AllNotes(note, n - 1);
      assert seq(n, _ => note)[..n - 1] == seq(n - 1, _ => note);
    }
  }

  /** It is given all the same when they do not, however many launches are attributed or dropped: one launch
      in flight hides one note too many, which no launch, attributed, dropped or in flight, stands behind. */
  lemma {:induction false} InterruptedMayHidePhantom(rows: nat, dropped: nat)
    ensures exists claims, later :: Check(claims, rows, later, dropped) == Interrupted(1)
                                    && !Explained(NoteCount(claims), rows, dropped, 1)
  {
    var note := Line(Some(Stamp(0, 0)), Note, Some("implement"), Launched(true));
    var claims := seq(rows + dropped + 2, _ => note);
    var later := [Some(Stamp(14, 0))];
    AllNotes(note, rows + dropped + 2);
    assert later[1..] == [];
    assert InFlight(later, note.at) == 1;
    assert "implement"[0] != "run_closed"[0];
    assert Check(claims, rows, later, dropped) == Interrupted(1);
  }
}
