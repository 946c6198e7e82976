/** When a config file parses at all, which is what tools/fleet-sync/audit-project-conf.py asks first, and
    what a pass of the rewriter does to that. Values begun on one line go on below and end; a table or a key
    is defined once; and a key is not a table too. */
module ConfParse {
  import opened Options
  import Seqs
  import opened ConfLines
  import opened ConfSync
  import opened ConfFixpoint

  // ---------------------------------------------------------------------------------------
  // Parsing
  // ---------------------------------------------------------------------------------------

  /** Here, unlike in the rewriter, an array-of-tables header opens a table of its own. */
  function TomlSection(cur: Option<Section>, l: Line): Option<Section> {
    if l.ArrayHeader? then Some(Table(l.text)) else SectionAt(cur, l)
  }

  function TomlAfter(cur: Option<Section>, lines: seq<Line>): Option<Section>
    decreases |lines|
  {
    if lines == [] then cur else TomlAfter(TomlSection(cur, lines[0]), lines[1..])
  }

  /** Whether a value is still open after a line: `None` once a value was cut off, or went on without being
      begun. */
  function Step(open: Option<bool>, l: Line): Option<bool> {
    if open.None? then None
    else if l.More? then (if open.value then Some(!l.ends) else None)
    else if l.Header? || l.ArrayHeader? || IsKeyLine(l) then
      if open.value then None else Some(l.Assign? && l.rhs.Begun?)
    else open
  }

  function Scan(open: Option<bool>, lines: seq<Line>): Option<bool>
    decreases |lines|
  {
    if lines == [] then open else Scan(Step(open, lines[0]), lines[1..])
  }

  /** Every value that goes on is begun before and ends. */
  predicate Whole(lines: seq<Line>) {
    Scan(Some(false), lines) == Some(false)
  }

  /** A name the file defines, as a key or as a table. */
  datatype Def = Def(name: string, key: bool)

  function KeyPath(cur: Option<Section>, k: Key): string {
    (if cur.None? then "" else SectionName(cur.value) + ".") + KeyName(k)
  }

  function One(e: Def, d: Def): nat {
    if e == d then 1 else 0
  }

  function DefOf(cur: Option<Section>, l: Line, d: Def): nat {
    if l.Header? then One(Def(SectionName(l.sec), false), d)
    else if IsKeyLine(l) then One(Def(KeyPath(cur, l.key), true), d)
    else 0
  }

  /** How often the lines define `d`. */
  function Defs(cur: Option<Section>, lines: seq<Line>, d: Def): nat
    decreases |lines|
  {
    if lines == [] then 0
    else
      var here := TomlSection(cur, lines[0]);
      DefOf(here, lines[0], d) + Defs(here, lines[1..], d)
  }

  /** Two definitions that cannot both stand: of one name, or of a key and of something inside it. */
  predicate Clash(d: Def, e: Def) {
    d.name == e.name || (d.key && d.name + "." <= e.name)
  }

  /** What is defined so often can all stand together. */
  ghost predicate Apart(defs: Def -> nat) {
    forall d, e :: defs(d) > 0 && defs(e) > 0 && (d != e || defs(d) > 1) ==> !Clash(d, e)
  }

  predicate NoYesNo(lines: seq<Line>) {
    forall l :: l in lines ==> !l.YesNo?
  }

  /** The file parses, once bare yes and no are repaired. */
  ghost predicate WellFormed(lines: seq<Line>) {
    Whole(lines) && Apart(d => Defs(None, lines, d))
  }

  ghost predicate Parses(lines: seq<Line>) {
    NoYesNo(lines) && WellFormed(lines)
  }

  predicate NoArrays(lines: seq<Line>) {
    forall l :: l in lines ==> !l.ArrayHeader?
  }

  lemma {:induction false} ScanConcat(open: Option<bool>, a: seq<Line>, b: seq<Line>)
    ensures Scan(open, a + b) == Scan(Scan(open, a), b)
    decreases |a|
  {
    if a == [] {
      assert a + b == b;
    } else {
      assert (a + b)[1..] == a[1..] + b;
      ScanConcat(Step(open, a[0]), a[1..], b);
    }
  }

  lemma {:induction false} ScanNeutral(open: Option<bool>, lines: seq<Line>)
    requires forall l :: l in lines ==> Step(open, l) == open
    ensures Scan(open, lines) == open
    decreases |lines|
  {
    if lines != [] {
      assert lines[0] in lines;
      ScanNeutral(open, lines[1..]);
    }
  }

  lemma {:induction false} DefsConcat(cur: Option<Section>, a: seq<Line>, b: seq<Line>, d: Def)
    ensures Defs(cur, a + b, d) == Defs(cur, a, d) + Defs(TomlAfter(cur, a), b, d)
    ensures TomlAfter(cur, a + b) == TomlAfter(TomlAfter(cur, a), b)
    decreases |a|
  {
    if a == [] {
      assert a + b == b;
    } else {
      assert (a + b)[1..] == a[1..] + b;
      DefsConcat(TomlSection(cur, a[0]), a[1..], b, d);
    }
  }

  lemma {:induction false} FlatSection(cur: Option<Section>, lines: seq<Line>)
    requires forall l :: l in lines ==> !l.Header? && !l.ArrayHeader?
    ensures TomlAfter(cur, lines) == cur
    decreases |lines|
  {
    if lines != [] {
      assert lines[0] in lines;
      FlatSection(cur, lines[1..]);
    }
  }

  lemma {:induction false} DefsCons(cur: Option<Section>, l: Line, rest: seq<Line>, d: Def)
    ensures Defs(cur, [l] + rest, d) == DefOf(TomlSection(cur, l), l, d) + Defs(TomlSection(cur, l), rest, d)
    ensures TomlAfter(cur, [l] + rest) == TomlAfter(TomlSection(cur, l), rest)
  {
    assert ([l] + rest)[1..] == rest;
  }

  lemma {:induction false} DefsOfOne(cur: Option<Section>, l: Line, d: Def)
    ensures Defs(cur, [l], d) == DefOf(TomlSection(cur, l), l, d) && TomlAfter(cur, [l]) == TomlSection(cur, l)
  {
    assert [l][1..] == [];
  }

  // ---------------------------------------------------------------------------------------
  // What a pass leaves defined
  // ---------------------------------------------------------------------------------------

  /** The lines a pass comments out. */
  predicate Retires(cur: Option<Section>, l: Line) {
    (InGone(cur) && (l.Header? || HasIdentKey(l))) || (IsKeyLine(l) && RetiredKey(cur, l.key))
  }

  /** The file with those lines struck out: a key that stays in a retired table, whose header goes, falls to
      the table above it. */
  function Kept(cur: Option<Section>, lines: seq<Line>): seq<Line>
    decreases |lines|
  {
    if lines == [] then []
    else
      var here := SectionAt(cur, lines[0]);
      (if Retires(here, lines[0]) then [] else [lines[0]]) + Kept(here, lines[1..])
  }

  /** The pins a tier table gains when it is closed. */
  function GainAt(t: Pins, d: Def): nat {
    if !(InTargetTier(t.cur) && t.model) then 0
    else
      (if t.version then 0 else One(Def(KeyPath(t.cur, Version), true), d))
      + (if t.effort then 0 else One(Def(KeyPath(t.cur, Effort), true), d))
  }

  function Gained(t: Pins, rest: seq<Line>, d: Def): nat
    decreases |rest|
  {
    if rest == [] then GainAt(t, d)
    else (if rest[0].Header? then GainAt(t, d) else 0) + Gained(Next(t, rest[0]), rest[1..], d)
  }

  function TierDefs(t: TierName, d: Def): nat {
    var sec := Some(Tier(t));
    One(Def(SectionName(Tier(t)), false), d) + One(Def(KeyPath(sec, Provider), true), d)
      + One(Def(KeyPath(sec, Model), true), d)
    + One(Def(KeyPath(sec, Version), true), d) + One(Def(KeyPath(sec, Effort), true), d)
  }

  function PrReviewDefs(d: Def): nat {
    var sec := Some(PrReview);
    One(Def(SectionName(PrReview), false), d) + One(Def(KeyPath(sec, Backend), true), d)
      + One(Def(KeyPath(sec, Effort), true), d)
  }

  function AbsentTierDefs(lines: seq<Line>, tiers: seq<TierName>, d: Def): nat {
    if tiers == [] then 0
    else (if HasHeader(lines, Tier(tiers[0])) then 0 else TierDefs(tiers[0], d)) + AbsentTierDefs(lines, tiers[1..], d)
  }

  /** The required tables the file has no header for. */
  function AbsentDefs(lines: seq<Line>, d: Def): nat {
    AbsentTierDefs(lines, TIER_ORDER, d) + if HasHeader(lines, PrReview) then 0 else PrReviewDefs(d)
  }

  function DefsAfter(lines: seq<Line>, d: Def): nat {
    Defs(None, Kept(None, lines), d) + Gained(START, lines, d) + AbsentDefs(lines, d)
  }

  lemma {:induction false} RewriteKeepsKind(cur: Option<Section>, nest: Option<Move>, stamp: string, l: Line)
    ensures var r := Rewrite(cur, nest, stamp, l);
            && (Retires(cur, l) ==> r.Retired?)
            && (!Retires(cur, l) ==>
                  && r.Header? == l.Header? && (l.Header? ==> r.sec == l.sec) && r.ArrayHeader? == l.ArrayHeader?
                  && IsKeyLine(r) == IsKeyLine(l) && (IsKeyLine(l) ==> r.key == l.key)
                  && (forall open :: Step(open, r) == Step(open, l)))
  {
  }

  lemma {:induction false} RewriteDefines(cur: Option<Section>, land: Option<Section>, nest: Option<Move>,
          stamp: string, l: Line, d: Def)
    ensures DefOf(land, Rewrite(cur, nest, stamp, l), d) == if Retires(cur, l) then 0 else DefOf(land, l, d)
  {
    RewriteKeepsKind(cur, nest, stamp, l);
  }

  // ---------------------------------------------------------------------------------------
  // Closing a table
  // ---------------------------------------------------------------------------------------

  /** Lines put in after a line whose section is `cur`. */
  lemma {:induction false} SpliceDefs(pcur: Option<Section>, cur: Option<Section>, before: seq<Line>, fill: seq<Line>,
          after: seq<Line>, d: Def)
    requires TomlAfter(pcur, before) == cur && forall l :: l in fill ==> !l.Header? && !l.ArrayHeader?
    ensures Defs(pcur, before + fill + after, d) == Defs(pcur, before + after, d) + Defs(cur, fill, d)
    ensures TomlAfter(pcur, before + fill + after) == TomlAfter(pcur, before + after)
  {
    FlatSection(cur, fill);
    DefsConcat(pcur, before, fill, d);
    DefsConcat(pcur, before + fill, after, d);
    DefsConcat(pcur, before, after, d);
  }

  lemma {:induction false} FillDefs(cur: Option<Section>, blk: seq<Line>, stamp: string, d: Def)
    requires InTargetTier(cur)
    ensures Defs(cur, Fill(blk, stamp), d) == GainAt(Pins(cur, true, HasPin(blk, Version), HasPin(blk, Effort)), d)
  {
    var v := if HasPin(blk, Version) then [] else [VersionLine(stamp)];
    var e := if HasPin(blk, Effort) then [] else [EffortLine(stamp)];
    assert Fill(blk, stamp) == v + e;
    DefsConcat(cur, v, e, d);
    DefsOfOne(cur, VersionLine(stamp), d);
    DefsOfOne(cur, EffortLine(stamp), d);
  }

  /** What the rewriter remembers of the table it is in, where it matters. */
  ghost predicate Remembers(t: Pins, cur: Option<Section>, blk: seq<Line>) {
    && t.cur == cur
    && (InTargetTier(cur) ==> t == Pins(cur, HasPin(blk, Model), HasPin(blk, Version), HasPin(blk, Effort)))
  }

  /** The table that a line of the table being read ends up in. */
  function Landing(pcur: Option<Section>, cur: Option<Section>): Option<Section> {
    if InGone(cur) then pcur else cur
  }

  lemma {:induction false} BlockLands(pcur: Option<Section>, cur: Option<Section>, blk: seq<Line>)
    requires BlockOk(cur, blk) && NoArrays(blk) && (cur.None? ==> pcur.None?)
    ensures TomlAfter(pcur, blk) == Landing(pcur, cur)
  {
    if InGone(cur) || cur.None? {
      FlatSection(pcur, blk);
    } else {
      FlatSection(cur, blk[1..]);
    }
  }

  /** The part of a tier table up to a key line opens the table. */
  lemma {:induction false} PrefixLands(pcur: Option<Section>, cur: Option<Section>, blk: seq<Line>, n: nat)
    requires InTargetTier(cur) && BlockOk(cur, blk) && NoArrays(blk) && 0 < n <= |blk|
    ensures TomlAfter(pcur, blk[..n]) == cur
  {
    var before := blk[..n];
    assert before[1..] == blk[1..][..n - 1];
    assert forall l :: l in before[1..] ==> l in blk[1..] && l in blk;
    FlatSection(cur, before[1..]);
  }

  lemma {:induction false} TierCloseDefs(pcur: Option<Section>, cur: Option<Section>, blk: seq<Line>, stamp: string,
          d: Def)
    requires InTargetTier(cur) && LastModel(blk).Some? && BlockOk(cur, blk) && NoArrays(blk)
    ensures Defs(pcur, Close(cur, blk, stamp), d) == Defs(pcur, blk, d) + Defs(cur, Fill(blk, stamp), d)
    ensures TomlAfter(pcur, Close(cur, blk, stamp)) == TomlAfter(pcur, blk)
  {
    var m := LastModel(blk).value;
    PrefixLands(pcur, cur, blk, m + 1);
    FillIsKeys(blk, stamp);
    SpliceDefs(pcur, cur, blk[..m + 1], Fill(blk, stamp), blk[m + 1..], d);
    assert blk == blk[..m + 1] + blk[m + 1..];
  }

  lemma {:induction false} FillIsKeys(blk: seq<Line>, stamp: string)
    ensures forall l :: l in Fill(blk, stamp) ==> l.Quoted?
  {
  }

  lemma {:induction false} CloseDefs(pcur: Option<Section>, cur: Option<Section>, blk: seq<Line>, stamp: string,
          t: Pins, d: Def)
    requires BlockOk(cur, blk) && NoArrays(blk) && (cur.None? ==> pcur.None?) && Remembers(t, cur, blk)
    ensures Defs(pcur, Close(cur, blk, stamp), d) == Defs(pcur, blk, d) + GainAt(t, d)
    ensures TomlAfter(pcur, Close(cur, blk, stamp)) == Landing(pcur, cur)
  {
    BlockLands(pcur, cur, blk);
    if InTargetTier(cur) && LastModel(blk).Some? {
      TierCloseDefs(pcur, cur, blk, stamp, d);
      FillDefs(cur, blk, stamp, d);
      assert t == Pins(cur, true, HasPin(blk, Version), HasPin(blk, Effort));
    } else {
      assert GainAt(t, d) == 0;
      assert Close(cur, blk, stamp) == blk;
    }
  }

  lemma {:induction false} CloseScan(open: Option<bool>, cur: Option<Section>, blk: seq<Line>, stamp: string)
    ensures Scan(open, Close(cur, blk, stamp)) == Scan(open, blk)
  {
    if InTargetTier(cur) && LastModel(blk).Some? {
      var m := LastModel(blk).value;
      ScanToKey(open, blk, m);
      FillIsKeys(blk, stamp);
      ScanSplice(open, blk[..m + 1], Fill(blk, stamp), blk[m + 1..]);
      assert blk == blk[..m + 1] + blk[m + 1..];
    }
  }

  /** After a key line no value is open, unless one was cut off. */
  lemma {:induction false} ScanToKey(open: Option<bool>, blk: seq<Line>, m: nat)
    requires m < |blk| && blk[m].Quoted?
    ensures Scan(open, blk[..m + 1]) == None || Scan(open, blk[..m + 1]) == Some(false)
  {
    Seqs.Next(blk, m);
    ScanConcat(open, blk[..m], [blk[m]]);
    ScanOne(Scan(open, blk[..m]), blk[m]);
  }

  lemma {:induction false} ScanOne(open: Option<bool>, l: Line)
    ensures Scan(open, [l]) == Step(open, l)
  {
    assert [l][1..] == [];
  }

  lemma {:induction false} ScanSplice(open: Option<bool>, before: seq<Line>, fill: seq<Line>, after: seq<Line>)
    requires forall l :: l in fill ==> Step(Scan(open, before), l) == Scan(open, before)
    ensures Scan(open, before + fill + after) == Scan(open, before + after)
  {
    ScanNeutral(Scan(open, before), fill);
    ScanConcat(open, before, fill);
    ScanConcat(open, before + fill, after);
    ScanConcat(open, before, after);
  }

  // ---------------------------------------------------------------------------------------
  // A whole pass
  // ---------------------------------------------------------------------------------------

  lemma {:induction false} KeptHead(cur: Option<Section>, land: Option<Section>, rest: seq<Line>, d: Def)
    requires rest != [] && !rest[0].ArrayHeader?
    ensures var here := SectionAt(cur, rest[0]);
            var out := Retires(here, rest[0]);
            var to := if rest[0].Header? && !out then here else land;
            Defs(land, Kept(cur, rest), d)
              == (if out then 0 else DefOf(to, rest[0], d)) + Defs(to, Kept(here, rest[1..]), d)
  {
    var here := SectionAt(cur, rest[0]);
    if Retires(here, rest[0]) {
      assert [] + Kept(here, rest[1..]) == Kept(here, rest[1..]);
    } else {
      DefsCons(land, rest[0], Kept(here, rest[1..]), d);
    }
  }

  lemma {:induction false} KeptHeadScans(cur: Option<Section>, rest: seq<Line>, open: Option<bool>)
    requires rest != []
    ensures var here := SectionAt(cur, rest[0]);
            Scan(open, Kept(cur, rest))
              == Scan(if Retires(here, rest[0]) then open else Step(open, rest[0]), Kept(here, rest[1..]))
  {
    var here := SectionAt(cur, rest[0]);
    if Retires(here, rest[0]) {
      assert [] + Kept(here, rest[1..]) == Kept(here, rest[1..]);
    } else {
      assert ([rest[0]] + Kept(here, rest[1..]))[1..] == Kept(here, rest[1..]);
    }
  }

  lemma {:induction false} FinishScan(open: Option<bool>, cur: Option<Section>, blk: seq<Line>, rest: seq<Line>,
          nest: Option<Move>, stamp: string)
    requires NoArrays(rest)
    ensures Scan(open, Finish(cur, blk, rest, nest, stamp)) == Scan(Scan(open, blk), Kept(cur, rest))
    decreases |rest|
  {
    CloseScan(open, cur, blk, stamp);
    if rest != [] {
      assert rest[0] in rest && NoArrays(rest[1..]);
      var here := SectionAt(cur, rest[0]);
      var l := Rewrite(here, nest, stamp, rest[0]);
      RewriteKeepsKind(here, nest, stamp, rest[0]);
      KeptHeadScans(cur, rest, Scan(open, blk));
      assert [l][1..] == [];
      if rest[0].Header? {
        FinishScan(Scan(open, blk), here, [l], rest[1..], nest, stamp);
        ScanConcat(open, Close(cur, blk, stamp), Finish(here, [l], rest[1..], nest, stamp));
      } else {
        ScanConcat(open, blk, [l]);
        FinishScan(open, cur, blk + [l], rest[1..], nest, stamp);
      }
    }
  }

  lemma {:induction false} RemembersNext(t: Pins, cur: Option<Section>, blk: seq<Line>, nest: Option<Move>,
          stamp: string, l: Line)
    requires Remembers(t, cur, blk) && !l.Header?
    ensures Remembers(Next(t, l), cur, blk + [Rewrite(cur, nest, stamp, l)])
  {
    var r := Rewrite(cur, nest, stamp, l);
    PinAppend(blk, r, Model);
    PinAppend(blk, r, Version);
    PinAppend(blk, r, Effort);
  }

  lemma {:induction false} RemembersHeader(t: Pins, nest: Option<Move>, stamp: string, l: Line)
    requires l.Header?
    ensures Remembers(Next(t, l), Some(l.sec), [Rewrite(Some(l.sec), nest, stamp, l)])
  {
  }

  /** What the part of the file from here on defines, after a pass. */
  function Coming(land: Option<Section>, cur: Option<Section>, rest: seq<Line>, t: Pins, d: Def): nat {
    Defs(land, Kept(cur, rest), d) + Gained(t, rest, d)
  }

  lemma {:induction false} ComingAtHeader(land: Option<Section>, cur: Option<Section>, rest: seq<Line>, t: Pins,
          nest: Option<Move>, stamp: string, d: Def)
    requires rest != [] && rest[0].Header?
    ensures var here := Some(rest[0].sec);
            Coming(land, cur, rest, t, d) == GainAt(t, d) + Defs(land, [Rewrite(here, nest, stamp, rest[0])], d)
                                        + Coming(Landing(land, here), here, rest[1..], Next(t, rest[0]), d)
  {
    var here := Some(rest[0].sec);
    RewriteDefines(here, here, nest, stamp, rest[0], d);
    KeptHead(cur, land, rest, d);
    DefsOfOne(land, Rewrite(here, nest, stamp, rest[0]), d);
  }

  lemma {:induction false} ComingAtLine(land: Option<Section>, cur: Option<Section>, rest: seq<Line>, t: Pins,
          nest: Option<Move>, stamp: string, d: Def)
    requires rest != [] && !rest[0].Header? && !rest[0].ArrayHeader?
    ensures Coming(land, cur, rest, t, d) == Defs(land, [Rewrite(cur, nest, stamp, rest[0])], d)
                                        + Coming(land, cur, rest[1..], Next(t, rest[0]), d)
  {
    RewriteDefines(cur, land, nest, stamp, rest[0], d);
    KeptHead(cur, land, rest, d);
    DefsOfOne(land, Rewrite(cur, nest, stamp, rest[0]), d);
  }

  lemma {:induction false} FinishDefs(pcur: Option<Section>, cur: Option<Section>, blk: seq<Line>, rest: seq<Line>,
          nest: Option<Move>, stamp: string, t: Pins, d: Def)
    requires BlockOk(cur, blk) && NoArrays(blk) && NoArrays(rest) && (cur.None? ==> pcur.None?)
        && Remembers(t, cur, blk)
    ensures Defs(pcur, Finish(cur, blk, rest, nest, stamp), d)
        == Defs(pcur, blk, d) + Coming(Landing(pcur, cur), cur, rest, t, d)
    decreases |rest|
  {
    var land := Landing(pcur, cur);
    if rest == [] {
      CloseDefs(pcur, cur, blk, stamp, t, d);
    } else {
      assert rest[0] in rest && NoArrays(rest[1..]);
      var here := SectionAt(cur, rest[0]);
      var l := Rewrite(here, nest, stamp, rest[0]);
      if rest[0].Header? {
        CloseDefs(pcur, cur, blk, stamp, t, d);
        ComingAtHeader(land, cur, rest, t, nest, stamp, d);
        RemembersHeader(t, nest, stamp, rest[0]);
        HeaderBlock(here, rest[0], nest, stamp);
        FinishDefs(land, here, [l], rest[1..], nest, stamp, Next(t, rest[0]), d);
        DefsConcat(pcur, Close(cur, blk, stamp), Finish(here, [l], rest[1..], nest, stamp), d);
      } else {
        ComingAtLine(land, cur, rest, t, nest, stamp, d);
        LineBlock(cur, blk, rest[0], nest, stamp);
        BlockLands(pcur, cur, blk);
        DefsConcat(pcur, blk, [l], d);
        RemembersNext(t, cur, blk, nest, stamp, rest[0]);
        FinishDefs(pcur, cur, blk + [l], rest[1..], nest, stamp, Next(t, rest[0]), d);
      }
    }
  }

  lemma {:induction false} HeaderBlock(here: Option<Section>, l: Line, nest: Option<Move>, stamp: string)
    requires l.Header? && here == Some(l.sec)
    ensures BlockOk(here, [Rewrite(here, nest, stamp, l)]) && NoArrays([Rewrite(here, nest, stamp, l)])
  {
  }

  lemma {:induction false} LineBlock(cur: Option<Section>, blk: seq<Line>, l: Line, nest: Option<Move>, stamp: string)
    requires BlockOk(cur, blk) && NoArrays(blk) && !l.Header? && !l.ArrayHeader?
    ensures BlockOk(cur, blk + [Rewrite(cur, nest, stamp, l)]) && NoArrays(blk + [Rewrite(cur, nest, stamp, l)])
  {
    RewriteSettles(cur, nest, stamp, l);
    BlockGrows(cur, blk, Rewrite(cur, nest, stamp, l));
  }

  // ---------------------------------------------------------------------------------------
  // Appended tables
  // ---------------------------------------------------------------------------------------

  lemma {:induction false} KeysDefine(sec: Section, a: Line, b: Line, d: Def)
    requires a.Quoted? && b.Quoted?
    ensures Defs(Some(sec), [a, b], d)
        == One(Def(KeyPath(Some(sec), a.key), true), d) + One(Def(KeyPath(Some(sec), b.key), true), d)
  {
    assert [a, b] == [a] + [b];
    DefsCons(Some(sec), a, [b], d);
    DefsOfOne(Some(sec), b, d);
  }

  /** A blank line, a header and what follows it. */
  lemma {:induction false} TableDefines(cur: Option<Section>, head: Line, body: seq<Line>, d: Def)
    requires head.Header?
    ensures Defs(cur, [Blank("")] + ([head] + body), d)
        == One(Def(SectionName(head.sec), false), d) + Defs(Some(head.sec), body, d)
  {
    DefsCons(cur, Blank(""), [head] + body, d);
    DefsCons(cur, head, body, d);
  }

  lemma {:induction false} TierTableDefines(cur: Option<Section>, t: TierName, stamp: string, d: Def)
    ensures Defs(cur, [Blank("")] + TierTable(t, stamp), d) == TierDefs(t, d)
  {
    var table, sec := TierTable(t, stamp), Tier(t);
    var first, second := [table[1], table[2]], [table[3], table[4]];
    TableDefines(cur, table[0], first + second, d);
    KeysDefine(sec, table[1], table[2], d);
    KeysDefine(sec, table[3], table[4], d);
    DefsConcat(Some(sec), first, second, d);
    FlatSection(Some(sec), first);
    assert table == [table[0]] + (first + second);
  }

  lemma {:induction false} PrReviewTableDefines(cur: Option<Section>, stamp: string, d: Def)
    ensures Defs(cur, [Blank("")] + PrReviewTable(stamp), d) == PrReviewDefs(d)
  {
    var table := PrReviewTable(stamp);
    var body := [table[1], table[2]];
    TableDefines(cur, table[0], body, d);
    KeysDefine(PrReview, table[1], table[2], d);
    assert table == [table[0]] + body;
  }

  /** Every appended line is a blank, a header or a quoted key. */
  predicate Simple(l: Line) {
    l.Blank? || l.Header? || l.Quoted?
  }

  lemma {:induction false} MissingTiersSimple(lines: seq<Line>, tiers: seq<TierName>, stamp: string)
    ensures forall l :: l in MissingTiers(lines, tiers, stamp) ==> Simple(l)
  {
    if tiers != [] {
      MissingTiersSimple(lines, tiers[1..], stamp);
    }
  }

  lemma {:induction false} MissingScans(lines: seq<Line>, stamp: string)
    ensures Scan(Some(false), Missing(lines, stamp) + [Blank("")]) == Some(false)
  {
    MissingTiersSimple(lines, TIER_ORDER, stamp);
    assert forall l :: l in MissingPr(lines, stamp) ==> Simple(l);
    ScanNeutral(Some(false), Missing(lines, stamp) + [Blank("")]);
  }

  lemma {:induction false} MissingTiersDefine(cur: Option<Section>, lines: seq<Line>, tiers: seq<TierName>,
          stamp: string, d: Def)
    ensures Defs(cur, MissingTiers(lines, tiers, stamp), d) == AbsentTierDefs(lines, tiers, d)
    decreases |tiers|
  {
    if tiers != [] {
      var rest := MissingTiers(lines, tiers[1..], stamp);
      if HasHeader(lines, Tier(tiers[0])) {
        MissingTiersDefine(cur, lines, tiers[1..], stamp, d);
        assert MissingTiers(lines, tiers, stamp) == rest;
      } else {
        var chunk := [Blank("")] + TierTable(tiers[0], stamp);
        TierTableDefines(cur, tiers[0], stamp, d);
        MissingTiersDefine(TomlAfter(cur, chunk), lines, tiers[1..], stamp, d);
        DefsConcat(cur, chunk, rest, d);
      }
    }
  }

  lemma {:induction false} MissingPrDefines(cur: Option<Section>, lines: seq<Line>, stamp: string, d: Def)
    ensures Defs(cur, MissingPr(lines, stamp), d) == if HasHeader(lines, PrReview) then 0 else PrReviewDefs(d)
  {
    if !HasHeader(lines, PrReview) {
      PrReviewTableDefines(cur, stamp, d);
    }
  }

  lemma {:induction false} MissingDefines(cur: Option<Section>, lines: seq<Line>, stamp: string, d: Def)
    ensures Defs(cur, Missing(lines, stamp) + [Blank("")], d) == AbsentDefs(lines, d)
  {
    var tiers, pr := MissingTiers(lines, TIER_ORDER, stamp), MissingPr(lines, stamp);
    MissingTiersDefine(cur, lines, TIER_ORDER, stamp, d);
    MissingPrDefines(TomlAfter(cur, tiers), lines, stamp, d);
    DefsConcat(cur, tiers, pr, d);
    DefsConcat(cur, tiers + pr, [Blank("")], d);
    DefsOfOne(TomlAfter(cur, tiers + pr), Blank(""), d);
  }

  /** Nothing is appended after a value left open. */
  lemma {:induction false} MissingNeedsWhole(lines: seq<Line>, stamp: string, open: Option<bool>)
    requires Missing(lines, stamp) != [] && open != Some(false)
    ensures Scan(open, Missing(lines, stamp) + [Blank("")]) == None
  {
    var all := Missing(lines, stamp) + [Blank("")];
    MissingOpens(lines, stamp);
    ScanNone(all[2..]);
    assert all[1..][0] == all[1] && all[1..][1..] == all[2..];
  }

  lemma {:induction false} ScanNone(lines: seq<Line>)
    ensures Scan(None, lines) == None
    decreases |lines|
  {
    if lines != [] {
      ScanNone(lines[1..]);
    }
  }

  lemma {:induction false} MissingTiersOpen(lines: seq<Line>, tiers: seq<TierName>, stamp: string)
    ensures var add := MissingTiers(lines, tiers, stamp); add == [] || (|add| >= 2 && add[0].Blank? && add[1].Header?)
    decreases |tiers|
  {
    if tiers != [] {
      MissingTiersOpen(lines, tiers[1..], stamp);
    }
  }

  lemma {:induction false} MissingOpens(lines: seq<Line>, stamp: string)
    requires Missing(lines, stamp) != []
    ensures var add := Missing(lines, stamp); |add| >= 2 && add[0].Blank? && add[1].Header?
  {
    MissingTiersOpen(lines, TIER_ORDER, stamp);
  }

  /** What a pass leaves defined, exactly. */
  lemma {:induction false} SyncedDefs(lines: seq<Line>, stamp: string, d: Def)
    requires NoArrays(lines)
    ensures Defs(None, Synced(lines, stamp), d) == DefsAfter(lines, d)
  {
    var body, add := Body(lines, stamp), Missing(lines, stamp);
    var kept := TrimBlanks(body);
    FinishDefs(None, None, [], lines, NestedFix(lines), stamp, START, d);
    MissingDefines(TomlAfter(None, kept), lines, stamp, d);
    if add == [] {
      NothingDefined(TomlAfter(None, kept), add, d);
    } else {
      var blanks := TrimSplits(body);
      DefsConcat(None, kept, blanks, d);
      BlanksDefine(TomlAfter(None, kept), blanks, d);
      DefsConcat(None, kept, add + [Blank("")], d);
      assert kept + (add + [Blank("")]) == kept + add + [Blank("")];
    }
  }

  lemma {:induction false} NothingDefined(cur: Option<Section>, add: seq<Line>, d: Def)
    requires add == []
    ensures Defs(cur, add + [Blank("")], d) == 0
  {
    assert add + [Blank("")] == [Blank("")];
    DefsOfOne(cur, Blank(""), d);
  }

  lemma {:induction false} BlanksDefine(cur: Option<Section>, lines: seq<Line>, d: Def)
    requires forall l :: l in lines ==> l.Blank?
    ensures Defs(cur, lines, d) == 0
    decreases |lines|
  {
    if lines != [] {
      assert lines[0] in lines;
      BlanksDefine(cur, lines[1..], d);
    }
  }

  lemma {:induction false} SyncedWhole(lines: seq<Line>, stamp: string)
    requires NoArrays(lines)
    ensures Whole(Synced(lines, stamp)) <==> Whole(Kept(None, lines))
  {
    FinishScan(Some(false), None, [], lines, NestedFix(lines), stamp);
    if Missing(lines, stamp) != [] {
      TrimScans(Some(false), Body(lines, stamp));
      AppendingKeepsWhole(TrimBlanks(Body(lines, stamp)), lines, stamp);
    }
  }

  lemma {:induction false} TrimScans(open: Option<bool>, lines: seq<Line>)
    ensures Scan(open, TrimBlanks(lines)) == Scan(open, lines)
  {
    var blanks := TrimSplits(lines);
    var kept := TrimBlanks(lines);
    ScanConcat(open, kept, blanks);
    ScanNeutral(Scan(open, kept), blanks);
  }

  lemma {:induction false} AppendingKeepsWhole(kept: seq<Line>, lines: seq<Line>, stamp: string)
    requires Missing(lines, stamp) != []
    ensures Whole(kept + Missing(lines, stamp) + [Blank("")]) <==> Whole(kept)
  {
    var add := Missing(lines, stamp);
    ScanConcat(Some(false), kept, add + [Blank("")]);
    assert kept + (add + [Blank("")]) == kept + add + [Blank("")];
    if Whole(kept) {
      MissingScans(lines, stamp);
    } else {
      MissingNeedsWhole(lines, stamp, Scan(Some(false), kept));
    }
  }

  lemma {:induction false} FineNoYesNo(t: Pins, lines: seq<Line>)
    requires Fine(t, lines)
    ensures NoYesNo(lines)
    decreases |lines|
  {
    if lines != [] {
      FineNoYesNo(Next(t, lines[0]), lines[1..]);
      assert lines == [lines[0]] + lines[1..];
    }
  }

  lemma {:induction false} ApartSame(f: Def -> nat, g: Def -> nat)
    requires forall d :: f(d) == g(d)
    ensures Apart(f) <==> Apart(g)
  {
  }

  /** The result of a pass parses if and only if the file with its retired lines struck out leaves no value
      cut, and what it then defines, the pins its tier tables gain and the tables appended do not clash. */
  lemma {:induction false} ParsesIff(lines: seq<Line>, stamp: string)
    requires NoArrays(lines)
    ensures Parses(Synced(lines, stamp)) <==> Whole(Kept(None, lines)) && Apart(d => DefsAfter(lines, d))
  {
    forall d ensures Defs(None, Synced(lines, stamp), d) == DefsAfter(lines, d) {
      SyncedDefs(lines, stamp, d);
    }
    ApartSame(d => Defs(None, Synced(lines, stamp), d), d => DefsAfter(lines, d));
    SyncedWhole(lines, stamp);
    OnePassSettles(lines, stamp);
    FineNoYesNo(START, Synced(lines, stamp));
  }

  // ---------------------------------------------------------------------------------------
  // Retiring lines: when it is harmless, and when it is not
  // ---------------------------------------------------------------------------------------

  /** Retired tables hold single-line identifier keys only, and so do the keys retired by themselves. */
  predicate PlainRetired(cur: Option<Section>, lines: seq<Line>)
    decreases |lines|
  {
    lines == [] ||
    (var here := SectionAt(cur, lines[0]);
     && (InGone(here) && IsKeyLine(lines[0]) ==> HasIdentKey(lines[0]))
     && (Retires(here, lines[0]) && lines[0].Assign? ==> !lines[0].rhs.Begun?)
     && PlainRetired(here, lines[1..]))
  }

  lemma {:induction false} KeptDefines(cur: Option<Section>, land: Option<Section>, lines: seq<Line>, d: Def)
    requires PlainRetired(cur, lines) && NoArrays(lines) && (InGone(cur) || land == cur)
    ensures Defs(land, Kept(cur, lines), d) <= Defs(cur, lines, d)
    decreases |lines|
  {
    if lines != [] {
      assert lines[0] in lines && NoArrays(lines[1..]);
      var here := SectionAt(cur, lines[0]);
      var land' := if lines[0].Header? && !Retires(here, lines[0]) then here else land;
      KeptHead(cur, land, lines, d);
      KeptDefines(here, land', lines[1..], d);
    }
  }

  lemma {:induction false} KeptScans(open: Option<bool>, cur: Option<Section>, lines: seq<Line>)
    requires PlainRetired(cur, lines) && NoArrays(lines) && Scan(open, lines).Some?
    ensures Scan(open, Kept(cur, lines)) == Scan(open, lines)
    decreases |lines|
  {
    if lines != [] {
      assert lines[0] in lines && NoArrays(lines[1..]);
      var here := SectionAt(cur, lines[0]);
      KeptHeadScans(cur, lines, open);
      ScanNone(lines[1..]);
      KeptScans(Step(open, lines[0]), here, lines[1..]);
    }
  }

  lemma {:induction false} ApartLess(f: Def -> nat, g: Def -> nat)
    requires (forall d :: f(d) <= g(d)) && Apart(g)
    ensures Apart(f)
  {
    forall d, e | f(d) > 0 && f(e) > 0 && (d != e || f(d) > 1) ensures !Clash(d, e) {
      assert f(d) <= g(d) && f(e) <= g(e);
    }
  }

  /** With single-line identifier keys alone, striking out what is retired never keeps a file from parsing. */
  lemma {:induction false} RetiringKeepsForm(lines: seq<Line>)
    requires WellFormed(lines) && PlainRetired(None, lines) && NoArrays(lines)
    ensures WellFormed(Kept(None, lines))
  {
    KeptScans(Some(false), None, lines);
    var all, kept := d => Defs(None, lines, d), d => Defs(None, Kept(None, lines), d);
    forall d ensures kept(d) <= all(d) {
      KeptDefines(None, None, lines, d);
    }
    ApartLess(kept, all);
  }

  lemma {:induction false} OneTable(cur: Option<Section>, a: Section, key: Line, d: Def)
    requires IsKeyLine(key)
    ensures Defs(cur, [Header(a, Rest("")), key], d)
        == One(Def(SectionName(a), false), d) + One(Def(KeyPath(Some(a), key.key), true), d)
    ensures TomlAfter(cur, [Header(a, Rest("")), key]) == Some(a)
  {
    assert [Header(a, Rest("")), key] == [Header(a, Rest(""))] + [key];
    DefsCons(cur, Header(a, Rest("")), [key], d);
    DefsOfOne(Some(a), key, d);
  }

  lemma {:induction false} TwoTables(a: Section, b: Section, key: Line, d: Def)
    requires IsKeyLine(key)
    ensures Defs(None, [Header(a, Rest("")), key] + [Header(b, Rest("")), key], d)
         == One(Def(SectionName(a), false), d) + One(Def(KeyPath(Some(a), key.key), true), d)
          + One(Def(SectionName(b), false), d) + One(Def(KeyPath(Some(b), key.key), true), d)
  {
    OneTable(None, a, key, d);
    OneTable(Some(a), b, key, d);
    DefsConcat(None, [Header(a, Rest("")), key], [Header(b, Rest("")), key], d);
  }

  /** A file that parses, and no longer does after a pass. */
  ghost predicate Breaks(lines: seq<Line>, stamp: string) {
    NoArrays(lines) && Parses(lines) && !Parses(Synced(lines, stamp))
  }

  /** A key that is not an identifier stays behind when its retired table goes: two of one name end up in one
      table, and a file that parsed no longer does. */
  lemma {:induction false} StrandedKeysClash(stamp: string)
    ensures exists lines :: Breaks(lines, stamp)
  {
    var key := Assign(Canonical, Dashed("a-b"), Raw("1", false));
    StrandedBreaks([Header(Gone(Autonomous), Rest("")), key] + [Header(Gone(FleetBudget), Rest("")), key], key, stamp);
  }

  lemma {:induction false} StrandedBreaks(lines: seq<Line>, key: Line, stamp: string)
    requires key == Assign(Canonical, Dashed("a-b"), Raw("1", false))
    requires lines == [Header(Gone(Autonomous), Rest("")), key] + [Header(Gone(FleetBudget), Rest("")), key]
    ensures Breaks(lines, stamp)
  {
    StrandedInput(lines, key);
    StrandedDefs(lines, key);
    ParsesIff(lines, stamp);
  }

  lemma {:induction false} StrandedInput(lines: seq<Line>, key: Line)
    requires key == Assign(Canonical, Dashed("a-b"), Raw("1", false))
    requires lines == [Header(Gone(Autonomous), Rest("")), key] + [Header(Gone(FleetBudget), Rest("")), key]
    ensures Parses(lines)
  {
    var a, b := Def("autonomous", false), Def(KeyPath(Some(Gone(Autonomous)), key.key), true);
    var c, e := Def("fleet.budget", false), Def(KeyPath(Some(Gone(FleetBudget)), key.key), true);
    forall d ensures Defs(None, lines, d) == One(a, d) + One(b, d) + One(c, d) + One(e, d) {
      TwoTables(Gone(Autonomous), Gone(FleetBudget), key, d);
    }
    FourApart(a, b, c, e, key.key);
    ApartSame(d => Defs(None, lines, d), d => One(a, d) + One(b, d) + One(c, d) + One(e, d));
    ScanNeutral(Some(false), lines);
  }

  lemma {:induction false} FourApart(a: Def, b: Def, c: Def, e: Def, k: Key)
    requires k == Dashed("a-b")
    requires a == Def("autonomous", false) && b == Def(KeyPath(Some(Gone(Autonomous)), k), true)
    requires c == Def("fleet.budget", false) && e == Def(KeyPath(Some(Gone(FleetBudget)), k), true)
    ensures Apart(d => One(a, d) + One(b, d) + One(c, d) + One(e, d))
  {
    assert a.name[0] == b.name[0] == 'a' && c.name[0] == e.name[0] == 'f';
    assert |a.name| == 10 && |b.name| == 14 && |c.name| == 12 && |e.name| == 16;
  }

  lemma {:induction false} StrandedDefs(lines: seq<Line>, key: Line)
    requires key.Assign? && key.key.Dashed?
    requires lines == [Header(Gone(Autonomous), Rest("")), key] + [Header(Gone(FleetBudget), Rest("")), key]
    ensures !Apart(d => DefsAfter(lines, d))
  {
    var d := Def(KeyPath(None, key.key), true);
    StruckTable(None, Gone(Autonomous), key, lines[2..]);
    StruckTable(Some(Gone(Autonomous)), Gone(FleetBudget), key, []);
    assert lines[2..] == [Header(Gone(FleetBudget), Rest("")), key] + [];
    assert Kept(None, lines) == [key] + [key];
    DefsCons(None, key, [key], d);
    DefsOfOne(None, key, d);
    var after := (x: Def) => DefsAfter(lines, x);
    assert after(d) > 1 && Clash(d, d);
  }

  lemma {:induction false} StruckTable(cur: Option<Section>, sec: Section, key: Line, rest: seq<Line>)
    requires sec.Gone? && IsKeyLine(key) && key.key.Dashed?
    ensures Kept(cur, [Header(sec, Rest("")), key] + rest) == [key] + Kept(Some(sec), rest)
  {
    var lines := [Header(sec, Rest("")), key] + rest;
    assert lines[1..] == [key] + rest && lines[1..][1..] == rest;
    assert Kept(Some(sec), lines[1..]) == [key] + Kept(Some(sec), rest);
    assert Kept(cur, lines) == [] + Kept(Some(sec), lines[1..]);
  }

  predicate IdentKeys(lines: seq<Line>) {
    forall l :: l in lines && IsKeyLine(l) ==> HasIdentKey(l)
  }

  /** A retired value of several lines is commented out on its first line only, and the rest cannot stand
      alone. */
  lemma {:induction false} RetiredValueIsCut(stamp: string)
    ensures exists lines :: Breaks(lines, stamp) && IdentKeys(lines)
  {
    var head := Header(Gone(Autonomous), Rest(""));
    var begun := Assign(Canonical, Word("hosts"), Begun("[", false));
    CutBreaks([head, begun] + [More("]", true)], head, begun, stamp);
  }

  lemma {:induction false} CutBreaks(lines: seq<Line>, head: Line, begun: Line, stamp: string)
    requires head == Header(Gone(Autonomous), Rest("")) && begun == Assign(Canonical, Word("hosts"), Begun("[", false))
    requires lines == [head, begun] + [More("]", true)]
    ensures Breaks(lines, stamp) && IdentKeys(lines)
  {
    CutInput(lines, head, begun);
    CutOutput(lines, head, begun);
    ParsesIff(lines, stamp);
  }

  lemma {:induction false} CutInput(lines: seq<Line>, head: Line, begun: Line)
    requires head == Header(Gone(Autonomous), Rest("")) && begun == Assign(Canonical, Word("hosts"), Begun("[", false))
    requires lines == [head, begun] + [More("]", true)]
    ensures Parses(lines)
  {
    var a, b := Def("autonomous", false), Def(KeyPath(Some(Gone(Autonomous)), begun.key), true);
    forall d ensures Defs(None, lines, d) == One(a, d) + One(b, d) {
      OneTable(None, Gone(Autonomous), begun, d);
      DefsConcat(None, [head, begun], [lines[2]], d);
      DefsOfOne(Some(Gone(Autonomous)), lines[2], d);
    }
    TwoApart(a, b);
    ApartSame(d => Defs(None, lines, d), d => One(a, d) + One(b, d));
    CutScans(lines, head, begun);
  }

  lemma {:induction false} TwoApart(a: Def, b: Def)
    requires !a.key && |a.name| < |b.name|
    ensures Apart(d => One(a, d) + One(b, d))
  {
  }

  lemma {:induction false} CutScans(lines: seq<Line>, head: Line, begun: Line)
    requires head.Header? && begun.Assign? && begun.rhs.Begun? && lines == [head, begun] + [More("]", true)]
    ensures Whole(lines)
  {
    assert lines[1..] == [begun, lines[2]] && lines[1..][1..] == [lines[2]] && [lines[2]][1..] == [];
    assert Scan(Some(true), [lines[2]]) == Scan(Some(false), []);
    assert Scan(Some(false), lines[1..]) == Scan(Some(true), [lines[2]]);
  }

  lemma {:induction false} CutOutput(lines: seq<Line>, head: Line, begun: Line)
    requires head.Header? && head.sec.Gone? && HasIdentKey(begun) && lines == [head, begun] + [More("]", true)]
    ensures !Whole(Kept(None, lines))
  {
    var more := lines[2];
    assert lines[1..] == [begun, more] && lines[1..][1..] == [more] && [more][1..] == [];
    assert Kept(Some(head.sec), [more]) == [more] + Kept(Some(head.sec), []);
    assert Kept(Some(head.sec), lines[1..]) == [] + [more];
    assert Kept(None, lines) == [] + ([] + [more]) == [more];
    assert Scan(Some(false), [more]) == Scan(None, []);
  }
}
