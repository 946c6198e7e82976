/** Grouping blocks by the hash of their normal form: `find_clones` in tools/duplication-check.py. */
module Clones {
  import opened Renaming

  /** `norm` is the block's normal form; lines run from `start` to `end`, both included. */
  datatype Block = Block(file: string, start: int, end: int, hash: string, norm: seq<Out>)
  datatype Scope = IntraFile | CrossFile
  datatype Clone = Clone(hash: string, scope: Scope, members: seq<Block>)
  datatype Place = Place(file: string, line: int)

  // ---------------------------------------------------------------------------------------
  // Specification
  // ---------------------------------------------------------------------------------------

  /** The blocks with one hash, in input order. */
  function Class(blocks: seq<Block>, hash: string): seq<Block> {
    if blocks == [] then []
    else
      var last := blocks[|blocks| - 1];
      Class(blocks[..|blocks| - 1], hash) + (if last.hash == hash then [last] else [])
  }

  /** The distinct hashes, in order of first appearance. */
  function Hashes(blocks: seq<Block>): seq<string> {
    if blocks == [] then []
    else
      var before, h := Hashes(blocks[..|blocks| - 1]), blocks[|blocks| - 1].hash;
      if h in before then before else before + [h]
  }

  predicate OneFile(members: seq<Block>) {
    forall a, b :: a in members && b in members ==> a.file == b.file
  }

  /** The line ranges of the blocks, as one set: a line in two ranges is there once. */
  function Covered(members: seq<Block>): set<Place> {
    set m, line | m in members && m.start <= line <= m.end :: Place(m.file, line)
  }

  /** Every place in a block whose hash occurs at least twice. */
  function CloneLines(blocks: seq<Block>): set<Place> {
    set b, line | b in blocks && |Class(blocks, b.hash)| >= 2 && b.start <= line <= b.end :: Place(b.file, line)
  }

  lemma {:induction false} ClassMembers(blocks: seq<Block>, hash: string)
    ensures forall b :: b in Class(blocks, hash) <==> b in blocks && b.hash == hash
  {
    if blocks != [] {
      ClassMembers(blocks[..|blocks| - 1], hash);
      assert blocks == blocks[..|blocks| - 1] + [blocks[|blocks| - 1]];
    }
  }

  lemma {:induction false} NoClass(blocks: seq<Block>, hash: string)
    requires forall b :: b in blocks ==> b.hash != hash
    ensures Class(blocks, hash) == []
  {
    if blocks != [] {
      NoClass(blocks[..|blocks| - 1], hash);
    }
  }

  lemma {:induction false} HashesAreDistinct(blocks: seq<Block>)
    ensures forall h :: h in Hashes(blocks) <==> exists b :: b in blocks && b.hash == h
    ensures forall i, j :: 0 <= i < j < |Hashes(blocks)| ==> Hashes(blocks)[i] != Hashes(blocks)[j]
  {
    if blocks != [] {
      HashesAreDistinct(blocks[..|blocks| - 1]);
      assert blocks == blocks[..|blocks| - 1] + [blocks[|blocks| - 1]];
    }
  }

  // ---------------------------------------------------------------------------------------
  // The loops
  // ---------------------------------------------------------------------------------------

  lemma {:induction false} GroupStep(blocks: seq<Block>, i: nat, h: string)
    requires i < |blocks|
    ensures Class(blocks[..i + 1], h) == Class(blocks[..i], h) + (if blocks[i].hash == h then [blocks[i]] else [])
    ensures Hashes(blocks[..i + 1])
         == if blocks[i].hash in Hashes(blocks[..i]) then Hashes(blocks[..i])
           else Hashes(blocks[..i]) + [blocks[i].hash]
  {
    assert blocks[..i + 1][..i] == blocks[..i];
  }

  /** The dictionary of lists, with its insertion order. */
  method GroupByHash(blocks: seq<Block>) returns (order: seq<string>, groups: map<string, seq<Block>>)
    ensures order == Hashes(blocks)
    ensures forall h :: h in groups <==> h in order
    ensures forall h :: h in groups ==> groups[h] == Class(blocks, h)
  {
    order, groups := [], map[];
    var i := 0;
    while i < |blocks|
      invariant i <= |blocks|
      invariant order == Hashes(blocks[..i])
      invariant forall h :: h in groups <==> h in order
      invariant forall h :: h in groups ==> groups[h] == Class(blocks[..i], h)
    {
      var b := blocks[i];
      forall h ensures Class(blocks[..i + 1], h) == Class(blocks[..i], h) + (if b.hash == h then [b] else []) {
        GroupStep(blocks, i, h);
      }
      GroupStep(blocks, i, b.hash);
      if b.hash !in groups {
        HashesAreDistinct(blocks[..i]);
        NoClass(blocks[..i], b.hash);
        order := order + [b.hash];
        groups := groups[b.hash := []];
      }
      groups := groups[b.hash := groups[b.hash] + [b]];
      i := i + 1;
    }
    assert blocks[..i] == blocks;
  }

  method AddLines(lines: set<Place>, members: seq<Block>) returns (out: set<Place>)
    ensures out == lines + Covered(members)
  {
    out := lines;
    var i := 0;
    while i < |members|
      invariant i <= |members| && out == lines + Covered(members[..i])
    {
      var m := members[i];
      assert members[..i + 1] == members[..i] + [m];
      ghost var before := out;
      var line := m.start;
      while line <= m.end
        invariant m.start <= line
        invariant out == before + set l | m.start <= l < line && l <= m.end :: Place(m.file, l)
      {
        out := out + {Place(m.file, line)};
        line := line + 1;
      }
      assert Covered(members[..i + 1]) == Covered(members[..i]) + set l | m.start <= l <= m.end :: Place(m.file, l);
      i := i + 1;
    }
    assert members[..i] == members;
  }

  function CloneOf(blocks: seq<Block>, h: string): Clone {
    Clone(h, if OneFile(Class(blocks, h)) then IntraFile else CrossFile, Class(blocks, h))
  }

  /** One clone per hash class of two or more, in order of first appearance. */
  function ClonesOf(blocks: seq<Block>, order: seq<string>): seq<Clone> {
    if order == [] then []
    else
      var h := order[|order| - 1];
      ClonesOf(blocks, order[..|order| - 1]) + (if |Class(blocks, h)| < 2 then [] else [CloneOf(blocks, h)])
  }

  function ClassLines(blocks: seq<Block>, order: seq<string>): set<Place> {
    if order == [] then {}
    else
      var cls := Class(blocks, order[|order| - 1]);
      ClassLines(blocks, order[..|order| - 1]) + (if |cls| < 2 then {} else Covered(cls))
  }

  lemma {:induction false} ClonesStep(blocks: seq<Block>, order: seq<string>, i: nat)
    requires i < |order|
    ensures var many := |Class(blocks, order[i])| >= 2;
            && ClonesOf(blocks, order[..i + 1])
               == ClonesOf(blocks, order[..i]) + (if many then [CloneOf(blocks, order[i])] else [])
            && ClassLines(blocks, order[..i + 1])
               == ClassLines(blocks, order[..i]) + (if many then Covered(Class(blocks, order[i])) else {})
  {
    assert order[..i + 1][..i] == order[..i];
  }

  method FindClones(blocks: seq<Block>) returns (clones: seq<Clone>, total: nat)
    ensures clones == ClonesOf(blocks, Hashes(blocks))
    ensures total == |CloneLines(blocks)|
  {
    var order, groups := GroupByHash(blocks);
    clones := [];
    var lines: set<Place> := {};
    var i := 0;
    while i < |order|
      invariant i <= |order|
      invariant clones == ClonesOf(blocks, order[..i])
      invariant lines == ClassLines(blocks, order[..i])
    {
      var h := order[i];
      var members := groups[h];
      ClonesStep(blocks, order, i);
      if |members| >= 2 {
        clones := clones + [Clone(h, if OneFile(members) then IntraFile else CrossFile, members)];
        lines := AddLines(lines, members);
      }
      i := i + 1;
    }
    assert order[..i] == order;
    LinesOfClasses(blocks);
    total := |lines|;
  }

  lemma {:induction false} InClassLines(blocks: seq<Block>, order: seq<string>, p: Place)
    ensures p in ClassLines(blocks, order) <==>
            exists h :: h in order && |Class(blocks, h)| >= 2 && p in Covered(Class(blocks, h))
  {
    if order != [] {
      var init, last := order[..|order| - 1], order[|order| - 1];
      InClassLines(blocks, init, p);
      assert order == init + [last];
      if p in ClassLines(blocks, init) {
        var h :| h in init && |Class(blocks, h)| >= 2 && p in Covered(Class(blocks, h));
        assert h in order;
      } else if p in ClassLines(blocks, order) {
        assert last in order && |Class(blocks, last)| >= 2;
      }
    }
  }

  /** The lines gathered class by class are the lines of all repeated blocks. */
  lemma {:induction false} LinesOfClasses(blocks: seq<Block>)
    ensures ClassLines(blocks, Hashes(blocks)) == CloneLines(blocks)
  {
    forall p ensures p in ClassLines(blocks, Hashes(blocks)) <==> p in CloneLines(blocks) {
      InClassLines(blocks, Hashes(blocks), p);
      if p in ClassLines(blocks, Hashes(blocks)) {
        ClassLineIsCloneLine(blocks, p);
      }
      if p in CloneLines(blocks) {
        CloneLineIsClassLine(blocks, p);
      }
    }
  }

  lemma {:induction false} ClassLineIsCloneLine(blocks: seq<Block>, p: Place)
    requires exists h :: h in Hashes(blocks) && |Class(blocks, h)| >= 2 && p in Covered(Class(blocks, h))
    ensures p in CloneLines(blocks)
  {
    var h :| h in Hashes(blocks) && |Class(blocks, h)| >= 2 && p in Covered(Class(blocks, h));
    ClassMembers(blocks, h);
    var m, line :| m in Class(blocks, h) && m.start <= line <= m.end && p == Place(m.file, line);
    assert m in blocks && |Class(blocks, m.hash)| >= 2;
  }

  lemma {:induction false} CloneLineIsClassLine(blocks: seq<Block>, p: Place)
    requires p in CloneLines(blocks)
    ensures exists h :: h in Hashes(blocks) && |Class(blocks, h)| >= 2 && p in Covered(Class(blocks, h))
  {
    var b, line :| b in blocks && |Class(blocks, b.hash)| >= 2 && b.start <= line <= b.end && p == Place(b.file, line);
    ClassMembers(blocks, b.hash);
    HashesAreDistinct(blocks);
    assert b in Class(blocks, b.hash) && p in Covered(Class(blocks, b.hash));
  }

  // ---------------------------------------------------------------------------------------
  // The groups are the repeated hash classes, each once, and alpha-equivalence decides them
  // ---------------------------------------------------------------------------------------

  lemma {:induction false} ClonesListed(blocks: seq<Block>, order: seq<string>)
    ensures forall c :: c in ClonesOf(blocks, order) <==>
              c.hash in order && c == CloneOf(blocks, c.hash) && |c.members| >= 2
  {
    if order != [] {
      ClonesListed(blocks, order[..|order| - 1]);
      assert order == order[..|order| - 1] + [order[|order| - 1]];
    }
  }

  lemma {:induction false} ClassCounts(blocks: seq<Block>, b: Block)
    ensures multiset(Class(blocks, b.hash))[b] == multiset(blocks)[b]
  {
    if blocks != [] {
      ClassCounts(blocks[..|blocks| - 1], b);
      assert blocks == blocks[..|blocks| - 1] + [blocks[|blocks| - 1]];
    }
  }

  lemma {:induction false} ClonesDistinct(blocks: seq<Block>, order: seq<string>)
    requires forall i, j :: 0 <= i < j < |order| ==> order[i] != order[j]
    ensures forall i, j :: 0 <= i < j < |ClonesOf(blocks, order)| ==>
              ClonesOf(blocks, order)[i].hash != ClonesOf(blocks, order)[j].hash
  {
    if order != [] {
      var init := order[..|order| - 1];
      ClonesDistinct(blocks, init);
      ClonesListed(blocks, init);
      var before := ClonesOf(blocks, init);
      forall i | 0 <= i < |before| ensures before[i].hash != order[|order| - 1] {
        assert before[i] in before;
      }
    }
  }

  /** The reported groups. */
  function Groups(blocks: seq<Block>): seq<Clone> {
    ClonesOf(blocks, Hashes(blocks))
  }

  /** No two groups share a hash. */
  lemma {:induction false} GroupsDistinct(blocks: seq<Block>, i: nat, j: nat)
    requires i < j < |Groups(blocks)|
    ensures Groups(blocks)[i].hash != Groups(blocks)[j].hash
  {
    HashesAreDistinct(blocks);
    ClonesDistinct(blocks, Hashes(blocks));
  }

  /** The places in the input of the blocks with one hash. */
  function Places(blocks: seq<Block>, hash: string): seq<nat> {
    if blocks == [] then []
    else
      var last := |blocks| - 1;
      Places(blocks[..last], hash) + (if blocks[last].hash == hash then [last] else [])
  }

  /** A class is the blocks of its hash, all of them, in input order. */
  lemma {:induction false} ClassExactly(blocks: seq<Block>, hash: string)
    ensures var at := Places(blocks, hash);
            && |at| == |Class(blocks, hash)| && (forall x, y :: 0 <= x < y < |at| ==> at[x] < at[y])
            && (forall x :: 0 <= x < |at| ==> at[x] < |blocks| && blocks[at[x]] == Class(blocks, hash)[x])
            && (forall i :: 0 <= i < |blocks| ==> (blocks[i].hash == hash <==> i in at))
  {
    if blocks != [] {
      ClassExactly(blocks[..|blocks| - 1], hash);
    }
  }

  lemma {:induction false} TwiceIff(blocks: seq<Block>, i: nat)
    requires i < |blocks|
    ensures |Class(blocks, blocks[i].hash)| >= 2
       <==> exists j :: 0 <= j < |blocks| && j != i && blocks[j].hash == blocks[i].hash
  {
    var hash := blocks[i].hash;
    var at := Places(blocks, hash);
    ClassExactly(blocks, hash);
    if |at| >= 2 {
      var j := if at[0] == i then at[1] else at[0];
      assert j in at && j != i && blocks[j].hash == hash;
    }
    if j :| 0 <= j < |blocks| && j != i && blocks[j].hash == hash {
      var x :| 0 <= x < |at| && at[x] == i;
      var y :| 0 <= y < |at| && at[y] == j;
    }
  }

  /** The places counted in the total are the lines, first and last included, of every block that some other
      block, at another place of the input, shares its hash with. */
  lemma {:induction false} CloneLinesExactly(blocks: seq<Block>, p: Place)
    ensures p in CloneLines(blocks)
       <==> exists i, j :: 0 <= i < |blocks| && 0 <= j < |blocks| && i != j && blocks[i].hash == blocks[j].hash
                           && blocks[i].file == p.file && blocks[i].start <= p.line <= blocks[i].end
  {
    if p in CloneLines(blocks) {
      var b, line :| && b in blocks && |Class(blocks, b.hash)| >= 2 && b.start <= line <= b.end
                     && p == Place(b.file, line);
      var i :| 0 <= i < |blocks| && blocks[i] == b;
      TwiceIff(blocks, i);
    }
    if i, j :| 0 <= i < |blocks| && 0 <= j < |blocks| && i != j && blocks[i].hash == blocks[j].hash
               && blocks[i].file == p.file && blocks[i].start <= p.line <= blocks[i].end {
      TwiceIff(blocks, i);
      assert blocks[i] in blocks && Place(blocks[i].file, p.line) == p;
    }
  }

  /** The hash comes up at place `y` for the first time. */
  ghost predicate FirstAt(blocks: seq<Block>, y: int, hash: string) {
    0 <= y < |blocks| && blocks[y].hash == hash && forall z :: 0 <= z < y ==> blocks[z].hash != hash
  }

  /** One hash comes up before the other does for the first time. */
  ghost predicate Precedes(blocks: seq<Block>, one: string, other: string) {
    exists x, y :: 0 <= x < y && FirstAt(blocks, x, one) && FirstAt(blocks, y, other)
  }

  lemma {:induction false} FirstExists(blocks: seq<Block>, b: Block) returns (x: int)
    requires b in blocks
    ensures FirstAt(blocks, x, b.hash)
  {
    x := 0;
    while blocks[x].hash != b.hash
      invariant 0 <= x < |blocks| && forall z :: 0 <= z < x ==> blocks[z].hash != b.hash
      decreases |blocks| - x
    {
      x := x + 1;
    }
  }

  lemma {:induction false} FirstInMore(init: seq<Block>, last: Block, y: int, hash: string)
    requires FirstAt(init, y, hash)
    ensures FirstAt(init + [last], y, hash)
  {
  }

  lemma {:induction false} HashesInOrder(init: seq<Block>, last: Block, i: nat, j: nat)
    requires i < j < |Hashes(init + [last])|
    ensures Precedes(init + [last], Hashes(init + [last])[i], Hashes(init + [last])[j])
    decreases |init|
  {
    var blocks := init + [last];
    assert blocks[..|init|] == init;
    HashesAreDistinct(init);
    if j < |Hashes(init)| {
      assert init == init[..|init| - 1] + [init[|init| - 1]];
      HashesInOrder(init[..|init| - 1], init[|init| - 1], i, j);
      var x, y :| 0 <= x < y && FirstAt(init, x, Hashes(init)[i]) && FirstAt(init, y, Hashes(init)[j]);
      FirstInMore(init, last, x, Hashes(init)[i]);
      FirstInMore(init, last, y, Hashes(init)[j]);
    } else {
      assert Hashes(init)[i] in Hashes(init);
      var b :| b in init && b.hash == Hashes(init)[i];
      var x := FirstExists(init, b);
      FirstInMore(init, last, x, b.hash);
      assert FirstAt(blocks, |init|, last.hash) by {
        assert forall z :: 0 <= z < |init| ==> init[z] in init;
      }
    }
  }

  lemma {:induction false} ClonesInOrder(blocks: seq<Block>, order: seq<string>, i: nat, j: nat)
    requires i < j < |ClonesOf(blocks, order)|
    ensures exists p, q :: 0 <= p < q < |order| && order[p] == ClonesOf(blocks, order)[i].hash
                           && order[q] == ClonesOf(blocks, order)[j].hash
  {
    var init := order[..|order| - 1];
    if j < |ClonesOf(blocks, init)| {
      ClonesInOrder(blocks, init, i, j);
      var p, q :| 0 <= p < q < |init| && init[p] == ClonesOf(blocks, init)[i].hash
                  && init[q] == ClonesOf(blocks, init)[j].hash;
      assert order[p] == init[p] && order[q] == init[q];
    } else {
      ClonesListed(blocks, init);
      assert ClonesOf(blocks, init)[i] in ClonesOf(blocks, init);
      var p :| 0 <= p < |init| && init[p] == ClonesOf(blocks, init)[i].hash;
      assert order[p] == init[p];
    }
  }

  /** What is reported of a group: within one file exactly when all its members are, two members or more,
      exactly the blocks of its hash, and groups in the order in which their hashes come up. */
  lemma {:induction false} GroupsExactly(blocks: seq<Block>)
    ensures forall c :: c in Groups(blocks) ==>
              && |c.members| >= 2 && (forall b :: b in c.members <==> b in blocks && b.hash == c.hash)
              && (c.scope == IntraFile <==> forall a, b :: a in c.members && b in c.members ==> a.file == b.file)
              && (c.scope == CrossFile <==> exists a, b :: a in c.members && b in c.members && a.file != b.file)
    ensures forall i, j :: 0 <= i < j < |Groups(blocks)| ==>
              Precedes(blocks, Groups(blocks)[i].hash, Groups(blocks)[j].hash)
  {
    ClonesListed(blocks, Hashes(blocks));
    forall c | c in Groups(blocks) ensures forall b :: b in c.members <==> b in blocks && b.hash == c.hash {
      ClassMembers(blocks, c.hash);
    }
    forall i, j | 0 <= i < j < |Groups(blocks)|
      ensures Precedes(blocks, Groups(blocks)[i].hash, Groups(blocks)[j].hash)
    {
      ClonesInOrder(blocks, Hashes(blocks), i, j);
      var p, q :| 0 <= p < q < |Hashes(blocks)| && Hashes(blocks)[p] == Groups(blocks)[i].hash
                  && Hashes(blocks)[q] == Groups(blocks)[j].hash;
      assert blocks == blocks[..|blocks| - 1] + [blocks[|blocks| - 1]];
      HashesInOrder(blocks[..|blocks| - 1], blocks[|blocks| - 1], p, q);
    }
  }

  /** A block is in at most one group, and a group holds its blocks as often as the input does. */
  lemma {:induction false} GroupsPartition(blocks: seq<Block>, c: Clone, b: Block)
    requires c in Groups(blocks) && b in c.members
    ensures b.hash == c.hash && b in blocks && multiset(c.members)[b] == multiset(blocks)[b]
    ensures forall d :: d in Groups(blocks) && b in d.members ==> d == c
  {
    ClonesListed(blocks, Hashes(blocks));
    ClassMembers(blocks, c.hash);
    ClassCounts(blocks, b);
    forall d | d in Groups(blocks) && b in d.members ensures d == c {
      ClassMembers(blocks, d.hash);
    }
  }

  /** Two blocks (the same one listed twice included) are in one group if and only if they have one hash
      and that hash occurs at least twice. */
  lemma {:induction false} GroupedIff(blocks: seq<Block>, a: Block, b: Block)
    requires a in blocks && b in blocks
    ensures (exists c :: c in Groups(blocks) && a in c.members && b in c.members)
       <==> a.hash == b.hash && |Class(blocks, a.hash)| >= 2
  {
    ClonesListed(blocks, Hashes(blocks));
    if c :| c in Groups(blocks) && a in c.members && b in c.members {
      ClassMembers(blocks, c.hash);
    }
    if a.hash == b.hash && |Class(blocks, a.hash)| >= 2 {
      HashesAreDistinct(blocks);
      ClassMembers(blocks, a.hash);
      var c := CloneOf(blocks, a.hash);
      assert c in Groups(blocks) && a in c.members && b in c.members;
    }
  }

  lemma {:induction false} TwoInClass(blocks: seq<Block>, a: Block, b: Block)
    requires a in blocks && b in blocks && a != b && a.hash == b.hash
    ensures |Class(blocks, a.hash)| >= 2
  {
    ClassMembers(blocks, a.hash);
    var cls := Class(blocks, a.hash);
    var i :| 0 <= i < |cls| && cls[i] == a;
    var j :| 0 <= j < |cls| && cls[j] == b;
  }

  /** The hash does not collide on the blocks at hand. */
  ghost predicate Faithful(blocks: seq<Block>, hashOf: seq<Out> -> string) {
    && (forall x :: x in blocks ==> x.hash == hashOf(x.norm))
    && (forall x, y :: x in blocks && y in blocks && x.hash == y.hash ==> x.norm == y.norm)
  }

  /** Two different blocks are reported as clones of each other if and only if their token streams are
      alpha-equivalent. */
  lemma {:induction false} ClonesIffAlphaEquivalent(blocks: seq<Block>, a: Block, b: Block, ta: seq<Token>,
          tb: seq<Token>, hashOf: seq<Out> -> string, keywords: set<string>)
    requires a in blocks && b in blocks && a != b && Faithful(blocks, hashOf)
    requires Normalised(ta, a.norm, keywords) && Normalised(tb, b.norm, keywords)
    ensures (exists c :: c in Groups(blocks) && a in c.members && b in c.members) <==> AlphaEquivalent(ta, tb, keywords)
  {
    SameNormalFormIff(ta, tb, a.norm, b.norm, keywords);
    GroupedIff(blocks, a, b);
    if a.norm == b.norm {
      TwoInClass(blocks, a, b);
    }
  }
}
