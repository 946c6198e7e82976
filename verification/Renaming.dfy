/** The identifier renaming of `normalize` in tools/duplication-check.py, on the stream of words and
    non-word text that is left once literals have become placeholders. */
module Renaming {

  datatype Token = Word(name: string) | Text(text: string)
  datatype Out = Kept(name: string) | Var(n: nat) | Plain(text: string)

  /** `keywords` is the tool's fixed word list; nothing here depends on which words are in it. */
  predicate Renamed(t: Token, keywords: set<string>) {
    t.Word? && t.name !in keywords
  }

  // ---------------------------------------------------------------------------------------
  // The loop and what it computes
  // ---------------------------------------------------------------------------------------

  /** The variable map after the first `n` tokens: each new name gets the next number, from one. */
  function Names(ts: seq<Token>, n: nat, keywords: set<string>): map<string, nat>
    requires n <= |ts|
  {
    if n == 0 then map[]
    else
      var m := Names(ts, n - 1, keywords);
      var t := ts[n - 1];
      if Renamed(t, keywords) && t.name !in m then m[t.name := |m| + 1] else m
  }

  function Replace(t: Token, m: map<string, nat>, keywords: set<string>): Out
    requires Renamed(t, keywords) ==> t.name in m
  {
    match t
    case Text(s) => Plain(s)
    case Word(w) => if w in keywords then Kept(w) else Var(m[w])
  }

  lemma {:induction false} NamesCover(ts: seq<Token>, n: nat, i: nat, keywords: set<string>)
    requires i < n <= |ts| && Renamed(ts[i], keywords)
    ensures ts[i].name in Names(ts, n, keywords)
  {
    if i < n - 1 {
      NamesCover(ts, n - 1, i, keywords);
    }
  }

  lemma {:induction false} NamesGrow(ts: seq<Token>, m: nat, n: nat, keywords: set<string>)
    requires m <= n <= |ts|
    ensures forall w :: w in Names(ts, m, keywords) ==>
              w in Names(ts, n, keywords) && Names(ts, n, keywords)[w] == Names(ts, m, keywords)[w]
  {
    if m < n {
      NamesGrow(ts, m, n - 1, keywords);
    }
  }

  /** Each token on its own, under the map of the whole stream. */
  ghost predicate Normalised(ts: seq<Token>, out: seq<Out>, keywords: set<string>) {
    && |out| == |ts|
    && forall i :: 0 <= i < |ts| ==>
         && (Renamed(ts[i], keywords) ==> ts[i].name in Names(ts, |ts|, keywords))
         && out[i] == Replace(ts[i], Names(ts, |ts|, keywords), keywords)
  }

  /** Keywords and text stay as they are, and any other word becomes a number, two of them the same one exactly
      when they are one word. */
  lemma {:induction false} NormalisedExactly(ts: seq<Token>, out: seq<Out>, keywords: set<string>)
    requires Normalised(ts, out, keywords)
    ensures forall i :: 0 <= i < |ts| ==> match ts[i]
              case Text(s) => out[i] == Plain(s)
              case Word(w) => if w in keywords then out[i] == Kept(w) else out[i].Var?
    ensures forall i, j :: 0 <= i < |ts| && 0 <= j < |ts| && out[i].Var? && out[j].Var? ==>
              (out[i].n == out[j].n <==> ts[i].name == ts[j].name)
  {
    NamesNumbered(ts, |ts|, keywords);
  }

  /** Numbers start from one, and a word gets the next one only after the number before it was given. */
  lemma {:induction false} NumbersInTurn(ts: seq<Token>, out: seq<Out>, keywords: set<string>, i: nat)
    requires Normalised(ts, out, keywords) && i < |ts| && out[i].Var?
    ensures out[i].n >= 1
    ensures out[i].n > 1 ==> exists j :: 0 <= j < i && out[j] == Var(out[i].n - 1)
  {
    var m := i + 1;
    NamesGrow(ts, m, |ts|, keywords);
    NamesCover(ts, m, i, keywords);
    NamesNumbered(ts, m, keywords);
    if out[i].n > 1 {
      var j := NumberGiven(ts, m, keywords, out[i].n - 1);
      assert out[j] == Var(out[i].n - 1);
    }
  }

  /** Every number up to the last one was given to some word. */
  lemma {:induction false} NumberGiven(ts: seq<Token>, n: nat, keywords: set<string>, k: nat) returns (j: nat)
    requires n <= |ts| && 1 <= k <= |Names(ts, n, keywords)|
    ensures j < n && Renamed(ts[j], keywords) && ts[j].name in Names(ts, n, keywords)
         && Names(ts, n, keywords)[ts[j].name] == k
  {
    if k <= |Names(ts, n - 1, keywords)| {
      j := NumberGiven(ts, n - 1, keywords, k);
    } else {
      j := n - 1;
    }
  }

  method Normalize(ts: seq<Token>, keywords: set<string>) returns (out: seq<Out>)
    ensures Normalised(ts, out, keywords)
  {
    out := [];
    var varMap: map<string, nat> := map[];
    var counter := 0;
    var i := 0;
    while i < |ts|
      invariant i <= |ts| && |out| == i
      invariant varMap == Names(ts, i, keywords) && counter == |varMap|
      invariant forall j :: 0 <= j < i ==>
                  && (Renamed(ts[j], keywords) ==> ts[j].name in varMap)
                  && out[j] == Replace(ts[j], varMap, keywords)
    {
      match ts[i] {
        case Text(s) => out := out + [Plain(s)];
        case Word(name) =>
          if name in keywords {
            out := out + [Kept(name)];
          } else {
            if name !in varMap {
              counter := counter + 1;
              varMap := varMap[name := counter];
            }
            out := out + [Var(varMap[name])];
          }
      }
      i := i + 1;
    }
  }

  lemma {:induction false} NormalisedExists(ts: seq<Token>, keywords: set<string>) returns (out: seq<Out>)
    ensures Normalised(ts, out, keywords)
  {
    forall i | 0 <= i < |ts| && Renamed(ts[i], keywords)
      ensures ts[i].name in Names(ts, |ts|, keywords)
    {
      NamesCover(ts, |ts|, i, keywords);
    }
    out := seq(|ts|, i requires 0 <= i < |ts| => Replace(ts[i], Names(ts, |ts|, keywords), keywords));
  }

  // ---------------------------------------------------------------------------------------
  // Alpha-equivalence
  // ---------------------------------------------------------------------------------------

  ghost predicate OneToOne(f: map<string, string>) {
    forall x, y :: x in f && y in f && x != y ==> f[x] != f[y]
  }

  ghost predicate TurnsInto(f: map<string, string>, t: Token, u: Token, keywords: set<string>) {
    if Renamed(t, keywords) then t.name in f && f[t.name] !in keywords && u == Word(f[t.name]) else u == t
  }

  /** A one-to-one renaming of the non-keyword words turns `a` into `b`; keywords and text stay put. */
  ghost predicate Renames(f: map<string, string>, a: seq<Token>, b: seq<Token>, keywords: set<string>) {
    && OneToOne(f)
    && |a| == |b|
    && forall i :: 0 <= i < |a| ==> TurnsInto(f, a[i], b[i], keywords)
  }

  ghost predicate AlphaEquivalent(a: seq<Token>, b: seq<Token>, keywords: set<string>) {
    exists f :: Renames(f, a, b, keywords)
  }

  lemma {:induction false} NamesNumbered(ts: seq<Token>, n: nat, keywords: set<string>)
    requires n <= |ts|
    ensures forall w :: w in Names(ts, n, keywords) ==> 1 <= Names(ts, n, keywords)[w] <= |Names(ts, n, keywords)|
    ensures forall v, w :: v in Names(ts, n, keywords) && w in Names(ts, n, keywords) && v != w ==>
              Names(ts, n, keywords)[v] != Names(ts, n, keywords)[w]
  {
    if n > 0 {
      NamesNumbered(ts, n - 1, keywords);
    }
  }

  /** A renamed stream gives its words the same numbers: the two maps correspond at every prefix. */
  lemma {:induction false} NamesCorrespond(f: map<string, string>, a: seq<Token>, b: seq<Token>, n: nat,
          keywords: set<string>)
    requires Renames(f, a, b, keywords) && n <= |a|
    ensures |Names(a, n, keywords)| == |Names(b, n, keywords)|
    ensures forall w :: w in Names(a, n, keywords) ==>
              w in f && f[w] in Names(b, n, keywords) && Names(b, n, keywords)[f[w]] == Names(a, n, keywords)[w]
    ensures forall v :: v in Names(b, n, keywords) ==> exists w :: w in Names(a, n, keywords) && f[w] == v
  {
    if n > 0 {
      NamesCorrespond(f, a, b, n - 1, keywords);
      var ma, mb := Names(a, n - 1, keywords), Names(b, n - 1, keywords);
      var t := a[n - 1];
      assert TurnsInto(f, t, b[n - 1], keywords);
      if Renamed(t, keywords) {
        assert t.name in ma <==> f[t.name] in mb;
        var ma', mb' := Names(a, n, keywords), Names(b, n, keywords);
        forall v | v in mb' ensures exists w :: w in ma' && f[w] == v {
          if v in mb {
            var w :| w in ma && f[w] == v;
            assert w in ma';
          } else {
            assert t.name in ma' && f[t.name] == v;
          }
        }
      }
    }
  }

  lemma {:induction false} RenamingKeepsNormalForm(f: map<string, string>, a: seq<Token>, b: seq<Token>,
          outA: seq<Out>, outB: seq<Out>, keywords: set<string>)
    requires Renames(f, a, b, keywords)
    requires Normalised(a, outA, keywords) && Normalised(b, outB, keywords)
    ensures outA == outB
  {
    NamesCorrespond(f, a, b, |a|, keywords);
    forall i | 0 <= i < |a| ensures outA[i] == outB[i] {
      assert TurnsInto(f, a[i], b[i], keywords);
    }
  }

  /** The renaming read off two streams with one normal form: the word of `b` with the same number. */
  function Matching(a: seq<Token>, b: seq<Token>, n: nat, keywords: set<string>): map<string, string>
    requires n <= |a| == |b|
  {
    if n == 0 then map[]
    else
      var m := Matching(a, b, n - 1, keywords);
      if Renamed(a[n - 1], keywords) && b[n - 1].Word? then m[a[n - 1].name := b[n - 1].name] else m
  }

  /** `f` pairs words of `a` with the words of `b` that have the same number. */
  ghost predicate Pairs(f: map<string, string>, ma: map<string, nat>, mb: map<string, nat>) {
    forall w :: w in f ==> w in ma && f[w] in mb && mb[f[w]] == ma[w]
  }

  lemma {:induction false} SameOutput(t: Token, u: Token, ma: map<string, nat>, mb: map<string, nat>,
          keywords: set<string>)
    requires Renamed(t, keywords) ==> t.name in ma
    requires Renamed(u, keywords) ==> u.name in mb
    requires Replace(t, ma, keywords) == Replace(u, mb, keywords)
    ensures if Renamed(t, keywords) then Renamed(u, keywords) && mb[u.name] == ma[t.name] else u == t
  {
  }

  lemma {:induction false} SameNormalFormRenames(a: seq<Token>, b: seq<Token>, out: seq<Out>, n: nat,
          keywords: set<string>)
    requires n <= |a| == |b|
    requires Normalised(a, out, keywords) && Normalised(b, out, keywords)
    ensures Pairs(Matching(a, b, n, keywords), Names(a, |a|, keywords), Names(b, |b|, keywords))
    ensures forall i :: 0 <= i < n ==> TurnsInto(Matching(a, b, n, keywords), a[i], b[i], keywords)
  {
    if n > 0 {
      SameNormalFormRenames(a, b, out, n - 1, keywords);
      var ma, mb := Names(a, |a|, keywords), Names(b, |b|, keywords);
      var before, now := Matching(a, b, n - 1, keywords), Matching(a, b, n, keywords);
      NamesNumbered(b, |b|, keywords);
      var t, u := a[n - 1], b[n - 1];
      SameOutput(t, u, ma, mb, keywords);
      if Renamed(t, keywords) {
        assert t.name in before ==> before[t.name] == u.name;
        assert now == before[t.name := u.name];
      }
      ExtendedTurns(before, now, a, b, n, keywords);
    }
  }

  /** A renaming that learns one word more still turns what it turned. */
  lemma {:induction false} ExtendedTurns(before: map<string, string>, now: map<string, string>, a: seq<Token>,
          b: seq<Token>, n: nat, keywords: set<string>)
    requires 0 < n <= |a| == |b|
    requires forall w :: w in before ==> w in now && now[w] == before[w]
    requires forall i :: 0 <= i < n - 1 ==> TurnsInto(before, a[i], b[i], keywords)
    requires TurnsInto(now, a[n - 1], b[n - 1], keywords)
    ensures forall i :: 0 <= i < n ==> TurnsInto(now, a[i], b[i], keywords)
  {
    forall i | 0 <= i < n ensures TurnsInto(now, a[i], b[i], keywords) {
      if i < n - 1 {
        assert TurnsInto(before, a[i], b[i], keywords);
      }
    }
  }

  /** Renaming is sound and complete: two streams have one normal form if and only if a one-to-one renaming
      of non-keyword words turns one into the other. */
  lemma {:induction false} SameNormalFormIff(a: seq<Token>, b: seq<Token>, outA: seq<Out>, outB: seq<Out>,
          keywords: set<string>)
    requires Normalised(a, outA, keywords) && Normalised(b, outB, keywords)
    ensures outA == outB <==> AlphaEquivalent(a, b, keywords)
  {
    if outA == outB {
      var f := Matching(a, b, |a|, keywords);
      SameNormalFormRenames(a, b, outA, |a|, keywords);
      NamesNumbered(a, |a|, keywords);
      assert Renames(f, a, b, keywords);
    }
    if AlphaEquivalent(a, b, keywords) {
      var f :| Renames(f, a, b, keywords);
      RenamingKeepsNormalForm(f, a, b, outA, outB, keywords);
    }
  }

  /** So alpha-equivalence, stated by one-way renamings, is an equivalence. */
  lemma {:induction false} AlphaIsEquivalence(a: seq<Token>, b: seq<Token>, c: seq<Token>, keywords: set<string>)
    ensures AlphaEquivalent(a, a, keywords)
    ensures AlphaEquivalent(a, b, keywords) ==> AlphaEquivalent(b, a, keywords)
    ensures AlphaEquivalent(a, b, keywords) && AlphaEquivalent(b, c, keywords) ==> AlphaEquivalent(a, c, keywords)
  {
    var x := NormalisedExists(a, keywords);
    var y := NormalisedExists(b, keywords);
    var z := NormalisedExists(c, keywords);
    SameNormalFormIff(a, a, x, x, keywords);
    SameNormalFormIff(a, b, x, y, keywords);
    SameNormalFormIff(b, a, y, x, keywords);
    SameNormalFormIff(b, c, y, z, keywords);
    SameNormalFormIff(a, c, x, z, keywords);
  }
}
