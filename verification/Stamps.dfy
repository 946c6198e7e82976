/** Timestamps as tools/metrics/derive.py reads them: compared at whole seconds, ordered in full. */
module Stamps {
  import opened Options

  /** The tool keeps the whole text of a stamp and parses only its first nineteen characters: `sec` is
      what they parse to, `frac` orders what comes after them. */
  datatype Stamp = Stamp(sec: int, frac: nat)

  /** `seconds(a, b)`: the difference in whole seconds, or nothing when either stamp does not parse. */
  function Seconds(a: Option<Stamp>, b: Option<Stamp>): Option<int> {
    if a.Some? && b.Some? then Some(b.value.sec - a.value.sec) else None
  }

  /** The order of the sort key `stamp or ""`: a missing stamp comes before every other. */
  predicate NotAfter(a: Option<Stamp>, b: Option<Stamp>) {
    a.None? || (b.Some? && (a.value.sec < b.value.sec || (a.value.sec == b.value.sec && a.value.frac <= b.value.frac)))
  }

  function Insert<T>(x: T, xs: seq<T>, key: T -> Option<Stamp>): seq<T> {
    if xs == [] || NotAfter(key(x), key(xs[0])) then [x] + xs
    else [xs[0]] + Insert(x, xs[1..], key)
  }

  /** `sorted(xs, key=...)`: stable, so equal keys keep their order. */
  function SortBy<T>(xs: seq<T>, key: T -> Option<Stamp>): seq<T> {
    if xs == [] then [] else Insert(xs[0], SortBy(xs[1..], key), key)
  }

  ghost predicate SortedBy<T>(xs: seq<T>, key: T -> Option<Stamp>) {
    forall a, b :: 0 <= a < b < |xs| ==> NotAfter(key(xs[a]), key(xs[b]))
  }

  lemma {:induction false} InsertSorts<T>(x: T, xs: seq<T>, key: T -> Option<Stamp>)
    requires SortedBy(xs, key)
    ensures SortedBy(Insert(x, xs, key), key)
    ensures multiset(Insert(x, xs, key)) == multiset{x} + multiset(xs)
  {
    if xs != [] && !NotAfter(key(x), key(xs[0])) {
      InsertSorts(x, xs[1..], key);
      var rest := Insert(x, xs[1..], key);
      assert xs == [xs[0]] + xs[1..];
      forall y | y in rest ensures NotAfter(key(xs[0]), key(y)) {
        assert y in multiset(rest);
        assert y == x || y in xs[1..];
      }
      FirstSorts(xs[0], rest, key);
    }
  }

  lemma {:induction false} FirstSorts<T>(x: T, xs: seq<T>, key: T -> Option<Stamp>)
    requires SortedBy(xs, key) && forall y :: y in xs ==> NotAfter(key(x), key(y))
    ensures SortedBy([x] + xs, key)
  {
  }

  lemma {:induction false} SortBySorts<T>(xs: seq<T>, key: T -> Option<Stamp>)
    ensures SortedBy(SortBy(xs, key), key)
    ensures multiset(SortBy(xs, key)) == multiset(xs)
  {
    if xs != [] {
      SortBySorts(xs[1..], key);
      InsertSorts(xs[0], SortBy(xs[1..], key), key);
      assert xs == [xs[0]] + xs[1..];
    }
  }

  /** In the sorted list, earlier means no stamp at all, or one that is not later: at whole seconds first, and
      within one second by the rest of the text. */
  lemma {:induction false} SortByInTime<T>(xs: seq<T>, key: T -> Option<Stamp>, a: nat, b: nat)
    requires a < b < |SortBy(xs, key)|
    ensures var s, t := key(SortBy(xs, key)[a]), key(SortBy(xs, key)[b]);
            && (t.None? ==> s.None?)
            && (s.Some? && t.Some? ==>
                  s.value.sec < t.value.sec || (s.value.sec == t.value.sec && s.value.frac <= t.value.frac))
  {
    SortBySorts(xs, key);
    assert NotAfter(key(SortBy(xs, key)[a]), key(SortBy(xs, key)[b]));
  }

  /** The elements with one key, in their order. */
  function Having<T>(xs: seq<T>, key: T -> Option<Stamp>, k: Option<Stamp>): seq<T> {
    if xs == [] then [] else (if key(xs[0]) == k then [xs[0]] else []) + Having(xs[1..], key, k)
  }

  lemma {:induction false} InsertStable<T>(x: T, xs: seq<T>, key: T -> Option<Stamp>, k: Option<Stamp>)
    ensures Having(Insert(x, xs, key), key, k) == Having([x] + xs, key, k)
  {
    assert ([x] + xs)[1..] == xs;
    if xs != [] && !NotAfter(key(x), key(xs[0])) {
      InsertStable(x, xs[1..], key, k);
      assert ([x] + xs[1..])[1..] == xs[1..];
      assert key(x) != key(xs[0]);
    }
  }

  /** Sorting is stable: elements with one key keep their order. */
  lemma {:induction false} SortByStable<T>(xs: seq<T>, key: T -> Option<Stamp>, k: Option<Stamp>)
    ensures Having(SortBy(xs, key), key, k) == Having(xs, key, k)
  {
    if xs != [] {
      SortByStable(xs[1..], key, k);
      InsertStable(xs[0], SortBy(xs[1..], key), key, k);
      var sorted := SortBy(xs[1..], key);
      assert ([xs[0]] + sorted)[1..] == sorted;
    }
  }
}
