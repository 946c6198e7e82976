/** Facts about concatenation and slicing, stated once for every element type, and substrings. */
module Seqs {

  lemma {:induction false} Assoc<T>(a: seq<T>, b: seq<T>, c: seq<T>)
    ensures a + (b + c) == a + b + c
  {
  }

  lemma {:induction false} CancelLeft<T>(a: seq<T>, x: seq<T>, y: seq<T>)
    requires a + x == a + y
    ensures x == y
  {
    assert (a + x)[|a|..] == x && (a + y)[|a|..] == y;
  }

  lemma {:induction false} SplitSame<T>(a: seq<T>, x: seq<T>, b: seq<T>, y: seq<T>)
    requires a + x == b + y && |a| == |b|
    ensures a == b && x == y
  {
    assert a == (a + x)[..|a|] && b == (b + y)[..|a|];
    CancelLeft(a, x, y);
  }

  /** Putting `fill` in after position `m`, seen from before `m` and from after the head. */
  lemma {:induction false} Inserted<T>(s: seq<T>, m: nat, fill: seq<T>)
    requires m < |s|
    ensures s == s[..m + 1] + s[m + 1..]
    ensures s == s[..m] + ([s[m]] + s[m + 1..])
    ensures s[..m + 1] + fill + s[m + 1..] == s[..m] + ([s[m]] + fill + s[m + 1..])
    ensures m > 0 ==> s[1..] == s[1..m + 1] + s[m + 1..]
    ensures m > 0 ==> (s[..m + 1] + fill + s[m + 1..])[1..] == s[1..m + 1] + fill + s[m + 1..]
  {
    assert s[..m + 1] == s[..m] + [s[m]];
    if m > 0 {
      assert s[..m + 1][1..] == s[1..m + 1];
    }
  }

  /** The same, when `s` itself comes after `done`. */
  lemma {:induction false} InsertedAfter<T>(done: seq<T>, s: seq<T>, m: nat, fill: seq<T>)
    requires m < |s|
    ensures (done + s)[..|done| + m + 1] + fill + (done + s)[|done| + m + 1..]
         == done + (s[..m + 1] + fill + s[m + 1..])
  {
    var out, at := done + s, |done| + m + 1;
    assert out[..at] == done + s[..m + 1] && out[at..] == s[m + 1..];
  }

  lemma {:induction false} Next<T>(s: seq<T>, i: nat)
    requires i < |s|
    ensures s[i..][0] == s[i] && s[i..][1..] == s[i + 1..]
    ensures s[..i + 1] == s[..i] + [s[i]] && s[..i + 1][..i] == s[..i]
  {
  }

  /** `part in text` for strings. */
  predicate Contains(text: string, part: string) {
    exists i :: 0 <= i <= |text| - |part| && text[i..][..|part|] == part
  }

  lemma {:induction false} ContainsIff(text: string, part: string)
    ensures Contains(text, part) <==> exists before, after :: text == before + part + after
  {
    if Contains(text, part) {
      var i :| 0 <= i <= |text| - |part| && text[i..][..|part|] == part;
      assert text == text[..i] + part + text[i..][|part|..];
    }
    if before, after :| text == before + part + after {
      assert text[|before|..] == part + after;
      assert text[|before|..][..|part|] == part;
    }
  }
}
