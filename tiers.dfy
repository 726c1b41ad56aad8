/** Distinct values of a column in order of first appearance (pandas'
    `Series.unique()`), and the first row holding a value (`.iloc[0]` of a filter). */
module Tiers {

  predicate NoDuplicates<T(==,!new)>(s: seq<T>)
  {
    forall i, j :: 0 <= i < j < |s| ==> s[i] != s[j]
  }

  /** Each value of `s` once, kept where it first appears. */
  function Distinct<T(==,!new)>(s: seq<T>): (d: seq<T>)
    ensures forall x :: x in d <==> x in s
    ensures NoDuplicates(d)
    ensures |d| <= |s|
  {
    if s == [] then []
    else
      var p := Distinct(s[..|s| - 1]);
      assert s == s[..|s| - 1] + [s[|s| - 1]];
      if s[|s| - 1] in p then p else p + [s[|s| - 1]]
  }

  /** The index of the first occurrence of `x` in `s`. */
  function FirstIndex<T(==,!new)>(s: seq<T>, x: T): (k: nat)
    requires x in s
    ensures k < |s| && s[k] == x && x !in s[..k]
  {
    if s[0] == x then 0
    else
      var k := FirstIndex(s[1..], x);
      assert s[..k + 1] == [s[0]] + s[1..][..k];
      k + 1
  }

  /** An index holding `x` with no earlier `x` is the first index. */
  lemma FirstIndexUnique<T(!new)>(s: seq<T>, x: T, a: nat)
    requires a < |s| && s[a] == x && x !in s[..a]
    ensures FirstIndex(s, x) == a
  {
  }

  lemma FirstIndexPrefix<T(!new)>(s: seq<T>, m: nat, x: T)
    requires m <= |s| && x in s[..m]
    ensures x in s && FirstIndex(s, x) == FirstIndex(s[..m], x)
  {
    var a := FirstIndex(s[..m], x);
    assert s[..m][..a] == s[..a];
    FirstIndexUnique(s, x, a);
  }

  /** `Distinct` lists the values in the order in which they first appear in `s`. */
  lemma {:induction false} DistinctFirstAppearance<T(!new)>(s: seq<T>, i: nat, j: nat)
    requires i < j < |Distinct(s)|
    ensures FirstIndex(s, Distinct(s)[i]) < FirstIndex(s, Distinct(s)[j])
  {
    var n := |s|;
    var init := s[..n - 1];
    var p := Distinct(init);
    var d := Distinct(s);
    assert s == init + [s[n - 1]];
    assert init == s[..n - 1];
    if s[n - 1] in p {
      assert d == p;
      DistinctFirstAppearance(init, i, j);
      FirstIndexPrefix(s, n - 1, d[i]);
      FirstIndexPrefix(s, n - 1, d[j]);
    } else {
      assert d == p + [s[n - 1]];
      FirstIndexPrefix(s, n - 1, d[i]);
      if j < |p| {
        DistinctFirstAppearance(init, i, j);
        FirstIndexPrefix(s, n - 1, d[j]);
      } else {
        assert d[j] == s[n - 1] && d[j] !in s[..n - 1];
        FirstIndexUnique(s, d[j], n - 1);
      }
    }
  }
}
