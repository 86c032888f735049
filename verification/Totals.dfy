/** Sums of a natural-number weight over a sequence. */
module Totals {

  function Total<T>(s: seq<T>, w: T -> nat): nat {
    if s == [] then 0 else w(s[0]) + Total(s[1..], w)
  }

  lemma {:induction false} TotalAppend<T>(s: seq<T>, t: seq<T>, w: T -> nat)
    ensures Total(s + t, w) == Total(s, w) + Total(t, w)
  {
    if s == [] {
      assert s + t == t;
    } else {
      assert (s + t)[1..] == s[1..] + t;
      TotalAppend(s[1..], t, w);
    }
  }

  lemma {:induction false} TotalSplit<T>(s: seq<T>, i: nat, w: T -> nat)
    requires i < |s|
    ensures Total(s, w) == Total(s[..i], w) + w(s[i]) + Total(s[i + 1..], w)
  {
    assert s == s[..i] + ([s[i]] + s[i + 1..]);
    TotalAppend(s[..i], [s[i]] + s[i + 1..], w);
  }

  lemma {:induction false} TotalUpdate<T>(s: seq<T>, i: nat, x: T, w: T -> nat)
    requires i < |s|
    ensures Total(s[i := x], w) + w(s[i]) == Total(s, w) + w(x)
  {
    TotalSplit(s, i, w);
    TotalSplit(s[i := x], i, w);
    assert s[i := x][..i] == s[..i];
    assert s[i := x][i + 1..] == s[i + 1..];
  }

  lemma {:induction false} TotalRemove<T>(s: seq<T>, i: nat, w: T -> nat)
    requires i < |s|
    ensures Total(s[..i] + s[i + 1..], w) + w(s[i]) == Total(s, w)
  {
    TotalSplit(s, i, w);
    TotalAppend(s[..i], s[i + 1..], w);
  }

  lemma {:induction false} TotalPositive<T>(s: seq<T>, w: T -> nat)
    ensures Total(s, w) > 0 <==> exists i :: 0 <= i < |s| && w(s[i]) > 0
  {
    if s != [] {
      TotalPositive(s[1..], w);
      if Total(s[1..], w) > 0 {
        var j :| 0 <= j < |s[1..]| && w(s[1..][j]) > 0;
        assert w(s[j + 1]) > 0;
      }
      if i :| 0 <= i < |s| && w(s[i]) > 0 {
        if i > 0 { assert w(s[1..][i - 1]) > 0; }
      }
    }
  }
}
