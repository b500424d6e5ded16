/**
 * Column operations of the data-frame library, on a column given as a
 * sequence of optional cells (a missing cell is NaN): forward fill,
 * the first non-null value, the non-null values, and string joining.
 */
module Columns {
  import opened Wrappers

  /** The last present value of `s`, or `carry` when every cell of `s` is missing. */
  function LastPresentOr<T>(s: seq<Option<T>>, carry: Option<T>): Option<T>
  {
    if s == [] then carry
    else if s[|s| - 1].Some? then s[|s| - 1]
    else LastPresentOr(s[..|s| - 1], carry)
  }

  /** Scanning `a` and then `b` is scanning `b` with what `a` left behind. */
  lemma {:induction false} LastPresentOrAppend<T>(a: seq<Option<T>>, b: seq<Option<T>>, carry: Option<T>)
    ensures LastPresentOr(a + b, carry) == LastPresentOr(b, LastPresentOr(a, carry))
    decreases |b|
  {
    if b == [] {
      assert a + b == a;
    } else {
      var ab := a + b;
      assert ab[..|ab| - 1] == a + b[..|b| - 1];
      assert ab[|ab| - 1] == b[|b| - 1];
      LastPresentOrAppend(a, b[..|b| - 1], carry);
    }
  }

  /** `Series.ffill()`: every missing cell takes the last present value above it. */
  function FillForward<T>(s: seq<Option<T>>, carry: Option<T>): (r: seq<Option<T>>)
    ensures |r| == |s|
  {
    if s == [] then []
    else
      var v := if s[0].Some? then s[0] else carry;
      [v] + FillForward(s[1..], v)
  }

  /** Cell i after a forward fill is the nearest present value at or above row i. */
  lemma {:induction false} FillForwardAt<T>(s: seq<Option<T>>, carry: Option<T>, i: nat)
    requires i < |s|
    ensures FillForward(s, carry)[i] == LastPresentOr(s[..i + 1], carry)
    ensures s[i].Some? ==> FillForward(s, carry)[i] == s[i]
    decreases i
  {
    var v := if s[0].Some? then s[0] else carry;
    assert LastPresentOr(s[..1], carry) == v by {
      assert s[..1][..0] == [];
    }
    if i > 0 {
      FillForwardAt(s[1..], v, i - 1);
      assert s[1..][..i] == s[1..i + 1];
      assert s[..i + 1] == s[..1] + s[1..i + 1];
      LastPresentOrAppend(s[..1], s[1..i + 1], carry);
    }
    assert s[..i + 1][i] == s[i];
  }

  /** pandas' "first" aggregation: the first non-null cell of a column, if any. */
  function FirstPresent<T(==)>(s: seq<Option<T>>): (r: Option<T>)
    ensures r.None? <==> forall i :: 0 <= i < |s| ==> s[i].None?
    ensures r.Some? ==> exists i :: 0 <= i < |s| && s[i] == r && forall j :: 0 <= j < i ==> s[j].None?
  {
    if s == [] then None
    else if s[0].Some? then s[0]
    else
      assert forall i :: 1 <= i < |s| ==> s[i] == s[1..][i - 1];
      FirstPresent(s[1..])
  }

  /** `Series.dropna()`: the present values, in row order. */
  function Present<T(==)>(s: seq<Option<T>>): (r: seq<T>)
    ensures |r| <= |s|
    ensures forall i :: 0 <= i < |r| ==> Some(r[i]) in s
    ensures forall i :: 0 <= i < |s| && s[i].Some? ==> s[i].value in r
  {
    if s == [] then []
    else
      var rest := Present(s[1..]);
      assert forall i :: 1 <= i < |s| ==> s[i] == s[1..][i - 1];
      if s[0].Some? then [s[0].value] + rest else rest
  }

  /** `sep.join(xs)`. */
  function JoinWith(sep: string, xs: seq<string>): string
  {
    if xs == [] then ""
    else if |xs| == 1 then xs[0]
    else xs[0] + sep + JoinWith(sep, xs[1..])
  }

  /** Joining one more part puts exactly one separator in front of it. */
  lemma {:induction false} JoinWithAppend(sep: string, xs: seq<string>, x: string)
    ensures JoinWith(sep, xs + [x]) == if xs == [] then x else JoinWith(sep, xs) + sep + x
    decreases |xs|
  {
    if |xs| > 1 {
      assert (xs + [x])[1..] == xs[1..] + [x];
      JoinWithAppend(sep, xs[1..], x);
    } else if |xs| == 1 {
      assert (xs + [x])[1..] == [x];
    }
  }
}
