/**
 * `DataFrame.groupby(key)` with the library's defaults (sort=True,
 * dropna=True): one group per distinct non-null key, groups in ascending
 * key order, rows in their original order inside a group; and
 * `pd.concat(frames, ignore_index=True)`.
 */
module Grouping {
  import opened Wrappers

  predicate StrictlyIncreasing(ks: seq<int>)
  {
    forall i, j :: 0 <= i < j < |ks| ==> ks[i] < ks[j]
  }

  /** Adds `k` to a sorted, duplicate-free key list. */
  function InsertKey(ks: seq<int>, k: int): (r: seq<int>)
    requires StrictlyIncreasing(ks)
    ensures StrictlyIncreasing(r)
    ensures forall x :: x in r <==> x in ks || x == k
  {
    if ks == [] then [k]
    else if k < ks[0] then [k] + ks
    else if k == ks[0] then ks
    else
      var rest := InsertKey(ks[1..], k);
      assert forall x :: x in ks[1..] ==> ks[0] < x;
      assert forall i :: 0 <= i < |rest| ==> rest[i] in rest;
      [ks[0]] + rest
  }

  /** Some row of `xs` has the non-null key `k`. */
  predicate HasKey<T>(xs: seq<T>, key: T -> Option<int>, k: int)
  {
    exists i :: 0 <= i < |xs| && key(xs[i]) == Some(k)
  }

  lemma HasKeyCons<T>(xs: seq<T>, key: T -> Option<int>, k: int)
    requires xs != []
    ensures HasKey(xs, key, k) <==> key(xs[0]) == Some(k) || HasKey(xs[1..], key, k)
  {
    if HasKey(xs[1..], key, k) {
      var i :| 0 <= i < |xs[1..]| && key(xs[1..][i]) == Some(k);
      assert xs[i + 1] == xs[1..][i];
    }
    if HasKey(xs, key, k) && key(xs[0]) != Some(k) {
      var i :| 0 <= i < |xs| && key(xs[i]) == Some(k);
      assert xs[1..][i - 1] == xs[i];
    }
  }

  /** The group keys: every distinct non-null key, ascending. */
  function GroupKeys<T>(xs: seq<T>, key: T -> Option<int>): (ks: seq<int>)
    ensures StrictlyIncreasing(ks)
    ensures forall k :: k in ks <==> HasKey(xs, key, k)
  {
    if xs == [] then []
    else
      var ks := GroupKeys(xs[1..], key);
      assert forall k :: HasKey(xs, key, k) <==> key(xs[0]) == Some(k) || HasKey(xs[1..], key, k) by {
        forall k ensures HasKey(xs, key, k) <==> key(xs[0]) == Some(k) || HasKey(xs[1..], key, k) {
          HasKeyCons(xs, key, k);
        }
      }
      match key(xs[0])
      case None => ks
      case Some(k) => InsertKey(ks, k)
  }

  /** A frame with no key at all has no groups. */
  lemma {:induction false} GroupKeysNone<T>(xs: seq<T>, key: T -> Option<int>)
    requires forall i :: 0 <= i < |xs| ==> key(xs[i]).None?
    ensures GroupKeys(xs, key) == []
    decreases |xs|
  {
    if xs != [] {
      GroupKeysNone(xs[1..], key);
    }
  }

  /** The rows whose key is `k`, in their original order. */
  function Members<T>(xs: seq<T>, key: T -> Option<int>, k: int): (r: seq<T>)
    ensures |r| <= |xs|
    ensures forall i :: 0 <= i < |r| ==> key(r[i]) == Some(k) && r[i] in xs
  {
    if xs == [] then []
    else (if key(xs[0]) == Some(k) then [xs[0]] else []) + Members(xs[1..], key, k)
  }

  /** The frames `[frame for _, frame in df.groupby(key)]`. */
  function GroupBy<T>(xs: seq<T>, key: T -> Option<int>): (groups: seq<seq<T>>)
  {
    var ks := GroupKeys(xs, key);
    seq(|ks|, j requires 0 <= j < |ks| => Members(xs, key, ks[j]))
  }

  /** `pd.concat(frames, ignore_index=True)`. */
  function Concat<T>(groups: seq<seq<T>>): (r: seq<T>)
  {
    if groups == [] then [] else groups[0] + Concat(groups[1..])
  }

  /** Each group is non-empty and holds only rows keyed `ks[j]`, keys ascending. */
  predicate KeyedBy<T>(groups: seq<seq<T>>, key: T -> Option<int>, ks: seq<int>)
  {
    && |groups| == |ks|
    && StrictlyIncreasing(ks)
    && (forall j :: 0 <= j < |groups| ==> groups[j] != [])
    && (forall j, i :: 0 <= j < |groups| && 0 <= i < |groups[j]| ==> key(groups[j][i]) == Some(ks[j]))
  }

  lemma {:induction false} MembersContains<T>(xs: seq<T>, key: T -> Option<int>, i: nat)
    requires i < |xs| && key(xs[i]).Some?
    ensures xs[i] in Members(xs, key, key(xs[i]).value)
    decreases i
  {
    if i > 0 {
      assert xs[1..][i - 1] == xs[i];
      MembersContains(xs[1..], key, i - 1);
    }
  }

  /** Filtering distributes over concatenation, so row order is kept. */
  lemma {:induction false} MembersAppend<T>(a: seq<T>, b: seq<T>, key: T -> Option<int>, k: int)
    ensures Members(a + b, key, k) == Members(a, key, k) + Members(b, key, k)
    decreases |a|
  {
    if a != [] {
      assert (a + b)[1..] == a[1..] + b;
      MembersAppend(a[1..], b, key, k);
    } else {
      assert a + b == b;
    }
  }

  lemma {:induction false} MembersAll<T>(xs: seq<T>, key: T -> Option<int>, k: int)
    requires forall i :: 0 <= i < |xs| ==> key(xs[i]) == Some(k)
    ensures Members(xs, key, k) == xs
    decreases |xs|
  {
    if xs != [] {
      MembersAll(xs[1..], key, k);
    }
  }

  lemma {:induction false} MembersNone<T>(xs: seq<T>, key: T -> Option<int>, k: int)
    requires forall i :: 0 <= i < |xs| ==> key(xs[i]) != Some(k)
    ensures Members(xs, key, k) == []
    decreases |xs|
  {
    if xs != [] {
      MembersNone(xs[1..], key, k);
    }
  }

  /** Two ascending duplicate-free key lists with the same keys are equal. */
  lemma {:induction false} SortedUnique(a: seq<int>, b: seq<int>)
    requires StrictlyIncreasing(a) && StrictlyIncreasing(b)
    requires forall x :: x in a <==> x in b
    ensures a == b
    decreases |a|
  {
    assert a != [] <==> b != [] by {
      if a != [] {
        assert a[0] in b;
      }
      if b != [] {
        assert b[0] in a;
      }
    }
    if a != [] {
      assert a[0] in a && a[0] in b;
      assert b[0] in b && b[0] in a;
      assert a[0] == b[0];
      forall x ensures x in a[1..] <==> x in b[1..] {
        assert x in a[1..] <==> x in a && x != a[0];
        assert x in b[1..] <==> x in b && x != b[0];
      }
      SortedUnique(a[1..], b[1..]);
    }
  }

  /** A key that no group carries has no rows in the concatenation. */
  lemma {:induction false} MembersConcatOther<T>(groups: seq<seq<T>>, key: T -> Option<int>, ks: seq<int>, k: int)
    requires KeyedBy(groups, key, ks)
    requires k !in ks
    ensures Members(Concat(groups), key, k) == []
    decreases |groups|
  {
    if groups != [] {
      assert KeyedBy(groups[1..], key, ks[1..]);
      MembersConcatOther(groups[1..], key, ks[1..], k);
      MembersNone(groups[0], key, k);
      MembersAppend(groups[0], Concat(groups[1..]), key, k);
    }
  }

  /** Filtering the concatenation by the j-th key gives back the j-th group. */
  lemma {:induction false} MembersConcat<T>(groups: seq<seq<T>>, key: T -> Option<int>, ks: seq<int>, j: nat)
    requires KeyedBy(groups, key, ks)
    requires j < |groups|
    ensures Members(Concat(groups), key, ks[j]) == groups[j]
    decreases |groups|
  {
    assert KeyedBy(groups[1..], key, ks[1..]);
    MembersAppend(groups[0], Concat(groups[1..]), key, ks[j]);
    if j == 0 {
      MembersAll(groups[0], key, ks[0]);
      MembersConcatOther(groups[1..], key, ks[1..], ks[0]);
    } else {
      MembersNone(groups[0], key, ks[j]);
      MembersConcat(groups[1..], key, ks[1..], j - 1);
    }
  }

  /**
   * Grouping the concatenation of frames that are already one per key, in
   * ascending key order, gives back exactly those frames.
   */
  lemma GroupByConcat<T>(groups: seq<seq<T>>, key: T -> Option<int>, ks: seq<int>)
    requires KeyedBy(groups, key, ks)
    ensures GroupKeys(Concat(groups), key) == ks
    ensures GroupBy(Concat(groups), key) == groups
  {
    var c := Concat(groups);
    forall k ensures k in GroupKeys(c, key) <==> k in ks {
      if k in ks {
        var j :| 0 <= j < |ks| && ks[j] == k;
        MembersConcat(groups, key, ks, j);
        assert groups[j][0] in c;
      } else if HasKey(c, key, k) {
        var i :| 0 <= i < |c| && key(c[i]) == Some(k);
        MembersContains(c, key, i);
        MembersConcatOther(groups, key, ks, k);
      }
    }
    SortedUnique(GroupKeys(c, key), ks);
    forall j | 0 <= j < |ks| ensures GroupBy(c, key)[j] == groups[j] {
      MembersConcat(groups, key, ks, j);
    }
  }

  /**
   * The groups are one per distinct non-null key, ascending; each is non-empty
   * and holds only rows with its key; every keyed row is in the group of its key
   * and in no other group.
   */
  lemma GroupByPartition<T>(xs: seq<T>, key: T -> Option<int>)
    ensures KeyedBy(GroupBy(xs, key), key, GroupKeys(xs, key))
    ensures forall i :: 0 <= i < |xs| && key(xs[i]).Some? ==>
      exists j :: 0 <= j < |GroupKeys(xs, key)| && GroupKeys(xs, key)[j] == key(xs[i]).value && xs[i] in GroupBy(xs, key)[j]
    ensures forall j1, j2, x :: 0 <= j1 < |GroupBy(xs, key)| && 0 <= j2 < |GroupBy(xs, key)| && x in GroupBy(xs, key)[j1] && x in GroupBy(xs, key)[j2] ==> j1 == j2
  {
    var ks, groups := GroupKeys(xs, key), GroupBy(xs, key);
    forall j | 0 <= j < |ks| ensures groups[j] != [] {
      assert ks[j] in ks;
      var i :| 0 <= i < |xs| && key(xs[i]) == Some(ks[j]);
      MembersContains(xs, key, i);
    }
    forall i | 0 <= i < |xs| && key(xs[i]).Some?
      ensures exists j :: 0 <= j < |ks| && ks[j] == key(xs[i]).value && xs[i] in groups[j]
    {
      var k := key(xs[i]).value;
      assert HasKey(xs, key, k);
      var j :| 0 <= j < |ks| && ks[j] == k;
      MembersContains(xs, key, i);
    }
  }
}
