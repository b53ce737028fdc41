/** `SELECT id ... ORDER BY key, id LIMIT n`: the candidate rows are a map from id to sort key. */
module Selection {
  import opened Basics

  predicate Precedes(keys: map<nat, Time>, a: nat, b: nat)
    requires a in keys && b in keys
  {
    keys[a] < keys[b] || (keys[a] == keys[b] && a < b)
  }

  predicate IsFirst(keys: map<nat, Time>, m: nat) {
    m in keys && forall x :: x in keys && x != m ==> Precedes(keys, m, x)
  }

  lemma {:induction false} FirstExists(keys: map<nat, Time>)
    requires keys != map[]
    ensures exists m :: IsFirst(keys, m)
    decreases |keys|
  {
    var x :| x in keys;
    var rest := keys - {x};
    if rest == map[] {
      assert forall y :: y in keys && y != x ==> y in rest;
      assert IsFirst(keys, x);
    } else {
      assert |rest.Keys| < |keys.Keys| by { assert rest.Keys == keys.Keys - {x}; }
      FirstExists(rest);
      var m :| IsFirst(rest, m);
      assert forall y :: y in keys && y != x ==> y in rest;
      if Precedes(keys, x, m) {
        assert IsFirst(keys, x);
      } else {
        assert IsFirst(keys, m);
      }
    }
  }

  function First(keys: map<nat, Time>): (m: nat)
    requires keys != map[]
    ensures IsFirst(keys, m)
  {
    FirstExists(keys);
    var m :| IsFirst(keys, m);
    m
  }

  /** All candidates, in query order. */
  function Ordered(keys: map<nat, Time>): (ids: seq<nat>)
    ensures |ids| == |keys|
    ensures forall x :: x in ids <==> x in keys
    decreases |keys|
  {
    if keys == map[] then []
    else
      var m := First(keys);
      assert (keys - {m}).Keys == keys.Keys - {m};
      [m] + Ordered(keys - {m})
  }

  /** The rows one bounded query returns. */
  function Page(keys: map<nat, Time>, limit: nat): (ids: seq<nat>)
    ensures |ids| == Min(limit, |keys|)
    ensures forall x :: x in ids ==> x in keys
  {
    var all := Ordered(keys);
    if |all| <= limit then all else all[..limit]
  }

  predicate Increasing(keys: map<nat, Time>, ids: seq<nat>)
    requires forall x :: x in ids ==> x in keys
  {
    forall i, j :: 0 <= i < j < |ids| ==> Precedes(keys, ids[i], ids[j])
  }

  lemma {:induction false} OrderedIncreasing(keys: map<nat, Time>)
    ensures Increasing(keys, Ordered(keys))
    decreases |keys|
  {
    if keys != map[] {
      var m := First(keys);
      var rest := keys - {m};
      assert rest.Keys == keys.Keys - {m};
      OrderedIncreasing(rest);
      Prepend(keys, rest, m, Ordered(rest));
    }
  }

  lemma Prepend(keys: map<nat, Time>, rest: map<nat, Time>, m: nat, tail: seq<nat>)
    requires IsFirst(keys, m) && rest == keys - {m}
    requires forall x :: x in tail ==> x in rest
    requires Increasing(rest, tail)
    ensures Increasing(keys, [m] + tail)
  {
    var ids := [m] + tail;
    assert forall i :: 0 <= i < |ids| ==> ids[i] == if i == 0 then m else tail[i - 1];
    assert forall i :: 0 <= i < |tail| ==> tail[i] in rest;
    assert forall i :: 0 <= i < |ids| ==> ids[i] in keys;
    forall i, j | 0 <= i < j < |ids|
      ensures Precedes(keys, ids[i], ids[j])
    {
      assert ids[j] in rest;
      assert i > 0 ==> Precedes(rest, tail[i - 1], tail[j - 1]);
    }
  }

  /** What a bounded, ordered query promises: increasing order, and nothing left out comes earlier. */
  ghost predicate IsPage(keys: map<nat, Time>, limit: nat, ids: seq<nat>) {
    && |ids| == Min(limit, |keys|)
    && (forall x :: x in ids ==> x in keys)
    && Increasing(keys, ids)
    && (forall x, y :: x in keys && x !in ids && y in ids ==> Precedes(keys, y, x))
  }

  lemma PageIsPage(keys: map<nat, Time>, limit: nat)
    ensures IsPage(keys, limit, Page(keys, limit))
  {
    OrderedIncreasing(keys);
    var all, ids := Ordered(keys), Page(keys, limit);
    forall x, y | x in keys && x !in ids && y in ids
      ensures Precedes(keys, y, x)
    {
      var i :| 0 <= i < |all| && all[i] == x;
      var j :| 0 <= j < |ids| && ids[j] == y;
      assert forall k :: 0 <= k < |ids| ==> ids[k] == all[k];
      assert |ids| <= i;
      assert Precedes(keys, all[j], all[i]);
    }
  }

  /** What a page holds comes before what it leaves out. */
  lemma PageOrder(keys: map<nat, Time>, limit: nat, x: nat, y: nat)
    requires x in Page(keys, limit) && y in keys && y !in Page(keys, limit)
    ensures x in keys && (keys[x] < keys[y] || (keys[x] == keys[y] && x < y))
  {
    hide Page;
    PageIsPage(keys, limit);
  }

  lemma IncreasingDistinct(keys: map<nat, Time>, ids: seq<nat>)
    requires forall x :: x in ids ==> x in keys
    requires Increasing(keys, ids)
    ensures forall i, j :: 0 <= i < j < |ids| ==> ids[i] != ids[j]
  {
  }

  /** The promise leaves no choice: any two answers to the same query are equal. */
  lemma PageUnique(keys: map<nat, Time>, limit: nat, a: seq<nat>, b: seq<nat>)
    requires IsPage(keys, limit, a) && IsPage(keys, limit, b)
    ensures a == b
  {
    var i := 0;
    while i < |a|
      invariant 0 <= i <= |a|
      invariant a[..i] == b[..i]
    {
      NotLater(keys, limit, a, b, i);
      NotLater(keys, limit, b, a, i);
      assert a[..i + 1] == a[..i] + [a[i]] && b[..i + 1] == b[..i] + [b[i]];
      i := i + 1;
    }
    assert a == a[..i] && b == b[..i];
  }

  lemma NotLater(keys: map<nat, Time>, limit: nat, a: seq<nat>, b: seq<nat>, i: nat)
    requires IsPage(keys, limit, a) && IsPage(keys, limit, b)
    requires i < |a| && a[..i] == b[..i]
    ensures a[i] == b[i] || Precedes(keys, a[i], b[i])
  {
    assert b[i] in keys;
    if b[i] in a {
      var k :| 0 <= k < |a| && a[k] == b[i];
      assert forall j :: 0 <= j < i ==> a[j] == a[..i][j] == b[..i][j] == b[j] && Precedes(keys, b[j], b[i]);
      assert i <= k;
    }
  }

  function Elements(ids: seq<nat>): set<nat> {
    set x | x in ids
  }

  ghost predicate Distinct(ids: seq<nat>) {
    forall i, j :: 0 <= i < j < |ids| ==> ids[i] != ids[j]
  }

  lemma PageDistinct(keys: map<nat, Time>, limit: nat)
    ensures Distinct(Page(keys, limit))
  {
    PageIsPage(keys, limit);
    IncreasingDistinct(keys, Page(keys, limit));
  }

  lemma {:induction false} DistinctSize(ids: seq<nat>)
    requires Distinct(ids)
    ensures |Elements(ids)| == |ids|
    decreases |ids|
  {
    if ids == [] {
      assert Elements(ids) == {};
    } else {
      DistinctSize(ids[1..]);
      assert ids[0] !in Elements(ids[1..]);
      assert Elements(ids) == {ids[0]} + Elements(ids[1..]);
    }
  }

  lemma {:induction false} SubsetSize(a: set<nat>, b: set<nat>)
    requires a <= b
    ensures |a| <= |b|
    decreases a
  {
    if a != {} {
      var x :| x in a;
      SubsetSize(a - {x}, b - {x});
    }
  }
}
