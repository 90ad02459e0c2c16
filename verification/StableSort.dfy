/** `Array.prototype.sort` with a numeric comparator: stable, ascending in a key. */
module StableSort {

  ghost predicate Sorted<T(!new)>(xs: seq<T>, key: T -> real) {
    forall i, j :: 0 <= i < j < |xs| ==> key(xs[i]) <= key(xs[j])
  }

  function Insert<T>(x: T, ys: seq<T>, key: T -> real): seq<T> {
    if ys == [] || key(x) <= key(ys[0]) then [x] + ys
    else [ys[0]] + Insert(x, ys[1..], key)
  }

  function Sort<T>(xs: seq<T>, key: T -> real): seq<T> {
    if xs == [] then [] else Insert(xs[0], Sort(xs[1..], key), key)
  }

  /** The elements with one given key, in order: what a stable sort must not disturb. */
  ghost function WithKey<T(!new)>(xs: seq<T>, key: T -> real, k: real): seq<T> {
    if xs == [] then []
    else (if key(xs[0]) == k then [xs[0]] else []) + WithKey(xs[1..], key, k)
  }

  lemma {:induction false} InsertPermutes<T(!new)>(x: T, ys: seq<T>, key: T -> real)
    ensures multiset(Insert(x, ys, key)) == multiset{x} + multiset(ys)
    ensures forall z :: z in Insert(x, ys, key) ==> z == x || z in ys
  {
    if ys != [] && key(x) > key(ys[0]) {
      InsertPermutes(x, ys[1..], key);
      assert ys == [ys[0]] + ys[1..];
    }
  }

  lemma {:induction false} InsertSorted<T(!new)>(x: T, ys: seq<T>, key: T -> real)
    requires Sorted(ys, key)
    ensures Sorted(Insert(x, ys, key), key)
  {
    if ys != [] && key(x) > key(ys[0]) {
      InsertSorted(x, ys[1..], key);
      InsertPermutes(x, ys[1..], key);
      var rest := Insert(x, ys[1..], key);
      forall i | 0 <= i < |rest|
        ensures key(ys[0]) <= key(rest[i])
      {
        assert rest[i] in rest;
        if rest[i] != x {
          var j :| 0 <= j < |ys[1..]| && ys[1..][j] == rest[i];
          assert ys[j + 1] == rest[i];
        }
      }
    }
  }

  lemma {:induction false} InsertStable<T(!new)>(x: T, ys: seq<T>, key: T -> real, k: real)
    ensures WithKey(Insert(x, ys, key), key, k) == WithKey([x] + ys, key, k)
  {
    assert ([x] + ys)[1..] == ys;
    if ys != [] && key(x) > key(ys[0]) {
      InsertStable(x, ys[1..], key, k);
      var rest := Insert(x, ys[1..], key);
      assert ([ys[0]] + rest)[1..] == rest;
      assert ([x] + ys[1..])[1..] == ys[1..];
    }
  }

  /** The result is ordered, is a permutation of the input, and keeps equal keys in input order. */
  lemma {:induction false} SortSpec<T(!new)>(xs: seq<T>, key: T -> real)
    ensures Sorted(Sort(xs, key), key)
    ensures multiset(Sort(xs, key)) == multiset(xs)
    ensures |Sort(xs, key)| == |xs|
    ensures forall k :: WithKey(Sort(xs, key), key, k) == WithKey(xs, key, k)
  {
    if xs != [] {
      SortSpec(xs[1..], key);
      InsertSorted(xs[0], Sort(xs[1..], key), key);
      InsertPermutes(xs[0], Sort(xs[1..], key), key);
      assert xs == [xs[0]] + xs[1..];
      assert |multiset(Sort(xs, key))| == |multiset(xs)|;
      forall k
        ensures WithKey(Sort(xs, key), key, k) == WithKey(xs, key, k)
      {
        InsertStable(xs[0], Sort(xs[1..], key), key, k);
        assert ([xs[0]] + Sort(xs[1..], key))[1..] == Sort(xs[1..], key);
      }
    }
  }

  lemma SortMember<T(!new)>(xs: seq<T>, key: T -> real, x: T)
    ensures x in Sort(xs, key) <==> x in xs
  {
    SortSpec(xs, key);
    assert x in Sort(xs, key) <==> x in multiset(Sort(xs, key));
    assert x in xs <==> x in multiset(xs);
  }

  /** The head of a stable sort is the first element, in input order, among those of least key. */
  lemma {:induction false} SortHead<T(!new)>(xs: seq<T>, key: T -> real, at: nat)
    requires at < |xs|
    requires forall j :: 0 <= j < |xs| ==> key(xs[at]) <= key(xs[j])
    requires forall j :: 0 <= j < at ==> key(xs[at]) < key(xs[j])
    ensures Sort(xs, key) != [] && Sort(xs, key)[0] == xs[at]
  {
    var tail := xs[1..];
    SortSpec(tail, key);
    if at == 0 {
      if tail != [] {
        var h := Sort(tail, key)[0];
        SortMember(tail, key, h);
        var j :| 0 <= j < |tail| && tail[j] == h;
        assert xs[j + 1] == h;
      }
    } else {
      assert tail[at - 1] == xs[at];
      SortHead(tail, key, at - 1);
    }
  }
}
