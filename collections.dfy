/** Generic helpers over sequences: the filter, reverse and skip/limit
    windows that the document queries of the backend are built from. */
module Collections {

  datatype Option<+T> = None | Some(value: T)

  function Min(a: int, b: int): int { if a <= b then a else b }

  /** The elements of `xs` that satisfy `p`, in their original order. */
  function Filter<T>(xs: seq<T>, p: T -> bool): (r: seq<T>)
    ensures |r| <= |xs|
    ensures forall i :: 0 <= i < |r| ==> p(r[i])
    ensures forall i :: 0 <= i < |r| ==> r[i] in xs
    ensures forall i :: 0 <= i < |xs| && p(xs[i]) ==> xs[i] in r
  {
    if xs == [] then []
    else if p(xs[0]) then [xs[0]] + Filter(xs[1..], p)
    else Filter(xs[1..], p)
  }

  /** Filtering distributes over concatenation: relative order is kept. */
  lemma {:induction false} FilterConcat<T>(a: seq<T>, b: seq<T>, p: T -> bool)
    ensures Filter(a + b, p) == Filter(a, p) + Filter(b, p)
  {
    if a != [] {
      assert (a + b)[1..] == a[1..] + b;
      FilterConcat(a[1..], b, p);
    } else {
      assert a + b == b;
    }
  }

  /** A filter that keeps everything is the identity. */
  lemma {:induction false} FilterAll<T>(xs: seq<T>, p: T -> bool)
    requires forall i :: 0 <= i < |xs| ==> p(xs[i])
    ensures Filter(xs, p) == xs
  {
    if xs != [] {
      FilterAll(xs[1..], p);
    }
  }

  /** A filter that keeps nothing is empty. */
  lemma {:induction false} FilterNone<T>(xs: seq<T>, p: T -> bool)
    requires forall i :: 0 <= i < |xs| ==> !p(xs[i])
    ensures Filter(xs, p) == []
  {
    if xs != [] {
      FilterNone(xs[1..], p);
    }
  }

  /** A prefix holds some of the elements, each no more often. */
  lemma PrefixSubMultiset<T>(xs: seq<T>, cut: nat)
    requires cut <= |xs|
    ensures multiset(xs[..cut]) <= multiset(xs)
  {
    assert xs == xs[..cut] + xs[cut..];
  }

  function Reverse<T>(xs: seq<T>): (r: seq<T>)
    ensures |r| == |xs|
    ensures forall i :: 0 <= i < |xs| ==> r[i] == xs[|xs| - 1 - i]
  {
    if xs == [] then [] else Reverse(xs[1..]) + [xs[0]]
  }

  /** The `limit` elements after the first `skip` ones (what a MongoDB
      cursor with `.skip(skip).limit(limit)` returns). */
  function Window<T>(xs: seq<T>, skip: nat, limit: nat): (r: seq<T>)
    ensures |r| == if skip >= |xs| then 0 else Min(limit, |xs| - skip)
    ensures forall i :: 0 <= i < |r| ==> r[i] == xs[skip + i]
  {
    if skip >= |xs| then [] else xs[skip .. skip + Min(limit, |xs| - skip)]
  }

  /** Strictly increasing along the sequence, under `key`. */
  ghost predicate Increasing<T>(xs: seq<T>, key: T -> int) {
    forall i, j :: 0 <= i < j < |xs| ==> key(xs[i]) < key(xs[j])
  }

  /** Strictly decreasing along the sequence, under `key`. */
  ghost predicate Decreasing<T>(xs: seq<T>, key: T -> int) {
    forall i, j :: 0 <= i < j < |xs| ==> key(xs[i]) > key(xs[j])
  }

  lemma {:induction false} FilterKeepsIncreasing<T>(xs: seq<T>, p: T -> bool, key: T -> int)
    requires Increasing(xs, key)
    ensures Increasing(Filter(xs, p), key)
  {
    if xs != [] {
      var tail := xs[1..];
      TailIncreasing(xs, key);
      FilterKeepsIncreasing(tail, p, key);
      if p(xs[0]) {
        FilterKeepsAbove(tail, p, key, key(xs[0]));
        ConsIncreasing(xs[0], Filter(tail, p), key);
        assert Filter(xs, p) == [xs[0]] + Filter(tail, p);
      } else {
        assert Filter(xs, p) == Filter(tail, p);
      }
    }
  }

  /** Dropping the head of an increasing sequence leaves one that is
      increasing and lies above the head. */
  lemma TailIncreasing<T>(xs: seq<T>, key: T -> int)
    requires xs != [] && Increasing(xs, key)
    ensures Increasing(xs[1..], key) && Above(xs[1..], key, key(xs[0]))
  {
    var tail := xs[1..];
    forall i, j | 0 <= i < j < |tail| ensures key(tail[i]) < key(tail[j]) {
      assert tail[i] == xs[i + 1] && tail[j] == xs[j + 1];
    }
    forall i | 0 <= i < |tail| ensures key(xs[0]) < key(tail[i]) {
      assert tail[i] == xs[i + 1];
    }
  }

  /** A head below an increasing rest makes an increasing sequence. */
  lemma ConsIncreasing<T>(x: T, rest: seq<T>, key: T -> int)
    requires Increasing(rest, key) && Above(rest, key, key(x))
    ensures Increasing([x] + rest, key)
  {
    var r := [x] + rest;
    forall i, j | 0 <= i < j < |r| ensures key(r[i]) < key(r[j]) {
      assert r[j] == rest[j - 1];
      if i > 0 {
        assert r[i] == rest[i - 1];
      }
    }
  }

  /** Every key lies above `bound`. */
  ghost predicate Above<T>(xs: seq<T>, key: T -> int, bound: int) {
    forall i :: 0 <= i < |xs| ==> bound < key(xs[i])
  }

  lemma FilterKeepsAbove<T>(xs: seq<T>, p: T -> bool, key: T -> int, bound: int)
    requires Above(xs, key, bound)
    ensures Above(Filter(xs, p), key, bound)
  {
    var r := Filter(xs, p);
    forall i | 0 <= i < |r| ensures bound < key(r[i]) {
      var k :| 0 <= k < |xs| && xs[k] == r[i];
    }
  }

  lemma ReverseOfIncreasing<T>(xs: seq<T>, key: T -> int)
    requires Increasing(xs, key)
    ensures Decreasing(Reverse(xs), key)
  {
    var r := Reverse(xs);
    forall i, j | 0 <= i < j < |r| ensures key(r[i]) > key(r[j]) {
      assert r[i] == xs[|xs| - 1 - i] && r[j] == xs[|xs| - 1 - j];
    }
  }

  lemma WindowKeepsDecreasing<T>(xs: seq<T>, skip: nat, limit: nat, key: T -> int)
    requires Decreasing(xs, key)
    ensures Decreasing(Window(xs, skip, limit), key)
  {
    var r := Window(xs, skip, limit);
    forall i, j | 0 <= i < j < |r| ensures key(r[i]) > key(r[j]) {
      assert r[i] == xs[skip + i] && r[j] == xs[skip + j];
    }
  }

  lemma WindowKeepsIncreasing<T>(xs: seq<T>, skip: nat, limit: nat, key: T -> int)
    requires Increasing(xs, key)
    ensures Increasing(Window(xs, skip, limit), key)
  {
    var r := Window(xs, skip, limit);
    forall i, j | 0 <= i < j < |r| ensures key(r[i]) < key(r[j]) {
      assert r[i] == xs[skip + i] && r[j] == xs[skip + j];
    }
  }

  /** Applying `f` to every element. */
  function MapSeq<T, U>(xs: seq<T>, f: T -> U): (r: seq<U>)
    ensures |r| == |xs|
    ensures forall i :: 0 <= i < |xs| ==> r[i] == f(xs[i])
  {
    if xs == [] then [] else [f(xs[0])] + MapSeq(xs[1..], f)
  }

  /** Index of the first element satisfying `p` (MongoDB's `findOne` in
      natural order). */
  function FirstIndex<T>(xs: seq<T>, p: T -> bool): (r: Option<nat>)
    ensures r.Some? ==> r.value < |xs| && p(xs[r.value])
    ensures r.Some? ==> forall k :: 0 <= k < r.value ==> !p(xs[k])
    ensures r.None? ==> forall k :: 0 <= k < |xs| ==> !p(xs[k])
  {
    if xs == [] then None
    else if p(xs[0]) then Some(0)
    else match FirstIndex(xs[1..], p)
      case None => None
      case Some(k) => Some(k + 1)
  }

  /** Two tests that agree on every element find the same first index. */
  lemma {:induction false} FirstIndexAgrees<T>(xs: seq<T>, p: T -> bool, q: T -> bool)
    requires forall k :: 0 <= k < |xs| ==> p(xs[k]) == q(xs[k])
    ensures FirstIndex(xs, p) == FirstIndex(xs, q)
  {
    if xs != [] && !p(xs[0]) {
      FirstIndexAgrees(xs[1..], p, q);
    }
  }

  /** The first element satisfying `p`, if any. */
  function FindFirst<T>(xs: seq<T>, p: T -> bool): (r: Option<T>)
    ensures r.Some? <==> exists k :: 0 <= k < |xs| && p(xs[k])
    ensures r.Some? ==> r.value in xs && p(r.value)
  {
    match FirstIndex(xs, p)
    case None => None
    case Some(k) => Some(xs[k])
  }

  /** `xs` without its element at index `i` (a `deleteOne`). */
  function RemoveAt<T>(xs: seq<T>, i: nat): (r: seq<T>)
    requires i < |xs|
    ensures |r| == |xs| - 1
    ensures forall k :: 0 <= k < i ==> r[k] == xs[k]
    ensures forall k :: i <= k < |r| ==> r[k] == xs[k + 1]
  {
    xs[..i] + xs[i + 1..]
  }

  lemma RemoveAtKeepsIncreasing<T>(xs: seq<T>, i: nat, key: T -> int)
    requires i < |xs| && Increasing(xs, key)
    ensures Increasing(RemoveAt(xs, i), key)
  {
    var r := RemoveAt(xs, i);
    forall a, b | 0 <= a < b < |r| ensures key(r[a]) < key(r[b]) {
      var a' := if a < i then a else a + 1;
      var b' := if b < i then b else b + 1;
      assert r[a] == xs[a'] && r[b] == xs[b'];
    }
  }

  /** Every key lies below `bound`. */
  ghost predicate Below<T>(xs: seq<T>, key: T -> int, bound: int) {
    forall i :: 0 <= i < |xs| ==> key(xs[i]) < bound
  }

  lemma AppendKeepsIncreasing<T>(xs: seq<T>, x: T, key: T -> int, bound: int)
    requires Increasing(xs, key) && Below(xs, key, bound) && key(x) == bound
    ensures Increasing(xs + [x], key) && Below(xs + [x], key, bound + 1)
  {
    var ys := xs + [x];
    forall i, j | 0 <= i < j < |ys| ensures key(ys[i]) < key(ys[j]) {
      if j < |xs| {
        assert ys[i] == xs[i] && ys[j] == xs[j];
      } else {
        assert ys[i] == xs[i];
      }
    }
  }

  lemma BelowGrows<T>(xs: seq<T>, key: T -> int, bound: int, bound': int)
    requires Below(xs, key, bound) && bound <= bound'
    ensures Below(xs, key, bound')
  {
  }

  lemma UpdateKeepsIncreasing<T>(xs: seq<T>, i: nat, v: T, key: T -> int, bound: int)
    requires i < |xs| && Increasing(xs, key) && Below(xs, key, bound) && key(v) == key(xs[i])
    ensures Increasing(xs[i := v], key) && Below(xs[i := v], key, bound)
  {
  }

  lemma FilterKeepsBelow<T>(xs: seq<T>, p: T -> bool, key: T -> int, bound: int)
    requires Below(xs, key, bound)
    ensures Below(Filter(xs, p), key, bound)
  {
    var r := Filter(xs, p);
    forall i | 0 <= i < |r| ensures key(r[i]) < bound {
      var k :| 0 <= k < |xs| && xs[k] == r[i];
    }
  }

  /** Applying `f` to the elements that satisfy `p`, leaving the others. */
  function MapWhere<T>(xs: seq<T>, p: T -> bool, f: T -> T): (r: seq<T>)
    ensures |r| == |xs|
    ensures forall i :: 0 <= i < |xs| ==> r[i] == if p(xs[i]) then f(xs[i]) else xs[i]
  {
    if xs == [] then [] else [if p(xs[0]) then f(xs[0]) else xs[0]] + MapWhere(xs[1..], p, f)
  }

  lemma MapWhereKeepsIncreasing<T>(xs: seq<T>, p: T -> bool, f: T -> T, key: T -> int, bound: int)
    requires Increasing(xs, key) && Below(xs, key, bound)
    requires forall i :: 0 <= i < |xs| ==> key(f(xs[i])) == key(xs[i])
    ensures Increasing(MapWhere(xs, p, f), key) && Below(MapWhere(xs, p, f), key, bound)
  {
    var r := MapWhere(xs, p, f);
    assert forall i :: 0 <= i < |xs| ==> key(r[i]) == key(xs[i]);
  }
}
