/** The order of the trending list, `sort({ views: -1, createdAt: -1 })`,
    written as an insertion sort on sequences of posts. */
module Ranking {
  import opened Collections
  import opened Domain

  /** `a` may be listed before `b`: more views, or as many and not older. */
  predicate RanksAbove(a: Blog, b: Blog) {
    a.views > b.views || (a.views == b.views && a.createdAt >= b.createdAt)
  }

  ghost predicate Ranked(xs: seq<Blog>) {
    forall i, j :: 0 <= i < j < |xs| ==> RanksAbove(xs[i], xs[j])
  }

  /** Every element of `rest` is ranked below `h`, when every element of
      `xs` and `x` are and `rest` holds just those. */
  lemma HeadRanksAboveAll(h: Blog, x: Blog, xs: seq<Blog>, rest: seq<Blog>)
    requires forall j :: 0 <= j < |xs| ==> RanksAbove(h, xs[j])
    requires RanksAbove(h, x)
    requires multiset(rest) == multiset(xs) + multiset{x}
    ensures forall k :: 0 <= k < |rest| ==> RanksAbove(h, rest[k])
  {
    forall k | 0 <= k < |rest| ensures RanksAbove(h, rest[k]) {
      assert rest[k] in multiset(rest);
      if rest[k] != x {
        assert rest[k] in multiset(xs);
        var j :| 0 <= j < |xs| && xs[j] == rest[k];
      }
    }
  }

  /** A head ranked above every element of a ranked rest keeps it ranked. */
  lemma ConsRanked(h: Blog, rest: seq<Blog>)
    requires Ranked(rest)
    requires forall k :: 0 <= k < |rest| ==> RanksAbove(h, rest[k])
    ensures Ranked([h] + rest)
  {
    var r := [h] + rest;
    forall i, j | 0 <= i < j < |r| ensures RanksAbove(r[i], r[j]) {
      assert r[j] == rest[j - 1];
      if i > 0 {
        assert r[i] == rest[i - 1];
      }
    }
  }

  /** The tail of a ranked list is ranked. */
  lemma TailRanked(xs: seq<Blog>)
    requires xs != [] && Ranked(xs)
    ensures Ranked(xs[1..])
  {
    var tail := xs[1..];
    forall i, j | 0 <= i < j < |tail| ensures RanksAbove(tail[i], tail[j]) {
      assert tail[i] == xs[i + 1] && tail[j] == xs[j + 1];
    }
  }

  /** `x` put in its place in a ranked list. */
  function InsertRanked(x: Blog, xs: seq<Blog>): (r: seq<Blog>)
    requires Ranked(xs)
    ensures Ranked(r) && multiset(r) == multiset(xs) + multiset{x}
  {
    if xs == [] then [x]
    else if RanksAbove(x, xs[0]) then
      assert forall k :: 0 <= k < |xs| ==> RanksAbove(x, xs[k]) by {
        forall k | 0 <= k < |xs| ensures RanksAbove(x, xs[k]) {
          if k > 0 {
            assert RanksAbove(xs[0], xs[k]);
          }
        }
      }
      ConsRanked(x, xs);
      [x] + xs
    else
      var tail := xs[1..];
      assert xs == [xs[0]] + tail;
      TailRanked(xs);
      var rest := InsertRanked(x, tail);
      HeadRanksAboveAll(xs[0], x, tail, rest);
      ConsRanked(xs[0], rest);
      [xs[0]] + rest
  }

  /** The posts in trending order. */
  function SortRanked(xs: seq<Blog>): (r: seq<Blog>)
    ensures Ranked(r) && multiset(r) == multiset(xs)
  {
    if xs == [] then []
    else
      assert xs == [xs[0]] + xs[1..];
      InsertRanked(xs[0], SortRanked(xs[1..]))
  }

  /** A prefix of a ranking of `xs` is ranked, drawn from `xs`, and
      ranks above every post of `xs` it leaves out. */
  lemma RankedPrefix(xs: seq<Blog>, sorted: seq<Blog>, cut: nat)
    requires Ranked(sorted) && multiset(sorted) == multiset(xs) && cut <= |sorted|
    ensures Ranked(sorted[..cut])
    ensures forall i :: 0 <= i < cut ==> sorted[i] in xs
    ensures forall k :: 0 <= k < |xs| && xs[k] !in sorted[..cut] ==> forall i :: 0 <= i < cut ==> RanksAbove(sorted[i], xs[k])
    ensures multiset(sorted[..cut]) <= multiset(xs)
  {
    var r := sorted[..cut];
    forall i | 0 <= i < cut ensures sorted[i] in xs {
      assert sorted[i] in multiset(sorted);
    }
    forall k | 0 <= k < |xs| && xs[k] !in r ensures forall i :: 0 <= i < cut ==> RanksAbove(sorted[i], xs[k]) {
      assert xs[k] in multiset(xs);
      var p :| 0 <= p < |sorted| && sorted[p] == xs[k];
      assert p >= cut;
    }
    PrefixSubMultiset(sorted, cut);
  }

  /** The first `limit` posts of the ranked list, `limit` zero meaning
      all of them (`.limit(0)`). */
  function Top(xs: seq<Blog>, limit: nat): (r: seq<Blog>)
    ensures limit > 0 ==> |r| == Min(limit, |xs|)
    ensures limit == 0 ==> |r| == |xs|
    ensures Ranked(r)
    ensures forall i :: 0 <= i < |r| ==> r[i] in xs
    ensures forall k :: 0 <= k < |xs| && xs[k] !in r ==> forall i :: 0 <= i < |r| ==> RanksAbove(r[i], xs[k])
    ensures multiset(r) <= multiset(xs)
    ensures limit == 0 ==> multiset(r) == multiset(xs)
  {
    var sorted := SortRanked(xs);
    var cut := if limit == 0 then |sorted| else Min(limit, |sorted|);
    RankedPrefix(xs, sorted, cut);
    assert limit == 0 ==> sorted[..cut] == sorted;
    sorted[..cut]
  }
}
