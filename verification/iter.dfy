/** The iterator adapters the core chains together (`filter`, `filter_map`,
    `map`, `flat_map`, then `collect`), written as functions on sequences,
    together with the facts about them that the rest of the model uses:
    which positions a filter keeps, and that its output is a subsequence. */
module Iter {

  import opened Wrappers

  /** `iter().map(f).collect()` */
  function Map<A, B>(f: A -> B, s: seq<A>): (r: seq<B>)
    ensures |r| == |s|
    ensures forall i :: 0 <= i < |s| ==> r[i] == f(s[i])
  {
    if s == [] then [] else [f(s[0])] + Map(f, s[1..])
  }

  /** `iter().filter(keep).collect()` */
  function Filter<T>(keep: T -> bool, s: seq<T>): (r: seq<T>)
    ensures |r| <= |s|
    ensures forall x :: x in r ==> x in s && keep(x)
  {
    if s == [] then []
    else (if keep(s[0]) then [s[0]] else []) + Filter(keep, s[1..])
  }

  /** `iter().filter_map(f).collect()` */
  function FilterMap<A, B>(f: A -> Option<B>, s: seq<A>): (r: seq<B>)
    ensures |r| <= |s|
  {
    if s == [] then []
    else (if f(s[0]).Some? then [f(s[0]).value] else []) + FilterMap(f, s[1..])
  }

  /** The concatenation of a sequence of sequences: `flat_map` is
      `Flatten(Map(f, s))`. */
  function Flatten<T>(ss: seq<seq<T>>): (r: seq<T>)
    ensures forall i :: 0 <= i < |ss| ==> |ss[i]| <= |r|
  {
    if ss == [] then [] else ss[0] + Flatten(ss[1..])
  }

  /** Positions are strictly increasing. */
  ghost predicate Increasing(idx: seq<nat>)
  {
    forall k, l :: 0 <= k < l < |idx| ==> idx[k] < idx[l]
  }

  /** `r` is the image under `f` of the elements of `s` at the increasing
      positions `idx`, and those positions are exactly the ones where `f`
      yields a value. `filter` is the case where `f` is `keep` on the
      element itself. */
  ghost predicate PicksExactly<A, B>(f: A -> Option<B>, s: seq<A>, r: seq<B>, idx: seq<nat>)
  {
    && |idx| == |r|
    && Increasing(idx)
    && (forall k :: 0 <= k < |idx| ==> idx[k] < |s| && f(s[idx[k]]) == Some(r[k]))
    && (forall i :: 0 <= i < |s| ==> (f(s[i]).Some? <==> i in idx))
  }

  /** `keep` as a partial map that keeps the element itself. */
  function KeepAsOption<T>(keep: T -> bool): T -> Option<T>
  {
    x => if keep(x) then Some(x) else None
  }

  lemma {:induction false} FilterMapPicks<A, B>(f: A -> Option<B>, s: seq<A>) returns (idx: seq<nat>)
    ensures PicksExactly(f, s, FilterMap(f, s), idx)
  {
    if s == [] {
      idx := [];
    } else {
      var rest := FilterMapPicks(f, s[1..]);
      idx := (if f(s[0]).Some? then [0] else []) + Shift(rest);
      PicksStep(f, s, rest, idx);
    }
  }

  lemma PicksStep<A, B>(f: A -> Option<B>, s: seq<A>, rest: seq<nat>, idx: seq<nat>)
    requires s != []
    requires PicksExactly(f, s[1..], FilterMap(f, s[1..]), rest)
    requires idx == (if f(s[0]).Some? then [0] else []) + Shift(rest)
    ensures PicksExactly(f, s, FilterMap(f, s), idx)
  {
    var head: seq<nat> := if f(s[0]).Some? then [0] else [];
    assert FilterMap(f, s) == (if f(s[0]).Some? then [f(s[0]).value] else []) + FilterMap(f, s[1..]);
    PrependIncreasing(head, rest);
    PicksStepValues(f, s, rest, head);
    PicksStepPositions(f, s, rest, head);
  }

  lemma PrependIncreasing(head: seq<nat>, rest: seq<nat>)
    requires head == [] || head == [0]
    requires Increasing(rest)
    ensures Increasing(head + Shift(rest))
  {
    var shifted := Shift(rest);
    ShiftIncreasing(rest);
    if head == [] {
      assert head + shifted == shifted;
    } else {
      var idx := [0] + shifted;
      forall k, l | 0 <= k < l < |idx| ensures idx[k] < idx[l] {
        assert idx[l] == shifted[l - 1];
        if k > 0 {
          assert idx[k] == shifted[k - 1];
        }
      }
    }
  }

  /** Shifting keeps the order of the positions. */
  lemma ShiftIncreasing(idx: seq<nat>)
    requires Increasing(idx)
    ensures Increasing(Shift(idx))
  {
    var shifted := Shift(idx);
    forall k, l | 0 <= k < l < |shifted| ensures shifted[k] < shifted[l] {
      assert idx[k] < idx[l];
    }
  }

  lemma PicksStepValues<A, B>(f: A -> Option<B>, s: seq<A>, rest: seq<nat>, head: seq<nat>)
    requires s != []
    requires |rest| == |FilterMap(f, s[1..])|
    requires forall k :: 0 <= k < |rest| ==> rest[k] < |s[1..]| && f(s[1..][rest[k]]) == Some(FilterMap(f, s[1..])[k])
    requires head == if f(s[0]).Some? then [0] else []
    ensures forall k :: 0 <= k < |head + Shift(rest)| ==>
      (head + Shift(rest))[k] < |s| && f(s[(head + Shift(rest))[k]]) == Some(FilterMap(f, s)[k])
  {
    var tail := FilterMap(f, s[1..]);
    var shifted := Shift(rest);
    assert FilterMap(f, s) == (if f(s[0]).Some? then [f(s[0]).value] else []) + tail;
    ShiftedValues(f, s, rest, tail);
    if f(s[0]).Some? {
      var idx := [0] + shifted;
      var r := [f(s[0]).value] + tail;
      forall k | 0 <= k < |idx|
        ensures idx[k] < |s| && f(s[idx[k]]) == Some(r[k])
      {
        if k > 0 {
          assert idx[k] == shifted[k - 1] && r[k] == tail[k - 1];
        }
      }
    } else {
      assert head + shifted == shifted;
    }
  }

  /** The positions after the first, shifted by one, pick the same values
      from the whole sequence. */
  lemma ShiftedValues<A, B>(f: A -> Option<B>, s: seq<A>, rest: seq<nat>, tail: seq<B>)
    requires s != [] && |rest| == |tail|
    requires forall k :: 0 <= k < |rest| ==> rest[k] < |s[1..]| && f(s[1..][rest[k]]) == Some(tail[k])
    ensures forall k :: 0 <= k < |rest| ==> Shift(rest)[k] < |s| && f(s[Shift(rest)[k]]) == Some(tail[k])
  {
    forall k | 0 <= k < |rest|
      ensures Shift(rest)[k] < |s| && f(s[Shift(rest)[k]]) == Some(tail[k])
    {
      assert s[rest[k] + 1] == s[1..][rest[k]];
    }
  }

  lemma PicksStepPositions<A, B>(f: A -> Option<B>, s: seq<A>, rest: seq<nat>, head: seq<nat>)
    requires s != []
    requires forall i :: 0 <= i < |s[1..]| ==> (f(s[1..][i]).Some? <==> i in rest)
    requires head == if f(s[0]).Some? then [0] else []
    ensures forall i :: 0 <= i < |s| ==> (f(s[i]).Some? <==> i in head + Shift(rest))
  {
    var shifted := Shift(rest);
    forall i | 0 <= i < |s|
      ensures f(s[i]).Some? <==> i in head + shifted
    {
      ShiftMember(rest, i);
      if i > 0 {
        assert s[i] == s[1..][i - 1];
        assert i in head + shifted <==> i in shifted;
      }
    }
  }

  lemma ShiftMember(idx: seq<nat>, i: nat)
    ensures i in Shift(idx) <==> i > 0 && i - 1 in idx
  {
    if i in Shift(idx) {
      var k :| 0 <= k < |idx| && Shift(idx)[k] == i;
      assert idx[k] == i - 1;
    }
    if i > 0 && i - 1 in idx {
      var k :| 0 <= k < |idx| && idx[k] == i - 1;
      assert Shift(idx)[k] == i;
    }
  }

  /** Every position moved one place to the right. */
  function Shift(idx: seq<nat>): (r: seq<nat>)
    ensures |r| == |idx|
    ensures forall k :: 0 <= k < |idx| ==> r[k] == idx[k] + 1
  {
    if idx == [] then [] else [idx[0] + 1] + Shift(idx[1..])
  }

  /** The positions `filter` keeps are exactly those whose element `keep`
      accepts, in their original order. */
  lemma FilterPicks<T>(keep: T -> bool, s: seq<T>) returns (idx: seq<nat>)
    ensures PicksExactly(KeepAsOption(keep), s, Filter(keep, s), idx)
  {
    FilterIsFilterMap(keep, s);
    idx := FilterMapPicks(KeepAsOption(keep), s);
  }

  lemma {:induction false} FilterIsFilterMap<T>(keep: T -> bool, s: seq<T>)
    ensures Filter(keep, s) == FilterMap(KeepAsOption(keep), s)
  {
    if s != [] {
      FilterIsFilterMap(keep, s[1..]);
    }
  }

  /** `xs` can be obtained from `ys` by deleting elements. */
  ghost predicate SubsequenceOf<T>(xs: seq<T>, ys: seq<T>)
    decreases |ys|
  {
    if ys == [] then xs == []
    else (xs != [] && xs[0] == ys[0] && SubsequenceOf(xs[1..], ys[1..])) || SubsequenceOf(xs, ys[1..])
  }

  lemma {:induction false} SubsequenceBounds<T>(xs: seq<T>, ys: seq<T>)
    requires SubsequenceOf(xs, ys)
    ensures |xs| <= |ys|
    ensures forall x :: x in xs ==> x in ys
    decreases |ys|
  {
    if ys != [] {
      if xs != [] && xs[0] == ys[0] && SubsequenceOf(xs[1..], ys[1..]) {
        SubsequenceBounds(xs[1..], ys[1..]);
        assert forall x :: x in xs ==> x == xs[0] || x in xs[1..];
      } else {
        SubsequenceBounds(xs, ys[1..]);
      }
    }
  }

  lemma {:induction false} SubsequenceConcat<T>(a: seq<T>, b: seq<T>, c: seq<T>, d: seq<T>)
    requires SubsequenceOf(a, b) && SubsequenceOf(c, d)
    ensures SubsequenceOf(a + c, b + d)
    decreases |b|
  {
    if b == [] {
      assert a + c == c && b + d == d;
    } else {
      assert (b + d)[1..] == b[1..] + d;
      if a != [] && a[0] == b[0] && SubsequenceOf(a[1..], b[1..]) {
        SubsequenceConcat(a[1..], b[1..], c, d);
        assert (a + c)[1..] == a[1..] + c;
      } else {
        SubsequenceConcat(a, b[1..], c, d);
      }
    }
  }

  lemma {:induction false} SubsequenceRefl<T>(s: seq<T>)
    ensures SubsequenceOf(s, s)
  {
    if s != [] {
      SubsequenceRefl(s[1..]);
    }
  }

  lemma {:induction false} FilterSubsequence<T>(keep: T -> bool, s: seq<T>)
    ensures SubsequenceOf(Filter(keep, s), s)
  {
    if s != [] {
      FilterSubsequence(keep, s[1..]);
      if keep(s[0]) {
        assert Filter(keep, s)[1..] == Filter(keep, s[1..]);
      } else {
        assert Filter(keep, s) == Filter(keep, s[1..]);
      }
    }
  }

  lemma {:induction false} MapSubsequence<A, B>(f: A -> B, xs: seq<A>, ys: seq<A>)
    requires SubsequenceOf(xs, ys)
    ensures SubsequenceOf(Map(f, xs), Map(f, ys))
    decreases |ys|
  {
    if ys != [] {
      assert Map(f, ys)[1..] == Map(f, ys[1..]);
      if xs != [] && xs[0] == ys[0] && SubsequenceOf(xs[1..], ys[1..]) {
        MapSubsequence(f, xs[1..], ys[1..]);
        assert Map(f, xs)[1..] == Map(f, xs[1..]);
      } else {
        MapSubsequence(f, xs, ys[1..]);
      }
    }
  }

  /** Filtering commutes with concatenation. */
  lemma {:induction false} FilterConcat<T>(keep: T -> bool, a: seq<T>, b: seq<T>)
    ensures Filter(keep, a + b) == Filter(keep, a) + Filter(keep, b)
  {
    if a != [] {
      assert (a + b)[1..] == a[1..] + b;
      FilterConcat(keep, a[1..], b);
    } else {
      assert a + b == b;
    }
  }

  /** Filtering keeps the subsequence order between two inputs. */
  lemma {:induction false} FilterMonotone<T>(keep: T -> bool, xs: seq<T>, ys: seq<T>)
    requires SubsequenceOf(xs, ys)
    ensures SubsequenceOf(Filter(keep, xs), Filter(keep, ys))
    decreases |ys|
  {
    if ys != [] {
      assert ys == [ys[0]] + ys[1..];
      FilterConcat(keep, [ys[0]], ys[1..]);
      if xs != [] && xs[0] == ys[0] && SubsequenceOf(xs[1..], ys[1..]) {
        assert xs == [xs[0]] + xs[1..];
        FilterConcat(keep, [xs[0]], xs[1..]);
        FilterMonotone(keep, xs[1..], ys[1..]);
        SubsequenceRefl(Filter(keep, [ys[0]]));
        SubsequenceConcat(Filter(keep, [xs[0]]), Filter(keep, [ys[0]]), Filter(keep, xs[1..]), Filter(keep, ys[1..]));
      } else {
        FilterMonotone(keep, xs, ys[1..]);
        assert SubsequenceOf([], Filter(keep, [ys[0]]));
        SubsequenceConcat([], Filter(keep, [ys[0]]), Filter(keep, xs), Filter(keep, ys[1..]));
        assert [] + Filter(keep, xs) == Filter(keep, xs);
      }
    }
  }

  /** Every output of `filter_map` comes from some input. */
  lemma {:induction false} FilterMapMember<A, B>(f: A -> Option<B>, s: seq<A>, y: B)
    requires y in FilterMap(f, s)
    ensures exists x :: x in s && f(x) == Some(y)
  {
    if f(s[0]).Some? && f(s[0]).value == y {
      assert s[0] in s;
    } else {
      assert y in FilterMap(f, s[1..]);
      FilterMapMember(f, s[1..], y);
      var x :| x in s[1..] && f(x) == Some(y);
      assert x in s;
    }
  }

  /** Every output of a `filter_map` comes from some input. */
  lemma FilterMapOrigins<A, B>(f: A -> Option<B>, s: seq<A>)
    ensures forall y :: y in FilterMap(f, s) ==> exists x :: x in s && f(x) == Some(y)
  {
    forall y | y in FilterMap(f, s)
      ensures exists x :: x in s && f(x) == Some(y)
    {
      FilterMapMember(f, s, y);
    }
  }

  /** Every element of a flattened sequence stands in one of the parts. */
  lemma {:induction false} FlattenMember<T>(ss: seq<seq<T>>, y: T)
    requires y in Flatten(ss)
    ensures exists i :: 0 <= i < |ss| && y in ss[i]
  {
    if y !in ss[0] {
      assert y in Flatten(ss[1..]);
      FlattenMember(ss[1..], y);
      var i :| 0 <= i < |ss[1..]| && y in ss[1..][i];
      assert y in ss[i + 1];
    }
  }

  /** Every element of a part stands in the flattened sequence. */
  lemma {:induction false} FlattenHas<T>(ss: seq<seq<T>>, i: nat, y: T)
    requires i < |ss| && y in ss[i]
    ensures y in Flatten(ss)
  {
    if i > 0 {
      FlattenHas(ss[1..], i - 1, y);
    }
  }

  /** An element the predicate keeps survives the filter. */
  lemma {:induction false} FilterKeeps<T>(keep: T -> bool, s: seq<T>, x: T)
    requires x in s && keep(x)
    ensures x in Filter(keep, s)
  {
    if s[0] != x {
      assert x in s[1..];
      FilterKeeps(keep, s[1..], x);
    }
  }

  /** A filter with a weaker predicate keeps everything a stronger one
      keeps, in the same order. */
  lemma {:induction false} FilterWeaker<T>(strong: T -> bool, weak: T -> bool, s: seq<T>)
    requires forall i :: 0 <= i < |s| && strong(s[i]) ==> weak(s[i])
    ensures SubsequenceOf(Filter(strong, s), Filter(weak, s))
  {
    if s != [] {
      FilterWeaker(strong, weak, s[1..]);
      var a := Filter(strong, s[1..]);
      var b := Filter(weak, s[1..]);
      if strong(s[0]) {
        assert Filter(strong, s) == [s[0]] + a && Filter(weak, s) == [s[0]] + b;
        assert ([s[0]] + a)[1..] == a && ([s[0]] + b)[1..] == b;
      } else if weak(s[0]) {
        assert Filter(strong, s) == a && Filter(weak, s) == [s[0]] + b;
        assert ([s[0]] + b)[1..] == b;
      } else {
        assert Filter(strong, s) == a && Filter(weak, s) == b;
      }
    }
  }

  /** A filter that keeps everything is the identity. */
  lemma {:induction false} FilterAll<T>(keep: T -> bool, s: seq<T>)
    requires forall x :: x in s ==> keep(x)
    ensures Filter(keep, s) == s
  {
    if s != [] {
      FilterAll(keep, s[1..]);
    }
  }

  /** A filter that keeps nothing yields nothing. */
  lemma {:induction false} FilterNone<T>(keep: T -> bool, s: seq<T>)
    requires forall x :: x in s ==> !keep(x)
    ensures Filter(keep, s) == []
  {
    if s != [] {
      FilterNone(keep, s[1..]);
    }
  }

  /** Filtering twice with the same predicate is filtering once. */
  lemma FilterIdempotent<T>(keep: T -> bool, s: seq<T>)
    ensures Filter(keep, Filter(keep, s)) == Filter(keep, s)
  {
    FilterAll(keep, Filter(keep, s));
  }
}
