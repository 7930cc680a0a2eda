/**
 * The array operations the pages use on lists of applications:
 * `filter` (Keep), `filter(...).length` (Count), a `map` that rewrites the
 * selected entries (MapWhere) and `find` (FindFirst).
 */
module Seqs {
  import opened Wrappers

  /** The conjunction of two element predicates. */
  function And<T>(p: T -> bool, q: T -> bool): T -> bool {
    x => p(x) && q(x)
  }

  /** `Array.prototype.filter`: the elements of `s` satisfying `p`, in their order. */
  function Keep<T>(s: seq<T>, p: T -> bool): (r: seq<T>)
    ensures |r| <= |s|
    ensures forall i :: 0 <= i < |r| ==> r[i] in s && p(r[i])
    ensures forall i :: 0 <= i < |s| && p(s[i]) ==> s[i] in r
  {
    if s == [] then [] else (if p(s[0]) then [s[0]] else []) + Keep(s[1..], p)
  }

  /** Every position moved one place to the right. */
  function Shift(idx: seq<nat>): (r: seq<nat>)
    ensures |r| == |idx| && forall k :: 0 <= k < |idx| ==> r[k] == idx[k] + 1
  {
    seq(|idx|, k requires 0 <= k < |idx| => idx[k] + 1)
  }

  /** The positions of `s` whose elements `Keep(s, p)` retains, in order. */
  ghost function KeptIndices<T>(s: seq<T>, p: T -> bool): seq<nat> {
    if s == [] then []
    else if p(s[0]) then [0] + Shift(KeptIndices(s[1..], p))
    else Shift(KeptIndices(s[1..], p))
  }

  /** One step of `KeptIndicesLocate`: with `s[0]` in front, the positions still point at the kept elements. */
  lemma LocateCons<T>(s: seq<T>, keep: bool, rest: seq<nat>, tail: seq<T>)
    requires s != [] && |rest| == |tail|
    requires forall k :: 0 <= k < |rest| ==> rest[k] < |s| - 1 && tail[k] == s[rest[k] + 1]
    ensures var idx: seq<nat> := (if keep then [0] else []) + Shift(rest);
            var kept := (if keep then [s[0]] else []) + tail;
      && |idx| == |kept|
      && forall k :: 0 <= k < |idx| ==> idx[k] < |s| && kept[k] == s[idx[k]]
  {
    var first: seq<nat> := if keep then [0] else [];
    var idx, kept := first + Shift(rest), (if keep then [s[0]] else []) + tail;
    forall k | 0 <= k < |idx|
      ensures idx[k] < |s| && kept[k] == s[idx[k]]
    {
      if k >= |first| {
        var j := k - |first|;
        assert idx[k] == rest[j] + 1 && kept[k] == tail[j];
      }
    }
  }

  /** The k-th kept element is the element at the k-th kept position. */
  lemma {:induction false} KeptIndicesLocate<T>(s: seq<T>, p: T -> bool)
    ensures |KeptIndices(s, p)| == |Keep(s, p)|
    ensures forall k :: 0 <= k < |KeptIndices(s, p)| ==>
              KeptIndices(s, p)[k] < |s| && Keep(s, p)[k] == s[KeptIndices(s, p)[k]]
  {
    if s != [] {
      var rest, tail := KeptIndices(s[1..], p), Keep(s[1..], p);
      KeptIndicesLocate(s[1..], p);
      assert forall k :: 0 <= k < |rest| ==> s[1..][rest[k]] == s[rest[k] + 1];
      LocateCons(s, p(s[0]), rest, tail);
    }
  }

  /** The kept positions are strictly increasing. */
  lemma {:induction false} KeptIndicesIncreasing<T>(s: seq<T>, p: T -> bool)
    ensures forall k, l :: 0 <= k < l < |KeptIndices(s, p)| ==> KeptIndices(s, p)[k] < KeptIndices(s, p)[l]
  {
    if s != [] {
      KeptIndicesIncreasing(s[1..], p);
    }
  }

  /** A position is kept exactly when its element satisfies `p`. */
  lemma {:induction false} KeptIndicesExact<T>(s: seq<T>, p: T -> bool)
    ensures forall i :: 0 <= i < |s| ==> (p(s[i]) <==> i in KeptIndices(s, p))
  {
    if s != [] {
      KeptIndicesExact(s[1..], p);
      var rest := KeptIndices(s[1..], p);
      var shifted := Shift(rest);
      forall i | 1 <= i < |s|
        ensures p(s[i]) <==> i in shifted
      {
        assert s[i] == s[1..][i - 1];
        if i - 1 in rest {
          var k :| 0 <= k < |rest| && rest[k] == i - 1;
          assert shifted[k] == i;
        }
      }
      assert 0 !in shifted;
    }
  }

  /**
   * `Keep(s, p)` is the order-preserving subsequence of `s` selected by `p`:
   * its k-th element sits at a strictly increasing position `KeptIndices(s, p)[k]`
   * of `s`, and those positions are exactly the ones whose element satisfies `p`.
   */
  lemma KeepIsOrderedSelection<T>(s: seq<T>, p: T -> bool)
    ensures var idx := KeptIndices(s, p);
      && |idx| == |Keep(s, p)|
      && (forall k :: 0 <= k < |idx| ==> idx[k] < |s| && Keep(s, p)[k] == s[idx[k]])
      && (forall k, l :: 0 <= k < l < |idx| ==> idx[k] < idx[l])
      && (forall i :: 0 <= i < |s| ==> (p(s[i]) <==> i in idx))
  {
    KeptIndicesLocate(s, p);
    KeptIndicesIncreasing(s, p);
    KeptIndicesExact(s, p);
  }

  /** Filtering by `p` and then by `q` is filtering by both at once. */
  lemma {:induction false} KeepKeep<T>(s: seq<T>, p: T -> bool, q: T -> bool)
    ensures Keep(Keep(s, p), q) == Keep(s, And(p, q))
  {
    if s != [] {
      KeepKeep(s[1..], p, q);
      var head := if p(s[0]) then [s[0]] else [];
      assert Keep(s, p) == head + Keep(s[1..], p);
      KeepAppend(head, Keep(s[1..], p), q);
    }
  }

  /** Filtering distributes over concatenation. */
  lemma {:induction false} KeepAppend<T>(s: seq<T>, t: seq<T>, p: T -> bool)
    ensures Keep(s + t, p) == Keep(s, p) + Keep(t, p)
  {
    if s != [] {
      assert (s + t)[0] == s[0];
      assert (s + t)[1..] == s[1..] + t;
      KeepAppend(s[1..], t, p);
      var head := if p(s[0]) then [s[0]] else [];
      assert Keep(s + t, p) == head + Keep(s[1..] + t, p);
      assert Keep(s, p) == head + Keep(s[1..], p);
    } else {
      assert s + t == t;
    }
  }

  /** Filters that agree on every element of `s` keep the same elements. */
  lemma {:induction false} KeepCongruent<T>(s: seq<T>, p: T -> bool, q: T -> bool)
    requires forall x :: x in s ==> p(x) == q(x)
    ensures Keep(s, p) == Keep(s, q)
  {
    if s != [] {
      KeepCongruent(s[1..], p, q);
    }
  }

  /** A filter every element passes returns the list unchanged. */
  lemma {:induction false} KeepAll<T>(s: seq<T>, p: T -> bool)
    requires forall x :: x in s ==> p(x)
    ensures Keep(s, p) == s
  {
    if s != [] {
      KeepAll(s[1..], p);
    }
  }

  /** A filter no element passes returns the empty list. */
  lemma {:induction false} KeepNone<T>(s: seq<T>, p: T -> bool)
    requires forall i :: 0 <= i < |s| ==> !p(s[i])
    ensures Keep(s, p) == []
  {
    if s != [] {
      assert forall i :: 0 <= i < |s[1..]| ==> s[1..][i] == s[i + 1];
      KeepNone(s[1..], p);
    }
  }

  /** A filter step that only runs when `active`: `if (active) s = s.filter(p)`. */
  function KeepIf<T>(active: bool, s: seq<T>, p: T -> bool): seq<T> {
    if active then Keep(s, p) else s
  }

  /** What an element must satisfy to survive `KeepIf(active, _, p)`. */
  function Pass<T>(active: bool, p: T -> bool): T -> bool {
    x => !active || p(x)
  }

  /** Two optional filter steps in a row keep exactly the elements passing both. */
  lemma KeepIfTwice<T>(s: seq<T>, active1: bool, p: T -> bool, active2: bool, q: T -> bool)
    ensures KeepIf(active2, KeepIf(active1, s, p), q) == Keep(s, And(Pass(active1, p), Pass(active2, q)))
  {
    var both := And(Pass(active1, p), Pass(active2, q));
    if active1 && active2 {
      KeepKeep(s, p, q);
      KeepCongruent(s, And(p, q), both);
    } else if active1 {
      KeepCongruent(s, p, both);
    } else if active2 {
      KeepCongruent(s, q, both);
    } else {
      KeepAll(s, both);
    }
  }

  /** `s.filter(p).length`. */
  function Count<T>(s: seq<T>, p: T -> bool): nat {
    |Keep(s, p)|
  }

  /** The positions of `s` whose element passes `p`. */
  ghost function PassingPositions<T>(s: seq<T>, p: T -> bool): set<int> {
    set i | 0 <= i < |s| && p(s[i])
  }

  /** Appending one element adds its position exactly when it passes. */
  lemma PassingPositionsAppend<T>(s: seq<T>, x: T, p: T -> bool)
    ensures |s| !in PassingPositions(s, p)
    ensures PassingPositions(s + [x], p) == PassingPositions(s, p) + (if p(x) then {|s|} else {})
  {
    assert forall i :: 0 <= i < |s| ==> (s + [x])[i] == s[i];
  }

  /** `Count` is the number of positions whose element passes. */
  lemma {:induction false} CountIsPassingPositions<T>(s: seq<T>, p: T -> bool)
    ensures Count(s, p) == |PassingPositions(s, p)|
    decreases |s|
  {
    if s != [] {
      var init, x := s[..|s| - 1], s[|s| - 1];
      assert s == init + [x];
      CountIsPassingPositions(init, p);
      KeepAppend(init, [x], p);
      assert Keep([x], p) == if p(x) then [x] else [] by {
        assert [x][1..] == [];
      }
      PassingPositionsAppend(init, x, p);
    }
  }

  /** Three mutually exclusive predicates together count at most every element once. */
  lemma {:induction false} DisjointCountsBounded<T>(s: seq<T>, p: T -> bool, q: T -> bool, r: T -> bool)
    requires forall x :: x in s ==> !(p(x) && q(x)) && !(p(x) && r(x)) && !(q(x) && r(x))
    ensures Count(s, p) + Count(s, q) + Count(s, r) <= |s|
  {
    if s != [] {
      DisjointCountsBounded(s[1..], p, q, r);
    }
  }

  /** `s.map(x => sel(x) ? f(x) : x)`: same length, selected entries rewritten, the others untouched. */
  function MapWhere<T>(s: seq<T>, sel: T -> bool, f: T -> T): (r: seq<T>)
    ensures |r| == |s|
    ensures forall i :: 0 <= i < |s| ==> r[i] == if sel(s[i]) then f(s[i]) else s[i]
  {
    if s == [] then [] else [if sel(s[0]) then f(s[0]) else s[0]] + MapWhere(s[1..], sel, f)
  }

  /** Re-applying an idempotent rewrite to the same entries changes nothing. */
  lemma MapWhereIdempotent<T>(s: seq<T>, sel: T -> bool, f: T -> T)
    requires forall x :: sel(f(x)) == sel(x) && f(f(x)) == f(x)
    ensures MapWhere(MapWhere(s, sel, f), sel, f) == MapWhere(s, sel, f)
  {
  }

  /** The position of the first element satisfying `p` (`findIndex`, with None for -1). */
  function FirstIndex<T>(s: seq<T>, p: T -> bool): (r: Option<nat>)
    ensures r.Some? ==> r.value < |s| && p(s[r.value]) && forall j :: 0 <= j < r.value ==> !p(s[j])
    ensures r.None? ==> forall j :: 0 <= j < |s| ==> !p(s[j])
  {
    if s == [] then None
    else if p(s[0]) then Some(0)
    else match FirstIndex(s[1..], p)
      case None => None
      case Some(i) => Some(i + 1)
  }

  /** `Array.prototype.find`: the first element satisfying `p`, if any. */
  function FindFirst<T>(s: seq<T>, p: T -> bool): (r: Option<T>)
    ensures r.Some? ==> r.value in s && p(r.value)
    ensures r.Some? ==> exists i :: 0 <= i < |s| && s[i] == r.value && p(s[i]) && forall j :: 0 <= j < i ==> !p(s[j])
    ensures r.None? <==> forall i :: 0 <= i < |s| ==> !p(s[i])
  {
    match FirstIndex(s, p)
    case None => None
    case Some(i) => Some(s[i])
  }

  /** Appending an element changes what `find` returns only when nothing earlier matched. */
  lemma FindFirstAppend<T>(s: seq<T>, x: T, p: T -> bool)
    ensures FindFirst(s + [x], p) == if FindFirst(s, p).Some? then FindFirst(s, p)
                                     else if p(x) then Some(x) else None
  {
    var j := FirstIndex(s, p);
    assert forall k :: 0 <= k < |s| ==> (s + [x])[k] == s[k];
    assert (s + [x])[|s|] == x;
    if j.Some? {
      assert FirstIndex(s + [x], p) == j;
    }
  }

  /** Positions that pass `p` in `s` exactly when they pass `q` in `t` give the same first index. */
  lemma {:induction false} FirstIndexCongruent<T>(s: seq<T>, p: T -> bool, t: seq<T>, q: T -> bool)
    requires |s| == |t|
    requires forall i :: 0 <= i < |s| ==> p(s[i]) == q(t[i])
    ensures FirstIndex(s, p) == FirstIndex(t, q)
  {
    if s != [] && !p(s[0]) {
      assert forall i :: 0 <= i < |s[1..]| ==> s[1..][i] == s[i + 1] && t[1..][i] == t[i + 1];
      FirstIndexCongruent(s[1..], p, t[1..], q);
    }
  }

  /** Finding by the rewritten key after `MapWhere` finds the rewritten first match. */
  lemma FindAfterMapWhere<T>(s: seq<T>, sel: T -> bool, f: T -> T)
    requires forall x :: sel(f(x)) == sel(x)
    ensures FindFirst(MapWhere(s, sel, f), sel) ==
              match FindFirst(s, sel) case None => None case Some(x) => Some(f(x))
  {
    var m := MapWhere(s, sel, f);
    assert forall i :: 0 <= i < |s| ==> sel(s[i]) == sel(m[i]);
    FirstIndexCongruent(s, sel, m, sel);
  }
}
