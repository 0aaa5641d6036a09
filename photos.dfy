/**
 Operations on the ordered photo list: removal of one position (the
 `filter` on indices behind `removePhoto`), the two `splice` steps of
 `handleSort`, and `Move`, an independent definition of "move one entry"
 that those splices are proved to compute.
 */
module PhotoList {

  /** `s.filter((_, i) => i !== index)`: keeps every entry whose position is not `index`.
      Defined position by position, as the filter visits the list. */
  function FilterIndex<T>(s: seq<T>, index: int): (r: seq<T>)
    ensures 0 <= index < |s| ==> r == SpliceOut(s, index)
    ensures !(0 <= index < |s|) ==> r == s
    decreases |s|
  {
    if s == [] then []
    else (if index == 0 then [] else [s[0]]) + FilterIndex(s[1..], index - 1)
  }

  /** `a.splice(i, 1)` on a copy: the list without position `i`; exactly that entry is lost,
      the earlier ones keep their positions and the later ones move one to the left. */
  function SpliceOut<T>(s: seq<T>, i: nat): (r: seq<T>)
    requires i < |s|
    ensures |r| == |s| - 1
    ensures multiset(r) + multiset{s[i]} == multiset(s)
    ensures forall k :: 0 <= k < i ==> r[k] == s[k]
    ensures forall k :: i <= k < |r| ==> r[k] == s[k + 1]
  {
    assert s == s[..i] + [s[i]] + s[i + 1..];
    s[..i] + s[i + 1..]
  }

  /** `a.splice(i, 0, x)` on a copy: `x` inserted so that it lands at position `i`. */
  function SpliceIn<T>(s: seq<T>, i: nat, x: T): seq<T>
    requires i <= |s|
  {
    s[..i] + [x] + s[i..]
  }

  /** Exchanging two adjacent blocks keeps the multiset of entries. */
  lemma SwapBlocksMultiset<T>(a: seq<T>, b: seq<T>, c: seq<T>, d: seq<T>)
    ensures multiset(a + b + c + d) == multiset(a + c + b + d)
  {
    assert a + b + c + d == a + (b + c) + d;
    assert a + c + b + d == a + (c + b) + d;
  }

  /** The entry at `from` moved to `to`; the entries between the two shift by one
      towards `from`, everything else stays where it is. */
  function Move<T>(s: seq<T>, from: nat, to: nat): (r: seq<T>)
    requires from < |s| && to < |s|
    ensures |r| == |s|
    ensures multiset(r) == multiset(s)
    ensures r[to] == s[from]
  {
    if from <= to then
      var before, between, after := s[..from], s[from + 1..to + 1], s[to + 1..];
      assert s == before + [s[from]] + between + after;
      SwapBlocksMultiset(before, [s[from]], between, after);
      before + between + [s[from]] + after
    else
      var before, between, after := s[..to], s[to..from], s[from + 1..];
      assert s == before + between + [s[from]] + after;
      SwapBlocksMultiset(before, between, [s[from]], after);
      before + [s[from]] + between + after
  }

  /** Position by position: where every entry of `s` ends up after `Move`. */
  lemma MoveAt<T>(s: seq<T>, from: nat, to: nat, k: nat)
    requires from < |s| && to < |s| && k < |s|
    ensures Move(s, from, to)[k] ==
            if k == to then s[from]
            else if from < to && from <= k < to then s[k + 1]
            else if to < from && to < k <= from then s[k - 1]
            else s[k]
  {
    var r := Move(s, from, to);
    if from <= to {
      var before, between, after := s[..from], s[from + 1..to + 1], s[to + 1..];
      assert r == before + between + [s[from]] + after;
      if k < from {
        assert r[k] == before[k];
      } else if k < to {
        assert r[k] == between[k - from];
      } else if to < k {
        assert r[k] == after[k - to - 1];
      }
    } else {
      var before, between, after := s[..to], s[to..from], s[from + 1..];
      assert r == before + [s[from]] + between + after;
      if k < to {
        assert r[k] == before[k];
      } else if to < k <= from {
        assert r[k] == between[k - to - 1];
      } else if from < k {
        assert r[k] == after[k - from - 1];
      }
    }
  }

  /** The other entries keep their relative order: dropping the moved entry from
      the result gives the same list as dropping it from the input. */
  lemma MoveKeepsOthersInOrder<T>(s: seq<T>, from: nat, to: nat)
    requires from < |s| && to < |s|
    ensures FilterIndex(Move(s, from, to), to) == FilterIndex(s, from)
  {
    var r := Move(s, from, to);
    var a := FilterIndex(r, to);
    var b := FilterIndex(s, from);
    forall k | 0 <= k < |a|
      ensures a[k] == b[k]
    {
      if k < to {
        MoveAt(s, from, to, k);
      } else {
        MoveAt(s, from, to, k + 1);
      }
    }
  }

  /** Moving back undoes a move. */
  lemma MoveInverse<T>(s: seq<T>, from: nat, to: nat)
    requires from < |s| && to < |s|
    ensures Move(Move(s, from, to), to, from) == s
  {
    var r := Move(s, from, to);
    var back := Move(r, to, from);
    forall k | 0 <= k < |s|
      ensures back[k] == s[k]
    {
      MoveAt(r, to, from, k);
      if k == from {
        MoveAt(s, from, to, to);
      } else if to < from && to <= k < from {
        MoveAt(s, from, to, k + 1);
      } else if from < to && from < k <= to {
        MoveAt(s, from, to, k - 1);
      } else {
        MoveAt(s, from, to, k);
      }
    }
  }

  /** Moving an entry onto itself changes nothing. */
  lemma MoveOntoItself<T>(s: seq<T>, i: nat)
    requires i < |s|
    ensures Move(s, i, i) == s
  {
    assert s == s[..i] + [s[i]] + s[i + 1..];
  }

  /** Cutting out the entry at `from` and splicing it back in at `to` is `Move`. */
  lemma SplicesMove<T>(s: seq<T>, from: nat, to: nat)
    requires from < |s| && to < |s|
    ensures SpliceIn(SpliceOut(s, from), to, s[from]) == Move(s, from, to)
  {
    var rest := SpliceOut(s, from);
    var r := SpliceIn(rest, to, s[from]);
    var m := Move(s, from, to);
    assert |r| == |m|;
    forall k | 0 <= k < |s|
      ensures r[k] == m[k]
    {
      MoveAt(s, from, to, k);
    }
  }

  /** Dragging the first of `[A, B, C, D]` onto the third gives `[B, C, A, D]`. */
  lemma MoveFirstOntoThird()
    ensures Move(["A", "B", "C", "D"], 0, 2) == ["B", "C", "A", "D"]
  {
  }
}
