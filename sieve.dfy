/** Order-preserving row selection, the meaning of a pandas boolean mask or
    `dropna` over a frame: which rows survive, in which order, unchanged. */
module Sieve {

  /** The rows of `s` that `keep` accepts, in their original order. */
  function Filter<T>(s: seq<T>, keep: T -> bool): (r: seq<T>)
    ensures |r| <= |s|
    ensures forall k :: 0 <= k < |r| ==> keep(r[k])
  {
    if s == [] then []
    else
      var front := Filter(s[..|s| - 1], keep);
      if keep(s[|s| - 1]) then front + [s[|s| - 1]] else front
  }

  /** The positions in `s` of the rows that `keep` accepts, ascending. */
  function KeptIndices<T>(s: seq<T>, keep: T -> bool): (idx: seq<nat>)
  {
    if s == [] then []
    else
      var front := KeptIndices(s[..|s| - 1], keep);
      if keep(s[|s| - 1]) then front + [|s| - 1] else front
  }

  /** `idx` lists, strictly ascending, exactly the positions of `s` whose
      row `keep` accepts. */
  ghost predicate Selects<T>(s: seq<T>, keep: T -> bool, idx: seq<nat>)
  {
    && (forall k :: 0 <= k < |idx| ==> idx[k] < |s| && keep(s[idx[k]]))
    && (forall j, k :: 0 <= j < k < |idx| ==> idx[j] < idx[k])
    && (forall i :: 0 <= i < |s| && keep(s[i]) ==> i in idx)
  }

  /** The kept positions are ascending and are exactly those of the
      accepted rows. */
  lemma {:induction false} KeptIndicesSelect<T>(s: seq<T>, keep: T -> bool)
    ensures Selects(s, keep, KeptIndices(s, keep))
  {
    if s != [] {
      var n := |s| - 1;
      var front := s[..n];
      KeptIndicesSelect(front, keep);
      var idx0 := KeptIndices(front, keep);
      assert forall k :: 0 <= k < |idx0| ==> idx0[k] < n && front[idx0[k]] == s[idx0[k]];
      assert forall i :: 0 <= i < n ==> front[i] == s[i];
      if keep(s[n]) {
        var idx := idx0 + [n];
        assert forall k :: 0 <= k < |idx0| ==> idx[k] == idx0[k];
        assert forall i :: 0 <= i < n && keep(s[i]) ==> i in idx0;
      }
    }
  }

  /** The filtered frame is `s` read at the kept positions. */
  lemma {:induction false} FilterAtKeptIndices<T>(s: seq<T>, keep: T -> bool)
    ensures |Filter(s, keep)| == |KeptIndices(s, keep)|
    ensures forall k :: 0 <= k < |Filter(s, keep)| ==>
              KeptIndices(s, keep)[k] < |s| && Filter(s, keep)[k] == s[KeptIndices(s, keep)[k]]
  {
    if s != [] {
      var n := |s| - 1;
      var front := s[..n];
      FilterAtKeptIndices(front, keep);
      var idx0 := KeptIndices(front, keep);
      assert forall k :: 0 <= k < |idx0| ==> front[idx0[k]] == s[idx0[k]];
    }
  }

  /** `Filter` keeps every accepted row, drops every other one, alters
      none and preserves their order: its result is `s` read at the
      ascending positions of the accepted rows. */
  lemma {:induction false} FilterSelects<T>(s: seq<T>, keep: T -> bool)
    ensures Selects(s, keep, KeptIndices(s, keep))
    ensures |Filter(s, keep)| == |KeptIndices(s, keep)|
    ensures forall k :: 0 <= k < |Filter(s, keep)| ==>
              Filter(s, keep)[k] == s[KeptIndices(s, keep)[k]]
  {
    KeptIndicesSelect(s, keep);
    FilterAtKeptIndices(s, keep);
  }

  /** A row is in the filtered frame iff it is in the frame and accepted. */
  lemma {:induction false} FilterMembers<T>(s: seq<T>, keep: T -> bool, x: T)
    ensures x in Filter(s, keep) <==> x in s && keep(x)
  {
    if s != [] {
      var n := |s| - 1;
      FilterMembers(s[..n], keep, x);
      assert s == s[..n] + [s[n]];
    }
  }
}
