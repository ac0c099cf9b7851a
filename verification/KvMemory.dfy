/**
 A KV cache as a map from block numbers to contents, and the one simple copy that
 every transfer in the system is meant to perform: block `from[i]` to block `to[i]`.
 */
module KvMemory {
  import opened Prelude

  type Memory<T> = map<int, T>

  predicate Has<T>(m: Memory<T>, ids: seq<int>) {
    forall i :: 0 <= i < |ids| ==> ids[i] in m
  }

  function Copy<T>(src: Memory<T>, from: seq<int>, dst: Memory<T>, to: seq<int>): Memory<T>
    requires |from| == |to| && Has(src, from)
  {
    if from == [] then dst
    else
      var n := |from| - 1;
      Copy(src, from[..n], dst, to[..n])[to[n] := src[from[n]]]
  }

  /** The image of `from` stands at `to`, block for block; nothing else has changed. */
  ghost predicate Copied<T>(src: Memory<T>, from: seq<int>, dst: Memory<T>, to: seq<int>, after: Memory<T>)
    requires |from| == |to| && Has(src, from)
  {
    && Has(after, to)
    && (forall i :: 0 <= i < |to| ==> after[to[i]] == src[from[i]])
    && (forall b :: b !in to ==> Lookup(after, b) == Lookup(dst, b))
  }

  lemma {:induction false} CopyMeaning<T>(src: Memory<T>, from: seq<int>, dst: Memory<T>, to: seq<int>)
    requires |from| == |to| && Has(src, from) && Distinct(to)
    ensures Copied(src, from, dst, to, Copy(src, from, dst, to))
  {
    if from == [] {
    } else {
      var n := |from| - 1;
      CopyMeaning(src, from[..n], dst, to[..n]);
      assert forall i :: 0 <= i < n ==> to[..n][i] == to[i] && from[..n][i] == from[i];
      forall b | b !in to
        ensures Lookup(Copy(src, from, dst, to), b) == Lookup(dst, b)
      {
        assert b != to[n] && b !in to[..n];
      }
    }
  }

  /** There is only one such result, so any program with this effect computes `Copy`. */
  lemma CopiedIsCopy<T>(src: Memory<T>, from: seq<int>, dst: Memory<T>, to: seq<int>, after: Memory<T>)
    requires |from| == |to| && Has(src, from) && Distinct(to)
    requires Copied(src, from, dst, to, after)
    ensures after == Copy(src, from, dst, to)
  {
    CopyMeaning(src, from, dst, to);
    var copy := Copy(src, from, dst, to);
    forall b
      ensures Lookup(after, b) == Lookup(copy, b)
    {
      if b in to {
        var i :| 0 <= i < |to| && to[i] == b;
        assert after[to[i]] == copy[to[i]];
      }
    }
    assert forall b :: b in after <==> Lookup(after, b).Some?;
    assert forall b :: b in copy <==> Lookup(copy, b).Some?;
    assert forall b :: b in after ==> after[b] == Lookup(after, b).value;
  }

  lemma {:induction false} CopyInTwoParts<T>(src: Memory<T>, from1: seq<int>, from2: seq<int>,
                                             dst: Memory<T>, to1: seq<int>, to2: seq<int>)
    requires |from1| == |to1| && |from2| == |to2| && Has(src, from1) && Has(src, from2)
    ensures Has(src, from1 + from2)
    ensures Copy(src, from1 + from2, dst, to1 + to2) == Copy(src, from2, Copy(src, from1, dst, to1), to2)
    decreases |from2|
  {
    if from2 == [] {
      assert from1 + from2 == from1 && to1 + to2 == to1;
    } else {
      var n := |from2| - 1;
      CopyInTwoParts(src, from1, from2[..n], dst, to1, to2[..n]);
      assert (from1 + from2)[..|from1| + n] == from1 + from2[..n];
      assert (to1 + to2)[..|to1| + n] == to1 + to2[..n];
    }
  }
}
