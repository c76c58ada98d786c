/** Subsequences, stated by the positions where the elements are found. */
module Sequences {
  /**
   * `pos` holds, in strictly increasing order, positions of `ys` whose elements
   * are those of `xs`: `xs` is a subsequence of `ys`.
   */
  ghost predicate Embeds<T>(xs: seq<T>, ys: seq<T>, pos: seq<int>)
  {
    && |pos| == |xs|
    && (forall i :: 0 <= i < |pos| ==> 0 <= pos[i] < |ys| && ys[pos[i]] == xs[i])
    && (forall i, j :: 0 <= i < j < |pos| ==> pos[i] < pos[j])
  }

  /** A subsequence of `ys` extended by an element found after `ys` in a longer sequence. */
  lemma EmbedsExtend<T>(xs: seq<T>, ys: seq<T>, pos: seq<int>, zs: seq<T>, k: int)
    requires Embeds(xs, ys, pos)
    requires |ys| <= |zs| && zs[..|ys|] == ys && |ys| <= k < |zs|
    ensures Embeds(xs + [zs[k]], zs, pos + [k])
  {
    forall i | 0 <= i < |pos|
      ensures zs[pos[i]] == ys[pos[i]]
    {
      assert zs[..|ys|][pos[i]] == zs[pos[i]];
    }
  }

  /** A subsequence of `ys` is one of every sequence that `ys` is a prefix of. */
  lemma EmbedsGrow<T>(xs: seq<T>, ys: seq<T>, pos: seq<int>, zs: seq<T>)
    requires Embeds(xs, ys, pos)
    requires |ys| <= |zs| && zs[..|ys|] == ys
    ensures Embeds(xs, zs, pos)
  {
    forall i | 0 <= i < |pos|
      ensures zs[pos[i]] == ys[pos[i]]
    {
      assert zs[..|ys|][pos[i]] == zs[pos[i]];
    }
  }
}
