/** Fixed-size grouping of a sequence, the shape of Python's
    `[xs[i:i+size] for i in range(0, len(xs), size)]`. The bot uses it three
    times: keyboard rows, fixed-width description slices and the 3800
    character message chunks. */
module Chunking {

  function Min(a: int, b: int): int { if a <= b then a else b }

  function Max(a: int, b: int): int { if a >= b then a else b }

  /** Concatenation of a sequence of sequences. */
  function Flatten<T>(xss: seq<seq<T>>): seq<T> {
    if |xss| == 0 then [] else xss[0] + Flatten(xss[1..])
  }

  /** The slices `xs[i:i+size]` for `i` in `range(0, len(xs), size)`. */
  function Chunk<T>(xs: seq<T>, size: nat): seq<seq<T>>
    requires size >= 1
    decreases |xs|
  {
    if |xs| == 0 then []
    else if |xs| <= size then [xs]
    else [xs[..size]] + Chunk(xs[size..], size)
  }

  /** The slices concatenate back to `xs`, there are none exactly when `xs`
      is empty, none is empty or longer than `size`, and only the last may be
      shorter. */
  lemma {:induction false} ChunkShape<T>(xs: seq<T>, size: nat)
    requires size >= 1
    ensures Flatten(Chunk(xs, size)) == xs
    ensures |Chunk(xs, size)| == 0 <==> |xs| == 0
    ensures forall k :: 0 <= k < |Chunk(xs, size)| ==> 1 <= |Chunk(xs, size)[k]| <= size
    ensures forall k :: 0 <= k < |Chunk(xs, size)| - 1 ==> |Chunk(xs, size)[k]| == size
    decreases |xs|
  {
    if |xs| > size {
      ChunkShape(xs[size..], size);
      var c := Chunk(xs, size);
      var c' := Chunk(xs[size..], size);
      assert c == [xs[..size]] + c';
      assert Flatten(c) == xs[..size] + Flatten(c');
      assert xs[..size] + xs[size..] == xs;
    }
  }

  /** Slice `k` is `xs[k*size : (k+1)*size]`, clamped to the end of `xs`
      as a Python slice is. */
  lemma ChunkAt<T>(xs: seq<T>, size: nat, k: nat)
    requires size >= 1 && k < |Chunk(xs, size)|
    ensures k * size < |xs|
    ensures Chunk(xs, size)[k] == xs[k * size .. Min((k + 1) * size, |xs|)]
  {
    var c := Chunk(xs, size);
    var start := ChunkStart(xs, size, k);
    assert (k + 1) * size == k * size + size;
    ChunkShape(xs, size);
    if k < |c| - 1 {
      assert |c[k]| == size;
    } else {
      ChunkLastEnd(xs, size);
    }
  }

  /** Slice `k` begins at offset `start`, computed by walking the slices. */
  lemma {:induction false} ChunkStart<T>(xs: seq<T>, size: nat, k: nat) returns (start: nat)
    requires size >= 1 && k < |Chunk(xs, size)|
    ensures start + |Chunk(xs, size)[k]| <= |xs|
    ensures Chunk(xs, size)[k] == xs[start .. start + |Chunk(xs, size)[k]|]
    ensures start == k * size
    decreases k
  {
    if k == 0 {
      start := 0;
    } else {
      ChunkUnfold(xs, size);
      var s' := ChunkStart(xs[size..], size, k - 1);
      start := s' + size;
      SliceOfSuffix(xs, size, s', |Chunk(xs, size)[k]|);
      assert start == k * size by {
        assert (k - 1) * size + size == k * size;
      }
    }
  }

  /** The last slice ends where `xs` ends. */
  lemma {:induction false} ChunkLastEnd<T>(xs: seq<T>, size: nat)
    requires size >= 1 && |Chunk(xs, size)| >= 1
    ensures (|Chunk(xs, size)| - 1) * size + |Chunk(xs, size)[|Chunk(xs, size)| - 1]| == |xs|
    decreases |xs|
  {
    var c := Chunk(xs, size);
    if |xs| <= size {
      assert c == [xs];
    } else {
      ChunkShape(xs[size..], size);
      ChunkUnfold(xs, size);
      var c' := Chunk(xs[size..], size);
      ChunkLastEnd(xs[size..], size);
      assert c[|c| - 1] == c'[|c'| - 1];
      assert (|c| - 1) * size == (|c'| - 1) * size + size;
    }
  }

  /** Past the first slice, the slices are those of the remainder. */
  lemma ChunkUnfold<T>(xs: seq<T>, size: nat)
    requires size >= 1 && |Chunk(xs, size)| > 1
    ensures |xs| > size
    ensures Chunk(xs, size)[1..] == Chunk(xs[size..], size)
  {
  }

  lemma SliceOfSuffix<T>(xs: seq<T>, d: nat, a: nat, len: nat)
    requires d + a + len <= |xs|
    ensures xs[d..][a..a + len] == xs[d + a .. d + a + len]
  {
  }

  /** There are `ceil(len(xs)/size)` slices: the least count whose total
      capacity covers `xs`. */
  lemma {:induction false} ChunkCount<T>(xs: seq<T>, size: nat)
    requires size >= 1
    ensures |xs| <= |Chunk(xs, size)| * size < |xs| + size
    decreases |xs|
  {
    if |xs| > size {
      var m := |Chunk(xs[size..], size)|;
      ChunkCount(xs[size..], size);
      assert (m + 1) * size == m * size + size;
    }
  }
}
