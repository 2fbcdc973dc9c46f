/** The module-level `chunks` helper: a string cut into consecutive pieces
    of a fixed size. */
module Chunking {
  import opened Wrappers

  /** The pieces of `s`, each `size` characters long except possibly the
      last, for a positive `size`. */
  function ChunksOf(s: string, size: nat): (r: seq<string>)
    requires size > 0
    ensures |s| == 0 <==> r == []
    ensures forall k :: 0 <= k < |r| ==> 0 < |r[k]| <= size
    decreases |s|
  {
    if |s| == 0 then []
    else if |s| <= size then [s]
    else [s[..size]] + ChunksOf(s[size..], size)
  }

  /** `chunks(s, chunk_size)`: one piece per step of `range(0, len(s),
      chunk_size)`. A zero step is Python's `ValueError` (here `None`); a
      negative step gives an empty range and so no pieces. */
  function Chunks(s: string, size: int): (r: Option<seq<string>>)
    ensures r.None? <==> size == 0
    ensures size < 0 ==> r == Some([])
  {
    if size == 0 then None
    else if size < 0 then Some([])
    else Some(ChunksOf(s, size))
  }

  /** All pieces laid end to end. */
  function Concat(parts: seq<string>): string {
    if parts == [] then [] else parts[0] + Concat(parts[1..])
  }

  function Min(a: int, b: int): int {
    if a <= b then a else b
  }

  /** Gluing the pieces back together gives the original string. */
  lemma {:induction false} ChunksConcat(s: string, size: nat)
    requires size > 0
    ensures Concat(ChunksOf(s, size)) == s
    decreases |s|
  {
    if |s| == 0 {
    } else if |s| <= size {
      assert Concat([s]) == s + Concat([]);
    } else {
      ChunksConcat(s[size..], size);
      var r := ChunksOf(s, size);
      assert r[1..] == ChunksOf(s[size..], size);
      assert s == s[..size] + s[size..];
    }
  }

  lemma SliceOfDrop(s: string, d: nat, lo: nat, hi: nat)
    requires d <= |s| && lo <= hi <= |s| - d
    ensures s[d..][lo..hi] == s[d + lo .. d + hi]
  {
  }

  /** Piece `k` is exactly the slice `s[k*size : (k+1)*size]`, clipped at the
      end of `s`, as the comprehension in the source writes it. */
  lemma {:induction false} ChunkIsSlice(s: string, size: nat, k: nat)
    requires size > 0 && k < |ChunksOf(s, size)|
    ensures k * size < |s|
    ensures ChunksOf(s, size)[k] == s[k * size .. Min((k + 1) * size, |s|)]
    decreases |s|
  {
    if |s| <= size {
    } else if k > 0 {
      var rest := s[size..];
      assert ChunksOf(s, size)[k] == ChunksOf(rest, size)[k - 1];
      ChunkIsSlice(rest, size, k - 1);
      var lo, hi := (k - 1) * size, Min(k * size, |rest|);
      assert size + lo == k * size;
      assert size + hi == Min((k + 1) * size, |s|);
      SliceOfDrop(s, size, lo, hi);
    }
  }

  /** There are just enough pieces to cover `s`: `ceil(len(s) / size)`. */
  lemma {:induction false} ChunkCount(s: string, size: nat)
    requires size > 0
    ensures (|ChunksOf(s, size)| - 1) * size < |s| <= |ChunksOf(s, size)| * size
    decreases |s|
  {
    if |s| > size {
      var n := |ChunksOf(s[size..], size)|;
      ChunkCount(s[size..], size);
      assert |ChunksOf(s, size)| == n + 1;
      assert (n + 1) * size == n * size + size;
    }
  }

  /** Every piece but the last is full. */
  lemma {:induction false} InnerChunksFull(s: string, size: nat, k: nat)
    requires size > 0 && k + 1 < |ChunksOf(s, size)|
    ensures |ChunksOf(s, size)[k]| == size
  {
    ChunkIsSlice(s, size, k);
    ChunkIsSlice(s, size, k + 1);
  }
}
