/**
 * The chunking shared by the three insert loops of the import routes:
 * `for (let i = 0; i < n; i += BATCH) { const batch = xs.slice(i, i + BATCH); ... }`.
 */
module Chunks {

  /** `BATCH` in all three loops. */
  const BatchSize: nat := 50

  function Min(a: int, b: int): int { if a <= b then a else b }

  /** How many times the loop body runs for `n` records: the ceiling of `n / size`. */
  function NumChunks(n: nat, size: nat): nat
    requires size > 0
  {
    (n + size - 1) / size
  }

  /** The chunk count is the least `c` with `c * size >= n`. */
  lemma NumChunksIsCeiling(n: nat, size: nat)
    requires size > 0
    ensures size * NumChunks(n, size) >= n
    ensures NumChunks(n, size) > 0 ==> size * (NumChunks(n, size) - 1) < n
    ensures n == 0 <==> NumChunks(n, size) == 0
  {
    var c := NumChunks(n, size);
    var q := n + size - 1;
    assert q == size * c + q % size;
    assert 0 <= q % size < size;
    if c > 0 {
      assert size * (c - 1) == size * c - size;
    }
  }

  /** Chunk `k` is `xs.slice(size * k, size * k + size)`; `slice` stops at the end. */
  function Chunk<T>(s: seq<T>, size: nat, k: nat): (c: seq<T>)
    requires size > 0 && k < NumChunks(|s|, size)
    ensures 0 < |c| <= size
    ensures k + 1 < NumChunks(|s|, size) ==> |c| == size
  {
    ChunkStart(|s|, size, k);
    s[size * k .. Min(size * k + size, |s|)]
  }

  /** Every chunk but the last starts a full `size` before the end. */
  lemma ChunkStart(n: nat, size: nat, k: nat)
    requires size > 0 && k < NumChunks(n, size)
    ensures size * k < n
    ensures k + 1 < NumChunks(n, size) ==> size * k + size < n
  {
    NumChunksIsCeiling(n, size);
    MulStep(size, k);
    MulMono(size, k, NumChunks(n, size) - 1);
    if k + 1 < NumChunks(n, size) { MulMono(size, k + 1, NumChunks(n, size) - 1); }
  }

  lemma MulStep(size: nat, k: nat)
    ensures size * (k + 1) == size * k + size
  {
  }

  lemma MulMono(size: nat, a: nat, b: nat)
    requires a <= b
    ensures size * a <= size * b
  {
    if a < b {
      MulMono(size, a, b - 1);
      MulStep(size, b - 1);
    }
  }

  /** The chunks of `s`, in loop order. */
  function ChunksOf<T>(s: seq<T>, size: nat): (cs: seq<seq<T>>)
    requires size > 0
    ensures |cs| == NumChunks(|s|, size)
  {
    seq(NumChunks(|s|, size), k requires 0 <= k < NumChunks(|s|, size) => Chunk(s, size, k))
  }

  /** The concatenation of a sequence of sequences. */
  function Flatten<T>(ss: seq<seq<T>>): seq<T> {
    if ss == [] then [] else Flatten(ss[..|ss| - 1]) + ss[|ss| - 1]
  }

  lemma FlattenSnoc<T>(ss: seq<seq<T>>, s: seq<T>)
    ensures Flatten(ss + [s]) == Flatten(ss) + s
  {
    assert (ss + [s])[..|ss|] == ss;
  }

  lemma FlattenPrefix<T>(ss: seq<seq<T>>, k: nat)
    requires 0 < k <= |ss|
    ensures Flatten(ss[..k]) == Flatten(ss[..k - 1]) + ss[k - 1]
  {
    assert ss[..k][..k - 1] == ss[..k - 1];
  }

  /** Chunk `k` continues where chunk `k - 1` stopped. */
  lemma ChunkAt<T>(s: seq<T>, size: nat, k: nat)
    requires size > 0 && 0 < k <= NumChunks(|s|, size)
    ensures size * (k - 1) <= Min(size * k, |s|) <= |s|
    ensures ChunksOf(s, size)[k - 1] == s[size * (k - 1) .. Min(size * k, |s|)]
  {
    ChunkStart(|s|, size, k - 1);
    MulStep(size, k - 1);
  }

  /** The first `k` chunks, concatenated, are the first `size * k` records
      (or all of them). */
  lemma {:induction false} ChunksPrefix<T>(s: seq<T>, size: nat, k: nat)
    requires size > 0 && k <= NumChunks(|s|, size)
    ensures Flatten(ChunksOf(s, size)[..k]) == s[..Min(size * k, |s|)]
    decreases k
  {
    if k > 0 {
      var cs := ChunksOf(s, size);
      ChunksPrefix(s, size, k - 1);
      FlattenPrefix(cs, k);
      ChunkAt(s, size, k);
      var lo, hi := size * (k - 1), Min(size * k, |s|);
      assert Min(lo, |s|) == lo;
      calc {
        Flatten(cs[..k]);
        Flatten(cs[..k - 1]) + cs[k - 1];
        s[..lo] + s[lo..hi];
        { assert s[..hi] == s[..lo] + s[lo..hi]; }
        s[..hi];
      }
    }
  }

  /** Concatenating the chunks reproduces the records, in order. */
  lemma ChunksCover<T>(s: seq<T>, size: nat)
    requires size > 0
    ensures Flatten(ChunksOf(s, size)) == s
  {
    var cs := ChunksOf(s, size);
    ChunksPrefix(s, size, |cs|);
    NumChunksIsCeiling(|s|, size);
    assert cs[..|cs|] == cs;
  }

  /** The loop `for (let i = 0; i < n; i += size)` visits chunk `k` at
      `i == size * k`, and runs exactly while `k` is below the chunk count. */
  lemma LoopIndex(n: nat, size: nat, k: nat)
    requires size > 0
    ensures size * k < n <==> k < NumChunks(n, size)
  {
    NumChunksIsCeiling(n, size);
    var c := NumChunks(n, size);
    if k < c {
      MulMono(size, k, c - 1);
    } else {
      MulMono(size, c, k);
    }
  }

  /** The body of that loop at `i == size * k` slices out chunk `k`. */
  lemma LoopChunk<T>(s: seq<T>, size: nat, k: nat, i: int)
    requires size > 0 && i == size * k && i < |s|
    ensures k < |ChunksOf(s, size)|
    ensures i <= Min(i + size, |s|) <= |s|
    ensures ChunksOf(s, size)[k] == s[i..Min(i + size, |s|)]
  {
    LoopIndex(|s|, size, k);
  }

  /** `Math.floor(i / size) + 1` at `i == size * k` is batch number `k + 1`. */
  lemma BatchNumber(size: nat, k: nat)
    requires size > 0
    ensures (size * k) / size == k
  {
    var q, r := (size * k) / size, (size * k) % size;
    assert size * k == size * q + r && 0 <= r < size;
    if q < k {
      MulMono(size, q + 1, k);
      MulStep(size, q);
    } else if q > k {
      MulMono(size, k + 1, q);
      MulStep(size, k);
    }
  }

  /** 120 records make three chunks, of 50, 50 and 20 records. */
  lemma ChunksOf120<T>(s: seq<T>)
    requires |s| == 120
    ensures var cs := ChunksOf(s, BatchSize);
      |cs| == 3 && cs[0] == s[..50] && cs[1] == s[50..100] && cs[2] == s[100..]
  {
    ChunkAt(s, BatchSize, 1);
    ChunkAt(s, BatchSize, 2);
    ChunkAt(s, BatchSize, 3);
  }
}
