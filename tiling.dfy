/**
 * The index geometry of `mult_AtAv` and `mult`.
 *
 * `xs.par_chunks_mut(size)` and `xs.chunks(size)` cut an index range
 * [0, len) into consecutive chunks: chunk c starts at c * size and holds
 * `size` elements, except the last, which holds what is left. `mult_AtAv`
 * cuts its output buffers with size `n / 4 + 1`; `mult` reads its input
 * with `chunks(2)`.
 */
module Tiling {

  function Min(a: nat, b: nat): nat {
    if a <= b then a else b
  }

  /** `v.len() / 4 + 1`: at least one element, and four chunks are always enough. */
  function ChunkSize(n: nat): (size: nat)
    ensures size >= 1
    ensures 4 * size > n
  {
    n / 4 + 1
  }

  /** The number of chunks: the ceiling of len / size. */
  function ChunkCount(len: nat, size: nat): (count: nat)
    requires size >= 1
    ensures len <= count * size
    ensures count > 0 ==> (count - 1) * size < len
    ensures count == 0 <==> len == 0
  {
    var q := (len + size - 1) / size;
    assert q * size + (len + size - 1) % size == len + size - 1;
    assert q > 0 ==> (q - 1) * size == q * size - size;
    q
  }

  /** First index of chunk c. */
  function ChunkStart(c: nat, size: nat): nat {
    c * size
  }

  /** Number of elements of chunk c (0 once the range is used up). */
  function ChunkLen(len: nat, size: nat, c: nat): nat {
    if len <= c * size then 0 else Min(size, len - c * size)
  }

  /** k lies in chunk c. */
  predicate InChunk(len: nat, size: nat, c: nat, k: nat) {
    ChunkStart(c, size) <= k < ChunkStart(c, size) + ChunkLen(len, size, c)
  }

  lemma MulIsMonotone(a: nat, b: nat, m: nat)
    requires a <= b
    ensures a * m <= b * m
  {
    assert b * m == a * m + (b - a) * m;
  }

  /** Index c * size + r with r < size sits at offset r of chunk c. */
  lemma DivModInChunk(c: nat, size: nat, r: nat)
    requires r < size
    ensures (c * size + r) / size == c
    ensures (c * size + r) % size == r
  {
    var k := c * size + r;
    var q, m := k / size, k % size;
    assert q * size + m == c * size + r;
    if q < c {
      MulIsMonotone(q + 1, c, size);
      assert false;
    } else if c < q {
      MulIsMonotone(c + 1, q, size);
      assert false;
    }
  }

  /** No gaps: index k < len lies in chunk k / size, at offset k % size, and that chunk exists. */
  lemma IndexHasChunk(len: nat, size: nat, k: nat)
    requires size >= 1 && k < len
    ensures k / size < ChunkCount(len, size)
    ensures InChunk(len, size, k / size, k)
    ensures k % size == k - ChunkStart(k / size, size)
  {
    var c := k / size;
    assert c * size + k % size == k;
    var count := ChunkCount(len, size);
    if count <= c {
      MulIsMonotone(count, c, size);
      assert false;
    }
  }

  /** Chunk c exists exactly when it starts below len. */
  lemma ChunkExists(len: nat, size: nat, c: nat)
    requires size >= 1
    ensures c < ChunkCount(len, size) <==> ChunkStart(c, size) < len
  {
    var count := ChunkCount(len, size);
    if c < count {
      MulIsMonotone(c, count - 1, size);
    } else {
      MulIsMonotone(count, c, size);
    }
  }

  /** No overlaps: an index lies in one chunk only. */
  lemma ChunksAreDisjoint(len: nat, size: nat, c: nat, c': nat, k: nat)
    requires size >= 1 && InChunk(len, size, c, k) && InChunk(len, size, c', k)
    ensures c == c'
  {
    DivModInChunk(c, size, k - c * size);
    DivModInChunk(c', size, k - c' * size);
  }

  /** A chunk holds only indices below len. */
  lemma ChunksStayInRange(len: nat, size: nat, c: nat, k: nat)
    requires InChunk(len, size, c, k)
    ensures k < len
  {
  }

  /**
   * The chunks come one after another: the first starts at 0, each later one
   * starts where the previous ended, and the last ends at len. Every chunk is
   * non-empty, and only the last may be shorter than size.
   */
  lemma ChunksAreConsecutive(len: nat, size: nat, c: nat)
    requires size >= 1 && c < ChunkCount(len, size)
    ensures ChunkStart(0, size) == 0
    ensures 1 <= ChunkLen(len, size, c) <= size
    ensures c + 1 < ChunkCount(len, size) ==>
              ChunkLen(len, size, c) == size &&
              ChunkStart(c, size) + ChunkLen(len, size, c) == ChunkStart(c + 1, size)
    ensures c + 1 == ChunkCount(len, size) ==> ChunkStart(c, size) + ChunkLen(len, size, c) == len
  {
    var count := ChunkCount(len, size);
    MulIsMonotone(c, count - 1, size);
    assert (c + 1) * size == c * size + size;
    if c + 1 < count {
      MulIsMonotone(c + 1, count - 1, size);
    } else {
      assert c * size + size >= len;
    }
  }

  /** With size `n / 4 + 1` the output buffer is cut into at most four chunks. */
  lemma AtMostFourChunks(n: nat)
    ensures ChunkCount(n, ChunkSize(n)) <= 4
  {
    var size := ChunkSize(n);
    var count := ChunkCount(n, size);
    if count > 4 {
      MulIsMonotone(4, count - 1, size);
      assert false;
    }
  }

  /**
   * `v.chunks(2)` on an even length: n / 2 pairs, pair k covering exactly
   * indices 2k and 2k + 1, so `chunk[1]` always exists.
   */
  lemma EvenLengthGivesPairs(n: nat)
    requires n % 2 == 0
    ensures ChunkCount(n, 2) == n / 2
    ensures forall k :: 0 <= k < n / 2 ==> ChunkStart(k, 2) == 2 * k && ChunkLen(n, 2, k) == 2
  {
  }

  /** On an odd length the last pair holds one element: `chunk[1]` would be out of bounds. */
  lemma OddLengthLeavesHalfPair(n: nat)
    requires n % 2 == 1
    ensures ChunkLen(n, 2, ChunkCount(n, 2) - 1) == 1
  {
  }
}
