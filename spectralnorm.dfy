/**
 * The multiplier and the power-iteration driver: `mult`, `mult_AtAv`,
 * `dot` and `spectralnorm`, with `real` standing for `f64`.
 *
 * `mult` fills a chunk of an output buffer; in Rust the chunk is a
 * sub-slice, here it is the window [lo, hi) of the whole array. The chunks
 * that rayon runs in parallel are run one after another.
 */
module SpectralNorm {
  import opened Lanes
  import opened Matrix
  import opened Tiling

  // ---------------------------------------------------------------------
  // What `mult` computes, lane by lane
  // ---------------------------------------------------------------------

  /** An accessor handed to `mult` never yields a zero lane (real division needs a non-zero divisor). */
  ghost predicate NonZeroLanes(a: (NatX2, NatX2) -> RealX2) {
    forall i, j :: a(i, j).lane0 != 0.0 && a(i, j).lane1 != 0.0
  }

  /**
   * The two-lane sum over the first p input pairs (2q, 2q + 1), q < p, as
   * `mult`'s inner loop accumulates it for output row i.
   */
  function PairSum(v: seq<real>, i: nat, a: (NatX2, NatX2) -> RealX2, p: nat): RealX2
    requires 2 * p <= |v| && NonZeroLanes(a)
  {
    if p == 0 then RealX2(0.0, 0.0)
    else
      var j := 2 * (p - 1);
      AddR(PairSum(v, i, a, p - 1), DivR(RealX2(v[j], v[j + 1]), a(NatX2(i, i), NatX2(j, j + 1))))
  }

  /** The number `mult` stores for output row i: the lanes of the finished sum, added. */
  function RowValue(v: seq<real>, i: nat, a: (NatX2, NatX2) -> RealX2): real
    requires |v| % 2 == 0 && NonZeroLanes(a)
  {
    var s := PairSum(v, i, a, |v| / 2);
    s.lane0 + s.lane1
  }

  // ---------------------------------------------------------------------
  // The reference: plain matrix-vector products with A and its transpose
  // ---------------------------------------------------------------------

  /** A table of matrix denominators: none of them is zero. */
  ghost predicate PositiveDen(den: (nat, nat) -> nat) {
    forall i: nat, j: nat :: den(i, j) > 0
  }

  /** v[0] / den(i, 0) + ... + v[m - 1] / den(i, m - 1): row i of the matrix with denominators den, on the first m inputs, summed one input at a time. */
  function RowPrefix(v: seq<real>, i: nat, den: (nat, nat) -> nat, m: nat): real
    requires m <= |v| && PositiveDen(den)
  {
    if m == 0 then 0.0
    else RowPrefix(v, i, den, m - 1) + v[m - 1] / den(i, m - 1) as real
  }

  /** The first `rows` entries of the product of the matrix with denominators den and v: A v for Den, Aᵗ v for DenT. */
  function MatVec(v: seq<real>, rows: nat, den: (nat, nat) -> nat): (w: seq<real>)
    requires PositiveDen(den)
    ensures |w| == rows
  {
    seq(rows, i requires 0 <= i < rows => RowPrefix(v, i, den, |v|))
  }

  /** The accessor a fetches, for the index pairs (i, i) and (j, j + 1), the denominators den(i, j) and den(i, j + 1). */
  ghost predicate Fetches(a: (NatX2, NatX2) -> RealX2, den: (nat, nat) -> nat) {
    forall i: nat, j: nat :: a(NatX2(i, i), NatX2(j, j + 1)) == RealX2(den(i, j) as real, den(i, j + 1) as real)
  }

  /** `Ax2` fetches the entries of A, the swapped accessor those of Aᵗ. */
  lemma AccessorsFetchMatrix()
    ensures NonZeroLanes(Ax2) && NonZeroLanes(Ax2T)
    ensures Fetches(Ax2, Den) && Fetches(Ax2T, DenT)
  {
    forall i: nat, j: nat
      ensures Ax2(NatX2(i, i), NatX2(j, j + 1)) == RealX2(Den(i, j) as real, Den(i, j + 1) as real)
      ensures Ax2T(NatX2(i, i), NatX2(j, j + 1)) == RealX2(DenT(i, j) as real, DenT(i, j + 1) as real)
    {
      PairedCallLanes(i, j);
    }
  }

  lemma {:induction false} PairSumIsRowPrefix(v: seq<real>, i: nat, a: (NatX2, NatX2) -> RealX2, den: (nat, nat) -> nat, p: nat)
    requires 2 * p <= |v| && NonZeroLanes(a) && PositiveDen(den) && Fetches(a, den)
    ensures PairSum(v, i, a, p).lane0 + PairSum(v, i, a, p).lane1 == RowPrefix(v, i, den, 2 * p)
  {
    if p > 0 {
      PairSumIsRowPrefix(v, i, a, den, p - 1);
      var j := 2 * (p - 1);
      assert a(NatX2(i, i), NatX2(j, j + 1)) == RealX2(den(i, j) as real, den(i, j + 1) as real);
    }
  }

  /**
   * Summing two lanes gives the plain sum: the value `mult` stores for row i
   * is row i of the matrix that the accessor fetches, applied to v.
   */
  lemma PairedRowIsMatrixRow(v: seq<real>, i: nat, a: (NatX2, NatX2) -> RealX2, den: (nat, nat) -> nat)
    requires |v| % 2 == 0 && NonZeroLanes(a) && PositiveDen(den) && Fetches(a, den)
    ensures RowValue(v, i, a) == RowPrefix(v, i, den, |v|)
  {
    PairSumIsRowPrefix(v, i, a, den, |v| / 2);
  }

  /** A matrix with positive entries (such as A and Aᵗ) maps positive vectors to positive vectors. */
  lemma {:induction false} RowPrefixIsPositive(v: seq<real>, i: nat, den: (nat, nat) -> nat, m: nat)
    requires 0 < m <= |v| && PositiveDen(den)
    requires forall k :: 0 <= k < |v| ==> v[k] > 0.0
    ensures RowPrefix(v, i, den, m) > 0.0
  {
    if m > 1 {
      RowPrefixIsPositive(v, i, den, m - 1);
    }
  }

  /** The transpose step is no identity: for v = [1, 0], A v = [1, 1/3] but Aᵗ v = [1, 1/2]. */
  lemma TransposeChangesTheProduct()
    ensures MatVec([1.0, 0.0], 2, Den) == [1.0, 1.0 / 3.0]
    ensures MatVec([1.0, 0.0], 2, DenT) == [1.0, 1.0 / 2.0]
  {
    assert Den(1, 0) == 3 && Den(0, 1) == 2 && Den(0, 0) == 1;
  }

  // ---------------------------------------------------------------------
  // mult
  // ---------------------------------------------------------------------

  /**
   * `mult(v, out, start, a)` on the chunk out[lo..hi): slot lo + l receives
   * row start + l of the product, each slot once and in order; v and every
   * slot outside the chunk stay as they were. `v.chunks(2)` needs an even
   * length, or `chunk[1]` panics on the last, half pair.
   */
  method Mult(v: array<real>, out: array<real>, lo: nat, hi: nat, start: nat, a: (NatX2, NatX2) -> RealX2)
    returns (ghost written: seq<nat>)
    requires v != out && v.Length % 2 == 0 && lo <= hi <= out.Length && NonZeroLanes(a)
    modifies out
    ensures forall k :: lo <= k < hi ==> out[k] == RowValue(v[..], start + (k - lo), a)
    ensures forall k :: 0 <= k < out.Length && !(lo <= k < hi) ==> out[k] == old(out[k])
    ensures written == seq(hi - lo, l => lo + l)
    ensures unchanged(v)
  {
    written := [];
    var l := 0;
    while l < hi - lo
      invariant 0 <= l <= hi - lo
      invariant written == seq(l, q => lo + q)
      invariant forall k :: lo <= k < lo + l ==> out[k] == RowValue(v[..], start + (k - lo), a)
      invariant forall k :: 0 <= k < out.Length && !(lo <= k < lo + l) ==> out[k] == old(out[k])
    {
      var i := start + l;
      var sum := RealX2(0.0, 0.0);
      var p := 0;
      while p < v.Length / 2
        invariant 0 <= p <= v.Length / 2
        invariant sum == PairSum(v[..], i, a, p)
      {
        var j := 2 * p;
        var top := RealX2(v[j], v[j + 1]);
        var bot := a(NatX2(i, i), NatX2(j, j + 1));
        sum := AddR(sum, DivR(top, bot));
        p := p + 1;
      }
      out[lo + l] := sum.lane0 + sum.lane1;
      written := written + [lo + l];
      l := l + 1;
    }
  }

  // ---------------------------------------------------------------------
  // mult_AtAv
  // ---------------------------------------------------------------------

  /**
   * What `start` means in the closures of `mult_AtAv`. As written it is the
   * chunk number that `enumerate()` yields; the evident intent is the index
   * of the chunk's first element.
   */
  datatype StartReading = ChunkNumber | ElementOffset

  /** The `start` handed to `mult` for chunk c. */
  function StartOf(reading: StartReading, c: nat, size: nat): nat {
    match reading
    case ChunkNumber => c
    case ElementOffset => c * size
  }

  /** The row of the product that lands in slot k: `start` of k's chunk plus k's offset in it. */
  function RowServed(reading: StartReading, size: nat, k: nat): nat
    requires size >= 1
  {
    StartOf(reading, k / size, size) + k % size
  }

  /** With element offsets, every slot receives its own row. */
  lemma ElementOffsetServesOwnRow(size: nat, k: nat)
    requires size >= 1
    ensures RowServed(ElementOffset, size, k) == k
  {
    assert (k / size) * size + k % size == k;
  }

  /**
   * With chunk numbers, as written, once a buffer has four or more slots
   * slot 1 and slot `size` (the first of chunk 1) both receive row 1, and
   * the row of slot `size` is never computed there.
   */
  lemma ChunkNumberRepeatsRows(n: nat)
    requires n >= 4
    ensures ChunkSize(n) < n
    ensures RowServed(ChunkNumber, ChunkSize(n), 1) == 1
    ensures RowServed(ChunkNumber, ChunkSize(n), ChunkSize(n)) == 1
  {
    var size := ChunkSize(n);
    DivModInChunk(0, size, 1);
    DivModInChunk(1, size, 0);
  }

  /**
   * What that does to `tmp`: against the unit vector e0 = [1, 0, ..., 0] of
   * an even length n >= 4, slot `size` receives 1/3, the entry of row 1,
   * where (A e0)[size] = 1 / Den(size, 0) is a different number.
   */
  lemma ChunkNumberMisroutes(v: seq<real>)
    requires |v| >= 4 && v[0] == 1.0 && forall k :: 1 <= k < |v| ==> v[k] == 0.0
    ensures ChunkSize(|v|) < |v| && Den(1, 0) == 3
    ensures RowPrefix(v, RowServed(ChunkNumber, ChunkSize(|v|), ChunkSize(|v|)), Den, |v|) == 1.0 / Den(1, 0) as real
    ensures MatVec(v, |v|, Den)[ChunkSize(|v|)] == 1.0 / Den(ChunkSize(|v|), 0) as real
    ensures Den(ChunkSize(|v|), 0) > Den(1, 0)
    ensures MatVec(v, |v|, Den)[ChunkSize(|v|)] < RowPrefix(v, RowServed(ChunkNumber, ChunkSize(|v|), ChunkSize(|v|)), Den, |v|)
  {
    var size := ChunkSize(|v|);
    ChunkNumberRepeatsRows(|v|);
    FirstUnitRow(v, 1, Den);
    FirstUnitRow(v, size, Den);
    DiagonalsAreSeparated(1, size);
    var d1, ds := Den(1, 0) as real, Den(size, 0) as real;
    ReciprocalIsDecreasing(d1, ds);
  }

  lemma ReciprocalIsDecreasing(a: real, b: real)
    requires 0.0 < a < b
    ensures 1.0 / b < 1.0 / a
  {
    assert a * b > 0.0;
    assert 1.0 / a - 1.0 / b == (b - a) / (a * b);
  }

  /** Against the unit vector e0, row i of a matrix is its first entry. */
  lemma FirstUnitRow(v: seq<real>, i: nat, den: (nat, nat) -> nat)
    requires |v| > 0 && v[0] == 1.0 && forall k :: 1 <= k < |v| ==> v[k] == 0.0
    requires PositiveDen(den)
    ensures RowPrefix(v, i, den, |v|) == 1.0 / den(i, 0) as real
  {
    UnitRowPrefix(v, i, den, |v|);
  }

  lemma {:induction false} UnitRowPrefix(v: seq<real>, i: nat, den: (nat, nat) -> nat, m: nat)
    requires 0 < m <= |v| && v[0] == 1.0 && forall k :: 1 <= k < |v| ==> v[k] == 0.0
    requires PositiveDen(den)
    ensures RowPrefix(v, i, den, m) == 1.0 / den(i, 0) as real
  {
    if m > 1 {
      UnitRowPrefix(v, i, den, m - 1);
    }
  }

  /**
   * `xs.par_chunks_mut(size).enumerate().for_each(|(c, chunk)| mult(v, chunk, start, a))`,
   * with the chunks taken in order: slot k of `out` receives row
   * RowServed(reading, size, k), and the windows handed to `mult` are
   * exactly the chunks of the tiling, in order.
   */
  method ForEachChunk(v: array<real>, out: array<real>, size: nat, reading: StartReading, a: (NatX2, NatX2) -> RealX2)
    returns (ghost windows: seq<(nat, nat)>)
    requires v != out && v.Length % 2 == 0 && size >= 1 && NonZeroLanes(a)
    modifies out
    ensures forall k :: 0 <= k < out.Length ==> out[k] == RowValue(v[..], RowServed(reading, size, k), a)
    ensures |windows| == ChunkCount(out.Length, size)
    ensures forall c :: 0 <= c < |windows| ==>
              windows[c] == (ChunkStart(c, size), ChunkStart(c, size) + ChunkLen(out.Length, size, c))
    ensures unchanged(v)
  {
    windows := [];
    var c, lo := 0, 0;
    while lo < out.Length
      invariant lo == c * size
      invariant c <= ChunkCount(out.Length, size)
      invariant c < ChunkCount(out.Length, size) <==> lo < out.Length
      invariant |windows| == c
      invariant forall c' :: 0 <= c' < c ==>
                  windows[c'] == (ChunkStart(c', size), ChunkStart(c', size) + ChunkLen(out.Length, size, c'))
      invariant forall k :: 0 <= k < lo && k < out.Length ==> out[k] == RowValue(v[..], RowServed(reading, size, k), a)
      decreases out.Length - lo
    {
      var hi := if lo + size < out.Length then lo + size else out.Length;
      ghost var written := Mult(v, out, lo, hi, StartOf(reading, c, size), a);
      forall k | lo <= k < hi
        ensures RowServed(reading, size, k) == StartOf(reading, c, size) + (k - lo)
      {
        DivModInChunk(c, size, k - lo);
      }
      ChunksAreConsecutive(out.Length, size, c);
      ChunkExists(out.Length, size, c + 1);
      assert (c + 1) * size == lo + size;
      windows := windows + [(lo, hi)];
      c, lo := c + 1, lo + size;
    }
  }

  /**
   * `mult_AtAv(v, out, tmp)`: tmp receives A v and then out receives Aᵗ tmp,
   * both cut into chunks of `v.len() / 4 + 1` slots. Under the chunk-number
   * reading each slot receives the row RowServed names instead.
   */
  method MultAtAv(v: array<real>, out: array<real>, tmp: array<real>, reading: StartReading)
    requires v != out && v != tmp && out != tmp
    requires v.Length % 2 == 0 && tmp.Length % 2 == 0
    modifies out, tmp
    ensures forall k :: 0 <= k < tmp.Length ==>
              tmp[k] == RowPrefix(v[..], RowServed(reading, ChunkSize(v.Length), k), Den, v.Length)
    ensures forall k :: 0 <= k < out.Length ==>
              out[k] == RowPrefix(tmp[..], RowServed(reading, ChunkSize(v.Length), k), DenT, tmp.Length)
    ensures reading == ElementOffset ==>
              tmp[..] == MatVec(v[..], tmp.Length, Den) && out[..] == MatVec(tmp[..], out.Length, DenT)
    ensures unchanged(v)
  {
    var size := ChunkSize(v.Length);
    AccessorsFetchMatrix();
    ghost var w1 := ForEachChunk(v, tmp, size, reading, Ax2);
    ghost var t := tmp[..];
    PassIsProduct(v[..], t, size, reading, Ax2, Den);
    ghost var w2 := ForEachChunk(tmp, out, size, reading, Ax2T);
    PassIsProduct(t, out[..], size, reading, Ax2T, DenT);
  }

  /**
   * One pass of `mult_AtAv`, on values: when every slot of w holds the
   * two-lane row value that its `start` reading names, it holds that row of
   * the plain product; with element offsets w is the whole product.
   */
  lemma PassIsProduct(v: seq<real>, w: seq<real>, size: nat, reading: StartReading,
                      a: (NatX2, NatX2) -> RealX2, den: (nat, nat) -> nat)
    requires |v| % 2 == 0 && size >= 1 && NonZeroLanes(a) && PositiveDen(den) && Fetches(a, den)
    requires forall k :: 0 <= k < |w| ==> w[k] == RowValue(v, RowServed(reading, size, k), a)
    ensures forall k :: 0 <= k < |w| ==> w[k] == RowPrefix(v, RowServed(reading, size, k), den, |v|)
    ensures reading == ElementOffset ==> w == MatVec(v, |w|, den)
  {
    forall k | 0 <= k < |w|
      ensures w[k] == RowPrefix(v, RowServed(reading, size, k), den, |v|)
    {
      PairedRowIsMatrixRow(v, RowServed(reading, size, k), a, den);
    }
    if reading == ElementOffset {
      forall k | 0 <= k < |w|
        ensures w[k] == MatVec(v, |w|, den)[k]
      {
        ElementOffsetServesOwnRow(size, k);
      }
    }
  }

  // ---------------------------------------------------------------------
  // dot
  // ---------------------------------------------------------------------

  /**
   * `v.iter().zip(u.iter()).map(|(a, b)| a * b).fold(0., |acc, i| acc + i)`:
   * a left fold from 0 over the products of the zipped pairs; `zip` stops at
   * the shorter sequence.
   */
  function Dot(x: seq<real>, y: seq<real>): real
    decreases |x|
  {
    var m := Min(|x|, |y|);
    if m == 0 then 0.0 else Dot(x[..m - 1], y[..m - 1]) + x[m - 1] * y[m - 1]
  }

  /** The fold step: one more zipped pair adds its product to the accumulator; the empty fold is 0. */
  lemma {:induction false} DotAppend(x: seq<real>, y: seq<real>, a: real, b: real)
    requires |x| == |y|
    ensures Dot([], []) == 0.0
    ensures Dot(x + [a], y + [b]) == Dot(x, y) + a * b
  {
    var x', y' := x + [a], y + [b];
    assert Min(|x'|, |y'|) == |x| + 1;
    assert x'[..|x|] == x && y'[..|y|] == y;
    assert x'[|x|] == a && y'[|y|] == b;
  }

  /** `zip` stops at the shorter sequence: the surplus of the longer one takes no part. */
  lemma {:induction false} DotTruncates(x: seq<real>, y: seq<real>)
    ensures Dot(x, y) == Dot(x[..Min(|x|, |y|)], y[..Min(|x|, |y|)])
  {
    var m := Min(|x|, |y|);
    var x', y' := x[..m], y[..m];
    assert |x'| == m && |y'| == m;
    if m > 0 {
      assert x'[..m - 1] == x[..m - 1] && y'[..m - 1] == y[..m - 1];
      assert x'[m - 1] == x[m - 1] && y'[m - 1] == y[m - 1];
      assert Dot(x', y') == Dot(x'[..m - 1], y'[..m - 1]) + x'[m - 1] * y'[m - 1];
    }
  }

  /** dot(v, v) is never negative, and it is zero exactly when v is all zeros. */
  lemma {:induction false} DotSelfIsNonNegative(v: seq<real>)
    ensures Dot(v, v) >= 0.0
    ensures Dot(v, v) == 0.0 <==> forall k :: 0 <= k < |v| ==> v[k] == 0.0
  {
    if |v| > 0 {
      var w := v[..|v| - 1];
      DotSelfIsNonNegative(w);
      var last := v[|v| - 1];
      var sq := last * last;
      SquareSign(last, sq);
      assert Dot(v, v) == Dot(w, w) + sq;
      assert forall k :: 0 <= k < |w| ==> w[k] == v[k];
    }
  }

  lemma ProductOfPositives(x: real, y: real, p: real)
    requires p == x * y && x > 0.0 && y > 0.0
    ensures p > 0.0
  {
  }

  lemma SquareSign(x: real, sq: real)
    requires sq == x * x
    ensures sq >= 0.0
    ensures sq == 0.0 <==> x == 0.0
  {
    if x > 0.0 {
      ProductOfPositives(x, x, sq);
    } else if x < 0.0 {
      assert sq == (-x) * (-x);
      ProductOfPositives(-x, -x, sq);
    }
  }

  /** dot is symmetric. */
  lemma {:induction false} DotIsSymmetric(x: seq<real>, y: seq<real>)
    ensures Dot(x, y) == Dot(y, x)
    decreases |x|
  {
    var m := Min(|x|, |y|);
    if m > 0 {
      DotIsSymmetric(x[..m - 1], y[..m - 1]);
    }
  }

  /** The dot product of two positive vectors of the same non-zero length is positive. */
  lemma {:induction false} DotOfPositivesIsPositive(x: seq<real>, y: seq<real>)
    requires |x| == |y| > 0
    requires forall k :: 0 <= k < |x| ==> x[k] > 0.0 && y[k] > 0.0
    ensures Dot(x, y) > 0.0
  {
    var m := |x|;
    if m > 1 {
      DotOfPositivesIsPositive(x[..m - 1], y[..m - 1]);
    }
    ProductOfPositives(x[m - 1], y[m - 1], x[m - 1] * y[m - 1]);
  }

  // ---------------------------------------------------------------------
  // spectralnorm
  // ---------------------------------------------------------------------

  /**
   * What `spectralnorm` comes to: the `assert!` aborts on an odd n; otherwise
   * the two dot products whose quotient's square root is the answer.
   */
  datatype Outcome = Aborted | Estimate(uv: real, vv: real)

  /** One `mult_AtAv` call on length-n vectors: Aᵗ (A v). */
  function AtA(v: seq<real>): (w: seq<real>)
    ensures |w| == |v|
  {
    MatVec(MatVec(v, |v|, Den), |v|, DenT)
  }

  /** (u, v) after k rounds, starting from u = [1.0; n] and v = [0.0; n]. */
  function Rounds(n: nat, k: nat): (uv: (seq<real>, seq<real>))
    ensures |uv.0| == n && |uv.1| == n
  {
    if k == 0 then (seq(n, _ => 1.0), seq(n, _ => 0.0))
    else
      var v := AtA(Rounds(n, k - 1).0);
      (AtA(v), v)
  }

  lemma AtAKeepsPositive(v: seq<real>)
    requires |v| > 0 && forall k :: 0 <= k < |v| ==> v[k] > 0.0
    ensures forall k :: 0 <= k < |v| ==> AtA(v)[k] > 0.0
  {
    var t := MatVec(v, |v|, Den);
    forall i | 0 <= i < |v| ensures t[i] > 0.0 {
      RowPrefixIsPositive(v, i, Den, |v|);
    }
    forall i | 0 <= i < |v| ensures AtA(v)[i] > 0.0 {
      RowPrefixIsPositive(t, i, DenT, |v|);
    }
  }

  /** For n > 0, u stays positive in every round and v is positive from round 1 on. */
  lemma {:induction false} RoundsStayPositive(n: nat, k: nat)
    requires n > 0
    ensures forall j :: 0 <= j < n ==> Rounds(n, k).0[j] > 0.0
    ensures k > 0 ==> forall j :: 0 <= j < n ==> Rounds(n, k).1[j] > 0.0
  {
    if k > 0 {
      RoundsStayPositive(n, k - 1);
      var u := Rounds(n, k - 1).0;
      AtAKeepsPositive(u);
      AtAKeepsPositive(AtA(u));
    }
  }

  /** What `spectralnorm(n)` comes to: an abort for odd n, otherwise dot(u, v) and dot(v, v) after ten rounds. */
  function Expected(n: nat): Outcome {
    if n % 2 != 0 then Aborted
    else
      var uv := Rounds(n, 10);
      Estimate(Dot(uv.0, uv.1), Dot(uv.1, uv.1))
  }

  /**
   * The outcome aborts exactly on an odd n, and for an even n > 0 both dot
   * products are positive, so their quotient and its square root are
   * well defined and positive.
   */
  lemma ExpectedIsPositive(n: nat)
    ensures Expected(n) == Aborted <==> n % 2 != 0
    ensures n % 2 == 0 && n > 0 ==> Expected(n).uv > 0.0 && Expected(n).vv > 0.0
  {
    if n % 2 == 0 && n > 0 {
      var uv := Rounds(n, 10);
      RoundsStayPositive(n, 10);
      DotOfPositivesIsPositive(uv.0, uv.1);
      DotOfPositivesIsPositive(uv.1, uv.1);
    }
  }

  /**
   * One round of the loop in `spectralnorm`: `mult_AtAv(u, v, tmp)`, then
   * `mult_AtAv(v, u, tmp)`. Afterwards v = AᵗA u and u = AᵗA v.
   */
  method Round(u: array<real>, v: array<real>, tmp: array<real>)
    requires u != v && u != tmp && v != tmp
    requires u.Length == v.Length == tmp.Length && u.Length % 2 == 0
    modifies u, v, tmp
    ensures v[..] == AtA(old(u[..]))
    ensures u[..] == AtA(v[..])
  {
    MultAtAv(u, v, tmp, ElementOffset);
    MultAtAv(v, u, tmp, ElementOffset);
  }

  /**
   * `spectralnorm(n)`: abort on an odd n; otherwise build u = [1.0; n],
   * v = tmp = [0.0; n], make ten rounds of two `mult_AtAv` calls each,
   * (u to v) then (v to u), and return dot(u, v) and dot(v, v).
   */
  method SpectralNorm(n: nat) returns (r: Outcome)
    ensures r == Expected(n)
  {
    if n % 2 != 0 {
      return Aborted;
    }
    var u := new real[n](_ => 1.0);
    var v := new real[n](_ => 0.0);
    var tmp := new real[n](_ => 0.0);
    for round := 0 to 10
      invariant u[..] == Rounds(n, round).0 && v[..] == Rounds(n, round).1
    {
      Round(u, v, tmp);
    }
    r := Estimate(Dot(u[..], v[..]), Dot(v[..], v[..]));
  }
}
