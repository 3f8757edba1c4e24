# Spectral norm, modelled in Dafny

This project models the spectral-norm program of the Computer Language
Benchmarks Game, in its Rust version (`src/spectralnorm.rs`). The program
estimates the spectral norm of the infinite matrix A with
A(i, j) = 1 / ((i+j)(i+j+1)/2 + i + 1) by ten rounds of power iteration on
AᵗA. It works on vectors of length n, and n must be even.

The model has four parts:

- `lanes.dfy` (module `Lanes`) holds the two-lane value types `usizex2` and
  `f64x2` and their operators. `NatX2` stands for `usizex2` and `RealX2`
  for `f64x2`.
- `matrix.dfy` (module `Matrix`) holds the matrix A. `Den(i, j)` is the
  denominator of entry (i, j): the Cantor pairing of (j, i), plus 1.
  `Ax2` is the two-lane accessor, computed in integer lanes as the source
  does and then converted. `Ax2T` is the swapped accessor `|i, j| Ax2(j, i)`.
- `tiling.dfy` (module `Tiling`) holds the index geometry: how
  `par_chunks_mut(size)` and `chunks(2)` cut `[0, len)` into chunks.
- `spectralnorm.dfy` (module `SpectralNorm`) holds the rest:
  - `mult`, an imperative method over arrays with nested loops;
  - `mult_AtAv`, which runs the chunks of each output buffer one after
    another;
  - `dot`, a left fold;
  - and the driver `spectralnorm`, a method that allocates `u`, `v` and
    `tmp` and makes the twenty calls.

Each imperative method is proved against a plain reference definition:

- `PairSum` and `RowValue` state what `mult` accumulates, lane by lane.
- `RowPrefix` and `MatVec` are the ordinary one-entry-at-a-time
  matrix-vector product. They are generic over a table of denominators:
  `Den` gives A and `DenT` gives Aᵗ.
- `Rounds` gives the state of `(u, v)` after k rounds.
- `Expected` gives what the driver comes to.

Lemmas then connect the two-lane sums to the plain sums. They also prove
what the program relies on:

- every denominator is at least 1;
- the halving in `Ax2` is exact;
- the chunks cover the buffer with no gap and no overlap;
- the dot products of the final vectors are positive.

How the source is read:

- `real` stands for `f64`, and `nat` stands for `usize`.
- In `mult_AtAv` (lines 80-81) the closures take two parameters, but
  `for_each` over `enumerate()` passes a single tuple. Line 80 also hands
  `mult` the whole `tmp` rather than the chunk `out`. As written, these
  lines do not compile.
  - The model follows the evident data flow: each chunk of the buffer is
    filled by `mult` with that chunk as its output.
  - A chunk is the window `[lo, hi)` of the whole array.
- The value called `start` in those closures is the chunk number that
  `enumerate()` yields. `mult` adds it to the index inside the chunk. Once
  n >= 4 the chunk size is at least 2, so every chunk after the first
  computes the wrong rows. For n = 2 the size is 1, and the chunk number
  and the element offset coincide. The model therefore takes the reading
  of `start` as a parameter (`StartReading`):
  - `ChunkNumber` is the code as written;
  - `ElementOffset`, the index of the chunk's first element, is the
    evident intent.
  
  `MultAtAv` is proved for both. The driver uses `ElementOffset`, and the
  discrepancy is recorded under Findings.
- The chunk size is `v.len() / 4 + 1`, as in the code (line 79). It is
  not the ceiling of n / 4: for n divisible by 4 every chunk but the last
  holds n/4 + 1 slots, not n/4. The count is then ⌈n / (n/4 + 1)⌉ ≤ 4 chunks, and there
  can be fewer than four.

## Model

| member | source | states |
|---|---|---|
| Lanes.Add | src/spectralnorm.rs:18-23 | definition: `usizex2` addition, lane by lane |
| Lanes.Mul | src/spectralnorm.rs:24-29 | definition: `usizex2` multiplication, lane by lane |
| Lanes.Div | src/spectralnorm.rs:30-35 | definition: `usizex2` truncating division, lane by lane, defined only for divisors with no zero lane (Rust panics on one) |
| Lanes.ToReal | src/spectralnorm.rs:36-40 | definition: the conversion of each index lane to a number |
| Lanes.AddR | src/spectralnorm.rs:44-49 | definition: `f64x2` addition, lane by lane |
| Lanes.DivR | src/spectralnorm.rs:50-55 | definition: `f64x2` division, lane by lane, defined only for divisors with no zero lane |
| Lanes.IndexOperatorsAreLaneWise | src/spectralnorm.rs:17-40 | lane k of `usizex2` addition, multiplication, division and of the conversion to `f64x2` depends only on lane k of the operands |
| Lanes.RealOperatorsAreLaneWise | src/spectralnorm.rs:42-55 | lane k of `f64x2` addition and division depends only on lane k of the operands |
| Matrix.Den | src/spectralnorm.rs:99 | the denominator of A(i, j) is never below 1 |
| Matrix.TriangleClosedForm | src/spectralnorm.rs:99 | s(s+1) is twice the triangular number of s |
| Matrix.HalvingIsExact | src/spectralnorm.rs:99 | the division by `usizex2(2, 2)` in `Ax2` leaves no remainder and yields the triangular number |
| Matrix.Ax2Den | src/spectralnorm.rs:99 | the integer lanes of `Ax2` are, lane by lane, the denominators Den(i, j) |
| Matrix.Ax2 | src/spectralnorm.rs:98-100 | `Ax2` returns the two denominators as numbers, each at least 1 |
| Matrix.DenT | src/spectralnorm.rs:81 | the denominators of the transpose are never below 1 |
| Matrix.Ax2T | src/spectralnorm.rs:81 | the swapped accessor returns the denominators of the mirrored entries, each at least 1 |
| Matrix.PairedCallLanes | src/spectralnorm.rs:90 | the call with index pairs (i, i) and (j, j+1) fetches the entries (i, j) and (i, j+1), of A or of its transpose |
| Matrix.TransposeGap | src/spectralnorm.rs:98-100 | Den(i, j) - Den(j, i) = i - j |
| Matrix.TransposeDiffersOffDiagonal | src/spectralnorm.rs:98-100 | an entry of A equals its mirror exactly on the diagonal, so A is not symmetric |
| Matrix.DiagonalsAreSeparated | src/spectralnorm.rs:99 | every pairing on an earlier anti-diagonal lies below every pairing on a later one |
| Matrix.DenIsInjective | src/spectralnorm.rs:99 | distinct index pairs never share a denominator |
| Tiling.ChunkSize | src/spectralnorm.rs:79 | the chunk size is at least 1 and four chunks of it exceed n |
| Tiling.ChunkStart | src/spectralnorm.rs:80-81 | definition: chunk c of `par_chunks_mut(size)` starts at c * size |
| Tiling.ChunkLen | src/spectralnorm.rs:80-81 | definition: chunk c holds `size` elements, or what is left of len, or none past the end |
| Tiling.InChunk | src/spectralnorm.rs:80-81 | definition: index k lies in chunk c |
| Tiling.ChunkCount | src/spectralnorm.rs:80-81 | the number of chunks is the ceiling of len / size: enough to cover len, one fewer is not, zero exactly for an empty buffer |
| Tiling.DivModInChunk | src/spectralnorm.rs:80-81 | index c * size + r with r < size lies at offset r of chunk c |
| Tiling.IndexHasChunk | src/spectralnorm.rs:80-81 | no gaps: every index below len lies in an existing chunk, at offset k % size |
| Tiling.ChunkExists | src/spectralnorm.rs:80-81 | chunk c exists exactly when it starts below len |
| Tiling.ChunksAreDisjoint | src/spectralnorm.rs:80-81 | no overlaps: an index lies in one chunk only |
| Tiling.ChunksStayInRange | src/spectralnorm.rs:80-81 | every index of a chunk is below len |
| Tiling.ChunksAreConsecutive | src/spectralnorm.rs:80-81 | chunks start at 0, follow each other without gaps, are non-empty, are full except the last, and the last ends at len |
| Tiling.AtMostFourChunks | src/spectralnorm.rs:79-81 | with size n / 4 + 1 a buffer of n slots has at most four chunks |
| Tiling.EvenLengthGivesPairs | src/spectralnorm.rs:88-89 | on an even length `chunks(2)` yields n / 2 pairs, pair k holding indices 2k and 2k + 1 |
| Tiling.OddLengthLeavesHalfPair | src/spectralnorm.rs:88-89 | on an odd length the last pair has one element, so `chunk[1]` would be out of bounds |
| SpectralNorm.PairSum | src/spectralnorm.rs:87-92 | definition: the two-lane running sum of `mult`'s inner loop after p pairs, as a left fold over `chunks(2)`; related to the plain row sum by `PairSumIsRowPrefix` |
| SpectralNorm.RowValue | src/spectralnorm.rs:93-94 | definition: the value `mult` stores for row i, the two lanes of the finished sum added; related to the plain product by `PairedRowIsMatrixRow` |
| SpectralNorm.MatVec | src/spectralnorm.rs:78-82 | reference definition: the first `rows` entries of the plain matrix-vector product, one entry at a time; `MultAtAv` and `PassIsProduct` are proved equal to it |
| SpectralNorm.AccessorsFetchMatrix | src/spectralnorm.rs:80-81 | `Ax2` fetches the denominators of A and the swapped accessor those of Aᵗ; neither ever yields a zero lane |
| SpectralNorm.PairSumIsRowPrefix | src/spectralnorm.rs:86-92 | after p pairs, the two lanes of `mult`'s running sum add up to the plain sum of the first 2p terms of the row |
| SpectralNorm.PairedRowIsMatrixRow | src/spectralnorm.rs:93-94 | the value `mult` stores for row i is row i of the plain product of the fetched matrix and v |
| SpectralNorm.RowPrefixIsPositive | src/spectralnorm.rs:98-100 | a matrix with positive entries maps a positive vector to positive row sums |
| SpectralNorm.TransposeChangesTheProduct | src/spectralnorm.rs:80-81 | the two passes differ: A [1, 0] = [1, 1/3] but Aᵗ [1, 0] = [1, 1/2] |
| SpectralNorm.Mult | src/spectralnorm.rs:84-96 | slot lo + l of the chunk receives row start + l, lanes summed; slots outside the chunk and v are unchanged; the ghost log `written`, appended beside each store, lists the stored slots, once each and in order |
| SpectralNorm.StartOf | src/spectralnorm.rs:80-81 | definition: the `start` handed to `mult` for chunk c, the chunk number as written or c * size as intended |
| SpectralNorm.RowServed | src/spectralnorm.rs:80-81 | definition: the row that lands in slot k, `start` of k's chunk plus k's offset in it (line 86) |
| SpectralNorm.ElementOffsetServesOwnRow | src/spectralnorm.rs:80-81 | when `start` is the first index of the chunk, every slot receives its own row |
| SpectralNorm.ChunkNumberRepeatsRows | src/spectralnorm.rs:80-81 | when `start` is the chunk number, for n >= 4 slot 1 and slot `size` both receive row 1 |
| SpectralNorm.ChunkNumberMisroutes | src/spectralnorm.rs:80 | as written, against e0 = [1, 0, ...] slot `size` of `tmp` receives 1/3, strictly more than the true entry 1/Den(size, 0) |
| SpectralNorm.FirstUnitRow | src/spectralnorm.rs:84-96 | against e0, each row of the product is the row's first entry |
| SpectralNorm.UnitRowPrefix | src/spectralnorm.rs:88-92 | against e0, every non-empty prefix of a row sum is the row's first entry |
| SpectralNorm.ForEachChunk | src/spectralnorm.rs:80-81 | running `mult` over the chunks in order fills every slot k with the row its `start` reading names, on the exact windows of the tiling; v is unchanged |
| SpectralNorm.PassIsProduct | src/spectralnorm.rs:80-81 | when every slot holds the two-lane row value its `start` names, it holds that row of the plain product; with element offsets the buffer is the whole product |
| SpectralNorm.MultAtAv | src/spectralnorm.rs:78-82 | `tmp` receives A v and then `out` receives Aᵗ tmp; under the chunk-number reading each slot receives the row `RowServed` names |
| SpectralNorm.Dot | src/spectralnorm.rs:102-104 | definition: the fold from 0 over the products of the zipped pairs; characterised by `DotAppend` and `DotTruncates` |
| SpectralNorm.DotAppend | src/spectralnorm.rs:103 | dot is a left fold: the empty fold is 0, and one more zipped pair adds its product to the accumulator |
| SpectralNorm.DotTruncates | src/spectralnorm.rs:103 | `zip` stops at the shorter slice: the surplus of the longer one takes no part |
| SpectralNorm.DotSelfIsNonNegative | src/spectralnorm.rs:102-104 | dot(v, v) >= 0, and it is 0 exactly when v is all zeros |
| SpectralNorm.DotIsSymmetric | src/spectralnorm.rs:102-104 | dot(x, y) = dot(y, x) |
| SpectralNorm.DotOfPositivesIsPositive | src/spectralnorm.rs:102-104 | the dot product of two positive vectors of equal, non-zero length is positive |
| SpectralNorm.AtA | src/spectralnorm.rs:72-73 | reference definition: what one `mult_AtAv` call leaves in its output, Aᵗ (A v), of the same length as v |
| SpectralNorm.Rounds | src/spectralnorm.rs:68-74 | reference definition: (u, v) after k rounds from u = 1s, v = 0s, each round setting v := AᵗA u and then u := AᵗA v; both keep length n |
| SpectralNorm.AtAKeepsPositive | src/spectralnorm.rs:72-73 | AᵗA maps a positive vector to a positive vector |
| SpectralNorm.RoundsStayPositive | src/spectralnorm.rs:68-74 | for n > 0, u is positive in every round and v from round 1 on |
| SpectralNorm.Expected | src/spectralnorm.rs:66-75 | definition: what `spectralnorm(n)` comes to, an abort for odd n and otherwise dot(u, v) and dot(v, v) after ten rounds |
| SpectralNorm.ExpectedIsPositive | src/spectralnorm.rs:66-75 | the outcome aborts exactly for odd n, and for even n > 0 both dot products are positive, so the quotient and its square root are defined |
| SpectralNorm.Round | src/spectralnorm.rs:72-73 | one loop round: v becomes AᵗA u, then u becomes AᵗA v |
| SpectralNorm.SpectralNorm | src/spectralnorm.rs:66-76 | the driver returns `Expected(n)`: it aborts on odd n, and otherwise returns dot(u, v) and dot(v, v) after ten rounds from u = 1s, v = 0s; that the twenty `mult_AtAv` calls alternate (u to v), (v to u) is proved through `Round`'s contract and the loop invariant tying (u, v) to `Rounds` |

## Left out

- `main` (lines 57-64) is left out. It reads n from the command line, defaulting to 100, and prints the answer; that is I/O.
- Rayon's parallel `for_each` is left out. The chunks of a buffer are disjoint and are run one after another.
- Floating point is left out. `real` stands for `f64`, so there is no rounding, and `i as f64` (line 38) is exact.
- `usize` overflow in `Ax2` is not modelled. Indices are unbounded naturals.
- Lanes.DivR and SpectralNorm.NonZeroLanes: dividing by a zero lane would give an IEEE infinity in Rust. It has no real counterpart, so `mult` is only modelled for accessors with no zero lane. Both accessors the program passes qualify.
- SpectralNorm.Mult: the Rust chunk is a separate sub-slice. Here it is the window `[lo, hi)` of the whole array, so aliasing between chunk slices is not modelled.
- SpectralNorm.SpectralNorm: returns the two dot products `Estimate(uv, vv)` instead of `sqrt(uv / vv)` (line 75), because square roots are not modelled. For n = 0 both are 0, where Rust yields NaN.
- The `assert!` of line 67 is modelled as the `Aborted` outcome. Its panic message is left out.

## Findings

| source | as written | input that shows it | evidently intended | confidence | as-written member | corrected member |
|---|---|---|---|---|---|---|
| src/spectralnorm.rs:80-81 | `start` is the chunk number from `enumerate()`, and `mult` adds it to the index inside the chunk | n = 4 (size 2) and v = [1, 0, 0, 0]: slot 2 of `tmp` receives row 1, 1/3, instead of (A v)[2] = 1/6 | `start` is the index of the chunk's first element, chunk number times `size` | not executed | SpectralNorm.ChunkNumberMisroutes | SpectralNorm.ElementOffsetServesOwnRow |
