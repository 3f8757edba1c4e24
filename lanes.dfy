/**
 * Two-lane value types: `usizex2` (a pair of machine-word indices) and
 * `f64x2` (a pair of doubles). The benchmark uses them only so that the
 * compiler can run both lanes of an accumulation side by side; every
 * operator acts on each lane on its own.
 *
 * Indices are unbounded naturals (`usize` overflow is not modelled) and
 * `real` stands for `f64` (no rounding).
 */
module Lanes {

  /** `usizex2`: two indices carried together. */
  datatype NatX2 = NatX2(lane0: nat, lane1: nat)

  /** `f64x2`, with `real` standing for `f64`. */
  datatype RealX2 = RealX2(lane0: real, lane1: real)

  /** Lane `k` (0 or 1) of an index pair. */
  function Lane(a: NatX2, k: nat): nat
    requires k < 2
  {
    if k == 0 then a.lane0 else a.lane1
  }

  /** Lane `k` (0 or 1) of a real pair. */
  function LaneR(a: RealX2, k: nat): real
    requires k < 2
  {
    if k == 0 then a.lane0 else a.lane1
  }

  /** `impl Add for usizex2`. */
  function Add(a: NatX2, b: NatX2): NatX2 {
    NatX2(a.lane0 + b.lane0, a.lane1 + b.lane1)
  }

  /** `impl Mul for usizex2`. */
  function Mul(a: NatX2, b: NatX2): NatX2 {
    NatX2(a.lane0 * b.lane0, a.lane1 * b.lane1)
  }

  /** `impl Div for usizex2`: truncating division; Rust panics on a zero lane. */
  function Div(a: NatX2, b: NatX2): NatX2
    requires b.lane0 != 0 && b.lane1 != 0
  {
    NatX2(a.lane0 / b.lane0, a.lane1 / b.lane1)
  }

  /** `impl From<usizex2> for f64x2`: each index becomes a number (exactly, over the reals). */
  function ToReal(a: NatX2): RealX2 {
    RealX2(a.lane0 as real, a.lane1 as real)
  }

  /** `impl Add for f64x2`. */
  function AddR(a: RealX2, b: RealX2): RealX2 {
    RealX2(a.lane0 + b.lane0, a.lane1 + b.lane1)
  }

  /** `impl Div for f64x2`; a zero lane (infinity in IEEE arithmetic) has no real counterpart. */
  function DivR(a: RealX2, b: RealX2): RealX2
    requires b.lane0 != 0.0 && b.lane1 != 0.0
  {
    RealX2(a.lane0 / b.lane0, a.lane1 / b.lane1)
  }

  /**
   * Lane independence of the index operators: lane k of `a + b`, `a * b`
   * and `a / b` is fixed by lane k of the operands alone, whatever the other
   * lane holds.
   */
  lemma IndexOperatorsAreLaneWise(a: NatX2, b: NatX2, a': NatX2, b': NatX2, k: nat)
    requires k < 2 && Lane(a, k) == Lane(a', k) && Lane(b, k) == Lane(b', k)
    ensures Lane(Add(a, b), k) == Lane(Add(a', b'), k)
    ensures Lane(Mul(a, b), k) == Lane(Mul(a', b'), k)
    ensures b.lane0 != 0 && b.lane1 != 0 && b'.lane0 != 0 && b'.lane1 != 0 ==>
              Lane(Div(a, b), k) == Lane(Div(a', b'), k)
    ensures LaneR(ToReal(a), k) == LaneR(ToReal(a'), k)
  {
  }

  /** Lane independence of the real operators. */
  lemma RealOperatorsAreLaneWise(a: RealX2, b: RealX2, a': RealX2, b': RealX2, k: nat)
    requires k < 2 && LaneR(a, k) == LaneR(a', k) && LaneR(b, k) == LaneR(b', k)
    ensures LaneR(AddR(a, b), k) == LaneR(AddR(a', b'), k)
    ensures b.lane0 != 0.0 && b.lane1 != 0.0 && b'.lane0 != 0.0 && b'.lane1 != 0.0 ==>
              LaneR(DivR(a, b), k) == LaneR(DivR(a', b'), k)
  {
  }
}
