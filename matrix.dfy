/**
 * The implicit matrix A of the benchmark: A(i, j) = 1 / Den(i, j) with
 * Den(i, j) = (i+j)(i+j+1)/2 + i + 1, the Cantor pairing of (j, i) plus 1.
 * `Ax2` computes two such denominators at once, one per lane, in integer
 * arithmetic, and only then converts them to numbers.
 */
module Matrix {
  import opened Lanes

  /** 0 + 1 + ... + s: the number of index pairs on the anti-diagonals before diagonal s. */
  function Triangle(s: nat): nat {
    if s == 0 then 0 else Triangle(s - 1) + s
  }

  /** The denominator of A(i, j): the Cantor pairing of (j, i), plus 1. */
  function Den(i: nat, j: nat): (d: nat)
    ensures d >= 1
  {
    Triangle(i + j) + i + 1
  }

  /** The product s(s+1) is twice the triangular number of s. */
  lemma {:induction false} TriangleClosedForm(s: nat)
    ensures s * (s + 1) == 2 * Triangle(s)
  {
    if s > 0 {
      TriangleClosedForm(s - 1);
      assert s * (s + 1) == (s - 1) * s + 2 * s;
    }
  }

  /** The halving in `Ax2` is exact: s(s+1) is even and its half is Triangle(s). */
  lemma HalvingIsExact(s: nat)
    ensures (s * (s + 1)) % 2 == 0
    ensures (s * (s + 1)) / 2 == Triangle(s)
  {
    TriangleClosedForm(s);
  }

  /**
   * The integer part of `Ax2`: `(i + j) * (i + j + 1) / 2 + i + 1`, lane by
   * lane. Each lane is the denominator of one matrix entry.
   */
  function Ax2Den(i: NatX2, j: NatX2): (d: NatX2)
    ensures d == NatX2(Den(i.lane0, j.lane0), Den(i.lane1, j.lane1))
  {
    HalvingIsExact(i.lane0 + j.lane0);
    HalvingIsExact(i.lane1 + j.lane1);
    Add(Add(Div(Mul(Add(i, j), Add(Add(i, j), NatX2(1, 1))), NatX2(2, 2)), i), NatX2(1, 1))
  }

  /** `Ax2`: the two denominators as numbers; neither lane is below 1. */
  function Ax2(i: NatX2, j: NatX2): (d: RealX2)
    ensures d == RealX2(Den(i.lane0, j.lane0) as real, Den(i.lane1, j.lane1) as real)
    ensures d.lane0 >= 1.0 && d.lane1 >= 1.0
  {
    ToReal(Ax2Den(i, j))
  }

  /** The denominator of entry (i, j) of the transpose of A. */
  function DenT(i: nat, j: nat): (d: nat)
    ensures d >= 1
  {
    Den(j, i)
  }

  /** The accessor `|i, j| Ax2(j, i)` that `mult_AtAv` passes for the transpose. */
  function Ax2T(i: NatX2, j: NatX2): (d: RealX2)
    ensures d == RealX2(Den(j.lane0, i.lane0) as real, Den(j.lane1, i.lane1) as real)
    ensures d.lane0 >= 1.0 && d.lane1 >= 1.0
  {
    Ax2(j, i)
  }

  /**
   * The call `a(usizex2(i, i), usizex2(j, j + 1))` in `mult` fetches the
   * denominators of entries (i, j) and (i, j + 1) of A, or of its transpose.
   */
  lemma PairedCallLanes(i: nat, j: nat)
    ensures Ax2(NatX2(i, i), NatX2(j, j + 1)) == RealX2(Den(i, j) as real, Den(i, j + 1) as real)
    ensures Ax2T(NatX2(i, i), NatX2(j, j + 1)) == RealX2(Den(j, i) as real, Den(j + 1, i) as real)
  {
  }

  /** Transposing moves the denominator by exactly i - j. */
  lemma TransposeGap(i: nat, j: nat)
    ensures Den(i, j) as int - Den(j, i) as int == i as int - j as int
  {
  }

  /** So A is not symmetric: an entry equals its mirror exactly on the diagonal. */
  lemma TransposeDiffersOffDiagonal(i: nat, j: nat)
    ensures Den(i, j) == Den(j, i) <==> i == j
  {
    TransposeGap(i, j);
  }

  /** Triangle(s) + s, the last pairing on diagonal s, lies below the first pairing of any later diagonal. */
  lemma {:induction false} DiagonalsAreSeparated(s: nat, t: nat)
    requires s < t
    ensures Triangle(s) + s < Triangle(t)
  {
    if t > s + 1 {
      DiagonalsAreSeparated(s, t - 1);
    }
  }

  /** Den is injective: distinct index pairs never share a denominator (the Cantor pairing is a bijection onto its image). */
  lemma DenIsInjective(i: nat, j: nat, i': nat, j': nat)
    requires Den(i, j) == Den(i', j')
    ensures i == i' && j == j'
  {
    if i + j < i' + j' {
      DiagonalsAreSeparated(i + j, i' + j');
      assert false;
    } else if i' + j' < i + j {
      DiagonalsAreSeparated(i' + j', i + j);
      assert false;
    }
  }
}
