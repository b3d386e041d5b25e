/** Affine calibration between drill-file coordinates (xf, yf) and machine
    coordinates (xp, yp): `set_default_matrixop`, `transform`, `adjust`,
    `adjust_run` and the recording of calibration samples in metadrill.c.

        (xp yp) = (xf yf) * | a b | + (e f)
                            | c d |
*/
module Calibration {

  /** `struct matrixop`. */
  datatype MatrixOp = MatrixOp(a: real, b: real, c: real, d: real, e: real, f: real)

  /** `struct adjust_sample` without its `next` link: a file position and the
      machine position the operator jogged the head to for it. */
  datatype Sample = Sample(xf: real, yf: real, xp: real, yp: real)

  /** A position on the machine (xp, yp) or in the drill file (xf, yf). */
  datatype Point = Point(x: real, y: real)

  /** `transform`: the machine position of a file position under op. */
  function Transform(op: MatrixOp, xf: real, yf: real): (r: Point)
  {
    Point(op.a * xf + op.c * yf + op.e, op.b * xf + op.d * yf + op.f)
  }

  /** A matrix reproduces a sample when it maps the sample's file position
      exactly onto its machine position. */
  predicate Fits(op: MatrixOp, s: Sample)
  {
    Transform(op, s.xf, s.yf) == Point(s.xp, s.yp)
  }

  /** `set_default_matrixop`: the identity mapping. */
  function DefaultMatrixOp(): (op: MatrixOp)
    ensures forall xf, yf :: Transform(op, xf, yf) == Point(xf, yf)
  {
    MatrixOp(1.0, 0.0, 0.0, 1.0, 0.0, 0.0)
  }

  // ---------------------------------------------------------------------------
  // Solving for a matrix from three samples (`adjust`)

  /** The common denominator of `adjust`: twice the signed area of the
      triangle of the three file positions. */
  function Denominator(p1: Sample, p2: Sample, p3: Sample): real
  {
    (p2.xf - p1.xf) * p3.yf + (p1.xf - p3.xf) * p2.yf + (p3.xf - p2.xf) * p1.yf
  }

  function NumA(p1: Sample, p2: Sample, p3: Sample): real
  {
    (p2.xp - p1.xp) * p3.yf + (p1.xp - p3.xp) * p2.yf + (p3.xp - p2.xp) * p1.yf
  }

  function NumB(p1: Sample, p2: Sample, p3: Sample): real
  {
    -((p2.yf - p1.yf) * p3.yp + (p1.yf - p3.yf) * p2.yp + (p3.yf - p2.yf) * p1.yp)
  }

  function NumC(p1: Sample, p2: Sample, p3: Sample): real
  {
    (p2.xf - p1.xf) * p3.xp + (p1.xf - p3.xf) * p2.xp + (p3.xf - p2.xf) * p1.xp
  }

  function NumD(p1: Sample, p2: Sample, p3: Sample): real
  {
    (p2.xf - p1.xf) * p3.yp + (p1.xf - p3.xf) * p2.yp + (p3.xf - p2.xf) * p1.yp
  }

  function NumE(p1: Sample, p2: Sample, p3: Sample): real
  {
    -((p1.xf * p2.xp - p2.xf * p1.xp) * p3.yf
      + (p3.xf * p1.xp - p1.xf * p3.xp) * p2.yf
      + (p2.xf * p3.xp - p3.xf * p2.xp) * p1.yf)
  }

  function NumF(p1: Sample, p2: Sample, p3: Sample): real
  {
    (p1.xf * p2.yf - p2.xf * p1.yf) * p3.yp
    + (p3.xf * p1.yf - p1.xf * p3.yf) * p2.yp
    + (p2.xf * p3.yf - p3.xf * p2.yf) * p1.yp
  }

  /** `adjust`: the closed-form solution of the six linear equations that make
      the matrix reproduce the three samples. The source divides without a
      check; a zero denominator (collinear file positions) is excluded here. */
  function Adjust(p1: Sample, p2: Sample, p3: Sample): MatrixOp
    requires Denominator(p1, p2, p3) != 0.0
  {
    Solve(Denominator(p1, p2, p3), NumA(p1, p2, p3), NumB(p1, p2, p3), NumC(p1, p2, p3),
          NumD(p1, p2, p3), NumE(p1, p2, p3), NumF(p1, p2, p3))
  }

  /** The six coefficients over their common denominator. */
  function Solve(dd: real, na: real, nb: real, nc: real, nd: real, ne: real, nf: real): MatrixOp
    requires dd != 0.0
  {
    MatrixOp(na / dd, nb / dd, nc / dd, nd / dd, ne / dd, nf / dd)
  }

  /** Clearing a common denominator from one row of the transform. */
  lemma DivideRow(na: real, nc: real, ne: real, x: real, y: real, p: real, dd: real)
    requires dd != 0.0
    requires na * x + nc * y + ne == p * dd
    ensures (na / dd) * x + (nc / dd) * y + ne / dd == p
  {
    assert (na / dd) * x == (na * x) / dd;
    assert (nc / dd) * y == (nc * y) / dd;
    assert (na * x) / dd + (nc * y) / dd + ne / dd == (na * x + nc * y + ne) / dd;
  }

  /** The numerators of the x row reproduce a sample's xp, scaled by D. */
  lemma RowX(p1: Sample, p2: Sample, p3: Sample, q: Sample)
    requires q == p1 || q == p2 || q == p3
    ensures NumA(p1, p2, p3) * q.xf + NumC(p1, p2, p3) * q.yf + NumE(p1, p2, p3)
         == q.xp * Denominator(p1, p2, p3)
  {
  }

  /** The numerators of the y row reproduce a sample's yp, scaled by D. */
  lemma RowY(p1: Sample, p2: Sample, p3: Sample, q: Sample)
    requires q == p1 || q == p2 || q == p3
    ensures NumB(p1, p2, p3) * q.xf + NumD(p1, p2, p3) * q.yf + NumF(p1, p2, p3)
         == q.yp * Denominator(p1, p2, p3)
  {
  }

  /** The matrix `adjust` computes maps each of the three file positions
      exactly onto its machine position. */
  lemma AdjustFits(p1: Sample, p2: Sample, p3: Sample)
    requires Denominator(p1, p2, p3) != 0.0
    ensures Fits(Adjust(p1, p2, p3), p1)
    ensures Fits(Adjust(p1, p2, p3), p2)
    ensures Fits(Adjust(p1, p2, p3), p3)
  {
    AdjustFitsAt(p1, p2, p3, p1);
    AdjustFitsAt(p1, p2, p3, p2);
    AdjustFitsAt(p1, p2, p3, p3);
  }

  lemma AdjustFitsAt(p1: Sample, p2: Sample, p3: Sample, q: Sample)
    requires Denominator(p1, p2, p3) != 0.0
    requires q == p1 || q == p2 || q == p3
    ensures Fits(Adjust(p1, p2, p3), q)
  {
    RowX(p1, p2, p3, q);
    RowY(p1, p2, p3, q);
    SolveFits(Denominator(p1, p2, p3), NumA(p1, p2, p3), NumB(p1, p2, p3), NumC(p1, p2, p3),
              NumD(p1, p2, p3), NumE(p1, p2, p3), NumF(p1, p2, p3), q);
  }

  /** Coefficients over a common denominator fit a sample when their
      numerators satisfy both rows scaled by that denominator. */
  lemma SolveFits(dd: real, na: real, nb: real, nc: real, nd: real, ne: real, nf: real, q: Sample)
    requires dd != 0.0
    requires na * q.xf + nc * q.yf + ne == q.xp * dd
    requires nb * q.xf + nd * q.yf + nf == q.yp * dd
    ensures Fits(Solve(dd, na, nb, nc, nd, ne, nf), q)
  {
    DivideRow(na, nc, ne, q.xf, q.yf, q.xp, dd);
    DivideRow(nb, nd, nf, q.xf, q.yf, q.yp, dd);
  }

  /** Cramer's rule for one row x_i * u + y_i * v + w = p_i of three
      equations: each numerator is its unknown times the determinant. */
  lemma FirstUnknown(u: real, v: real, w: real,
                     x1: real, y1: real, r1: real, x2: real, y2: real, r2: real,
                     x3: real, y3: real, r3: real)
    requires r1 == u * x1 + v * y1 + w
    requires r2 == u * x2 + v * y2 + w
    requires r3 == u * x3 + v * y3 + w
    ensures (r2 - r1) * y3 + (r1 - r3) * y2 + (r3 - r2) * y1
         == u * ((x2 - x1) * y3 + (x1 - x3) * y2 + (x3 - x2) * y1)
    ensures -((y2 - y1) * r3 + (y1 - y3) * r2 + (y3 - y2) * r1)
         == u * ((x2 - x1) * y3 + (x1 - x3) * y2 + (x3 - x2) * y1)
  {
  }

  lemma SecondUnknown(u: real, v: real, w: real,
                      x1: real, y1: real, r1: real, x2: real, y2: real, r2: real,
                      x3: real, y3: real, r3: real)
    requires r1 == u * x1 + v * y1 + w
    requires r2 == u * x2 + v * y2 + w
    requires r3 == u * x3 + v * y3 + w
    ensures (x2 - x1) * r3 + (x1 - x3) * r2 + (x3 - x2) * r1
         == v * ((x2 - x1) * y3 + (x1 - x3) * y2 + (x3 - x2) * y1)
  {
  }

  lemma ConstantUnknown(u: real, v: real, w: real,
                        x1: real, y1: real, r1: real, x2: real, y2: real, r2: real,
                        x3: real, y3: real, r3: real)
    requires r1 == u * x1 + v * y1 + w
    requires r2 == u * x2 + v * y2 + w
    requires r3 == u * x3 + v * y3 + w
    ensures -((x1 * r2 - x2 * r1) * y3 + (x3 * r1 - x1 * r3) * y2 + (x2 * r3 - x3 * r2) * y1)
         == w * ((x2 - x1) * y3 + (x1 - x3) * y2 + (x3 - x2) * y1)
    ensures (x1 * y2 - x2 * y1) * r3 + (x3 * y1 - x1 * y3) * r2 + (x2 * y3 - x3 * y2) * r1
         == w * ((x2 - x1) * y3 + (x1 - x3) * y2 + (x3 - x2) * y1)
  {
  }

  /** The numerator of `a` for any matrix that fits the three samples is
      that matrix's `a` times the denominator. */
  lemma NumAOfFit(op: MatrixOp, p1: Sample, p2: Sample, p3: Sample)
    requires Fits(op, p1) && Fits(op, p2) && Fits(op, p3)
    ensures NumA(p1, p2, p3) == op.a * Denominator(p1, p2, p3)
  {
    FirstUnknown(op.a, op.c, op.e, p1.xf, p1.yf, p1.xp, p2.xf, p2.yf, p2.xp, p3.xf, p3.yf, p3.xp);
  }

  lemma NumCOfFit(op: MatrixOp, p1: Sample, p2: Sample, p3: Sample)
    requires Fits(op, p1) && Fits(op, p2) && Fits(op, p3)
    ensures NumC(p1, p2, p3) == op.c * Denominator(p1, p2, p3)
  {
    SecondUnknown(op.a, op.c, op.e, p1.xf, p1.yf, p1.xp, p2.xf, p2.yf, p2.xp, p3.xf, p3.yf, p3.xp);
  }

  lemma NumEOfFit(op: MatrixOp, p1: Sample, p2: Sample, p3: Sample)
    requires Fits(op, p1) && Fits(op, p2) && Fits(op, p3)
    ensures NumE(p1, p2, p3) == op.e * Denominator(p1, p2, p3)
  {
    ConstantUnknown(op.a, op.c, op.e, p1.xf, p1.yf, p1.xp, p2.xf, p2.yf, p2.xp, p3.xf, p3.yf, p3.xp);
  }

  lemma NumBOfFit(op: MatrixOp, p1: Sample, p2: Sample, p3: Sample)
    requires Fits(op, p1) && Fits(op, p2) && Fits(op, p3)
    ensures NumB(p1, p2, p3) == op.b * Denominator(p1, p2, p3)
  {
    FirstUnknown(op.b, op.d, op.f, p1.xf, p1.yf, p1.yp, p2.xf, p2.yf, p2.yp, p3.xf, p3.yf, p3.yp);
  }

  lemma NumDOfFit(op: MatrixOp, p1: Sample, p2: Sample, p3: Sample)
    requires Fits(op, p1) && Fits(op, p2) && Fits(op, p3)
    ensures NumD(p1, p2, p3) == op.d * Denominator(p1, p2, p3)
  {
    SecondUnknown(op.b, op.d, op.f, p1.xf, p1.yf, p1.yp, p2.xf, p2.yf, p2.yp, p3.xf, p3.yf, p3.yp);
  }

  lemma NumFOfFit(op: MatrixOp, p1: Sample, p2: Sample, p3: Sample)
    requires Fits(op, p1) && Fits(op, p2) && Fits(op, p3)
    ensures NumF(p1, p2, p3) == op.f * Denominator(p1, p2, p3)
  {
    ConstantUnknown(op.b, op.d, op.f, p1.xf, p1.yf, p1.yp, p2.xf, p2.yf, p2.yp, p3.xf, p3.yf, p3.yp);
  }

  /** Three samples at non-collinear file positions determine the matrix:
      any matrix reproducing all three is the one `adjust` computes. */
  lemma AdjustUnique(op: MatrixOp, p1: Sample, p2: Sample, p3: Sample)
    requires Denominator(p1, p2, p3) != 0.0
    requires Fits(op, p1) && Fits(op, p2) && Fits(op, p3)
    ensures Adjust(p1, p2, p3) == op
  {
    AdjustUniqueX(op, p1, p2, p3);
    AdjustUniqueY(op, p1, p2, p3);
  }

  lemma AdjustUniqueX(op: MatrixOp, p1: Sample, p2: Sample, p3: Sample)
    requires Denominator(p1, p2, p3) != 0.0
    requires Fits(op, p1) && Fits(op, p2) && Fits(op, p3)
    ensures Adjust(p1, p2, p3).a == op.a
    ensures Adjust(p1, p2, p3).c == op.c
    ensures Adjust(p1, p2, p3).e == op.e
  {
    NumAOfFit(op, p1, p2, p3);
    NumCOfFit(op, p1, p2, p3);
    NumEOfFit(op, p1, p2, p3);
    DivideBack(NumA(p1, p2, p3), op.a, Denominator(p1, p2, p3));
    DivideBack(NumC(p1, p2, p3), op.c, Denominator(p1, p2, p3));
    DivideBack(NumE(p1, p2, p3), op.e, Denominator(p1, p2, p3));
  }

  lemma AdjustUniqueY(op: MatrixOp, p1: Sample, p2: Sample, p3: Sample)
    requires Denominator(p1, p2, p3) != 0.0
    requires Fits(op, p1) && Fits(op, p2) && Fits(op, p3)
    ensures Adjust(p1, p2, p3).b == op.b
    ensures Adjust(p1, p2, p3).d == op.d
    ensures Adjust(p1, p2, p3).f == op.f
  {
    NumBOfFit(op, p1, p2, p3);
    NumDOfFit(op, p1, p2, p3);
    NumFOfFit(op, p1, p2, p3);
    DivideBack(NumB(p1, p2, p3), op.b, Denominator(p1, p2, p3));
    DivideBack(NumD(p1, p2, p3), op.d, Denominator(p1, p2, p3));
    DivideBack(NumF(p1, p2, p3), op.f, Denominator(p1, p2, p3));
  }

  lemma DivideTimes(op: MatrixOp, n: real)
    requires n != 0.0
    ensures Divide(Times(op, n), n) == op
  {
    var t := Times(op, n);
    assert t == MatrixOp(op.a * n, op.b * n, op.c * n, op.d * n, op.e * n, op.f * n);
    DivideBack(t.a, op.a, n);
    DivideBack(t.b, op.b, n);
    DivideBack(t.c, op.c, n);
    DivideBack(t.d, op.d, n);
    DivideBack(t.e, op.e, n);
    DivideBack(t.f, op.f, n);
    assert Divide(t, n) == MatrixOp(t.a / n, t.b / n, t.c / n, t.d / n, t.e / n, t.f / n);
  }

  lemma DivideBack(num: real, x: real, dd: real)
    requires dd != 0.0 && num == x * dd
    ensures num / dd == x
  {
  }

  /** The order in which `adjust_run` hands over the three samples does not
      matter when the file positions are not collinear. */
  lemma AdjustSymmetric(p1: Sample, p2: Sample, p3: Sample)
    requires Denominator(p1, p2, p3) != 0.0
    ensures Denominator(p2, p1, p3) == -Denominator(p1, p2, p3)
    ensures Denominator(p1, p3, p2) == -Denominator(p1, p2, p3)
    ensures Adjust(p2, p1, p3) == Adjust(p1, p2, p3)
    ensures Adjust(p1, p3, p2) == Adjust(p1, p2, p3)
  {
    var op := Adjust(p1, p2, p3);
    AdjustFits(p1, p2, p3);
    AdjustUnique(op, p2, p1, p3);
    AdjustUnique(op, p1, p3, p2);
  }

  /** Samples that put three file positions at the same machine positions
      solve to the default (identity) matrix. */
  lemma AdjustIdentity()
    ensures Adjust(Sample(0.0, 0.0, 0.0, 0.0), Sample(10.0, 0.0, 10.0, 0.0), Sample(0.0, 10.0, 0.0, 10.0))
         == DefaultMatrixOp()
  {
    var p1, p2, p3 := Sample(0.0, 0.0, 0.0, 0.0), Sample(10.0, 0.0, 10.0, 0.0), Sample(0.0, 10.0, 0.0, 10.0);
    assert Denominator(p1, p2, p3) == 100.0;
    AdjustUnique(DefaultMatrixOp(), p1, p2, p3);
  }

  // ---------------------------------------------------------------------------
  // Averaging over all ordered triples of distinct samples (`adjust_run`)

  function Zero(): MatrixOp
  {
    MatrixOp(0.0, 0.0, 0.0, 0.0, 0.0, 0.0)
  }

  /** Coefficient-wise sum, as `resultop.a += job.op.a` and so on. */
  function Plus(x: MatrixOp, y: MatrixOp): MatrixOp
  {
    MatrixOp(x.a + y.a, x.b + y.b, x.c + y.c, x.d + y.d, x.e + y.e, x.f + y.f)
  }

  function Times(x: MatrixOp, k: real): MatrixOp
  {
    MatrixOp(x.a * k, x.b * k, x.c * k, x.d * k, x.e * k, x.f * k)
  }

  /** Coefficient-wise division, as `resultop.a /= resultop_div` and so on. */
  function Divide(x: MatrixOp, k: real): MatrixOp
    requires k != 0.0
  {
    MatrixOp(x.a / k, x.b / k, x.c / k, x.d / k, x.e / k, x.f / k)
  }

  /** Three list positions naming three different samples. */
  predicate Distinct(i: int, j: int, k: int)
  {
    i != j && i != k && j != k
  }

  /** No three different samples of the list have collinear file positions. */
  predicate AllSolvable(s: seq<Sample>)
  {
    forall i, j, k | 0 <= i < |s| && 0 <= j < |s| && 0 <= k < |s| && Distinct(i, j, k)
      :: Denominator(s[i], s[j], s[k]) != 0.0
  }

  /** What the innermost loop adds for positions (i, j, k): the solution of
      `adjust` when they name three different samples, nothing otherwise. */
  function Solutions(s: seq<Sample>): (nat, nat, nat) -> MatrixOp
    requires AllSolvable(s)
  {
    (i: nat, j: nat, k: nat) =>
      if i < |s| && j < |s| && k < |s| && Distinct(i, j, k) then Adjust(s[i], s[j], s[k]) else Zero()
  }

  /** The contributions of a3 = s[0], ..., s[k-1] for a1 = s[i], a2 = s[j]. */
  function SumK(t: (nat, nat, nat) -> MatrixOp, i: nat, j: nat, k: nat): MatrixOp
  {
    if k == 0 then Zero() else Plus(SumK(t, i, j, k - 1), t(i, j, k - 1))
  }

  /** The contributions of a2 = s[0], ..., s[j-1] for a1 = s[i], in a list of n. */
  function SumJ(t: (nat, nat, nat) -> MatrixOp, n: nat, i: nat, j: nat): MatrixOp
  {
    if j == 0 then Zero() else Plus(SumJ(t, n, i, j - 1), SumK(t, i, j - 1, n))
  }

  /** The contributions of a1 = s[0], ..., s[i-1], in a list of n. */
  function SumI(t: (nat, nat, nat) -> MatrixOp, n: nat, i: nat): MatrixOp
  {
    if i == 0 then Zero() else Plus(SumI(t, n, i - 1), SumJ(t, n, i - 1, n))
  }

  /** The entry of the solution table for positions (i, j, k). */
  lemma SolutionAt(s: seq<Sample>, i: nat, j: nat, k: nat)
    requires AllSolvable(s) && i < |s| && j < |s| && k < |s|
    ensures Distinct(i, j, k) ==> Denominator(s[i], s[j], s[k]) != 0.0
    ensures Distinct(i, j, k) ==> Solutions(s)(i, j, k) == Adjust(s[i], s[j], s[k])
    ensures !Distinct(i, j, k) ==> Solutions(s)(i, j, k) == Zero()
  {
  }

  /** One more contribution added to a running sum. */
  lemma SumKStep(t: (nat, nat, nat) -> MatrixOp, i: nat, j: nat, k: nat, x: MatrixOp, sum: MatrixOp)
    requires sum == Plus(x, SumK(t, i, j, k))
    ensures Plus(sum, t(i, j, k)) == Plus(x, SumK(t, i, j, k + 1))
  {
  }

  /** A skipped position contributes nothing. */
  lemma SumKSkip(t: (nat, nat, nat) -> MatrixOp, i: nat, j: nat, k: nat, x: MatrixOp, sum: MatrixOp)
    requires t(i, j, k) == Zero() && sum == Plus(x, SumK(t, i, j, k))
    ensures sum == Plus(x, SumK(t, i, j, k + 1))
  {
  }

  /** How many times the innermost loop increments `resultop_div`. */
  function CountK(n: nat, i: nat, j: nat, k: nat): nat
  {
    if k == 0 then 0 else CountK(n, i, j, k - 1) + (if Distinct(i, j, k - 1) then 1 else 0)
  }

  function CountJ(n: nat, i: nat, j: nat): nat
  {
    if j == 0 then 0 else CountJ(n, i, j - 1) + CountK(n, i, j - 1, n)
  }

  function CountI(n: nat, i: nat): nat
  {
    if i == 0 then 0 else CountI(n, i - 1) + CountJ(n, i - 1, n)
  }

  /** The number of ordered triples of distinct positions among n. */
  function TripleCount(n: nat): nat
  {
    n * (n - 1) * (n - 2)
  }

  lemma TripleCountPositive(n: nat)
    requires n >= 3
    ensures TripleCount(n) >= 6
  {
    assert n * (n - 1) >= 6;
    assert n * (n - 1) * (n - 2) >= n * (n - 1);
  }

  /** The matrix `adjust_run` installs: the mean of the solutions for every
      ordered triple of distinct samples. */
  function Average(s: seq<Sample>): MatrixOp
    requires |s| >= 3 && AllSolvable(s)
  {
    TripleCountPositive(|s|);
    Divide(SumI(Solutions(s), |s|, |s|), TripleCount(|s|) as real)
  }

  lemma {:induction false} CountKClosed(n: nat, i: nat, j: nat, k: nat)
    decreases k
    requires i < n && j < n && k <= n
    ensures CountK(n, i, j, k)
         == if i == j then 0 else k - (if i < k then 1 else 0) - (if j < k then 1 else 0)
  {
    if k > 0 {
      CountKClosed(n, i, j, k - 1);
    }
  }

  lemma {:induction false} CountJClosed(n: nat, i: nat, j: nat)
    decreases j
    requires i < n && j <= n && n >= 2
    ensures CountJ(n, i, j) == (j - (if i < j then 1 else 0)) * (n - 2)
  {
    if j > 0 {
      var m := n - 2;
      var c := if i < j - 1 then 1 else 0;
      CountJClosed(n, i, j - 1);
      CountKClosed(n, i, j - 1, n);
      assert CountJ(n, i, j - 1) == (j - 1 - c) * m;
      if i == j - 1 {
        assert CountK(n, i, j - 1, n) == 0;
      } else {
        assert CountK(n, i, j - 1, n) == m;
        MultiplyStep(j - 1 - c, m);
      }
    }
  }

  lemma MultiplyStep(x: int, m: int)
    ensures x * m + m == (x + 1) * m
  {
  }

  lemma {:induction false} CountIClosed(n: nat, i: nat)
    decreases i
    requires i <= n && n >= 2
    ensures CountI(n, i) == i * ((n - 1) * (n - 2))
  {
    if i > 0 {
      var m := (n - 1) * (n - 2);
      CountIClosed(n, i - 1);
      CountJClosed(n, i - 1, n);
      assert CountJ(n, i - 1, n) == (n - 1) * (n - 2);
      MultiplyStep(i - 1, m);
    }
  }

  /** `resultop_div` ends as the number of ordered triples of distinct samples. */
  lemma CountTotal(n: nat)
    requires n >= 2
    ensures CountI(n, n) == TripleCount(n)
  {
    CountIClosed(n, n);
    assert n * ((n - 1) * (n - 2)) == n * (n - 1) * (n - 2);
  }

  /** Every solution among the first n samples is op. */
  ghost predicate ConstantOn(t: (nat, nat, nat) -> MatrixOp, n: nat, op: MatrixOp)
  {
    forall i: nat, j: nat, k: nat | i < n && j < n && k < n
      :: t(i, j, k) == if Distinct(i, j, k) then op else Zero()
  }

  /** When op reproduces every sample, every three different samples solve to op. */
  lemma SolutionsExact(s: seq<Sample>, op: MatrixOp)
    requires AllSolvable(s)
    requires forall m | 0 <= m < |s| :: Fits(op, s[m])
    ensures ConstantOn(Solutions(s), |s|, op)
  {
    forall i: nat, j: nat, k: nat | i < |s| && j < |s| && k < |s| && Distinct(i, j, k)
      ensures Adjust(s[i], s[j], s[k]) == op
    {
      AdjustUnique(op, s[i], s[j], s[k]);
    }
  }

  lemma AddTimes(op: MatrixOp, x: real, y: real)
    ensures Plus(Times(op, x), Times(op, y)) == Times(op, x + y)
  {
    assert op.a * x + op.a * y == op.a * (x + y);
    assert op.b * x + op.b * y == op.b * (x + y);
    assert op.c * x + op.c * y == op.c * (x + y);
    assert op.d * x + op.d * y == op.d * (x + y);
    assert op.e * x + op.e * y == op.e * (x + y);
    assert op.f * x + op.f * y == op.f * (x + y);
  }

  lemma TimesOne(op: MatrixOp)
    ensures Times(op, 1.0) == op
  {
  }

  lemma TimesZero(op: MatrixOp)
    ensures Times(op, 0.0) == Zero()
  {
  }

  lemma {:induction false} SumKExact(t: (nat, nat, nat) -> MatrixOp, n: nat, op: MatrixOp,
                                     i: nat, j: nat, k: nat)
    decreases k
    requires ConstantOn(t, n, op) && i < n && j < n && k <= n
    ensures SumK(t, i, j, k) == Times(op, CountK(n, i, j, k) as real)
  {
    if k == 0 {
      TimesZero(op);
    } else {
      var x := CountK(n, i, j, k - 1) as real;
      SumKExact(t, n, op, i, j, k - 1);
      if Distinct(i, j, k - 1) {
        TimesOne(op);
        assert t(i, j, k - 1) == Times(op, 1.0);
        AddTimes(op, x, 1.0);
      } else {
        TimesZero(op);
        assert t(i, j, k - 1) == Times(op, 0.0);
        AddTimes(op, x, 0.0);
      }
    }
  }

  lemma {:induction false} SumJExact(t: (nat, nat, nat) -> MatrixOp, n: nat, op: MatrixOp,
                                     i: nat, j: nat)
    decreases j
    requires ConstantOn(t, n, op) && i < n && j <= n
    ensures SumJ(t, n, i, j) == Times(op, CountJ(n, i, j) as real)
  {
    TimesZero(op);
    if j > 0 {
      SumJExact(t, n, op, i, j - 1);
      SumKExact(t, n, op, i, j - 1, n);
      AddTimes(op, CountJ(n, i, j - 1) as real, CountK(n, i, j - 1, n) as real);
    }
  }

  lemma {:induction false} SumIExact(t: (nat, nat, nat) -> MatrixOp, n: nat, op: MatrixOp, i: nat)
    decreases i
    requires ConstantOn(t, n, op) && i <= n
    ensures SumI(t, n, i) == Times(op, CountI(n, i) as real)
  {
    TimesZero(op);
    if i > 0 {
      SumIExact(t, n, op, i - 1);
      SumJExact(t, n, op, i - 1, n);
      AddTimes(op, CountI(n, i - 1) as real, CountJ(n, i - 1, n) as real);
    }
  }

  /** When every recorded sample is reproduced exactly by some matrix (and no
      three are collinear), `adjust_run` recovers exactly that matrix. */
  lemma AverageExact(s: seq<Sample>, op: MatrixOp)
    requires |s| >= 3 && AllSolvable(s)
    requires forall m | 0 <= m < |s| :: Fits(op, s[m])
    ensures Average(s) == op
  {
    SolutionsExact(s, op);
    SumIExact(Solutions(s), |s|, op, |s|);
    CountTotal(|s|);
    TripleCountPositive(|s|);
    var n := TripleCount(|s|) as real;
    assert SumI(Solutions(s), |s|, |s|) == Times(op, n);
    DivideTimes(op, n);
  }

  /** The smallest calibration: the head jogged onto three corner holes of a
      board that sits on the machine shifted by (dx, dy) and not rotated; the
      computed matrix is the pure translation. */
  lemma ShiftedBoard(s: seq<Sample>, dx: real, dy: real)
    requires s == [Sample(0.0, 0.0, dx, dy), Sample(10.0, 0.0, 10.0 + dx, dy),
                   Sample(0.0, 10.0, dx, 10.0 + dy)]
    ensures AllSolvable(s) && Average(s) == MatrixOp(1.0, 0.0, 0.0, 1.0, dx, dy)
  {
    var op := MatrixOp(1.0, 0.0, 0.0, 1.0, dx, dy);
    forall i, j, k | 0 <= i < |s| && 0 <= j < |s| && 0 <= k < |s| && Distinct(i, j, k)
      ensures Denominator(s[i], s[j], s[k]) != 0.0
    {
      assert Denominator(s[i], s[j], s[k]) == 100.0 || Denominator(s[i], s[j], s[k]) == -100.0;
    }
    assert Fits(op, s[0]) && Fits(op, s[1]) && Fits(op, s[2]);
    AverageExact(s, op);
  }

  /** The three nested loops of `adjust_run` over the sample list: the sum of
      the solutions of all ordered triples of different samples, and their count. */
  method SumSolutions(s: seq<Sample>) returns (sum: MatrixOp, div: int)
    requires AllSolvable(s)
    ensures sum == SumI(Solutions(s), |s|, |s|) && div == CountI(|s|, |s|)
  {
    sum := Zero();
    div := 0;
    for i := 0 to |s|
      invariant sum == SumI(Solutions(s), |s|, i) && div == CountI(|s|, i)
    {
      sum, div := AddSecondSamples(s, i, sum, div);
    }
  }

  /** The middle loop of `adjust_run`: for a1 = s[i], every a2 and a3. */
  method AddSecondSamples(s: seq<Sample>, i: nat, sum0: MatrixOp, div0: int)
    returns (sum: MatrixOp, div: int)
    requires AllSolvable(s) && i < |s|
    ensures sum == Plus(sum0, SumJ(Solutions(s), |s|, i, |s|))
    ensures div == div0 + CountJ(|s|, i, |s|)
  {
    sum, div := sum0, div0;
    for j := 0 to |s|
      invariant sum == Plus(sum0, SumJ(Solutions(s), |s|, i, j))
      invariant div == div0 + CountJ(|s|, i, j)
    {
      sum, div := AddThirdSamples(s, i, j, sum, div);
    }
  }

  /** The innermost loop of `adjust_run`: for a1 = s[i] and a2 = s[j], add the
      solution for every third sample different from both. */
  method AddThirdSamples(s: seq<Sample>, i: nat, j: nat, sum0: MatrixOp, div0: int)
    returns (sum: MatrixOp, div: int)
    requires AllSolvable(s) && i < |s| && j < |s|
    ensures sum == Plus(sum0, SumK(Solutions(s), i, j, |s|))
    ensures div == div0 + CountK(|s|, i, j, |s|)
  {
    var n := |s|;
    ghost var t := Solutions(s);
    sum, div := sum0, div0;
    for k := 0 to n
      invariant sum == Plus(sum0, SumK(t, i, j, k))
      invariant div == div0 + CountK(n, i, j, k)
    {
      SolutionAt(s, i, j, k);
      if i == j || i == k || j == k {
        SumKSkip(t, i, j, k, sum0, sum);
        continue;
      }
      var op := Adjust(s[i], s[j], s[k]);
      SumKStep(t, i, j, k, sum0, sum);
      sum := Plus(sum, op);
      div := div + 1;
    }
  }

  // ---------------------------------------------------------------------------
  // The calibration state of the program

  /** The globals `active_matrixop`, `adj_list` and `adj_count`. The list is
      kept newest first, as the source prepends. */
  class Calibrator {
    var activeOp: MatrixOp
    var adjList: seq<Sample>
    var adjCount: int

    ghost predicate Valid()
      reads this
    {
      adjCount == |adjList|
    }

    /** Start-up: no samples and the default (identity) matrix. */
    constructor ()
      ensures Valid() && adjList == [] && activeOp == DefaultMatrixOp()
    {
      activeOp := DefaultMatrixOp();
      adjList := [];
      adjCount := 0;
    }

    /** The machine position of a file position under the active matrix. */
    function MachinePosition(xf: real, yf: real): (r: Point)
      reads this
    {
      Transform(activeOp, xf, yf)
    }

    /** Key `p`: record the current target (file position) and the current
        head position (machine position) as a new sample at the list head. */
    method RecordSample(targetX: real, targetY: real, cncX: real, cncY: real)
      requires Valid()
      modifies this`adjList, this`adjCount
      ensures Valid()
      ensures adjList == [Sample(targetX, targetY, cncX, cncY)] + old(adjList)
    {
      adjList := [Sample(targetX, targetY, cncX, cncY)] + adjList;
      adjCount := adjCount + 1;
    }

    /** `adjust_run`: with fewer than three samples nothing changes; otherwise
        the mean of the solutions for all ordered triples of distinct samples
        becomes the active matrix and the samples are discarded. */
    method AdjustRun() returns (ran: bool)
      requires Valid()
      requires |adjList| >= 3 ==> AllSolvable(adjList)
      modifies this
      ensures Valid()
      ensures ran <==> old(adjCount) >= 3
      ensures !ran ==> activeOp == old(activeOp) && adjList == old(adjList)
      ensures ran ==> activeOp == Average(old(adjList)) && adjList == []
    {
      if adjCount < 3 {
        return false;
      }
      var s := adjList;
      var n := |s|;
      var sum, div := SumSolutions(s);
      CountTotal(n);
      TripleCountPositive(n);
      activeOp := Divide(sum, div as real);
      adjList := [];
      adjCount := 0;
      return true;
    }
  }

  /** Calibrating after the three samples of a shifted board makes the program
      place every file position at its shifted machine position. */
  method CalibrateShiftedBoard(dx: real, dy: real) returns (x: real, y: real)
    ensures x == 37.0 + dx && y == 5.0 + dy
  {
    var cal := new Calibrator();
    cal.RecordSample(0.0, 10.0, dx, 10.0 + dy);
    cal.RecordSample(10.0, 0.0, 10.0 + dx, dy);
    cal.RecordSample(0.0, 0.0, dx, dy);
    ShiftedBoard(cal.adjList, dx, dy);
    var ran := cal.AdjustRun();
    assert cal.activeOp == MatrixOp(1.0, 0.0, 0.0, 1.0, dx, dy);
    var p := cal.MachinePosition(37.0, 5.0);
    x, y := p.x, p.y;
  }
}
