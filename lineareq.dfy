/** Solve `A x = y` for a random 50x50 matrix `A` (row-major) and a
    50-vector `y`; the score is 2500 minus the L1 norm of the residual. */
module LinearEq {
  import opened Num

  const MatSize: nat := 50

  datatype LinearEquationProblem = LinearEquationProblem(matrixA: seq<real>, vectorY: seq<real>)

  predicate WellFormed(p: LinearEquationProblem)
  {
    |p.matrixA| == MatSize * MatSize && |p.vectorY| == MatSize
  }

  /** `random`: the 2500 matrix entries are drawn first, row by row, then the
      50 entries of `y`, all from `Standard`. */
  function Random(draws: seq<real>): (p: LinearEquationProblem)
    requires MatSize * MatSize + MatSize <= |draws| && UnitDraws(draws)
    ensures WellFormed(p)
    ensures UnitDraws(p.matrixA) && UnitDraws(p.vectorY)
    ensures p.matrixA == draws[..2500] && p.vectorY == draws[2500..2550]
  {
    LinearEquationProblem(draws[..2500], draws[2500..2550])
  }

  /** `get_sol_conf`. */
  function SolConf(p: LinearEquationProblem): nat
  {
    MatSize
  }

  function Dot(u: seq<real>, v: seq<real>): real
    requires |u| == |v|
  {
    if u == [] then 0.0 else u[0] * v[0] + Dot(u[1..], v[1..])
  }

  function Row(p: LinearEquationProblem, i: nat): (r: seq<real>)
    requires WellFormed(p) && i < MatSize
    ensures |r| == MatSize
  {
    p.matrixA[i * MatSize..(i + 1) * MatSize]
  }

  /** `A x - y`; the matrix-vector product panics unless `x` has 50 entries. */
  function Residual(p: LinearEquationProblem, x: seq<real>): (r: seq<real>)
    requires WellFormed(p) && |x| == MatSize
    ensures |r| == MatSize
  {
    seq(MatSize, i requires 0 <= i < MatSize => Dot(Row(p, i), x) - p.vectorY[i])
  }

  function AbsAll(s: seq<real>): (r: seq<real>)
    ensures |r| == |s| && forall i :: 0 <= i < |s| ==> r[i] == Abs(s[i])
  {
    seq(|s|, i requires 0 <= i < |s| => Abs(s[i]))
  }

  /** `play` (and so `evaluate`): `MAT_SIZE^2 - |A x - y|_1`. */
  function Evaluate(p: LinearEquationProblem, x: seq<real>): real
    requires WellFormed(p) && |x| == MatSize
  {
    (MatSize * MatSize) as real - Sum(AbsAll(Residual(p, x)))
  }

  /** The score never exceeds 2500 and equals it exactly when `A x = y`. */
  lemma EvaluateBound(p: LinearEquationProblem, x: seq<real>)
    requires WellFormed(p) && |x| == MatSize
    ensures Evaluate(p, x) <= 2500.0
    ensures Evaluate(p, x) == 2500.0 <==> forall i :: 0 <= i < MatSize ==> Dot(Row(p, i), x) == p.vectorY[i]
  {
    var r := AbsAll(Residual(p, x));
    SumNonNegative(r);
    assert Evaluate(p, x) == 2500.0 <==> forall i :: 0 <= i < MatSize ==> r[i] == 0.0;
    assert forall i :: 0 <= i < MatSize ==> (r[i] == 0.0 <==> Dot(Row(p, i), x) == p.vectorY[i]);
  }
}
