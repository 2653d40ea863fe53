/** The simplest benchmark: get close to a list of numbers. The score is
    100 minus the L1 distance over the zipped prefix, plus a "product" term
    that is a fold starting from 0 and therefore always 0. */
module EasyProblem {
  import opened Num

  datatype EasyProblem = EasyProblem(numbers: seq<real>)

  /** `random`: `conf` numbers, each a `Standard` draw times 10. */
  function Random(conf: nat, draws: seq<real>): (p: EasyProblem)
    requires conf <= |draws| && UnitDraws(draws)
    ensures |p.numbers| == conf
    ensures forall i :: 0 <= i < conf ==> 0.0 <= p.numbers[i] < 10.0
  {
    EasyProblem(seq(conf, i requires 0 <= i < conf => draws[i] * 10.0))
  }

  /** `get_sol_conf`: one gene per number. */
  function SolConf(p: EasyProblem): nat
  {
    |p.numbers|
  }

  /** `iter().fold(acc, |acc, x| acc * x)`. */
  function Fold(s: seq<real>, acc: real): real
  {
    if s == [] then acc else Fold(s[1..], acc * s[0])
  }

  /** A product folded from 0.0 is 0, whatever the genes. */
  lemma {:induction false} FoldFromZero(s: seq<real>)
    ensures Fold(s, 0.0) == 0.0
  {
    if s != [] {
      FoldFromZero(s[1..]);
    }
  }

  /** Sum of `|a_i - b_i|` over `a.iter().zip(b.iter())`. */
  function Diff(a: seq<real>, b: seq<real>): real
  {
    if a == [] || b == [] then 0.0 else Abs(a[0] - b[0]) + Diff(a[1..], b[1..])
  }

  /** `evaluate` on the genes `sol.1`. */
  function Evaluate(p: EasyProblem, genes: seq<real>): real
  {
    100.0 + Fold(genes, 0.0) - Diff(p.numbers, genes)
  }

  lemma {:induction false} DiffZero(a: seq<real>, b: seq<real>)
    ensures 0.0 <= Diff(a, b)
    ensures Diff(a, b) == 0.0 <==> forall i :: 0 <= i < |a| && i < |b| ==> a[i] == b[i]
  {
    if a != [] && b != [] {
      DiffZero(a[1..], b[1..]);
      assert forall i :: 1 <= i < |a| && i < |b| ==> a[1..][i - 1] == a[i] && b[1..][i - 1] == b[i];
    }
  }

  /** The score is at most 100 and reaches 100 exactly when the genes match
      the numbers on every compared (zipped) position. */
  lemma EvaluateBound(p: EasyProblem, genes: seq<real>)
    ensures Evaluate(p, genes) == 100.0 - Diff(p.numbers, genes)
    ensures Evaluate(p, genes) <= 100.0
    ensures Evaluate(p, genes) == 100.0 <==>
            forall i :: 0 <= i < |p.numbers| && i < |genes| ==> p.numbers[i] == genes[i]
  {
    FoldFromZero(genes);
    DiffZero(p.numbers, genes);
  }
}
