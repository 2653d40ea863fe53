/** `AllProblemsCompilation`: one of the benchmark problems, picked at
    random, that delegates every operation to the problem it wraps. */
module Compilation {
  import opened Num
  import M = Maze
  import L = LinearEq
  import W = WallJump
  import E = EasyProblem
  import T = TurnAround

  datatype AllProblemsCompilation =
    | Maze(maze: M.MazeProblem)
    | LinEq(linEq: L.LinearEquationProblem)
    | WallJump(wallJump: W.WallJumpProblem)
    | Easy(easy: E.EasyProblem)
    | Turn(turn: T.TurnAroundProblem)

  /** The shape invariants the wrapped problem's constructor establishes. */
  ghost predicate WellFormed(p: AllProblemsCompilation)
  {
    match p
    case Maze(m) => M.WellFormed(m)
    case LinEq(l) => L.WellFormed(l)
    case _ => true
  }

  /** `random`: `tag` is the `gen_range(0, 4)` draw, so the last arm, which
      builds `Turn`, is never taken. `conf` goes unchanged to the chosen
      constructor; the problems that ignore it ignore it here too. */
  method Random(tag: nat, conf: nat, draws: seq<real>, shuffle: (nat, seq<M.Pos>) -> seq<M.Pos>)
    returns (p: AllProblemsCompilation)
    requires UnitDraws(draws)
    requires tag == 0 ==> 1 <= conf && conf * M.SolSize < M.I32Max
    requires tag == 0 ==> forall k, s :: multiset(shuffle(k, s)) == multiset(s)
    requires tag == 1 || 4 <= tag ==> 4 <= |draws|
    requires tag == 2 ==> conf <= |draws|
    requires tag == 3 ==> L.MatSize * L.MatSize + L.MatSize <= |draws|
    ensures WellFormed(p)
    ensures tag == 0 <==> p.Maze?
    ensures tag == 1 <==> p.WallJump?
    ensures tag == 2 <==> p.Easy?
    ensures tag == 3 <==> p.LinEq?
    ensures tag < 4 ==> !p.Turn?
    ensures p.Maze? ==> p.maze.mazeSize == conf
    ensures p.Easy? ==> p.easy == E.Random(conf, draws)
    ensures p.WallJump? ==> p.wallJump == W.Random(draws[0], draws[1])
    ensures p.LinEq? ==> p.linEq == L.Random(draws)
    ensures p.Turn? ==> p.turn == T.Random(draws)
  {
    if tag == 0 {
      var m, _, _ := M.Random(conf, shuffle);
      p := Maze(m);
    } else if tag == 1 {
      p := WallJump(W.Random(draws[0], draws[1]));
    } else if tag == 2 {
      p := Easy(E.Random(conf, draws));
    } else if tag == 3 {
      p := LinEq(L.Random(draws));
    } else {
      p := Turn(T.Random(draws));
    }
  }

  /** `get_sol_conf`, delegated. */
  function SolConf(p: AllProblemsCompilation): nat
  {
    match p
    case Maze(m) => M.SolConf(m)
    case LinEq(l) => L.SolConf(l)
    case WallJump(w) => W.SolConf(w)
    case Easy(e) => E.SolConf(e)
    case Turn(t) => T.SolConf(t)
  }

  /** What the wrapped problem's evaluation needs of the genes: enough of
      them for every index it reads, and exactly 50 for the matrix product. */
  ghost predicate CanEvaluate(p: AllProblemsCompilation, genes: seq<real>)
  {
    WellFormed(p) &&
    match p
    case Maze(m) => M.Moves(m) == 0 || 2 * (M.Moves(m) - 1) < |genes|
    case LinEq(l) => |genes| == L.MatSize
    case WallJump(w) => 2 * (W.Turns - 1) < |genes|
    case Easy(e) => true
    case Turn(t) => 2 * (T.Turns - 1) < |genes|
  }

  /** A gene vector of the length `get_sol_conf` asks for can be evaluated. */
  lemma SolConfFits(p: AllProblemsCompilation, genes: seq<real>)
    requires WellFormed(p) && |genes| == SolConf(p)
    ensures CanEvaluate(p, genes)
  {
    if p.Maze? {
      assert 2 * (M.Moves(p.maze) - 1) < M.SolConf(p.maze);
    }
  }

  /** The value `evaluate` returns. */
  function Score(p: AllProblemsCompilation, genes: seq<real>): real
    requires CanEvaluate(p, genes)
  {
    match p
    case Maze(m) => M.Evaluate(m, genes)
    case LinEq(l) => L.Evaluate(l, genes)
    case WallJump(w) => W.Evaluate(w, genes)
    case Easy(e) => E.Evaluate(e, genes)
    case Turn(t) => T.Evaluate(t, genes)
  }

  /** `evaluate`: runs the wrapped problem's own evaluation on the same genes. */
  method Evaluate(p: AllProblemsCompilation, genes: seq<real>) returns (r: real)
    requires CanEvaluate(p, genes)
    ensures r == Score(p, genes)
    ensures p.Maze? ==> r == M.Evaluate(p.maze, genes)
    ensures p.LinEq? ==> r == L.Evaluate(p.linEq, genes)
    ensures p.WallJump? ==> r == W.Evaluate(p.wallJump, genes)
    ensures p.Easy? ==> r == E.Evaluate(p.easy, genes)
    ensures p.Turn? ==> r == T.Evaluate(p.turn, genes)
  {
    match p
    case Maze(m) => r := M.Play(m, genes);
    case LinEq(l) => r := L.Evaluate(l, genes);
    case WallJump(w) => r := W.Play(w, genes);
    case Easy(e) => r := E.Evaluate(e, genes);
    case Turn(t) => r := T.Play(t, genes);
  }
}
