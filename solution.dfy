/** The solution contract's default behaviour (`Solution::child`,
    `Solution::mutate`), the `GenericSol` tuple every problem uses,
    `SingleStepProblem::add_scores_all`, and `PlayAgainst`, which turns a
    two-player game with a fixed opponent into a many-step problem. */
module Solutions {
  import opened Num

  /** `GenericSol = (f64, Vector<f64>)`: the accumulated score and the genes. */
  datatype Sol = Sol(score: real, genes: seq<real>)

  function Min(a: nat, b: nat): nat
  {
    if a <= b then a else b
  }

  /** `GenericSol::random`: the first `conf` draws of `Standard`, score 0. */
  function Random(conf: nat, draws: seq<real>): (s: Sol)
    requires conf <= |draws| && UnitDraws(draws)
    ensures s.score == 0.0 && |s.genes| == conf
    ensures UnitDraws(s.genes)
    ensures forall i :: 0 <= i < conf ==> s.genes[i] == draws[i]
  {
    Sol(0.0, draws[..conf])
  }

  /** `from_vec`: a fresh solution starts with score 0. */
  function FromVec(v: seq<real>): (s: Sol)
    ensures s.score == 0.0 && s.genes == v
  {
    Sol(0.0, v)
  }

  function AddScore(s: Sol, x: real): (t: Sol)
    ensures t.genes == s.genes && t.score == s.score + x
  {
    s.(score := s.score + x)
  }

  function ResetScore(s: Sol): (t: Sol)
    ensures t.genes == s.genes && t.score == 0.0
  {
    s.(score := 0.0)
  }

  function GetScore(s: Sol): real
  {
    s.score
  }

  /** After a reset, the score holds exactly what was added since. */
  lemma ResetThenAdd(s: Sol, x: real, y: real)
    ensures GetScore(AddScore(AddScore(ResetScore(s), x), y)) == x + y
    ensures AddScore(AddScore(ResetScore(s), x), y).genes == s.genes
  {
  }

  /** `Solution::child`: the genes are zipped, so the child is as long as the
      shorter parent; draw `picks[i]` (a random `bool`) takes gene `i` from
      `a` when true and from `b` otherwise. */
  function Child(a: Sol, b: Sol, picks: seq<bool>): (c: Sol)
    requires Min(|a.genes|, |b.genes|) <= |picks|
    ensures c.score == 0.0
    ensures |c.genes| == Min(|a.genes|, |b.genes|)
    ensures forall i :: 0 <= i < |c.genes| ==> c.genes[i] == a.genes[i] || c.genes[i] == b.genes[i]
    ensures forall i :: 0 <= i < |c.genes| && picks[i] ==> c.genes[i] == a.genes[i]
    ensures forall i :: 0 <= i < |c.genes| && !picks[i] ==> c.genes[i] == b.genes[i]
  {
    FromVec(seq(Min(|a.genes|, |b.genes|), i requires 0 <= i < Min(|a.genes|, |b.genes|) =>
      if picks[i] then a.genes[i] else b.genes[i]))
  }

  /** Crossing a solution with itself reproduces its genes whatever the draws. */
  lemma ChildOfTwins(a: Sol, b: Sol, picks: seq<bool>)
    requires a.genes == b.genes && |a.genes| <= |picks|
    ensures Child(a, b, picks).genes == a.genes
  {
  }

  /** Swapping the parents and negating every draw gives the same child. */
  lemma ChildSymmetric(a: Sol, b: Sol, picks: seq<bool>, flipped: seq<bool>)
    requires Min(|a.genes|, |b.genes|) <= |picks| == |flipped|
    requires forall i :: 0 <= i < |picks| ==> flipped[i] == !picks[i]
    ensures Child(a, b, picks) == Child(b, a, flipped)
  {
    assert Child(a, b, picks).genes == Child(b, a, flipped).genes;
  }

  /** The factor `2 * mutrate * (r - 0.5)` applied to a gene by `mutate`. */
  function MutationFactor(mutrate: real, r: real): real
  {
    2.0 * mutrate * (r - 0.5)
  }

  /** With `r` in [0,1), the factor is at most `mutrate` in magnitude. */
  lemma MutationShrinks(g: real, mutrate: real, r: real)
    requires 0.0 <= mutrate && 0.0 <= r < 1.0
    ensures Abs(g * MutationFactor(mutrate, r)) <= mutrate * Abs(g)
  {
    var f := MutationFactor(mutrate, r);
    assert -mutrate <= f <= mutrate;
    if g >= 0.0 {
      assert g * f <= g * mutrate && -(g * mutrate) <= g * f;
    } else {
      assert g * f <= -g * mutrate && g * mutrate <= g * f;
    }
  }

  /** `t` is `s` with every gene multiplied by its mutation factor. */
  ghost predicate IsMutation(t: Sol, s: Sol, mutrate: real, draws: seq<real>)
    requires |s.genes| <= |draws|
  {
    t.score == s.score && |t.genes| == |s.genes| &&
    forall i :: 0 <= i < |s.genes| ==> t.genes[i] == s.genes[i] * MutationFactor(mutrate, draws[i])
  }

  /** `Solution::mutate`: multiplies every gene, in order, by its factor;
      draw `draws[i]` is the `gen::<f64>()` consumed for gene `i`. */
  method Mutate(s: Sol, mutrate: real, draws: seq<real>) returns (t: Sol)
    requires |s.genes| <= |draws| && UnitDraws(draws)
    ensures t.score == s.score && |t.genes| == |s.genes|
    ensures forall i :: 0 <= i < |s.genes| ==> t.genes[i] == s.genes[i] * MutationFactor(mutrate, draws[i])
    ensures 0.0 <= mutrate ==> forall i :: 0 <= i < |s.genes| ==> Abs(t.genes[i]) <= mutrate * Abs(s.genes[i])
    ensures IsMutation(t, s, mutrate, draws)
  {
    var genes := s.genes;
    for i := 0 to |genes|
      invariant |genes| == |s.genes|
      invariant forall k :: 0 <= k < i ==> genes[k] == s.genes[k] * MutationFactor(mutrate, draws[k])
      invariant forall k :: i <= k < |genes| ==> genes[k] == s.genes[k]
    {
      genes := genes[i := genes[i] * MutationFactor(mutrate, draws[i])];
    }
    t := s.(genes := genes);
    if 0.0 <= mutrate {
      forall i | 0 <= i < |s.genes| ensures Abs(t.genes[i]) <= mutrate * Abs(s.genes[i]) {
        MutationShrinks(s.genes[i], mutrate, draws[i]);
      }
    }
  }

  /** `SingleStepProblem::add_scores_all`: every solution, in list order, gets
      its own evaluation added to its score. The problems of this repository
      do not change themselves or the solution while evaluating, so the
      evaluation is a function of the genes. */
  method AddScoresAll(evaluate: seq<real> --> real, sols: seq<Sol>) returns (r: seq<Sol>)
    requires forall i :: 0 <= i < |sols| ==> evaluate.requires(sols[i].genes)
    ensures |r| == |sols|
    ensures forall i :: 0 <= i < |sols| ==> r[i].genes == sols[i].genes
    ensures forall i :: 0 <= i < |sols| ==> r[i].score == sols[i].score + evaluate(sols[i].genes)
  {
    r := sols;
    for i := 0 to |r|
      invariant |r| == |sols|
      invariant forall k :: 0 <= k < i ==> r[k] == AddScore(sols[k], evaluate(sols[k].genes))
      invariant forall k :: i <= k < |r| ==> r[k] == sols[k]
    {
      var score := evaluate(r[i].genes);
      r := r[i := AddScore(r[i], score)];
    }
  }

  /** The two-player game and fixed-opponent operations `PlayAgainst` uses
      (`TwoPlayerGame::play_move`/`score`, `TwoPlayerAI::init`/`next_move`);
      the repository has no implementation of them, so they are inputs. */
  datatype TwoPlayer<!A, !G> = TwoPlayer(
    init: (G, bool) -> A,
    nextMove: (A, G) -> (A, seq<real>),
    playMove: (G, seq<real>, bool) -> G,
    score: (G, bool) -> real)

  /** A two-player game against a fixed opponent; the opponent is player two. */
  datatype PlayAgainst<A, G> = PlayAgainst(ai: A, game: G)

  /** `PlayAgainst::random`, given the game `G::random` produced. */
  function PlayAgainstRandom<A, G>(ops: TwoPlayer<A, G>, game: G): (p: PlayAgainst<A, G>)
    ensures p.game == game && p.ai == ops.init(game, false)
  {
    PlayAgainst(ops.init(game, false), game)
  }

  /** `PlayAgainst::make_step`: the opponent moves first, as player two, then
      the caller's choice is played as player one. */
  function MakeStep<A, G>(ops: TwoPlayer<A, G>, p: PlayAgainst<A, G>, choice: seq<real>): (q: PlayAgainst<A, G>)
  {
    var (ai, aiMove) := ops.nextMove(p.ai, p.game);
    PlayAgainst(ai, ops.playMove(ops.playMove(p.game, aiMove, false), choice, true))
  }

  /** `PlayAgainst::evaluate`: player one's score. */
  function Evaluate<A, G>(ops: TwoPlayer<A, G>, p: PlayAgainst<A, G>): real
  {
    ops.score(p.game, true)
  }

  /** A game that only records its moves, as (move, player-one?) pairs. */
  type MoveLog = seq<(seq<real>, bool)>

  function RecordingGame<A>(init: (MoveLog, bool) -> A, nextMove: (A, MoveLog) -> (A, seq<real>)): TwoPlayer<A, MoveLog>
  {
    TwoPlayer(init, nextMove, (g: MoveLog, m: seq<real>, one: bool) => g + [(m, one)],
      (g: MoveLog, one: bool) => |g| as real)
  }

  /** Every step appends exactly two moves: first the opponent's, as player
      two, then the caller's choice, as player one; earlier moves stay. */
  lemma MakeStepOrder<A>(init: (MoveLog, bool) -> A, nextMove: (A, MoveLog) -> (A, seq<real>),
                         p: PlayAgainst<A, MoveLog>, choice: seq<real>)
    ensures var q := MakeStep(RecordingGame(init, nextMove), p, choice);
            |q.game| == |p.game| + 2 && q.game[..|p.game|] == p.game &&
            q.game[|p.game|] == (nextMove(p.ai, p.game).1, false) &&
            q.game[|p.game| + 1] == (choice, true) &&
            q.ai == nextMove(p.ai, p.game).0
  {
  }
}
