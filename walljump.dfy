/** A creature runs right and may jump over a wall. Each of 25 turns reads
    a run gene `sol[i]` and a jump gene `sol[2i]`; the score is the final
    horizontal position. */
module WallJump {

  datatype WallJumpProblem = WallJumpProblem(wallPos: real, wallHeight: real)

  const Turns: nat := 25

  /** `random`: `wall_pos = 2 + 10 r0`, `wall_height = 5 + 10 r1`. */
  function Random(r0: real, r1: real): (p: WallJumpProblem)
    requires 0.0 <= r0 < 1.0 && 0.0 <= r1 < 1.0
    ensures 2.0 <= p.wallPos < 12.0 && 5.0 <= p.wallHeight < 15.0
  {
    WallJumpProblem(2.0 + r0 * 10.0, 5.0 + r1 * 10.0)
  }

  /** `get_sol_conf`: 50 genes, of which `play` reads indices 0..48. */
  function SolConf(p: WallJumpProblem): nat
  {
    50
  }

  /** `validate`: clamps to [0,2]. */
  function Validate(x: real): (r: real)
    ensures 0.0 <= r <= 2.0
    ensures 0.0 <= x <= 2.0 ==> r == x
    ensures x < 0.0 ==> r == 0.0
    ensures 2.0 < x ==> r == 2.0
  {
    if x > 2.0 then 2.0 else if x < 0.0 then 0.0 else x
  }

  /** The locals of `play`: `pos[0]`, `pos[1]`, `speed_up` and `mv_r`. */
  datatype Runner = Runner(x: real, y: real, speedUp: real, mvR: real)

  const Start := Runner(0.0, 0.0, 0.0, 0.0)

  /** Run speed after a turn with run gene `run`. */
  function NextMvR(mvR: real, run: real): real
  {
    (mvR + Validate(run) / 2.0) * 0.9
  }

  /** True when the move of this turn would cross the wall from its left. */
  predicate Crosses(p: WallJumpProblem, x: real, mvR: real)
  {
    x < p.wallPos && x + mvR > p.wallPos
  }

  /** One turn of `play`, with run gene `run` and jump gene `up`. */
  function Turn(p: WallJumpProblem, s: Runner, run: real, up: real): Runner
  {
    var mvR := NextMvR(s.mvR, run);
    var x := if Crosses(p, s.x, mvR) && !(s.y > p.wallHeight) then p.wallHeight - 0.1 else s.x + mvR;
    var speed0 := if up > 0.5 && s.y == 0.0 then 5.0 else s.speedUp;
    var y0 := s.y + speed0;
    var (y1, speed1) := if y0 < 0.0 then (0.0, 0.0) else (y0, speed0);
    var speed2 := if y1 > 0.0 then speed1 - 1.5 else speed1;
    Runner(x, y1, speed2, mvR)
  }

  /** The runner after the first `n` turns. */
  function Run(p: WallJumpProblem, sol: seq<real>, n: nat): Runner
    requires n == 0 || 2 * (n - 1) < |sol|
  {
    if n == 0 then Start else
      var i := n - 1;
      Turn(p, Run(p, sol, i), sol[i], sol[2 * i])
  }

  /** `evaluate`, through `play`: the final horizontal position. */
  function Evaluate(p: WallJumpProblem, sol: seq<real>): real
    requires 2 * (Turns - 1) < |sol|
  {
    Run(p, sol, Turns).x
  }

  /** `play`: the 25-turn loop over `pos`, `speed_up` and `mv_r`. */
  method Play(p: WallJumpProblem, sol: seq<real>) returns (x: real)
    requires 2 * (Turns - 1) < |sol|
    ensures x == Evaluate(p, sol)
  {
    var pos0, pos1 := 0.0, 0.0;
    var speedUp := 0.0;
    var mvR := 0.0;
    for i := 0 to Turns
      invariant Runner(pos0, pos1, speedUp, mvR) == Run(p, sol, i)
    {
      mvR := mvR + Validate(sol[i]) / 2.0;
      mvR := mvR * 0.9;
      var mvUp := sol[i * 2];
      if pos0 < p.wallPos && pos0 + mvR > p.wallPos {
        if pos1 > p.wallHeight {
          pos0 := pos0 + mvR;
        } else {
          pos0 := p.wallHeight - 0.1;
        }
      } else {
        pos0 := pos0 + mvR;
      }
      if mvUp > 0.5 && pos1 == 0.0 {
        speedUp := 5.0;
      }
      pos1 := pos1 + speedUp;
      if pos1 < 0.0 {
        pos1 := 0.0;
        speedUp := 0.0;
      }
      if pos1 > 0.0 {
        speedUp := speedUp - 1.5;
      }
    }
    x := pos0;
  }

  /** A turn keeps the run speed in [0,9] and the height non-negative; the
      runner moves right by the run speed unless it hits the wall without
      being higher than it, in which case it is put at `wall_height - 0.1`
      (the wall's height, not its position). A jump (height 5 after the
      turn) happens exactly when the jump gene exceeds 0.5 on the ground. */
  lemma TurnFacts(p: WallJumpProblem, s: Runner, run: real, up: real)
    requires 0.0 <= s.mvR <= 9.0
    ensures var t := Turn(p, s, run, up);
      && 0.0 <= t.mvR <= 9.0
      && 0.0 <= t.y
      && (Crosses(p, s.x, t.mvR) && s.y <= p.wallHeight ==> t.x == p.wallHeight - 0.1)
      && (!(Crosses(p, s.x, t.mvR) && s.y <= p.wallHeight) ==> t.x == s.x + t.mvR && s.x <= t.x)
      && (up > 0.5 && s.y == 0.0 ==> t.y == 5.0 && t.speedUp == 3.5)
  {
  }

  /** Over any number of turns the run speed stays in [0,9] and the height
      stays non-negative. */
  lemma {:induction false} RunBounds(p: WallJumpProblem, sol: seq<real>, n: nat)
    requires n == 0 || 2 * (n - 1) < |sol|
    ensures 0.0 <= Run(p, sol, n).mvR <= 9.0 && 0.0 <= Run(p, sol, n).y
  {
    if n > 0 {
      RunBounds(p, sol, n - 1);
      TurnFacts(p, Run(p, sol, n - 1), sol[n - 1], sol[2 * (n - 1)]);
    }
  }

  /** Off the ground no jump can start: the upward speed is not reset. */
  lemma NoJumpInAir(p: WallJumpProblem, s: Runner, run: real, up: real)
    requires s.y != 0.0 || up <= 0.5
    ensures var t := Turn(p, s, run, up);
      t.y == (if s.y + s.speedUp < 0.0 then 0.0 else s.y + s.speedUp)
  {
  }
}
