/** A ship with an initial position and speed must come back to where it
    started. Each of 14 turns first moves the ship by its current speed,
    then changes the speed by `sol[i] - 0.5` (x) and `sol[2i] - 0.5` (y). */
module TurnAround {
  import opened Num

  datatype Vec2 = Vec2(x: real, y: real)

  datatype TurnAroundProblem = TurnAroundProblem(initialPos: Vec2, initialSpeed: Vec2)

  const Turns: nat := 14

  /** `random`: two `Standard` draws times 10 for the position, then two
      draws times 5 minus 5 for the speed. */
  function Random(draws: seq<real>): (p: TurnAroundProblem)
    requires 4 <= |draws| && UnitDraws(draws)
    ensures 0.0 <= p.initialPos.x < 10.0 && 0.0 <= p.initialPos.y < 10.0
    ensures -5.0 <= p.initialSpeed.x < 0.0 && -5.0 <= p.initialSpeed.y < 0.0
  {
    TurnAroundProblem(Vec2(draws[0] * 10.0, draws[1] * 10.0),
                      Vec2(draws[2] * 5.0 - 5.0, draws[3] * 5.0 - 5.0))
  }

  /** `get_sol_conf`: 28 * 2 genes, of which `play` reads indices 0..26. */
  function SolConf(p: TurnAroundProblem): nat
  {
    28 * 2
  }

  datatype Ship = Ship(pos: Vec2, speed: Vec2)

  /** One turn of `play`. */
  function Step(s: Ship, sol: seq<real>, i: nat): Ship
    requires 2 * i < |sol|
  {
    Ship(Vec2(s.pos.x + s.speed.x, s.pos.y + s.speed.y),
         Vec2(s.speed.x + (sol[i] - 0.5), s.speed.y + (sol[2 * i] - 0.5)))
  }

  /** The ship after the first `n` turns. */
  function Fly(p: TurnAroundProblem, sol: seq<real>, n: nat): Ship
    requires n == 0 || 2 * (n - 1) < |sol|
  {
    if n == 0 then Ship(p.initialPos, p.initialSpeed)
    else Step(Fly(p, sol, n - 1), sol, n - 1)
  }

  /** `1000 - |final - initial|_1`: at most 1000, and exactly 1000 when
      the ship ends where it started. */
  function Score(p: TurnAroundProblem, final: Vec2): (r: real)
    ensures r <= 1000.0
    ensures r == 1000.0 <==> final == p.initialPos
  {
    1000.0 - (Abs(final.x - p.initialPos.x) + Abs(final.y - p.initialPos.y))
  }

  /** `evaluate`, through `play`. */
  function Evaluate(p: TurnAroundProblem, sol: seq<real>): (r: real)
    requires 2 * (Turns - 1) < |sol|
    ensures r <= 1000.0
    ensures r == 1000.0 <==> Fly(p, sol, Turns).pos == p.initialPos
  {
    Score(p, Fly(p, sol, Turns).pos)
  }

  /** `play`: the 14-turn loop over the locals `current_pos` and `current_speed`. */
  method Play(p: TurnAroundProblem, sol: seq<real>) returns (score: real)
    requires 2 * (Turns - 1) < |sol|
    ensures score == Evaluate(p, sol)
  {
    var currentPos, currentSpeed := p.initialPos, p.initialSpeed;
    for i := 0 to Turns
      invariant Ship(currentPos, currentSpeed) == Fly(p, sol, i)
    {
      currentPos := Vec2(currentPos.x + currentSpeed.x, currentPos.y + currentSpeed.y);
      currentSpeed := Vec2(currentSpeed.x + (sol[i] - 0.5), currentSpeed.y + (sol[2 * i] - 0.5));
    }
    score := 1000.0 - (Abs(currentPos.x - p.initialPos.x) + Abs(currentPos.y - p.initialPos.y));
  }

  /** Sum of the speed changes of the first `n` turns, reading every
      `stride`-th gene (1 for x, 2 for y). */
  function Thrust(sol: seq<real>, stride: nat, n: nat): real
    requires n == 0 || stride * (n - 1) < |sol|
  {
    if n == 0 then 0.0 else Thrust(sol, stride, n - 1) + (sol[stride * (n - 1)] - 0.5)
  }

  /** Sum of `Thrust(m)` for `m < n`: how far the changes moved the ship. */
  function Drift(sol: seq<real>, stride: nat, n: nat): real
    requires n == 0 || stride * (n - 1) < |sol|
  {
    if n == 0 then 0.0 else Drift(sol, stride, n - 1) + Thrust(sol, stride, n - 1)
  }

  /** Closed form: after `n` turns the speed is the initial speed plus every
      change so far, and the position has moved `n` times by the initial
      speed plus the changes made strictly before each move (a change is felt
      from the next turn on, since the position moves first). */
  lemma {:induction false} FlyClosedForm(p: TurnAroundProblem, sol: seq<real>, n: nat)
    requires n == 0 || 2 * (n - 1) < |sol|
    ensures Fly(p, sol, n).speed ==
            Vec2(p.initialSpeed.x + Thrust(sol, 1, n), p.initialSpeed.y + Thrust(sol, 2, n))
    ensures Fly(p, sol, n).pos ==
            Vec2(p.initialPos.x + n as real * p.initialSpeed.x + Drift(sol, 1, n),
                 p.initialPos.y + n as real * p.initialSpeed.y + Drift(sol, 2, n))
  {
    if n > 0 {
      FlyClosedForm(p, sol, n - 1);
    }
  }
}
