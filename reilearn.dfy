/** The meta-training loop: a network plays many-step problems with
    exploration noise, the playouts of each problem are ranked by score, the
    choices of the worst ones become "do the opposite" examples and those of
    the best ones "do it again" examples, the network is retrained on them
    and the noise is annealed geometrically. The network, its trainer, the
    problems and the random generator are parameters: `net` is a function,
    `train` an oracle, the problem a record of functions over a state type
    `S`, and the random draws a stream read through a cursor. */
module Reilearn {
  import opened Num
  import Sorting

  const MaxGeneticAlgGen: nat := 30
  const TestDataSize: nat := 1000
  const NbExampleProblems: nat := 100
  const TestsPerProblem: nat := 50
  const MaxGen: nat := 2
  const StartingCoef: real := 1.0
  const CoefModificator: real := 0.95
  const PercentElite: real := 0.05

  datatype Option<T> = None | Some(value: T)

  /** `ManyStepProblem`, as the functions the loop uses: `make_step` returns
      the new state instead of updating in place (every playout works on a
      clone). */
  datatype Ops<!S> = Ops(
    getState: S -> seq<real>,
    makeStep: (S, seq<real>) -> S,
    maxStep: S -> Option<nat>,
    evaluate: S -> real,
    isSolved: S -> bool)

  /** `LearnParams`. */
  datatype LearnParams = LearnParams(
    nbProblems: nat, testPerProb: nat, maxGen: nat,
    startingCoef: real, coefMod: real, percentElite: real)

  /** The parameters the application starts with. */
  const DefaultParams := LearnParams(NbExampleProblems, TestsPerProblem, MaxGen,
                                     StartingCoef, CoefModificator, PercentElite)

  /** A training example: inputs and the outputs wanted for them. */
  datatype Test = Test(inputs: seq<real>, outputs: seq<real>)

  /** One decision: the state shown to the network, what it answered, and
      what was played after the noise. */
  datatype Choice = Choice(inputs: seq<real>, outputs: seq<real>, choice: seq<real>)

  // ------------------------------------------------------------ choices

  /** `1 - c` on every component. */
  function Flip(v: seq<real>): (r: seq<real>)
    ensures |r| == |v|
  {
    if v == [] then [] else [1.0 - v[0]] + Flip(v[1..])
  }

  /** `Flip` component by component, and undone by itself. */
  lemma {:induction false} FlipFacts(v: seq<real>)
    ensures forall i :: 0 <= i < |v| ==> Flip(v)[i] == 1.0 - v[i]
    ensures Flip(Flip(v)) == v
  {
    if v != [] {
      FlipFacts(v[1..]);
      assert Flip(v) == [1.0 - v[0]] + Flip(v[1..]);
      assert Flip(v)[1..] == Flip(v[1..]);
      assert v == [v[0]] + v[1..];
    }
  }

  /** `into_good_test`: play the same again. It is the bad example of the
      bad example's target. */
  function IntoGoodTest(c: Choice): (t: Test)
    ensures t == IntoBadTest(c.(choice := IntoBadTest(c).outputs))
  {
    FlipFacts(c.choice);
    Test(c.inputs, c.choice)
  }

  /** `into_bad_test`: play the opposite next time, `1 - c` on every
      component. */
  function IntoBadTest(c: Choice): (t: Test)
    ensures t.inputs == c.inputs && |t.outputs| == |c.choice|
    ensures forall i :: 0 <= i < |c.choice| ==> t.outputs[i] == 1.0 - c.choice[i]
  {
    FlipFacts(c.choice);
    Test(c.inputs, Flip(c.choice))
  }

  /** A good and a bad example of the same choice share their inputs and
      have complementary targets (each pair of components sums to 1), so a
      played choice in [0,1] gives targets in [0,1] both ways; the bad
      example of the bad example's target is the good example. */
  lemma GoodBadMirror(c: Choice)
    ensures IntoGoodTest(c).inputs == IntoBadTest(c).inputs == c.inputs
    ensures |IntoBadTest(c).outputs| == |IntoGoodTest(c).outputs| == |c.choice|
    ensures forall i :: 0 <= i < |c.choice| ==>
      IntoGoodTest(c).outputs[i] + IntoBadTest(c).outputs[i] == 1.0
    ensures (forall i :: 0 <= i < |c.choice| ==> 0.0 <= c.choice[i] <= 1.0) ==>
      forall i :: 0 <= i < |c.choice| ==> 0.0 <= IntoBadTest(c).outputs[i] <= 1.0
    ensures IntoBadTest(c.(choice := IntoBadTest(c).outputs)) == IntoGoodTest(c)
  {
    FlipFacts(c.choice);
  }

  // -------------------------------------------------------------- noise

  /** The clamp of `modify_outputs`: above 1 gives 1, below 0 gives 0. */
  function Clamp01(x: real): (r: real)
    ensures 0.0 <= r <= 1.0
  {
    if x > 1.0 then 1.0 else if x < 0.0 then 0.0 else x
  }

  /** Clamping a value of [0,1] moved by `d` lands no farther than `|d|`
      from it, and gives it back unchanged when `d == 0`. */
  lemma ClampClose(v: real, d: real)
    requires 0.0 <= v <= 1.0
    ensures Abs(Clamp01(v + d) - v) <= Abs(d)
    ensures d == 0.0 ==> Clamp01(v + d) == v
  {
  }

  /** `true` when every draw of the stream is a `gen::<f64>()`, in [0,1). */
  ghost predicate UnitNoise(noise: nat -> real)
  {
    forall k :: 0.0 <= noise(k) < 1.0
  }

  /** `modify_outputs` on values: component `i` moved by
      `(noise(start + i) - 0.5) * coef` and clamped to [0,1]. */
  function Perturb(res: seq<real>, noise: nat -> real, start: nat, coef: real): (r: seq<real>)
    ensures |r| == |res|
    ensures forall i :: 0 <= i < |r| ==> 0.0 <= r[i] <= 1.0
  {
    seq(|res|, i requires 0 <= i < |res| => Clamp01(res[i] + Mul(noise(start + i) - 0.5, coef)))
  }

  /** A draw in [0,1) shifted by 0.5 and scaled by `coef >= 0` moves by at
      most `coef / 2`. */
  lemma NoiseBound(u: real, coef: real)
    requires 0.0 <= u < 1.0 && 0.0 <= coef
    ensures Abs(Mul(u - 0.5, coef)) <= 0.5 * coef
  {
    MulMono(coef, u - 0.5, 0.5);
    MulMono(coef, -0.5, u - 0.5);
    assert Mul(coef, 0.5) == 0.5 * coef && Mul(coef, -0.5) == -0.5 * coef;
    assert Mul(u - 0.5, coef) == Mul(coef, u - 0.5);
  }

  /** With draws in [0,1) and outputs in [0,1], every played component is
      within `coef / 2` of the network's; with `coef == 0` the outputs are
      played as they are. */
  lemma PerturbClose(res: seq<real>, noise: nat -> real, start: nat, coef: real)
    requires UnitNoise(noise) && 0.0 <= coef
    requires forall i :: 0 <= i < |res| ==> 0.0 <= res[i] <= 1.0
    ensures forall i :: 0 <= i < |res| ==>
      Abs(Perturb(res, noise, start, coef)[i] - res[i]) <= 0.5 * coef
    ensures coef == 0.0 ==> Perturb(res, noise, start, coef) == res
  {
    forall i | 0 <= i < |res|
      ensures Abs(Perturb(res, noise, start, coef)[i] - res[i]) <= 0.5 * coef
    {
      NoiseBound(noise(start + i), coef);
      ClampClose(res[i], Mul(noise(start + i) - 0.5, coef));
    }
    if coef == 0.0 {
      forall i | 0 <= i < |res| ensures Perturb(res, noise, start, coef)[i] == res[i] {
        ClampClose(res[i], Mul(noise(start + i) - 0.5, coef));
      }
    }
  }

  // ----------------------------------------------------------- playouts

  /** What a playout reads from the learner: the network, the draw stream
      and the noise amplitude. */
  datatype Explorer = Explorer(net: seq<real> -> seq<real>, noise: nat -> real, coef: real)

  /** The outcome of `make_choice`: the next state, the recorded choice and
      the position in the draw stream after it. */
  datatype StepResult<S> = StepResult(next: S, choice: Choice, cursor: nat)

  /** `make_choice` on values: read the state, ask the network, add noise,
      play it. One draw per output component. */
  function Step<S>(ops: Ops<S>, ex: Explorer, p: S, cursor: nat): (r: StepResult<S>)
    ensures r.choice.inputs == ops.getState(p) && r.choice.outputs == ex.net(r.choice.inputs)
    ensures |r.choice.choice| == |r.choice.outputs| && r.cursor == cursor + |r.choice.choice|
    ensures forall i :: 0 <= i < |r.choice.choice| ==> 0.0 <= r.choice.choice[i] <= 1.0
    ensures r.next == ops.makeStep(p, r.choice.choice)
  {
    var inputs := ops.getState(p);
    var outputs := ex.net(inputs);
    var choice := Perturb(outputs, ex.noise, cursor, ex.coef);
    StepResult(ops.makeStep(p, choice), Choice(inputs, outputs, choice), cursor + |outputs|)
  }

  /** A playout: the state after each step, the choices made, the stream
      position at the end and the final state. */
  datatype Playout<S> = Playout(states: seq<S>, choices: seq<Choice>, cursor: nat, final: S)

  /** The number of steps `play_problem` allows: `max_step`, or
      `MAX_GENETIC_ALG_GEN` when the problem does not know. */
  function Horizon<S>(ops: Ops<S>, p: S): nat
  {
    match ops.maxStep(p)
    case None => MaxGeneticAlgGen
    case Some(n) => n
  }

  /** `play_problem`'s loop on values: at most `fuel` steps, stopping right
      after the first step that leaves the problem solved. */
  function Run<S>(ops: Ops<S>, ex: Explorer, p: S, cursor: nat, fuel: nat): Playout<S>
    decreases fuel
  {
    if fuel == 0 then Playout([], [], cursor, p)
    else
      var st := Step(ops, ex, p, cursor);
      if ops.isSolved(st.next) then Playout([st.next], [st.choice], st.cursor, st.next)
      else Join([st.next], [st.choice], Run(ops, ex, st.next, st.cursor, fuel - 1))
  }

  /** A playout continued after the steps `states`/`choices`. */
  function Join<S>(states: seq<S>, choices: seq<Choice>, r: Playout<S>): Playout<S>
  {
    Playout(states + r.states, choices + r.choices, r.cursor, r.final)
  }

  /** A playout records one choice per step and at most `fuel` of them, at
      least one when `fuel > 0`; no state but the last is solved; it stops
      early only on a solved state; its final state is the last state
      reached; every played component is in [0,1]. */
  lemma {:induction false} RunFacts<S>(ops: Ops<S>, ex: Explorer, p: S, cursor: nat, fuel: nat)
    ensures var r := Run(ops, ex, p, cursor, fuel);
      |r.states| == |r.choices| <= fuel &&
      (0 < fuel ==> 0 < |r.choices|) &&
      (forall k :: 0 <= k < |r.states| - 1 ==> !ops.isSolved(r.states[k])) &&
      (|r.choices| < fuel ==> ops.isSolved(r.final)) &&
      (r.states == [] ==> r.final == p) &&
      (r.states != [] ==> r.final == r.states[|r.states| - 1])
    ensures var r := Run(ops, ex, p, cursor, fuel);
      forall k, i :: 0 <= k < |r.choices| && 0 <= i < |r.choices[k].choice| ==>
        0.0 <= r.choices[k].choice[i] <= 1.0
    decreases fuel
  {
    if fuel > 0 {
      var st := Step(ops, ex, p, cursor);
      if !ops.isSolved(st.next) {
        RunFacts(ops, ex, st.next, st.cursor, fuel - 1);
        var rest := Run(ops, ex, st.next, st.cursor, fuel - 1);
        var r := Run(ops, ex, p, cursor, fuel);
        assert r.states == [st.next] + rest.states;
        assert r.choices == [st.choice] + rest.choices;
        assert forall k :: 1 <= k < |r.choices| ==> r.choices[k] == rest.choices[k - 1];
      }
    }
  }

  /** `run_on_test_example`'s inner loop on values: the network's outputs
      played as they are, at most `fuel` steps, stopping after the first
      step that solves the problem; the final state. */
  function Exploit<S>(ops: Ops<S>, net: seq<real> -> seq<real>, p: S, fuel: nat): S
    decreases fuel
  {
    if fuel == 0 then p
    else
      var q := ops.makeStep(p, net(ops.getState(p)));
      if ops.isSolved(q) then q else Exploit(ops, net, q, fuel - 1)
  }

  /** Playing without noise is a playout with `coef == 0`, whenever the
      network answers in [0,1] (the clamp then changes nothing). */
  lemma {:induction false} ExploitIsNoiseless<S>(ops: Ops<S>, net: seq<real> -> seq<real>, noise: nat -> real,
                                                 p: S, cursor: nat, fuel: nat)
    requires UnitNoise(noise)
    requires forall x, i :: 0 <= i < |net(x)| ==> 0.0 <= net(x)[i] <= 1.0
    ensures Exploit(ops, net, p, fuel) == Run(ops, Explorer(net, noise, 0.0), p, cursor, fuel).final
    decreases fuel
  {
    if fuel > 0 {
      var ex := Explorer(net, noise, 0.0);
      var out := net(ops.getState(p));
      PerturbClose(out, noise, cursor, 0.0);
      var st := Step(ops, ex, p, cursor);
      assert st.next == ops.makeStep(p, out);
      if !ops.isSolved(st.next) {
        ExploitIsNoiseless(ops, net, noise, st.next, st.cursor, fuel - 1);
      }
    }
  }

  /** A playout reduced to what `gen_tests_from_choices` uses: its score and
      its choices. */
  datatype Game = Game(score: real, choices: seq<Choice>)

  /** `gen_tests_for_prob`'s loop on values: `n` playouts of the same problem,
      one after another in the draw stream. */
  function Playouts<S>(ops: Ops<S>, ex: Explorer, p: S, cursor: nat, n: nat): (r: (seq<Game>, nat))
    ensures |r.0| == n
    decreases n
  {
    if n == 0 then ([], cursor)
    else
      var prev := Playouts(ops, ex, p, cursor, n - 1);
      var run := Run(ops, ex, p, prev.1, Horizon(ops, p));
      (prev.0 + [Game(ops.evaluate(run.final), run.choices)], run.cursor)
  }

  // ------------------------------------------------------------ ranking

  function GameScore(g: Game): real
  {
    g.score
  }

  /** The bad examples of one playout: one per choice. */
  function BadOf(gm: Game): (r: seq<Test>)
    ensures |r| == |gm.choices|
  {
    seq(|gm.choices|, i requires 0 <= i < |gm.choices| => IntoBadTest(gm.choices[i]))
  }

  /** The good examples of one playout: one per choice. */
  function GoodOf(gm: Game): (r: seq<Test>)
    ensures |r| == |gm.choices|
  {
    seq(|gm.choices|, i requires 0 <= i < |gm.choices| => IntoGoodTest(gm.choices[i]))
  }

  /** The bad examples of every choice of the games, in order. */
  function BadTests(g: seq<Game>): seq<Test>
  {
    if g == [] then [] else BadOf(g[0]) + BadTests(g[1..])
  }

  /** The good examples of every choice of the games, in order. */
  function GoodTests(g: seq<Game>): seq<Test>
  {
    if g == [] then [] else GoodOf(g[0]) + GoodTests(g[1..])
  }

  /** The number of choices in the games. */
  function ChoiceCount(g: seq<Game>): nat
  {
    if g == [] then 0 else |g[0].choices| + ChoiceCount(g[1..])
  }

  /** The map-then-flatten of `gen_tests_from_choices`: the game at
      position `index` gives bad examples below `lower`, good ones above
      `upper` (strictly), nothing otherwise. */
  function Label(g: seq<Game>, lower: nat, upper: nat, index: nat): seq<Test>
  {
    if g == [] then []
    else
      (if index < lower then BadOf(g[0])
       else if index > upper then GoodOf(g[0])
       else []) + Label(g[1..], lower, upper, index + 1)
  }

  /** A fraction of at most 1 of a length truncates to at most the length. */
  lemma TruncScaled(len: nat, f: real)
    ensures f <= 1.0 ==> Trunc(len as real * f) <= len
  {
    if f <= 1.0 {
      MulMono(len as real, f, 1.0);
      assert Mul(len as real, f) == len as real * f;
    }
  }

  /** The end of the bad band: `trunc(len * p)`. */
  function Lower(len: nat, pe: real): (n: nat)
    ensures pe <= 0.0 ==> n == 0
    ensures pe <= 1.0 ==> n <= len
  {
    TruncScaled(len, pe);
    Trunc(len as real * pe)
  }

  /** The last rank left out of the good band: `trunc(len * (1 - p))`. */
  function Upper(len: nat, pe: real): (n: nat)
    ensures 1.0 <= pe ==> n == 0
    ensures 0.0 <= pe ==> n <= len
  {
    TruncScaled(len, 1.0 - pe);
    Trunc(len as real * (1.0 - pe))
  }

  /** `gen_tests_from_choices`: playouts sorted by ascending score (stable),
      then labelled by rank. */
  function TestsFromChoices(games: seq<Game>, pe: real): seq<Test>
  {
    Label(Sorting.SortByKey(games, GameScore), Lower(|games|, pe), Upper(|games|, pe), 0)
  }

  /** A rank bound cut to the length of the list. */
  function Band(x: nat, len: nat): (r: nat)
    ensures r <= len && r <= x && (r == x || r == len)
  {
    if x < len then x else len
  }

  /** Every choice gives exactly one bad example. */
  lemma {:induction false} BadTestsCount(g: seq<Game>)
    ensures |BadTests(g)| == ChoiceCount(g)
  {
    if g != [] {
      BadTestsCount(g[1..]);
    }
  }

  /** Every choice gives exactly one good example. */
  lemma {:induction false} GoodTestsCount(g: seq<Game>)
    ensures |GoodTests(g)| == ChoiceCount(g)
  {
    if g != [] {
      GoodTestsCount(g[1..]);
    }
  }

  /** Labelling gives at most one example per recorded choice. */
  lemma {:induction false} LabelCount(g: seq<Game>, lower: nat, upper: nat, index: nat)
    ensures |Label(g, lower, upper, index)| <= ChoiceCount(g)
  {
    if g != [] {
      LabelCount(g[1..], lower, upper, index + 1);
    }
  }

  /** Labelling a concatenation labels each part, the second one from where
      the first one ends. */
  lemma {:induction false} LabelAppend(a: seq<Game>, b: seq<Game>, lower: nat, upper: nat, index: nat)
    ensures Label(a + b, lower, upper, index) ==
            Label(a, lower, upper, index) + Label(b, lower, upper, index + |a|)
    decreases |a|
  {
    if a == [] {
      assert a + b == b;
    } else {
      assert (a + b)[0] == a[0];
      assert (a + b)[1..] == a[1..] + b;
      LabelAppend(a[1..], b, lower, upper, index + 1);
    }
  }

  /** Games ranked below `lower` give their bad examples. */
  lemma {:induction false} LabelLow(g: seq<Game>, lower: nat, upper: nat, index: nat)
    requires index + |g| <= lower
    ensures Label(g, lower, upper, index) == BadTests(g)
    decreases |g|
  {
    if g != [] {
      LabelLow(g[1..], lower, upper, index + 1);
    }
  }

  /** Games ranked from `lower` to `upper` give nothing. */
  lemma {:induction false} LabelMiddle(g: seq<Game>, lower: nat, upper: nat, index: nat)
    requires g == [] || (lower <= index && index + |g| <= upper + 1)
    ensures Label(g, lower, upper, index) == []
    decreases |g|
  {
    if g != [] {
      LabelMiddle(g[1..], lower, upper, index + 1);
    }
  }

  /** Games ranked above `upper` (and not below `lower`) give their good
      examples. */
  lemma {:induction false} LabelHigh(g: seq<Game>, lower: nat, upper: nat, index: nat)
    requires g == [] || (lower <= index && upper < index)
    ensures Label(g, lower, upper, index) == GoodTests(g)
    decreases |g|
  {
    if g != [] {
      LabelHigh(g[1..], lower, upper, index + 1);
    }
  }

  /** Three consecutive runs of games: the first all below `lower`, the
      second between the bounds, the third above `upper`. */
  lemma LabelThree(low: seq<Game>, mid: seq<Game>, high: seq<Game>, lower: nat, upper: nat)
    requires |low| <= lower
    requires mid == [] || (lower <= |low| && |low| + |mid| <= upper + 1)
    requires high == [] || (lower <= |low| + |mid| && upper < |low| + |mid|)
    ensures Label(low + (mid + high), lower, upper, 0) == BadTests(low) + GoodTests(high)
  {
    var x := Label(low, lower, upper, 0);
    var y := Label(mid, lower, upper, |low|);
    var z := Label(high, lower, upper, |low| + |mid|);
    assert Label(low + (mid + high), lower, upper, 0) == x + Label(mid + high, lower, upper, |low|) by {
      LabelAppend(low, mid + high, lower, upper, 0);
    }
    assert Label(mid + high, lower, upper, |low|) == y + z by {
      LabelAppend(mid, high, lower, upper, |low|);
    }
    assert x == BadTests(low) by {
      LabelLow(low, lower, upper, 0);
    }
    assert y == [] by {
      LabelMiddle(mid, lower, upper, |low|);
    }
    assert z == GoodTests(high) by {
      LabelHigh(high, lower, upper, |low| + |mid|);
    }
    assert [] + GoodTests(high) == GoodTests(high);
  }

  /** The first rank of the good band: above `upper` and not below `lower`. */
  function GoodStart(lower: nat, upper: nat): nat
  {
    if lower > upper + 1 then lower else upper + 1
  }

  /** All bad examples come first, from the games ranked below `lower`; then
      all good ones, from the games ranked from `GoodStart` on; the games in
      between give nothing. */
  lemma LabelBands(g: seq<Game>, lower: nat, upper: nat)
    ensures var b := Band(lower, |g|);
      var c := Band(GoodStart(lower, upper), |g|);
      b <= c && Label(g, lower, upper, 0) == BadTests(g[..b]) + GoodTests(g[c..])
  {
    var b := Band(lower, |g|);
    var c := Band(GoodStart(lower, upper), |g|);
    assert g[..b] + (g[b..c] + g[c..]) == g;
    LabelThree(g[..b], g[b..c], g[c..], lower, upper);
  }

  /** With `pe` at most 0.5 the bad band ends no later than the good band
      starts. */
  lemma ElitePercentBounds(len: nat, pe: real)
    requires 0.0 <= pe <= 0.5
    ensures Lower(len, pe) <= Upper(len, pe)
  {
    var n := len as real;
    MulMono(n, pe, 1.0 - pe);
    assert n * pe == Mul(n, pe) && n * (1.0 - pe) == Mul(n, 1.0 - pe);
    TruncMono(n * pe, n * (1.0 - pe));
  }

  /** On a list ranked by ascending score, with `lower <= upper`: the
      examples are the bad examples of the games below `lower` and then the
      good examples of the games above `upper`, one per choice, and every
      game of the first band scores no more than any game of the second. */
  lemma SortedBands(sorted: seq<Game>, lower: nat, upper: nat)
    requires Sorting.SortedBy(sorted, GameScore)
    ensures var b := Band(lower, |sorted|);
      var c := Band(GoodStart(lower, upper), |sorted|);
      b <= c &&
      Label(sorted, lower, upper, 0) == BadTests(sorted[..b]) + GoodTests(sorted[c..]) &&
      |Label(sorted, lower, upper, 0)| == ChoiceCount(sorted[..b]) + ChoiceCount(sorted[c..]) &&
      forall i, j :: 0 <= i < b && c <= j < |sorted| ==> sorted[i].score <= sorted[j].score
  {
    var b := Band(lower, |sorted|);
    var c := Band(GoodStart(lower, upper), |sorted|);
    LabelBands(sorted, lower, upper);
    BadTestsCount(sorted[..b]);
    GoodTestsCount(sorted[c..]);
    forall i, j | 0 <= i < b && c <= j < |sorted| ensures sorted[i].score <= sorted[j].score {
      assert GameScore(sorted[i]) <= GameScore(sorted[j]);
    }
  }

  /** `gen_tests_from_choices`: the examples are the bad examples of the
      `lower` lowest-scoring playouts followed by the good examples of the
      playouts ranked from `GoodStart` on, which is `upper + 1` whenever
      `pe <= 0.5` (`ElitePercentBounds`); `SortedBands` gives their number
      and the score order between the bands. */
  lemma TestsFromChoicesBands(games: seq<Game>, pe: real)
    ensures var sorted := Sorting.SortByKey(games, GameScore);
      var lower := Lower(|games|, pe);
      var b := Band(lower, |sorted|);
      var c := Band(GoodStart(lower, Upper(|games|, pe)), |sorted|);
      b <= c && TestsFromChoices(games, pe) == BadTests(sorted[..b]) + GoodTests(sorted[c..])
  {
    var sorted := Sorting.SortByKey(games, GameScore);
    LabelBands(sorted, Lower(|games|, pe), Upper(|games|, pe));
  }

  /** Truncation keeps the order. */
  lemma TruncMono(x: real, y: real)
    requires x <= y
    ensures Trunc(x) <= Trunc(y)
  {
  }

  /** With the application's 50 playouts per problem and 5%: `lower == 2`
      and `upper == 47`, so the 2 worst playouts give bad examples, the 2
      best good ones, and the 46 in between nothing. */
  lemma DefaultBands(games: seq<Game>)
    requires |games| == TestsPerProblem
    ensures Lower(|games|, PercentElite) == 2
    ensures Upper(|games|, PercentElite) == 47
    ensures var sorted := Sorting.SortByKey(games, GameScore);
      TestsFromChoices(games, PercentElite) == BadTests(sorted[..2]) + GoodTests(sorted[48..]) &&
      |TestsFromChoices(games, PercentElite)| == ChoiceCount(sorted[..2]) + ChoiceCount(sorted[48..])
  {
    assert Lower(50, PercentElite) == Trunc(2.5);
    assert Upper(50, PercentElite) == Trunc(47.5);
    var sorted := Sorting.SortByKey(games, GameScore);
    SortedBands(sorted, 2, 47);
    assert TestsFromChoices(games, PercentElite) == Label(sorted, 2, 47, 0);
  }

  /** `gen_tests_for_prob` and `next_gen`'s loop on values: the examples
      drawn from each problem in turn, and the stream position after them. */
  function RoundTests<S>(ops: Ops<S>, ex: Explorer, probs: seq<S>, cursor: nat, n: nat, pe: real): (seq<Test>, nat)
    decreases |probs|
  {
    if probs == [] then ([], cursor)
    else
      var prev := RoundTests(ops, ex, probs[..|probs| - 1], cursor, n, pe);
      var games := Playouts(ops, ex, probs[|probs| - 1], prev.1, n);
      (prev.0 + TestsFromChoices(games.0, pe), games.1)
  }

  /** One more problem extends the round: its playouts start where the
      earlier problems' draws end. */
  lemma RoundTestsSnoc<S>(ops: Ops<S>, ex: Explorer, probs: seq<S>, k: nat, cursor: nat, n: nat, pe: real)
    requires k < |probs|
    ensures var prev := RoundTests(ops, ex, probs[..k], cursor, n, pe);
      var games := Playouts(ops, ex, probs[k], prev.1, n);
      RoundTests(ops, ex, probs[..k + 1], cursor, n, pe) == (prev.0 + TestsFromChoices(games.0, pe), games.1)
  {
    assert probs[..k + 1][..k] == probs[..k];
  }

  /** `coef_mod` to the power `n`. */
  function Pow(x: real, n: nat): real
  {
    if n == 0 then 1.0 else Mul(x, Pow(x, n - 1))
  }

  /** With a factor in [0,1], the noise amplitude never grows and never
      turns negative. */
  lemma {:induction false} PowFacts(x: real, n: nat)
    requires 0.0 <= x <= 1.0
    ensures 0.0 <= Pow(x, n) <= 1.0
    ensures Pow(x, n + 1) <= Pow(x, n)
  {
    if n > 0 {
      PowFacts(x, n - 1);
      MulMono(x, 0.0, Pow(x, n - 1));
      MulMono(x, Pow(x, n - 1), 1.0);
      assert Mul(x, 0.0) == 0.0 && Mul(x, 1.0) == x;
    }
    MulMono(Pow(x, n), x, 1.0);
    assert Mul(x, Pow(x, n)) == Mul(Pow(x, n), x);
    assert Mul(Pow(x, n), 1.0) == Pow(x, n);
  }

  /** The noise amplitude after one more round. */
  lemma PowStep(s: real, x: real, n: nat)
    ensures Mul(Mul(s, Pow(x, n)), x) == Mul(s, Pow(x, n + 1))
  {
    assert Pow(x, n + 1) == Mul(x, Pow(x, n));
  }

  /** One more component of `modify_outputs`. */
  lemma PerturbSnoc(res: seq<real>, i: nat, noise: nat -> real, start: nat, coef: real)
    requires i < |res|
    ensures Perturb(res[..i + 1], noise, start, coef) ==
            Perturb(res[..i], noise, start, coef) + [Clamp01(res[i] + Mul(noise(start + i) - 0.5, coef))]
  {
    var a := Perturb(res[..i + 1], noise, start, coef);
    var b := Perturb(res[..i], noise, start, coef) + [Clamp01(res[i] + Mul(noise(start + i) - 0.5, coef))];
    assert |a| == |b|;
    forall k | 0 <= k < |a| ensures a[k] == b[k] {
      assert res[..i + 1][k] == res[k];
    }
  }

  /** One step of a playout that has already recorded `states`/`choices`. */
  lemma RunOnce<S>(ops: Ops<S>, ex: Explorer, p: S, cursor: nat, fuel: nat,
                   states: seq<S>, choices: seq<Choice>)
    requires 0 < fuel
    ensures var st := Step(ops, ex, p, cursor);
      Join(states, choices, Run(ops, ex, p, cursor, fuel)) ==
      if ops.isSolved(st.next) then Playout(states + [st.next], choices + [st.choice], st.cursor, st.next)
      else Join(states + [st.next], choices + [st.choice], Run(ops, ex, st.next, st.cursor, fuel - 1))
  {
    var st := Step(ops, ex, p, cursor);
    if !ops.isSolved(st.next) {
      var rest := Run(ops, ex, st.next, st.cursor, fuel - 1);
      assert states + ([st.next] + rest.states) == states + [st.next] + rest.states;
      assert choices + ([st.choice] + rest.choices) == choices + [st.choice] + rest.choices;
    }
  }

  // ------------------------------------------------------------ learner

  /** `ReiLearn`: the network, the held-out problems, the noise amplitude
      `coef` and the learning parameters; `noise` and `drawn` stand for the
      random generator, `train` for the external trainer (which also does
      the shuffle), and `rounds` counts the calls of `next_gen`. */
  class ReiLearn<S> {
    const ops: Ops<S>
    const testProblems: seq<S>
    var net: seq<real> -> seq<real>
    const noise: nat -> real
    var drawn: nat
    const train: (seq<real> -> seq<real>, seq<Test>, nat) -> (seq<real> -> seq<real>)
    const params: LearnParams
    var coef: real
    ghost var rounds: nat

    /** The draws are in [0,1) and `coef` is `starting_coef` annealed once
        per round. */
    ghost predicate Valid()
      reads this
    {
      UnitNoise(noise) && coef == Mul(params.startingCoef, Pow(params.coefMod, rounds))
    }

    function Ex(): Explorer
      reads this
    {
      Explorer(net, noise, coef)
    }

    /** `ReiLearn::new`: `coef` starts at `starting_coef`; `problems` are
        the `TEST_DATA_SIZE` random test problems. */
    constructor New(ops: Ops<S>, net: seq<real> -> seq<real>, problems: seq<S>,
                    noise: nat -> real, train: (seq<real> -> seq<real>, seq<Test>, nat) -> (seq<real> -> seq<real>),
                    learnParams: LearnParams)
      requires |problems| == TestDataSize && UnitNoise(noise)
      ensures Valid() && rounds == 0 && drawn == 0
      ensures this.ops == ops && this.net == net && testProblems == problems && this.noise == noise
      ensures this.train == train && params == learnParams && coef == learnParams.startingCoef
    {
      this.ops := ops;
      this.net := net;
      testProblems := problems;
      this.noise := noise;
      drawn := 0;
      this.train := train;
      params := learnParams;
      coef := learnParams.startingCoef;
      rounds := 0;
      new;
      assert Mul(params.startingCoef, 1.0) == params.startingCoef;
    }

    /** `modify_outputs`: one draw per component, in order. */
    method ModifyOutputs(res: seq<real>) returns (r: seq<real>)
      modifies this
      ensures r == Perturb(res, noise, old(drawn), coef)
      ensures drawn == old(drawn) + |res|
      ensures net == old(net) && coef == old(coef) && rounds == old(rounds)
    {
      r := [];
      for i := 0 to |res|
        invariant drawn == old(drawn) + i
        invariant net == old(net) && coef == old(coef) && rounds == old(rounds)
        invariant r == Perturb(res[..i], noise, old(drawn), coef)
      {
        var ret := res[i] + Mul(noise(drawn) - 0.5, coef);
        var v := if ret > 1.0 then 1.0 else if ret < 0.0 then 0.0 else ret;
        PerturbSnoc(res, i, noise, old(drawn), coef);
        r := r + [v];
        drawn := drawn + 1;
      }
      assert res[..|res|] == res;
    }

    /** `make_choice`: the step is played on `p` and the choice returned. */
    method MakeChoice(p: S) returns (q: S, c: Choice)
      modifies this
      ensures Step(ops, old(Ex()), p, old(drawn)) == StepResult(q, c, drawn)
      ensures net == old(net) && coef == old(coef) && rounds == old(rounds)
    {
      var inputs := ops.getState(p);
      var outputs := net(inputs);
      var choice := ModifyOutputs(outputs);
      q := ops.makeStep(p, choice);
      c := Choice(inputs, outputs, choice);
    }

    /** `play_problem`: at most `max_step` (or 30) choices, stopping after
        the first one that solves the problem; the final score and the
        choices. */
    method PlayProblem(problem: S) returns (score: real, choices: seq<Choice>)
      modifies this
      ensures var r := Run(ops, old(Ex()), problem, old(drawn), Horizon(ops, problem));
        score == ops.evaluate(r.final) && choices == r.choices && drawn == r.cursor
      ensures net == old(net) && coef == old(coef) && rounds == old(rounds)
    {
      ghost var ex := Ex();
      var horizon := match ops.maxStep(problem) case None => MaxGeneticAlgGen case Some(n) => n;
      ghost var r0 := Run(ops, ex, problem, drawn, horizon);
      var prob := problem;
      choices := [];
      ghost var states: seq<S> := [];
      ghost var stopped := false;
      for i := 0 to horizon
        invariant net == old(net) && coef == old(coef) && rounds == old(rounds)
        invariant Join(states, choices, Run(ops, ex, prob, drawn, horizon - i)) == r0
      {
        ghost var p0, d0 := prob, drawn;
        RunOnce(ops, ex, p0, d0, horizon - i, states, choices);
        var c;
        prob, c := MakeChoice(prob);
        states := states + [prob];
        choices := choices + [c];
        if ops.isSolved(prob) {
          assert Playout(states, choices, drawn, prob) == r0;
          stopped := true;
          break;
        }
      }
      assert Playout(states, choices, drawn, prob) == r0;
      score := ops.evaluate(prob);
    }

    /** `gen_tests_for_prob`: `test_per_prob` playouts of the problem, then
        `gen_tests_from_choices`. */
    method GenTestsForProb(prob: S) returns (tests: seq<Test>)
      modifies this
      ensures var g := Playouts(ops, old(Ex()), prob, old(drawn), params.testPerProb);
        tests == TestsFromChoices(g.0, params.percentElite) && drawn == g.1
      ensures net == old(net) && coef == old(coef) && rounds == old(rounds)
    {
      ghost var ex := Ex();
      var results := [];
      for k := 0 to params.testPerProb
        invariant net == old(net) && coef == old(coef) && rounds == old(rounds)
        invariant (results, drawn) == Playouts(ops, ex, prob, old(drawn), k)
      {
        var score, choices := PlayProblem(prob);
        results := results + [Game(score, choices)];
      }
      tests := TestsFromChoices(results, params.percentElite);
    }

    /** `next_gen`: examples from `nb_problems` random problems (`probs`),
        the network retrained on them, `coef` multiplied by `coef_mod`. */
    method NextGen(probs: seq<S>)
      requires Valid() && |probs| == params.nbProblems
      modifies this
      ensures Valid() && rounds == old(rounds) + 1
      ensures coef == Mul(old(coef), params.coefMod)
      ensures var t := RoundTests(ops, old(Ex()), probs, old(drawn), params.testPerProb, params.percentElite);
        net == train(old(net), t.0, params.maxGen) && drawn == t.1
    {
      ghost var ex := Ex();
      var tests := [];
      for k := 0 to params.nbProblems
        invariant net == old(net) && coef == old(coef) && rounds == old(rounds)
        invariant (tests, drawn) == RoundTests(ops, ex, probs[..k], old(drawn), params.testPerProb, params.percentElite)
      {
        RoundTestsSnoc(ops, ex, probs, k, old(drawn), params.testPerProb, params.percentElite);
        var more := GenTestsForProb(probs[k]);
        tests := tests + more;
      }
      assert probs[..|probs|] == probs;
      net := train(net, tests, params.maxGen);
      PowStep(params.startingCoef, params.coefMod, rounds);
      coef := Mul(coef, params.coefMod);
      rounds := rounds + 1;
    }

    /** `run_on_test_example`: every test problem played without noise,
        their final scores summed; nothing changes. */
    method RunOnTestExample() returns (score: real)
      ensures score == TestScore(ops, net, testProblems)
    {
      score := 0.0;
      for k := 0 to |testProblems|
        invariant score == TestScore(ops, net, testProblems[..k])
      {
        var p := testProblems[k];
        var horizon := match ops.maxStep(p) case None => MaxGeneticAlgGen case Some(n) => n;
        var prob := p;
        for i := 0 to horizon
          invariant Exploit(ops, net, prob, horizon - i) == Exploit(ops, net, p, horizon)
        {
          var inputs := ops.getState(prob);
          prob := ops.makeStep(prob, net(inputs));
          if ops.isSolved(prob) {
            break;
          }
        }
        assert testProblems[..k + 1][..k] == testProblems[..k];
        score := score + ops.evaluate(prob);
      }
      assert testProblems[..|testProblems|] == testProblems;
    }
  }

  /** The sum of the final scores of the problems played without noise. */
  function TestScore<S>(ops: Ops<S>, net: seq<real> -> seq<real>, ps: seq<S>): real
    decreases |ps|
  {
    if ps == [] then 0.0
    else TestScore(ops, net, ps[..|ps| - 1]) + ops.evaluate(Exploit(ops, net, ps[|ps| - 1], Horizon(ops, ps[|ps| - 1])))
  }

  /** After `n` rounds from a learner built with `starting_coef >= 0` and
      `coef_mod` in [0,1], `coef` is `starting_coef * coef_mod^n`: between 0
      and `starting_coef`, and never larger than after the round before. */
  lemma CoefAnnealing(start: real, m: real, n: nat)
    requires 0.0 <= start && 0.0 <= m <= 1.0
    ensures 0.0 <= Mul(start, Pow(m, n)) <= start
    ensures Mul(start, Pow(m, n + 1)) <= Mul(start, Pow(m, n))
  {
    PowFacts(m, n);
    MulMono(start, 0.0, Pow(m, n));
    MulMono(start, Pow(m, n), 1.0);
    MulMono(start, Pow(m, n + 1), Pow(m, n));
    assert Mul(start, 0.0) == 0.0 && Mul(start, 1.0) == start;
  }
}
