/** The generation engine: a genetic algorithm whose five knobs (`ParamChoice`)
    are chosen again before every generation, the statistics it reports
    (`GenResult`), and the engine itself (`AlgoGen`), which is in turn a
    many-step problem whose state is the statistics and whose step is one
    generation. The problem being solved is an `AllProblemsCompilation`, the
    instance the application builds. */
module AlgoGen {
  import opened Num
  import opened Solutions
  import Sorting
  import C = Compilation

  const PopStart: real := 25.0
  const MutStart: real := 0.5
  const EliteKeepStart: real := 1.0
  const DeathStart: real := 20.0
  const ChildPerCoupleStart: real := 4.0
  const ParamChoiceSize: nat := 6
  const GenResultSize: nat := 15
  const MaxStep: nat := 20

  // ---------------------------------------------------------------- knobs

  /** The five fields of a `ParamChoice`, as a value. */
  datatype Knobs = Knobs(global: real, mutrate: real, elite: real, kills: real, birthRate: real)

  /** `ParamChoice::new()`. */
  const StartKnobs := Knobs(1.0, MutStart, EliteKeepStart, DeathStart, ChildPerCoupleStart)

  /** `ParamChoice::same()`. */
  const SameKnobs := Knobs(0.0, 0.5, 0.5, 0.5, 0.5)

  /** The relative update of one field: `h + h * (o - 0.5) * global`. */
  function Relative(h: real, o: real, global: real): real
  {
    h + h * (o - 0.5) * global
  }

  /** `ParamChoice::update` on values: `global` is replaced, the other four
      fields are updated relative to their current value. */
  function Updated(k: Knobs, o: Knobs): Knobs
  {
    Knobs(o.global,
          Relative(k.mutrate, o.mutrate, o.global),
          Relative(k.elite, o.elite, o.global),
          Relative(k.kills, o.kills, o.global),
          Relative(k.birthRate, o.birthRate, o.global))
  }

  /** A choice with `global == 0` changes nothing but `global`; a component
      at 0.5 leaves its field as it was, whatever `global` is. */
  lemma UpdateNeutral(k: Knobs, o: Knobs)
    ensures o.global == 0.0 ==> Updated(k, o) == k.(global := 0.0)
    ensures o.mutrate == 0.5 ==> Updated(k, o).mutrate == k.mutrate
    ensures o.elite == 0.5 ==> Updated(k, o).elite == k.elite
    ensures o.kills == 0.5 ==> Updated(k, o).kills == k.kills
    ensures o.birthRate == 0.5 ==> Updated(k, o).birthRate == k.birthRate
    ensures Updated(k, o).global == o.global
  {
  }

  /** With the choice's components and `global` in [0,1] (what a network
      output clamped to [0,1] gives), one update moves a non-negative field
      by at most half of its value: a component at 1.0 means +50%. */
  lemma UpdateAtMostHalf(h: real, o: real, global: real)
    requires 0.0 <= h && 0.0 <= o <= 1.0 && 0.0 <= global <= 1.0
    ensures 0.5 * h <= Relative(h, o, global) <= 1.5 * h
    ensures o == 1.0 && global == 1.0 ==> Relative(h, o, global) == 1.5 * h
  {
    FactorBound(o - 0.5, global);
    ScaleBound(h, Mul(o - 0.5, global));
    assert Relative(h, o, global) == h + Mul(h, Mul(o - 0.5, global));
    assert Relative(h, 1.0, 1.0) == 1.5 * h;
  }

  /** A factor in [-1/2, 1/2] times one in [0,1] stays in [-1/2, 1/2]. */
  lemma FactorBound(e: real, g: real)
    requires -0.5 <= e <= 0.5 && 0.0 <= g <= 1.0
    ensures -0.5 <= Mul(e, g) <= 0.5
  {
    if e >= 0.0 {
      MulMono(e, 0.0, g);
      MulMono(e, g, 1.0);
      assert Mul(e, 0.0) == 0.0 && Mul(e, 1.0) == e;
    } else {
      MulMono(-e, 0.0, g);
      MulMono(-e, g, 1.0);
      assert Mul(-e, 0.0) == 0.0 && Mul(-e, 1.0) == -e;
      assert Mul(e, g) == -Mul(-e, g);
    }
  }

  /** `h + h d` for `d` in [-1/2, 1/2] is between `h/2` and `3h/2`. */
  lemma ScaleBound(h: real, d: real)
    requires 0.0 <= h && -0.5 <= d <= 0.5
    ensures 0.5 * h <= h + Mul(h, d) <= 1.5 * h
  {
    MulMono(h, -0.5, d);
    MulMono(h, d, 0.5);
    assert Mul(h, -0.5) == -0.5 * h && Mul(h, 0.5) == 0.5 * h;
  }

  /** `ParamChoice`: the knobs the engine is currently running with. */
  class ParamChoice {
    var global: real
    var mutrate: real
    var elite: real
    var kills: real
    var birthRate: real

    function Value(): Knobs
      reads this
    {
      Knobs(global, mutrate, elite, kills, birthRate)
    }

    /** `ParamChoice::new`. */
    constructor New()
      ensures Value() == StartKnobs
    {
      global := 1.0;
      mutrate := MutStart;
      elite := EliteKeepStart;
      kills := DeathStart;
      birthRate := ChildPerCoupleStart;
    }

    /** `ParamChoice::same`. */
    constructor Same()
      ensures Value() == SameKnobs
    {
      global := 0.0;
      mutrate := 0.5;
      elite := 0.5;
      kills := 0.5;
      birthRate := 0.5;
    }

    /** `ParamChoice::from_vector`: the first five entries, in field order;
        a shorter vector is an out-of-bounds index. */
    constructor FromVector(v: seq<real>)
      requires 5 <= |v|
      ensures Value() == Knobs(v[0], v[1], v[2], v[3], v[4])
    {
      global := v[0];
      mutrate := v[1];
      elite := v[2];
      kills := v[3];
      birthRate := v[4];
    }

    /** `ParamChoice::update`; `other` is moved in, so it is another object. */
    method Update(other: ParamChoice)
      requires other != this
      modifies this
      ensures Value() == Updated(old(Value()), other.Value())
    {
      global := other.global;
      mutrate := mutrate + mutrate * (other.mutrate - 0.5) * other.global;
      elite := elite + elite * (other.elite - 0.5) * other.global;
      kills := kills + kills * (other.kills - 0.5) * other.global;
      birthRate := birthRate + birthRate * (other.birthRate - 0.5) * other.global;
    }
  }

  // ------------------------------------------------------ apply_params

  /** First check: `kills` is capped at `len - 2`. */
  function KillCap(kills: real, len: nat): real
  {
    if kills >= len as real - 2.0 then len as real - 2.0 else kills
  }

  /** Second check: `birthRate` is lowered so that `w * birthRate <= 200`,
      where `w = len - kills`. */
  function CapHigh(w: real, birthRate: real): real
    requires 2.0 <= w
  {
    if w * birthRate > 200.0 then 200.0 / w else birthRate
  }

  /** Third check: `birthRate` is raised so that `w * birthRate >= 4`. */
  function CapLow(w: real, birthRate: real): real
    requires 2.0 <= w
  {
    if w * birthRate < 4.0 then 4.0 / w else birthRate
  }

  /** The second and third checks in order. */
  function BirthCap(w: real, birthRate: real): real
    requires 2.0 <= w
  {
    CapLow(w, CapHigh(w, birthRate))
  }

  /** The sanity checks of `apply_params`, for a population of `len`. */
  function Clamped(k: Knobs, len: nat): Knobs
  {
    var kills := KillCap(k.kills, len);
    k.(kills := kills, birthRate := BirthCap(len as real - kills, k.birthRate))
  }

  /** After the second check the product is at most 200; a rate already
      within it is kept. */
  lemma CapHighBound(w: real, birthRate: real)
    requires 2.0 <= w
    ensures Mul(w, CapHigh(w, birthRate)) <= 200.0
    ensures Mul(w, birthRate) <= 200.0 ==> CapHigh(w, birthRate) == birthRate
  {
    assert Mul(w, birthRate) == w * birthRate;
    if w * birthRate > 200.0 {
      assert CapHigh(w, birthRate) == 200.0 / w;
      assert Mul(w, CapHigh(w, birthRate)) == Mul(w, 200.0 / w) == w * (200.0 / w) == 200.0;
    } else {
      assert CapHigh(w, birthRate) == birthRate;
    }
  }

  /** After the third check the product is in [4, 200] and the rate is
      positive; a rate already within it is kept. */
  lemma CapLowBound(w: real, x: real)
    requires 2.0 <= w && Mul(w, x) <= 200.0
    ensures 0.0 < CapLow(w, x)
    ensures 4.0 <= Mul(w, CapLow(w, x)) <= 200.0
    ensures 4.0 <= Mul(w, x) ==> CapLow(w, x) == x
  {
    assert Mul(w, x) == w * x;
    if w * x < 4.0 {
      assert CapLow(w, x) == Div(4.0, w);
      assert Mul(w, CapLow(w, x)) == Mul(w, 4.0 / w) == w * (4.0 / w) == 4.0;
      DivPos(4.0, w);
    } else {
      assert CapLow(w, x) == x;
      PosFactor(w, x);
    }
  }

  lemma BirthCapBounds(w: real, birthRate: real)
    requires 2.0 <= w
    ensures 0.0 < BirthCap(w, birthRate)
    ensures 4.0 <= Mul(w, BirthCap(w, birthRate)) <= 200.0
    ensures 4.0 <= Mul(w, birthRate) <= 200.0 ==> BirthCap(w, birthRate) == birthRate
  {
    CapHighBound(w, birthRate);
    CapLowBound(w, CapHigh(w, birthRate));
  }

  /** What `apply_params` guarantees: `kills <= len - 2`, so the divisor
      `len - kills` is at least 2, `birthRate > 0` and
      `(len - kills) * birthRate` in [4, 200]; `global`, `mutrate` and
      `elite` are not clamped, and knobs that already pass the checks come
      out unchanged. */
  lemma ClampedBounds(k: Knobs, len: nat)
    ensures var r := Clamped(k, len);
      r.kills <= len as real - 2.0 &&
      0.0 < r.birthRate &&
      4.0 <= Mul(len as real - r.kills, r.birthRate) <= 200.0 &&
      r.global == k.global && r.mutrate == k.mutrate && r.elite == k.elite &&
      (k.kills < len as real - 2.0 && 4.0 <= Mul(len as real - k.kills, k.birthRate) <= 200.0 ==> r == k)
  {
    BirthCapBounds(len as real - KillCap(k.kills, len), k.birthRate);
  }

  /** `apply_params`: update with the choice, then the checks. */
  function Applied(k: Knobs, len: nat, choice: Knobs): (r: Knobs)
    ensures r.kills <= len as real - 2.0
  {
    ClampedBounds(Updated(k, choice), len);
    Clamped(Updated(k, choice), len)
  }

  /** `kill_last` keeps `len - trunc(kills)` individuals: at least 2 out of
      at least 2, and never more than there are. */
  function Survivors(len: nat, kills: real): (n: nat)
    requires kills <= len as real - 2.0
    ensures n <= len
    ensures 2 <= len ==> 2 <= n
    ensures kills < 0.0 ==> n == len
    ensures 0.0 <= kills ==> len as real - kills <= n as real < len as real - kills + 1.0
  {
    len - Trunc(kills)
  }

  /** `make_childs` makes `trunc(birthRate * len)` children. */
  function Children(len: nat, birthRate: real): nat
  {
    Trunc(birthRate * len as real)
  }

  /** Population size at the end of `next_gen`, from the size `len` at its
      start and the knobs `k` produced by `apply_params`. */
  function NextLen(len: nat, k: Knobs): nat
    requires k.kills <= len as real - 2.0
  {
    var s := Survivors(len, k.kills);
    s + Children(s, k.birthRate)
  }

  /** Where `mutate_average` starts mutating in a population of `len`:
      the last `trunc(elite)` individuals are mutated. `elite` is never
      clamped; when `trunc(elite) > len` the `usize` subtraction wraps (the
      release build) and the range from there to `len` is empty, so nobody
      is mutated. */
  function AverageStart(len: nat, elite: real): (f: nat)
    ensures f <= len
    ensures Trunc(elite) <= len ==> f + Trunc(elite) == len
    ensures len < Trunc(elite) ==> f == len
  {
    if Trunc(elite) <= len then len - Trunc(elite) else len
  }

  /** What the checks of `apply_params` guarantee about the next population:
      at least 2 individuals, and at most 300 children, so at most `len + 300`
      in all. When `kills` is not negative there are at least 4 children. */
  lemma PopulationBounds(len: nat, k: Knobs, choice: Knobs)
    requires 2 <= len
    ensures var a := Applied(k, len, choice);
      var s := Survivors(len, a.kills);
      2 <= NextLen(len, a) <= len + 300 &&
      Children(s, a.birthRate) <= 300 &&
      (0.0 <= a.kills ==> 4 <= Children(s, a.birthRate))
  {
    ClampedBounds(Updated(k, choice), len);
    NextLenBounds(len, Applied(k, len, choice));
  }

  /** `PopulationBounds` for any knobs that pass the checks. */
  lemma NextLenBounds(len: nat, a: Knobs)
    requires 2 <= len && a.kills <= len as real - 2.0 && 0.0 < a.birthRate
    requires 4.0 <= Mul(len as real - a.kills, a.birthRate) <= 200.0
    ensures var s := Survivors(len, a.kills);
      2 <= NextLen(len, a) <= len + 300 &&
      Children(s, a.birthRate) <= 300 &&
      (0.0 <= a.kills ==> 4 <= Children(s, a.birthRate))
  {
    var s := Survivors(len, a.kills);
    ChildBounds(len as real - a.kills, s as real, a.birthRate, 0.0 <= a.kills);
    assert Children(s, a.birthRate) == Trunc(Mul(a.birthRate, s as real));
    TruncRange(Mul(a.birthRate, s as real));
  }

  /** Truncating a number in [0, 300] gives at most 300, and at least 4
      when the number is at least 4. */
  lemma TruncRange(x: real)
    requires 0.0 <= x <= 300.0
    ensures Trunc(x) <= 300
    ensures 4.0 <= x ==> 4 <= Trunc(x)
  {
  }

  /** The real arithmetic behind `PopulationBounds`: with `w = len - kills`
      at least 2 and `w * br` in [4, 200], `br * s` for the survivor count
      `s` is at most 300, and at least 4 when `kills` is not negative (then
      `w <= s < w + 1`; otherwise `s <= w`). */
  lemma ChildBounds(w: real, s: real, br: real, nonNegKills: bool)
    requires 2.0 <= w && 0.0 < br && 4.0 <= Mul(w, br) <= 200.0
    requires nonNegKills ==> w <= s < w + 1.0
    requires !nonNegKills ==> 0.0 <= s <= w
    ensures 0.0 <= Mul(br, s) <= 300.0
    ensures nonNegKills ==> 4.0 <= Mul(br, s)
  {
    assert Mul(w, br) == Mul(br, w);
    MulMono(br, 0.0, s);
    assert Mul(br, 0.0) == 0.0;
    if nonNegKills {
      MulMono(br, w, s);
      MulMono(br, s, w + 1.0);
      MulMono(br, 2.0, w);
      assert Mul(br, w + 1.0) == Mul(br, w) + br;
      assert Mul(br, 2.0) == 2.0 * br;
    } else {
      MulMono(br, s, w);
    }
  }

  /** The bound of 300 children is reached in practice: 25 individuals with
      `kills == 22.5` and `birthRate == 100` keep `kills` (below 23), lower
      `birthRate` to `200 / 2.5 == 80`, keep `25 - 22 == 3` survivors and make
      `trunc(80 * 3) == 240` children, 243 individuals in all. The checks
      bound `(len - kills) * birthRate`, not `survivors * birthRate`. */
  lemma PopulationExceeds204()
    ensures var a := Applied(Knobs(0.0, 0.5, 1.0, 22.5, 100.0), 25, SameKnobs);
      a.kills == 22.5 && a.birthRate == 80.0 &&
      Survivors(25, a.kills) == 3 && NextLen(25, a) == 243
  {
    var k := Knobs(0.0, 0.5, 1.0, 22.5, 100.0);
    assert Updated(k, SameKnobs) == k;
    assert KillCap(22.5, 25) == 22.5;
    assert CapHigh(2.5, 100.0) == 80.0;
    assert CapLow(2.5, 80.0) == 80.0;
    var a := Applied(k, 25, SameKnobs);
    assert a == k.(birthRate := 80.0);
    assert Trunc(22.5) == 22;
    assert Trunc(240.0) == 240;
  }

  /** Population size, knobs and `individuals_played` after `n` calls of
      `next_gen(ParamChoice::same())`. */
  function SameRun(len: nat, k: Knobs, played: nat, n: nat): (nat, Knobs, nat)
    decreases n
  {
    if n == 0 then (len, k, played)
    else
      var a := Applied(k, len, SameKnobs);
      var len' := NextLen(len, a);
      SameRun(len', a, played + len', n - 1)
  }

  /** The knobs of `initiate` once `global` has been set to 0. */
  const SteadyKnobs := StartKnobs.(global := 0.0)

  lemma {:induction false} SameRunSteady(played: nat, n: nat)
    ensures SameRun(25, SteadyKnobs, played, n) == (25, SteadyKnobs, played + 25 * n)
    decreases n
  {
    if n > 0 {
      assert Applied(SteadyKnobs, 25, SameKnobs) == SteadyKnobs;
      assert Trunc(20.0) == 20;
      assert NextLen(25, SteadyKnobs) == 25;
      SameRunSteady(played + 25, n - 1);
    }
  }

  /** From `initiate` (25 individuals, `ParamChoice::new()`), repeated
      `next_gen(ParamChoice::same())` keeps 25 individuals, and
      `individuals_played > 150` first holds after the 7th generation. */
  lemma SameScenario(n: nat)
    ensures SameRun(25, StartKnobs, 0, n).0 == 25
    ensures SameRun(25, StartKnobs, 0, n).2 == 25 * n
    ensures SameRun(25, StartKnobs, 0, n).2 > 150 <==> n >= 7
  {
    if n > 0 {
      assert Applied(StartKnobs, 25, SameKnobs) == SteadyKnobs;
      assert Trunc(20.0) == 20;
      assert NextLen(25, SteadyKnobs) == 25;
      SameRunSteady(25, n - 1);
    }
  }

  // ------------------------------------------------------------ GenResult

  /** The history update: drop the oldest entry, append the newest. */
  function Shift(h: seq<real>, x: real): seq<real>
    requires 1 <= |h|
  {
    h[1..] + [x]
  }

  /** `k` shifts in a row, with the values `xs` in order. */
  function ShiftAll(h: seq<real>, xs: seq<real>): seq<real>
    requires 1 <= |h|
    decreases |xs|
  {
    if xs == [] then h else ShiftAll(Shift(h, xs[0]), xs[1..])
  }

  /** The history is a sliding window: after any number of shifts it holds
      the last `|h|` values of the old history followed by the new values. */
  lemma {:induction false} ShiftAllWindow(h: seq<real>, xs: seq<real>)
    requires 1 <= |h|
    ensures ShiftAll(h, xs) == (h + xs)[|xs|..]
    decreases |xs|
  {
    if xs != [] {
      ShiftAllWindow(Shift(h, xs[0]), xs[1..]);
      assert Shift(h, xs[0]) + xs[1..] == (h + xs)[1..];
    }
  }

  /** Entry `a` of `into_vector`: `(a - min) / (max - min)`, or 0 when
      `min == max`. */
  function Normalize(a: real, min: real, max: real): real
  {
    if min == max then 0.0 else (a - min) / (max - min)
  }

  /** Dividing by a positive number keeps an inequality. */
  lemma DivMono(x: real, y: real, d: real)
    requires x <= y && 0.0 < d
    ensures x / d <= y / d
  {
    assert y / d - x / d == (y - x) / d;
  }

  /** `into_vector` on values: `max`, `med`, `q1`, `q3`, `min`, then the
      `max5` history twice (`med5` is never exported). */
  function Summary(max: real, min: real, q1: real, med: real, q3: real, max5: seq<real>): (v: seq<real>)
    ensures |v| == 5 + 2 * |max5|
  {
    var f := a => Normalize(a, min, max);
    [f(max), f(med), f(q1), f(q3), f(min)]
      + seq(|max5|, i requires 0 <= i < |max5| => f(max5[i]))
      + seq(|max5|, i requires 0 <= i < |max5| => f(max5[i]))
  }

  /** Normalising keeps the order of the values. */
  lemma NormalizeMono(a: real, b: real, min: real, max: real)
    requires min < max && a <= b
    ensures Normalize(a, min, max) <= Normalize(b, min, max)
  {
    DivMono(a - min, b - min, max - min);
  }

  /** A value between `min` and `max` normalises into [0,1], `max` to 1 and
      `min` to 0. */
  lemma NormalizeUnit(a: real, min: real, max: real)
    requires min < max && min <= a <= max
    ensures 0.0 <= Normalize(a, min, max) <= 1.0
  {
    DivMono(0.0, a - min, max - min);
    DivMono(a - min, max - min, max - min);
  }

  /** Where each statistic lands in the summary. */
  lemma SummaryLayout(max: real, min: real, q1: real, med: real, q3: real, max5: seq<real>)
    ensures var v := Summary(max, min, q1, med, q3, max5);
      v[0] == Normalize(max, min, max) && v[1] == Normalize(med, min, max) &&
      v[2] == Normalize(q1, min, max) && v[3] == Normalize(q3, min, max) &&
      v[4] == Normalize(min, min, max) &&
      forall i :: 0 <= i < |max5| ==>
        v[5 + i] == Normalize(max5[i], min, max) && v[5 + |max5| + i] == Normalize(max5[i], min, max)
  {
  }

  /** The summary has `GEN_RESULT_SIZE` entries, the two copies of the
      history agree, and it is all zeros when `min == max`; otherwise `max`
      maps to 1 and `min` to 0. */
  lemma SummaryShape(max: real, min: real, q1: real, med: real, q3: real, max5: seq<real>)
    requires |max5| == 5
    ensures var v := Summary(max, min, q1, med, q3, max5);
      |v| == GenResultSize &&
      v[5..10] == v[10..15] &&
      (min == max ==> forall i :: 0 <= i < |v| ==> v[i] == 0.0) &&
      (min != max ==> v[0] == 1.0 && v[4] == 0.0)
  {
    var v := Summary(max, min, q1, med, q3, max5);
    SummaryLayout(max, min, q1, med, q3, max5);
    assert forall i :: 0 <= i < 5 ==> v[5..10][i] == v[5 + i] == v[10 + i] == v[10..15][i];
    if min == max {
      forall i | 0 <= i < |v| ensures v[i] == 0.0 {
        if i >= 5 {
          var j := if i < 10 then i - 5 else i - 10;
          assert v[i] == Normalize(max5[j], min, max);
        }
      }
    } else {
      assert (max - min) / (max - min) == 1.0;
      assert (min - min) / (max - min) == 0.0;
    }
  }

  /** When the statistics are ordered as `next_gen` leaves them, their order
      is kept and every entry is in [0,1]. */
  lemma SummaryOrder(max: real, min: real, q1: real, med: real, q3: real, max5: seq<real>)
    requires |max5| == 5
    requires min < max && min <= q3 <= med <= q1 <= max
    requires forall i :: 0 <= i < 5 ==> min <= max5[i] <= max
    ensures var v := Summary(max, min, q1, med, q3, max5);
      v[4] <= v[3] <= v[1] <= v[2] <= v[0] &&
      forall i :: 0 <= i < |v| ==> 0.0 <= v[i] <= 1.0
  {
    var v := Summary(max, min, q1, med, q3, max5);
    SummaryLayout(max, min, q1, med, q3, max5);
    NormalizeMono(min, q3, min, max);
    NormalizeMono(q3, med, min, max);
    NormalizeMono(med, q1, min, max);
    NormalizeMono(q1, max, min, max);
    NormalizeUnit(min, min, max);
    NormalizeUnit(max, min, max);
    forall i | 0 <= i < |v| ensures 0.0 <= v[i] <= 1.0 {
      if i >= 5 {
        var j := if i < 10 then i - 5 else i - 10;
        NormalizeUnit(max5[j], min, max);
      }
    }
  }

  /** `GenResult`: the statistics of the last generation and the histories
      of the five previous maxima and medians. */
  class GenResult {
    var max: real
    var min: real
    var q1: real
    var med: real
    var q3: real
    var max5: array<real>
    var med5: array<real>

    ghost predicate Valid()
      reads this
    {
      max5.Length == 5 && med5.Length == 5 && max5 != med5
    }

    /** `GenResult::new`: everything 0. */
    constructor New()
      ensures Valid() && fresh(max5) && fresh(med5)
      ensures max == 0.0 && min == 0.0 && q1 == 0.0 && med == 0.0 && q3 == 0.0
      ensures max5[..] == [0.0, 0.0, 0.0, 0.0, 0.0] && med5[..] == [0.0, 0.0, 0.0, 0.0, 0.0]
    {
      max, min, q1, med, q3 := 0.0, 0.0, 0.0, 0.0, 0.0;
      max5 := new real[5](_ => 0.0);
      med5 := new real[5](_ => 0.0);
    }

    /** `GenResult::update`: the histories shift left and receive the
        previous `max` and `med`; then the five statistics are replaced. */
    method Update(newMax: real, newMin: real, newQ1: real, newMed: real, newQ3: real)
      requires Valid()
      modifies this, max5, med5
      ensures Valid() && max5 == old(max5) && med5 == old(med5)
      ensures max5[..] == Shift(old(max5[..]), old(max))
      ensures med5[..] == Shift(old(med5[..]), old(med))
      ensures max == newMax && min == newMin && q1 == newQ1 && med == newMed && q3 == newQ3
    {
      for i := 0 to 4
        modifies max5, med5
        invariant forall k :: 0 <= k < i ==> max5[k] == old(max5[k + 1]) && med5[k] == old(med5[k + 1])
        invariant forall k :: i <= k < 5 ==> max5[k] == old(max5[k]) && med5[k] == old(med5[k])
      {
        max5[i] := max5[i + 1];
        med5[i] := med5[i + 1];
      }
      max5[4] := max;
      med5[4] := med;
      max := newMax;
      min := newMin;
      med := newMed;
      q1 := newQ1;
      q3 := newQ3;
    }

    /** `GenResult::into_vector`. */
    function IntoVector(): (v: seq<real>)
      requires Valid()
      reads this, max5
      ensures |v| == GenResultSize
    {
      Summary(max, min, q1, med, q3, max5[..])
    }
  }

  // -------------------------------------------------------------- AlgoGen

  /** The scores `add_scores_all` gives a population whose scores were reset. */
  ghost function Scored(p: C.AllProblemsCompilation, s: seq<Sol>): (r: seq<Sol>)
    requires forall i :: 0 <= i < |s| ==> C.CanEvaluate(p, s[i].genes)
  {
    seq(|s|, i requires 0 <= i < |s| => Sol(C.Score(p, s[i].genes), s[i].genes))
  }

  /** Re-scoring keeps the genes: a reordering of a re-scored population
      whose individuals all have `conf` genes has the same property. */
  lemma ScoredGenes(p: C.AllProblemsCompilation, s: seq<Sol>, t: seq<Sol>, conf: nat)
    requires forall i :: 0 <= i < |s| ==> C.CanEvaluate(p, s[i].genes) && |s[i].genes| == conf
    requires multiset(t) == multiset(Scored(p, s))
    ensures forall i :: 0 <= i < |t| ==> |t[i].genes| == conf
  {
    forall i | 0 <= i < |t| ensures |t[i].genes| == conf {
      assert t[i] in multiset(Scored(p, s));
      var j :| 0 <= j < |s| && Scored(p, s)[j] == t[i];
    }
  }

  /** The sort key of `sort_pop`: best first. */
  function NegScore(s: Sol): real
  {
    -s.score
  }

  /** The first `n` children `make_childs` makes from `s`: child `k` has the
      parents `s[k mod (|s| - 1)]` and the one after it. */
  function Offspring(s: seq<Sol>, picks: seq<seq<bool>>, n: nat): (c: seq<Sol>)
    requires 2 <= |s| && n <= |picks|
    requires forall k, i :: 0 <= k < n && 0 <= i < |s| ==> |s[i].genes| <= |picks[k]|
    ensures |c| == n
  {
    if n == 0 then []
    else
      var p := (n - 1) % (|s| - 1);
      Offspring(s, picks, n - 1) + [Child(s[p], s[p + 1], picks[n - 1])]
  }

  /** Every child takes each gene from one of two consecutive individuals,
      has as many genes as the population's individuals have, and starts with
      score 0. */
  lemma {:induction false} OffspringFacts(s: seq<Sol>, picks: seq<seq<bool>>, n: nat, conf: nat)
    requires 2 <= |s| && n <= |picks|
    requires forall k, i :: 0 <= k < n && 0 <= i < |s| ==> |s[i].genes| <= |picks[k]|
    requires forall i :: 0 <= i < |s| ==> |s[i].genes| == conf
    ensures forall k :: 0 <= k < n ==> Offspring(s, picks, n)[k].score == 0.0
    ensures forall k :: 0 <= k < n ==> |Offspring(s, picks, n)[k].genes| == conf
    ensures forall k, g :: 0 <= k < n && 0 <= g < conf ==>
      var p := k % (|s| - 1);
      Offspring(s, picks, n)[k].genes[g] in {s[p].genes[g], s[p + 1].genes[g]}
    decreases n
  {
    if n > 0 {
      OffspringFacts(s, picks, n - 1, conf);
    }
  }

  /** `t` is what `kill_last`, `mutate_average` and `make_childs` make of
      the population `s` under the knobs `k` that `apply_params` produced:
      the `n` survivors are `s[..n]`, those before `AverageStart(n, elite)`
      are kept as they were, the others are mutated with the draws
      `mutDraws[i]`, and the children of the mutated survivors follow. */
  ghost predicate BredFrom(t: seq<Sol>, s: seq<Sol>, k: Knobs, mutDraws: seq<seq<real>>, picks: seq<seq<bool>>)
  {
    2 <= |s| && k.kills <= |s| as real - 2.0 &&
    var n := Survivors(|s|, k.kills);
    var f := AverageStart(n, k.elite);
    var c := Children(n, k.birthRate);
    n <= |t| && n <= |mutDraws| && c <= |picks| &&
    (forall i :: 0 <= i < f ==> t[i] == s[i]) &&
    (forall i :: f <= i < n ==> |s[i].genes| <= |mutDraws[i]| && IsMutation(t[i], s[i], k.mutrate, mutDraws[i])) &&
    (forall j, i :: 0 <= j < c && 0 <= i < n ==> |t[i].genes| <= |picks[j]|) &&
    t[n..] == Offspring(t[..n], picks, c)
  }

  /** The three steps of `Breed` assembled: survivors `s[..n]`, mutated
      into `mutated`, then the children of `mutated` appended. */
  lemma BredSteps(s: seq<Sol>, k: Knobs, mutDraws: seq<seq<real>>, picks: seq<seq<bool>>,
                  mutated: seq<Sol>, t: seq<Sol>, conf: nat)
    requires 2 <= |s| && k.kills <= |s| as real - 2.0
    requires |mutated| == Survivors(|s|, k.kills) <= |mutDraws|
    requires Children(|mutated|, k.birthRate) <= |picks|
    requires forall i :: 0 <= i < |s| ==> |s[i].genes| == conf
    requires forall i :: 0 <= i < |mutDraws| ==> conf <= |mutDraws[i]|
    requires forall j :: 0 <= j < |picks| ==> conf <= |picks[j]|
    requires forall i :: 0 <= i < |mutated| ==> |mutated[i].genes| == conf
    requires forall i :: 0 <= i < AverageStart(|mutated|, k.elite) ==> mutated[i] == s[i]
    requires forall i :: AverageStart(|mutated|, k.elite) <= i < |mutated| ==>
      IsMutation(mutated[i], s[i], k.mutrate, mutDraws[i])
    requires t == mutated + Offspring(mutated, picks, Children(|mutated|, k.birthRate))
    ensures BredFrom(t, s, k, mutDraws, picks)
  {
    var n := |mutated|;
    assert t[..n] == mutated;
    assert t[n..] == Offspring(mutated, picks, Children(n, k.birthRate));
  }

  /** With more elite than survivors the wrapped subtraction of
      `mutate_average` leaves an empty range: the next population is the
      survivors, unchanged, followed by their children. */
  lemma EliteWrapKeepsSurvivors(t: seq<Sol>, s: seq<Sol>, k: Knobs, mutDraws: seq<seq<real>>, picks: seq<seq<bool>>)
    requires BredFrom(t, s, k, mutDraws, picks)
    requires Survivors(|s|, k.kills) < Trunc(k.elite)
    ensures var n := Survivors(|s|, k.kills);
      t == s[..n] + Offspring(s[..n], picks, Children(n, k.birthRate))
  {
    var n := Survivors(|s|, k.kills);
    assert t[..n] == s[..n];
    assert t == t[..n] + t[n..];
  }

  /** `(d + 1) mod m` from `d mod m`. */
  lemma ModNext(d: nat, m: nat)
    requires 0 < m
    ensures (d + 1) % m == if d % m == m - 1 then 0 else d % m + 1
  {
    var q := d / m;
    assert d == q * m + d % m;
    if d % m == m - 1 {
      ModUnique(d + 1, m, q + 1, 0);
    } else {
      ModUnique(d + 1, m, q, d % m + 1);
    }
  }

  /** The remainder is determined by any quotient/remainder decomposition. */
  lemma ModUnique(n: nat, m: nat, q: int, r: int)
    requires 0 < m && 0 <= r < m && n == q * m + r
    ensures n % m == r
  {
    var k := q - n / m;
    assert n == n / m * m + n % m;
    assert k * m == n % m - r;
    SmallMultiple(k, m);
  }

  /** A multiple of `m` strictly between `-m` and `m` is 0. */
  lemma SmallMultiple(k: int, m: int)
    requires 0 < m && -m < k * m < m
    ensures k == 0
  {
    assert k >= 1 ==> k * m >= 1 * m;
    assert k <= -1 ==> k * m <= -1 * m;
  }

  /** The last index with the largest score: `max_by_key` returns the last
      of several equal maxima. */
  function BestIndex(s: seq<Sol>): (k: nat)
    requires 1 <= |s|
    ensures k < |s|
    ensures forall i :: 0 <= i < |s| ==> s[i].score <= s[k].score
    ensures forall i :: k < i < |s| ==> s[i].score < s[k].score
  {
    if |s| == 1 then 0
    else
      var k := BestIndex(s[..|s| - 1]);
      assert forall i :: 0 <= i < |s| - 1 ==> s[..|s| - 1][i] == s[i];
      if s[|s| - 1].score >= s[k].score then |s| - 1 else k
  }

  /** On a population sorted best first, the best individual has the first
      one's score. */
  lemma BestOfSorted(s: seq<Sol>)
    requires 1 <= |s| && Sorting.SortedBy(s, NegScore)
    ensures s[BestIndex(s)].score == s[0].score
  {
    var k := BestIndex(s);
    if k != 0 {
      assert NegScore(s[0]) <= NegScore(s[k]);
    }
  }

  /** `AlgoGen<AllProblemsCompilation>`. The random generator is replaced by
      draws passed to the operations that consume it. */
  class AlgoGen {
    var pop: seq<Sol>
    const params: ParamChoice
    const problem: C.AllProblemsCompilation
    const lastRes: GenResult
    var individualsPlayed: nat

    /** At least two individuals, each with as many genes as the problem
        reads. */
    ghost predicate Valid()
      reads this, lastRes
    {
      lastRes.Valid() && C.WellFormed(problem) && 2 <= |pop| &&
      forall i :: 0 <= i < |pop| ==> |pop[i].genes| == C.SolConf(problem)
    }

    /** `initiate`: 25 random individuals for the problem, the starting
        knobs, empty statistics. `popDraws[i]` are the draws of individual
        `i`. */
    constructor Initiate(prob: C.AllProblemsCompilation, popDraws: seq<seq<real>>)
      requires C.WellFormed(prob)
      requires |popDraws| == Trunc(PopStart)
      requires forall i :: 0 <= i < |popDraws| ==> C.SolConf(prob) <= |popDraws[i]| && UnitDraws(popDraws[i])
      ensures Valid() && fresh(params) && fresh(lastRes) && fresh(lastRes.max5) && fresh(lastRes.med5)
      ensures problem == prob && |pop| == 25
      ensures forall i :: 0 <= i < 25 ==> pop[i] == Random(C.SolConf(prob), popDraws[i])
      ensures params.Value() == StartKnobs && individualsPlayed == 0
      ensures lastRes.max == 0.0 && lastRes.min == 0.0
    {
      assert Trunc(PopStart) == 25;
      problem := prob;
      pop := seq(25, i requires 0 <= i < 25 => Random(C.SolConf(prob), popDraws[i]));
      lastRes := new GenResult.New();
      params := new ParamChoice.New();
      individualsPlayed := 0;
    }

    /** `apply_params`. */
    method ApplyParams(choice: ParamChoice)
      requires choice != params
      modifies params
      ensures params.Value() == Applied(old(params.Value()), |pop|, choice.Value())
    {
      params.Update(choice);
      ghost var u := params.Value();
      if params.kills >= |pop| as real - 2.0 {
        params.kills := |pop| as real - 2.0;
      }
      assert params.kills == KillCap(u.kills, |pop|);
      var w := |pop| as real - params.kills;
      params.birthRate := CapHigh(w, params.birthRate);
      params.birthRate := CapLow(w, params.birthRate);
      assert params.Value() == Clamped(u, |pop|);
    }

    /** `kill_last`: keeps the first `len - trunc(kills)` individuals, in
        order. */
    method KillLast()
      requires Trunc(params.kills) <= |pop|
      modifies this
      ensures pop == old(pop[..|pop| - Trunc(params.kills)])
      ensures individualsPlayed == old(individualsPlayed)
    {
      pop := pop[..|pop| - Trunc(params.kills)];
    }

    /** `mutate_average`: the individuals before `AverageStart` are
        untouched, the ones from it on are mutated with `mutrate`;
        `draws[i]` are the draws individual `i` consumes. */
    method MutateAverage(draws: seq<seq<real>>)
      requires |pop| <= |draws|
      requires forall i :: 0 <= i < |pop| ==> |pop[i].genes| <= |draws[i]| && UnitDraws(draws[i])
      modifies this
      ensures |pop| == old(|pop|) && individualsPlayed == old(individualsPlayed)
      ensures forall i :: 0 <= i < AverageStart(|pop|, params.elite) ==> pop[i] == old(pop[i])
      ensures forall i :: AverageStart(|pop|, params.elite) <= i < |pop| ==>
        IsMutation(pop[i], old(pop[i]), params.mutrate, draws[i])
    {
      var nbAverage := if Trunc(params.elite) <= |pop| then |pop| - Trunc(params.elite) else |pop|;
      for i := nbAverage to |pop|
        invariant |pop| == old(|pop|) && individualsPlayed == old(individualsPlayed)
        invariant forall k :: 0 <= k < nbAverage ==> pop[k] == old(pop[k])
        invariant forall k :: nbAverage <= k < i ==> IsMutation(pop[k], old(pop[k]), params.mutrate, draws[k])
        invariant forall k :: i <= k < |pop| ==> pop[k] == old(pop[k])
      {
        var m := Mutate(pop[i], params.mutrate, draws[i]);
        pop := pop[i := m];
      }
    }

    /** `make_childs`: appends `trunc(birthRate * len)` children, made round
        robin from consecutive pairs; `picks[k]` are the draws of child `k`. */
    method MakeChilds(picks: seq<seq<bool>>)
      requires 2 <= |pop| && Children(|pop|, params.birthRate) <= |picks|
      requires forall k, i :: 0 <= k < |picks| && 0 <= i < |pop| ==> |pop[i].genes| <= |picks[k]|
      modifies this
      ensures pop == old(pop) + Offspring(old(pop), picks, Children(old(|pop|), params.birthRate))
      ensures individualsPlayed == old(individualsPlayed)
    {
      var n := Trunc(params.birthRate * |pop| as real);
      var curIndex, childsDone := 0, 0;
      var childs := [];
      while childsDone < n
        modifies {}
        invariant childsDone <= n <= |picks|
        invariant 0 <= curIndex <= |pop| - 1
        invariant curIndex < |pop| - 1 ==> curIndex == childsDone % (|pop| - 1)
        invariant curIndex == |pop| - 1 ==> childsDone % (|pop| - 1) == 0
        invariant childs == Offspring(pop, picks, childsDone)
        decreases n - childsDone
      {
        if curIndex + 1 == |pop| {
          curIndex := 0;
        }
        ModNext(childsDone, |pop| - 1);
        childs := childs + [Child(pop[curIndex], pop[curIndex + 1], picks[childsDone])];
        curIndex := curIndex + 1;
        childsDone := childsDone + 1;
      }
      pop := pop + childs;
    }

    /** `sort_pop`: scores reset and re-evaluated on the problem, the count
        of evaluations grows by the population size, and the population is
        sorted best first. */
    method SortPop()
      requires forall i :: 0 <= i < |pop| ==> C.CanEvaluate(problem, pop[i].genes)
      modifies this
      ensures multiset(pop) == multiset(Scored(problem, old(pop)))
      ensures Sorting.SortedBy(pop, NegScore)
      ensures forall i, j :: 0 <= i < j < |pop| ==> pop[j].score <= pop[i].score
      ensures |pop| == old(|pop|) && individualsPlayed == old(individualsPlayed) + |pop|
    {
      var reset := pop;
      for i := 0 to |reset|
        invariant |reset| == |pop|
        invariant forall k :: 0 <= k < i ==> reset[k] == ResetScore(pop[k])
        invariant forall k :: i <= k < |reset| ==> reset[k] == pop[k]
      {
        reset := reset[i := ResetScore(reset[i])];
      }
      var p := problem;
      var scored := AddScoresAll((g: seq<real>) requires C.CanEvaluate(p, g) => C.Score(p, g), reset);
      assert scored == Scored(problem, pop);
      individualsPlayed := individualsPlayed + |scored|;
      pop := Sorting.SortByKey(scored, NegScore);
      forall i, j | 0 <= i < j < |pop| ensures pop[j].score <= pop[i].score {
        assert NegScore(pop[i]) <= NegScore(pop[j]);
      }
    }

    /** `update_res`: the statistics are read at positions 0, len/4, len/2,
        3 len/4 and len - 1. */
    method UpdateRes()
      requires 1 <= |pop| && lastRes.Valid()
      modifies lastRes, lastRes.max5, lastRes.med5
      ensures lastRes.Valid() && lastRes.max5 == old(lastRes.max5) && lastRes.med5 == old(lastRes.med5)
      ensures lastRes.max5[..] == Shift(old(lastRes.max5[..]), old(lastRes.max))
      ensures lastRes.med5[..] == Shift(old(lastRes.med5[..]), old(lastRes.med))
      ensures lastRes.max == pop[0].score && lastRes.min == pop[|pop| - 1].score
      ensures lastRes.q1 == pop[|pop| / 4].score && lastRes.med == pop[|pop| / 2].score
      ensures lastRes.q3 == pop[3 * |pop| / 4].score
    {
      lastRes.Update(pop[0].score, pop[|pop| - 1].score, pop[|pop| / 4].score,
                     pop[|pop| / 2].score, pop[3 * |pop| / 4].score);
    }

    /** The first half of `next_gen`: apply the knobs, kill, mutate and
        breed. Mutation draws are per individual and crossover draws per
        child. */
    method Breed(choice: ParamChoice, mutDraws: seq<seq<real>>, picks: seq<seq<bool>>)
      requires Valid() && choice != params
      requires var a := Applied(params.Value(), |pop|, choice.Value());
        Children(Survivors(|pop|, a.kills), a.birthRate) <= |picks|
      requires |pop| <= |mutDraws|
      requires forall i :: 0 <= i < |mutDraws| ==> C.SolConf(problem) <= |mutDraws[i]| && UnitDraws(mutDraws[i])
      requires forall k :: 0 <= k < |picks| ==> C.SolConf(problem) <= |picks[k]|
      modifies this, params
      ensures Valid() && individualsPlayed == old(individualsPlayed)
      ensures params.Value() == Applied(old(params.Value()), old(|pop|), choice.Value())
      ensures |pop| == NextLen(old(|pop|), params.Value())
      ensures BredFrom(pop, old(pop), params.Value(), mutDraws, picks)
    {
      ghost var conf := C.SolConf(problem);
      ghost var pop0 := pop;
      ApplyParams(choice);
      ghost var s := Survivors(|pop0|, params.kills);
      KillLast();
      assert pop == pop0[..s] && 2 <= s;
      ghost var mutated := Reproduce(mutDraws, picks);
      BredSteps(pop0, params.Value(), mutDraws, picks, mutated, pop, conf);
    }

    /** `mutate_average` then `make_childs`, on the survivors; `mutated` is
        the population between the two. */
    method Reproduce(mutDraws: seq<seq<real>>, picks: seq<seq<bool>>) returns (ghost mutated: seq<Sol>)
      requires 2 <= |pop| <= |mutDraws| && Children(|pop|, params.birthRate) <= |picks|
      requires forall i :: 0 <= i < |pop| ==> |pop[i].genes| == C.SolConf(problem)
      requires forall i :: 0 <= i < |mutDraws| ==> C.SolConf(problem) <= |mutDraws[i]| && UnitDraws(mutDraws[i])
      requires forall k :: 0 <= k < |picks| ==> C.SolConf(problem) <= |picks[k]|
      modifies this
      ensures individualsPlayed == old(individualsPlayed) && |mutated| == old(|pop|)
      ensures forall i :: 0 <= i < |mutated| ==> |mutated[i].genes| == C.SolConf(problem)
      ensures forall i :: 0 <= i < AverageStart(|mutated|, params.elite) ==> mutated[i] == old(pop[i])
      ensures forall i :: AverageStart(|mutated|, params.elite) <= i < |mutated| ==>
        IsMutation(mutated[i], old(pop[i]), params.mutrate, mutDraws[i])
      ensures pop == mutated + Offspring(mutated, picks, Children(|mutated|, params.birthRate))
      ensures forall i :: 0 <= i < |pop| ==> |pop[i].genes| == C.SolConf(problem)
    {
      ghost var conf := C.SolConf(problem);
      MutateAverage(mutDraws);
      assert forall i :: 0 <= i < |pop| ==> |pop[i].genes| == conf;
      mutated := pop;
      MakeChilds(picks);
      ghost var n := Children(|mutated|, params.birthRate);
      OffspringFacts(mutated, picks, n, conf);
      GenesAppend(mutated, Offspring(mutated, picks, n), conf);
    }

    /** `next_gen`: `Breed`, then evaluate and sort, then record the
        statistics. `bred` is the population before the sort. */
    method NextGen(choice: ParamChoice, mutDraws: seq<seq<real>>, picks: seq<seq<bool>>) returns (ghost bred: seq<Sol>)
      requires Valid() && choice != params
      requires var a := Applied(params.Value(), |pop|, choice.Value());
        Children(Survivors(|pop|, a.kills), a.birthRate) <= |picks|
      requires |pop| <= |mutDraws|
      requires forall i :: 0 <= i < |mutDraws| ==> C.SolConf(problem) <= |mutDraws[i]| && UnitDraws(mutDraws[i])
      requires forall k :: 0 <= k < |picks| ==> C.SolConf(problem) <= |picks[k]|
      modifies this, params, lastRes, lastRes.max5, lastRes.med5
      ensures Valid()
      ensures params.Value() == Applied(old(params.Value()), old(|pop|), choice.Value())
      ensures BredFrom(bred, old(pop), params.Value(), mutDraws, picks)
      ensures forall i :: 0 <= i < |bred| ==> C.CanEvaluate(problem, bred[i].genes)
      ensures multiset(pop) == multiset(Scored(problem, bred))
      ensures |pop| == NextLen(old(|pop|), params.Value())
      ensures individualsPlayed == old(individualsPlayed) + |pop|
      ensures forall i, j :: 0 <= i < j < |pop| ==> pop[j].score <= pop[i].score
      ensures lastRes.max == pop[0].score && lastRes.min == pop[|pop| - 1].score
      ensures lastRes.q1 == pop[|pop| / 4].score && lastRes.med == pop[|pop| / 2].score
      ensures lastRes.q3 == pop[3 * |pop| / 4].score
      ensures lastRes.max >= lastRes.q1 >= lastRes.med >= lastRes.q3 >= lastRes.min
      ensures lastRes.max5[..] == Shift(old(lastRes.max5[..]), old(lastRes.max))
      ensures lastRes.med5[..] == Shift(old(lastRes.med5[..]), old(lastRes.med))
    {
      Breed(choice, mutDraws, picks);
      bred := pop;
      SortAndRecord();
    }

    /** The second half of `next_gen`: evaluate and sort, then record the
        statistics. */
    method SortAndRecord()
      requires Valid()
      modifies this, lastRes, lastRes.max5, lastRes.med5
      ensures Valid() && |pop| == old(|pop|)
      ensures forall i :: 0 <= i < old(|pop|) ==> C.CanEvaluate(problem, old(pop[i]).genes)
      ensures multiset(pop) == multiset(Scored(problem, old(pop)))
      ensures individualsPlayed == old(individualsPlayed) + |pop|
      ensures forall i, j :: 0 <= i < j < |pop| ==> pop[j].score <= pop[i].score
      ensures lastRes.max == pop[0].score && lastRes.min == pop[|pop| - 1].score
      ensures lastRes.q1 == pop[|pop| / 4].score && lastRes.med == pop[|pop| / 2].score
      ensures lastRes.q3 == pop[3 * |pop| / 4].score
      ensures lastRes.max >= lastRes.q1 >= lastRes.med >= lastRes.q3 >= lastRes.min
      ensures lastRes.max5[..] == Shift(old(lastRes.max5[..]), old(lastRes.max))
      ensures lastRes.med5[..] == Shift(old(lastRes.med5[..]), old(lastRes.med))
    {
      forall i | 0 <= i < |pop| ensures C.CanEvaluate(problem, pop[i].genes) {
        C.SolConfFits(problem, pop[i].genes);
      }
      ghost var bred := pop;
      SortPop();
      ScoredGenes(problem, bred, pop, C.SolConf(problem));
      var n := |pop|;
      QuartileIndices(n);
      ghost var sc := [pop[0].score, pop[n / 4].score, pop[n / 2].score, pop[3 * n / 4].score, pop[n - 1].score];
      assert sc[0] >= sc[1] >= sc[2] >= sc[3] >= sc[4];
      UpdateRes();
      assert lastRes.max == sc[0] && lastRes.q1 == sc[1] && lastRes.med == sc[2];
      assert lastRes.q3 == sc[3] && lastRes.min == sc[4];
    }

    /** `best`: an individual with the largest score, the last of several. */
    function Best(): (b: Sol)
      requires 1 <= |pop|
      reads this
      ensures b in pop && forall i :: 0 <= i < |pop| ==> pop[i].score <= b.score
    {
      pop[BestIndex(pop)]
    }

    /** `get_state`: the statistics as a vector. */
    function GetState(): (v: seq<real>)
      requires lastRes.Valid()
      reads this, lastRes, lastRes.max5
      ensures |v| == GenResultSize
    {
      lastRes.IntoVector()
    }

    /** `make_step`: one generation with the knobs read from the choice;
        `bred` is the population before the sort. */
    method MakeStep(choice: seq<real>, mutDraws: seq<seq<real>>, picks: seq<seq<bool>>) returns (ghost bred: seq<Sol>)
      requires Valid() && 5 <= |choice|
      requires var a := Applied(params.Value(), |pop|, Knobs(choice[0], choice[1], choice[2], choice[3], choice[4]));
        Children(Survivors(|pop|, a.kills), a.birthRate) <= |picks|
      requires |pop| <= |mutDraws|
      requires forall i :: 0 <= i < |mutDraws| ==> C.SolConf(problem) <= |mutDraws[i]| && UnitDraws(mutDraws[i])
      requires forall k :: 0 <= k < |picks| ==> C.SolConf(problem) <= |picks[k]|
      modifies this, params, lastRes, lastRes.max5, lastRes.med5
      ensures Valid()
      ensures params.Value() == Applied(old(params.Value()), old(|pop|), Knobs(choice[0], choice[1], choice[2], choice[3], choice[4]))
      ensures BredFrom(bred, old(pop), params.Value(), mutDraws, picks)
      ensures forall i :: 0 <= i < |bred| ==> C.CanEvaluate(problem, bred[i].genes)
      ensures multiset(pop) == multiset(Scored(problem, bred))
      ensures |pop| == NextLen(old(|pop|), params.Value())
      ensures individualsPlayed == old(individualsPlayed) + |pop|
      ensures forall i, j :: 0 <= i < j < |pop| ==> pop[j].score <= pop[i].score
      ensures lastRes.max == pop[0].score && lastRes.min == pop[|pop| - 1].score
      ensures lastRes.q1 == pop[|pop| / 4].score && lastRes.med == pop[|pop| / 2].score
      ensures lastRes.q3 == pop[3 * |pop| / 4].score
      ensures lastRes.max5[..] == Shift(old(lastRes.max5[..]), old(lastRes.max))
      ensures lastRes.med5[..] == Shift(old(lastRes.med5[..]), old(lastRes.med))
    {
      var c := new ParamChoice.FromVector(choice);
      bred := NextGen(c, mutDraws, picks);
    }

    /** `evaluate`: the best score squared per individual evaluated so far
        (`powf(2.0)` as a square; a zero count would be a division by 0). */
    function Evaluate(): (r: real)
      requires 0 < individualsPlayed
      reads this, lastRes
      ensures 0.0 <= r
      ensures r == 0.0 <==> lastRes.max == 0.0
    {
      Ratio(Square(lastRes.max), individualsPlayed as real)
    }

    /** `is_solved`: more than 150 individuals evaluated. */
    predicate IsSolved()
      reads this
    {
      individualsPlayed > 150
    }
  }

  /** The positions `update_res` reads are in order and inside the
      population. */
  lemma QuartileIndices(n: nat)
    requires 1 <= n
    ensures 0 <= n / 4 <= n / 2 <= 3 * n / 4 <= n - 1
  {
  }

  /** Two populations whose individuals all have `conf` genes concatenate
      into one. */
  lemma GenesAppend(s: seq<Sol>, t: seq<Sol>, conf: nat)
    requires forall i :: 0 <= i < |s| ==> |s[i].genes| == conf
    requires forall i :: 0 <= i < |t| ==> |t[i].genes| == conf
    ensures forall i :: 0 <= i < |s + t| ==> |(s + t)[i].genes| == conf
  {
    forall i | 0 <= i < |s + t| ensures |(s + t)[i].genes| == conf {
      if i >= |s| {
        assert (s + t)[i] == t[i - |s|];
      }
    }
  }

  /** A product of two non-negative numbers is not negative, and 0 only
      when a factor is. */
  function Product(a: real, b: real): (r: real)
    requires 0.0 <= a && 0.0 <= b
    ensures 0.0 <= r
    ensures r == 0.0 <==> a == 0.0 || b == 0.0
  {
    assert a != 0.0 ==> (a * b) / a == b;
    a * b
  }

  /** `x.powf(2.0)`, as `|x| * |x|`: not negative, and 0 only for 0. */
  function Square(x: real): (s: real)
    ensures 0.0 <= s
    ensures s == 0.0 <==> x == 0.0
  {
    Product(Abs(x), Abs(x))
  }

  /** A non-negative number over a positive one: not negative, and 0 only
      when the numerator is. */
  function Ratio(x: real, d: real): (r: real)
    requires 0.0 <= x && 0.0 < d
    ensures 0.0 <= r
    ensures r == 0.0 <==> x == 0.0
  {
    assert x / d * d == x;
    x / d
  }

  /** `input_space` is `PARAM_CHOICE_SIZE`, enough for `from_vector`, and
      `output_space` is `GEN_RESULT_SIZE`, the length of `get_state`. */
  lemma SpacesFit(g: AlgoGen)
    requires g.lastRes.Valid()
    ensures 5 <= ParamChoiceSize
    ensures |g.GetState()| == GenResultSize
  {
  }
}
