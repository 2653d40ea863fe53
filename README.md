# Neugene in Dafny

Neugene is a genetic-algorithm engine whose hyperparameters are retuned every
generation by a neural network trained with a rank-based reinforcement loop,
together with a set of small benchmark problems and a Game of Life grid. This
project models that core with randomness, the network and its training made
explicit inputs, and proves what each operation computes.

- `common.dfy` (`Num`): the `f64 as usize` cast as a saturating truncation
  (`Trunc`), absolute value, and sums, shared by all modules.
- `sorting.dfy` (`Sorting`): the stable sort by a real key that both
  `sort_by_key` calls rely on.
- `solution.dfy` (`Solutions`): the `(score, genes)` solution with its default
  uniform crossover (`child`), multiplicative `mutate`, score bookkeeping,
  `add_scores_all`, and the `PlayAgainst` wrapper around a two-player game.
- `algogen.rs` → `algogen.dfy` (`AlgoGen`):
  - `ParamChoice` as a class with a relative update;
  - `GenResult` as a class over two 5-slot arrays, with its normalised 15-vector;
  - `AlgoGen` as a class whose `NextGen` runs the fixed pipeline: clamp
    parameters, kill the worst, mutate the trailing elite block, append
    round-robin children, score and sort descending, record the statistics.
- `reilearn.dfy` (`Reilearn`):
  - exploration noise clamped to [0,1];
  - good and bad training examples;
  - bounded playouts with early stop;
  - labelling of sorted playouts into bad, ignored and good bands;
  - the `ReiLearn` class whose `NextGen` trains the network and anneals `coef`.
- The benchmark problems, one module each:
  - `Maze`: depth-first maze digging and a walker;
  - `EasyStep`: a class visited step by step;
  - `WallJump` and `TurnAround`: physics loops;
  - `EasyProblem` and `LinearEq`: L1 scorers;
  - `Compilation`: the tagged union dispatching to the five problems.
- `map.dfy` (`LifeMap`): the 150×150 `u32` grid as an `array2`, with
  bounds-checked `get`/`set`, the synchronous Game of Life `update` and
  `copy_from`.

Random draws are sequences (or a `nat -> real` stream) with stated ranges:
entries in [0,1) for `gen::<f64>()`, booleans for crossover picks, and a
permutation function for `shuffle`. The network is a function `seq<real> ->
seq<real>`, and training is a function from the old network and the examples
to the new one. The problems the meta-learner plays are reached through an
`Ops` record of the `ManyStepProblem` operations.

Where the source's own doc comments and its code disagree, the model follows
the code:

- **Population bound.** The doc comment of `apply_params`
  (src/algogen.rs:185-188) promises a population of at least 2 and at most
  200. The code bounds `(len - kills) * birth_rate` with the real-valued
  `kills`. The number of survivors is `len - trunc(kills)`, so the children
  can exceed 200 by up to `birth_rate`. `AlgoGen.PopulationExceeds204` shows
  243 individuals after one generation from 25. `AlgoGen.PopulationBounds`
  proves the bound that does hold: between 2 and `len + 300`.
- **Which individuals mutate.** The doc comment of `next_gen`
  (src/algogen.rs:165) says the individuals left after the kill are mutated
  while the elite is kept unchanged, which reads as sparing the leading,
  best-scored ones. `mutate_average` leaves the first `len - trunc(elite)`
  individuals alone and mutates the trailing `trunc(elite)` ones.
  `AlgoGen.AlgoGen.MutateAverage` states exactly that.
- **Elite clamp.** The doc comment of `apply_params` (src/algogen.rs:188)
  promises that `elite` stays below the population plus 2. The code never
  clamps it. Above the survivor count, `len - elite as usize` underflows: a
  debug build panics, a release build wraps to a huge start index and the
  mutation loop runs over an empty range. The model follows the release
  build, as it does for the maze's coordinates. `AlgoGen.AverageStart` is
  then the length, nobody is mutated, and `AlgoGen.EliteWrapKeepsSurvivors`
  shows the next population is the unchanged survivors followed by their
  children.
- **Normalised vector.** `into_vector` exports `max5` twice and never uses
  `med5` (`AlgoGen.SummaryShape`).

## Model

| member | source | states |
|---|---|---|
| Num.Trunc | src/algogen.rs:230 | `f as usize`: 0 for non-positive values, otherwise the greatest natural not above the value |
| Sorting.Insert | src/reilearn.rs:205 | inserting into a key-sorted sequence keeps it sorted, adds exactly the element and grows the length by one |
| Sorting.SortByKey | src/reilearn.rs:205 | the result is sorted ascending by the key and is a permutation of the input |
| Sorting.InsertStable | src/reilearn.rs:205 | the inserted element goes before every element of its own key, the others keep their order |
| Sorting.SortStable | src/reilearn.rs:205 | stability: for every key, the elements with that key are in the same order before and after the sort |
| Solutions.Random | src/problems/mod.rs:99-109 | a fresh solution has score 0 and `sol_conf` genes, gene i being draw i, all in [0,1) |
| Solutions.FromVec | src/problems/mod.rs:123-125 | wraps a gene vector with score 0 |
| Solutions.AddScore | src/problems/mod.rs:111-113 | adds to the score and leaves the genes |
| Solutions.ResetScore | src/problems/mod.rs:115-117 | sets the score to 0 and leaves the genes |
| Solutions.GetScore | src/problems/mod.rs:119-121 | the stored score; `Solutions.ResetThenAdd` reads it back after a reset and two additions |
| Solutions.ResetThenAdd | src/problems/mod.rs:111-121 | after a reset, two additions read back as their sum and the genes are unchanged |
| Solutions.Child | src/problems/mod.rs:25-36 | the child has score 0 and `min` of the parents' lengths; gene i is the first parent's when pick i is true, else the second's |
| Solutions.ChildOfTwins | src/problems/mod.rs:25-36 | crossing two parents with equal genes reproduces those genes |
| Solutions.ChildSymmetric | src/problems/mod.rs:25-36 | swapping the parents and negating every pick yields the same child |
| Solutions.MutationShrinks | src/problems/mod.rs:38-42 | a gene multiplied by `2*mutrate*(r-0.5)` with r in [0,1) shrinks to at most `mutrate` times its magnitude |
| Solutions.Mutate | src/problems/mod.rs:38-42 | every gene, in place, is multiplied by its factor; length and score are kept, and each magnitude is at most `mutrate` times the old one |
| Solutions.AddScoresAll | src/problems/mod.rs:64-69 | each solution's own evaluation is added to its score; length, order and genes are unchanged |
| Solutions.PlayAgainstRandom | src/problems/mod.rs:250-257 | the opponent is initialised on the new game as player two |
| Solutions.MakeStepOrder | src/problems/mod.rs:275-279 | a step appends the opponent's move as player two, then the caller's choice as player one, and keeps the earlier moves |
| Solutions.MakeStep | src/problems/mod.rs:275-279 | the opponent moves, then the caller; `Solutions.MakeStepOrder` proves the order on a recording game |
| Solutions.Evaluate | src/problems/mod.rs:285-287 | player one's score of the wrapped game |
| Compilation.Random | src/problems/easycompilation.rs:25-33 | tags 0, 1, 2, 3 build Maze, WallJump, Easy and LinEq, so `gen_range(0,4)` never builds Turn; the config reaches the chosen constructor |
| Compilation.SolConf | src/problems/easycompilation.rs:49-57 | the wrapped problem's gene count; `Compilation.SolConfFits` proves it is enough to evaluate |
| Compilation.Score | src/problems/easycompilation.rs:59-67 | the wrapped problem's evaluation; `Compilation.Evaluate` returns it |
| Compilation.SolConfFits | src/problems/easycompilation.rs:49-57 | a gene vector of the wrapped problem's `get_sol_conf` length can be evaluated by that problem |
| Compilation.Evaluate | src/problems/easycompilation.rs:59-67 | the score is exactly the wrapped problem's evaluation of the same genes |
| EasyProblem.Random | src/problems/easyproblem.rs:17-24 | `conf` numbers, each in [0,10) |
| EasyProblem.FoldFromZero | src/problems/easyproblem.rs:46 | the product fold seeded with 0 is always 0 |
| EasyProblem.DiffZero | src/problems/easyproblem.rs:40-45 | the zipped L1 difference is non-negative, and 0 exactly when the compared prefix matches |
| EasyProblem.EvaluateBound | src/problems/easyproblem.rs:39-47 | the score is `100 - diff`, at most 100, and equals 100 iff the solution matches the numbers on the compared prefix |
| EasyProblem.Evaluate | src/problems/easyproblem.rs:39-47 | `100 + fold - diff`; `EasyProblem.EvaluateBound` proves it is at most 100, reached iff the genes match |
| LinearEq.Random | src/problems/lineareq.rs:37-52 | A is the first 2500 draws row-major and y the next 50, all in [0,1) |
| LinearEq.Row | src/problems/lineareq.rs:18-31 | row i of the 50×50 matrix has 50 entries |
| LinearEq.Residual | src/problems/lineareq.rs:18-31 | `A*x - y` has 50 entries |
| LinearEq.AbsAll | src/problems/lineareq.rs:26-30 | componentwise absolute value, same length |
| LinearEq.EvaluateBound | src/problems/lineareq.rs:18-31 | the score is at most `MAT_SIZE^2 = 2500`, and equals 2500 iff `A*x = y` exactly |
| LinearEq.Evaluate | src/problems/lineareq.rs:18-31 | 2500 minus the L1 norm of `A x - y`; `LinearEq.EvaluateBound` proves it is at most 2500, reached iff `A x = y` |
| TurnAround.Random | src/problems/turnaround.rs:61-74 | initial position in [0,10)², initial speed in [-5,0)² |
| TurnAround.Play | src/problems/turnaround.rs:31-50 | the 14-turn loop (position moves by the old speed, then speed changes by `sol[i]-0.5`, `sol[2i]-0.5`) returns the specified score |
| TurnAround.Score | src/problems/turnaround.rs:45-49 | the score is at most 1000, and equals 1000 iff the ship ends where it started |
| TurnAround.Evaluate | src/problems/turnaround.rs:100-102 | at most 1000, and 1000 iff the ship is back at its start after the 14 turns |
| TurnAround.FlyClosedForm | src/problems/turnaround.rs:35-44 | after n turns the speed is the start speed plus the summed thrusts, and the position is start plus n times the start speed plus the accumulated drift |
| WallJump.Random | src/problems/walljump.rs:103-108 | wall position in [2,12), wall height in [5,15) |
| WallJump.Validate | src/problems/walljump.rs:28-36 | clamps into [0,2], identity inside it |
| WallJump.Play | src/problems/walljump.rs:38-79 | the 25-turn loop returns the specified final x |
| WallJump.TurnFacts | src/problems/walljump.rs:47-76 | one turn keeps `mv_r` in [0,9] and y ≥ 0; a blocked crossing puts x at `wall_height - 0.1`, otherwise x advances by `mv_r`; a jump from the ground leaves y = 5 and upward speed 3.5 |
| WallJump.RunBounds | src/problems/walljump.rs:43-77 | after any number of turns `mv_r` is in [0,9] and y ≥ 0 |
| WallJump.NoJumpInAir | src/problems/walljump.rs:63-76 | without a jump from the ground, y only follows the current vertical speed, floored at 0 |
| WallJump.Turn | src/problems/walljump.rs:47-76 | one loop iteration; `WallJump.TurnFacts` and `WallJump.NoJumpInAir` prove its effects |
| WallJump.Evaluate | src/problems/walljump.rs:124-126 | the final x after 25 turns; `WallJump.RunBounds` bounds the speed and height along the way |
| EasyStep.EasyStep.Random | src/problems/easystep.rs:18-23 | every cell unvisited (1.0) and the position `r % conf` |
| EasyStep.EasyStep.GetState | src/problems/easystep.rs:40-49 | 2·len entries as (is-me, visited) pairs, with is-me 1 exactly at the position |
| EasyStep.EasyStep.MakeStep | src/problems/easystep.rs:50-59 | moves right iff `choice[0] > choice[1]` and not at the end, otherwise left if not at 0; marks only the new cell visited; the score never decreases |
| EasyStep.EasyStep.MaxStep | src/problems/easystep.rs:60-62 | `trunc(1.5·len)` steps |
| EasyStep.EasyStep.AlwaysSolved | src/problems/easystep.rs:63-75 | the score `-Σvisited` is never positive, so `is_solved` always holds |
| EasyStep.EasyStep.Evaluate | src/problems/easystep.rs:63-65 | minus the number of unvisited cells; never positive (`AlwaysSolved`) and never decreasing under `MakeStep` |
| EasyStep.EasyStep.IsSolved | src/problems/easystep.rs:73-75 | a score below 1, which always holds (`AlwaysSolved`) |
| EasyStep.EasyStep.InputSpace | src/problems/easystep.rs:66-68 | 2 |
| EasyStep.EasyStep.OutputSpace | src/problems/easystep.rs:69-71 | one output per cell |
| Maze.ValidatePos | src/problems/maze.rs:27-33 | `min(pos, size-1)`, always a valid index |
| Maze.Clamp | src/problems/maze.rs:35-43 | into [-1,1], identity inside it |
| Maze.IntoMove | src/problems/maze.rs:116-124 | the sign of the move: 1, -1 or 0 |
| Maze.NbAdjacingExplored | src/problems/maze.rs:92-106 | counts at most 4 open neighbours, ignoring the last row |
| Maze.IsExplorable | src/problems/maze.rs:109-114 | an explorable cell is a closed cell inside the grid with at most one open neighbour |
| Maze.Filter | src/problems/maze.rs:84-87 | keeps exactly the explorable candidates |
| Maze.GetOneExplore | src/problems/maze.rs:77-89 | exactly the explorable cells among the four neighbours |
| Maze.Mark | src/problems/maze.rs:60 | opening a cell keeps the grid's shape |
| Maze.Replay | src/problems/maze.rs:57-70 | opening a sequence of cells keeps the grid's shape |
| Maze.MarkShrinksClosed | src/problems/maze.rs:60 | opening a closed cell strictly shrinks the set of closed cells, so digging terminates |
| Maze.MarkKeepsOpen | src/problems/maze.rs:60 | opening a cell keeps the grid square and every open cell open |
| Maze.ReplayExtend | src/problems/maze.rs:57-70 | digging one more explorable cell extends the history of cells, each explorable when opened |
| Maze.OpenCell | src/problems/maze.rs:59-68 | opening an explorable cell shrinks the closed set and extends the digging history |
| Maze.ShuffledWithin | src/problems/maze.rs:64-65 | every shuffled candidate lies inside the grid |
| Maze.MarkEnd | src/problems/maze.rs:71 | opening the end cell keeps the grid square, keeps open cells open and leaves the end open |
| Maze.PushAll | src/problems/maze.rs:66-68 | the candidates are pushed onto the stack in order |
| Maze.ReplayOpen | src/problems/maze.rs:57-60 | after opening a list of cells, a cell is open iff it was open before or is in the list |
| Maze.MarkKeepsUnexplorable | src/problems/maze.rs:108-113 | opening a cell never makes another cell explorable, so a cell skipped once stays skipped |
| Maze.SkipStep | src/problems/maze.rs:57-59 | popping a cell that is no longer explorable only drops it from the stack; the search invariant holds with `end` set to it |
| Maze.DigStep | src/problems/maze.rs:57-69 | popping an explorable cell, opening it and stacking its shuffled explorable neighbours keeps the search invariant: the digging stays linked from (0,0), every stacked cell neighbours a dug cell, and every explorable neighbour of a dug cell is stacked |
| Maze.SearchDone | src/problems/maze.rs:57-71 | once the stack is empty no neighbour of a dug cell is explorable, and the digging started at (0,0) whenever that cell was explorable |
| Maze.CreateMaze | src/problems/maze.rs:45-73 | the digging starts at (0,0) when it is explorable; each dug cell was explorable when opened and neighbours an earlier one; no neighbour of a dug cell is left explorable; the end is (0,0) or a neighbour of a dug cell and is opened; the grid is the replay of the dug cells plus the end |
| Maze.Random | src/problems/maze.rs:220-231 | a `conf`×`conf` maze whose open cells are exactly the dug cells and the end; the digging starts at (0,0), is linked through neighbours and leaves no neighbour explorable; the end is (0,0) or a neighbour of a dug cell |
| Maze.Walk | src/problems/maze.rs:134-158 | after k moves the walker is within k of the origin on each axis |
| Maze.Move | src/problems/maze.rs:140-157 | one loop iteration computes the specified step |
| Maze.Play | src/problems/maze.rs:126-160 | the `size*10` move loop returns the specified distance to the end |
| Maze.SolConf | src/problems/maze.rs:241-243 | `size*20` genes, more than the largest index `play` reads, `2*(size*10-1)` |
| Maze.StepPos | src/problems/maze.rs:140-157 | a step moves at most one unit along at most one axis, and only onto the clamped cell when it is open |
| Maze.PathFind | src/problems/maze.rs:162-167 | the L1 distance to `end`: non-negative, and 0 iff the walker is on `end` |
| Maze.Evaluate | src/problems/maze.rs:246-248 | the distance left after the whole walk: non-negative, and 0 iff the walk ends on `end` |
| LifeMap.Get | src/graphics/map.rs:39-44 | `Some(cell)` exactly when `0 ≤ x < 150` and `0 ≤ y < 150`, else `None` |
| LifeMap.Set | src/graphics/map.rs:46-50 | writes only the addressed cell, and nothing when it is out of range |
| LifeMap.ZeroTable | src/graphics/map.rs:18-20 | a fresh all-zero grid |
| LifeMap.Check | src/graphics/map.rs:31-36 | true exactly when `0 ≤ x < 150` and `0 ≤ y < 150` |
| LifeMap.RandomTable | src/graphics/map.rs:22-29 | each cell is its draw `& 1`, so 0 or 1 |
| LifeMap.Neighbours | src/graphics/map.rs:56-63 | the 3×3 window sum minus the cell itself |
| LifeMap.LifeRule | src/graphics/map.rs:67-75 | a live cell survives iff it has 2 or 3 neighbours, a dead one is born iff it has 3, a 0/1 cell stays 0/1, and any other value is kept unless the count is 3 |
| LifeMap.BinaryNoOverflow | src/graphics/map.rs:54-64 | on a 0/1 grid no `u32` sum overflows and every count is at most 8 |
| LifeMap.Update | src/graphics/map.rs:52-76 | every cell becomes the rule applied to its old value and its old neighbour count |
| LifeMap.ApplyRule | src/graphics/map.rs:67-75 | a live cell dies under 2 or over 3 neighbours, a dead one is born at exactly 3, others stay |
| LifeMap.Counts | src/graphics/map.rs:54-64 | the count table holds every cell's neighbour count of the unchanged grid |
| LifeMap.CountCell | src/graphics/map.rs:57-63 | one cell's count, which never underflows below the window sum |
| LifeMap.CopyFrom | src/graphics/map.rs:78-82 | every cell equals the source's |
| AlgoGen.UpdateNeutral | src/algogen.rs:55-61 | `global` is replaced; with global 0 or a component 0.5 that field is unchanged |
| AlgoGen.UpdateAtMostHalf | src/algogen.rs:57-60 | with inputs in [0,1] a field moves by at most ±50% of itself, and exactly +50% at 1 |
| AlgoGen.ParamChoice.New | src/algogen.rs:30-38 | the starting knobs (1, 0.5, 1, 20, 4) |
| AlgoGen.ParamChoice.Same | src/algogen.rs:40-48 | the no-change choice (0, 0.5, 0.5, 0.5, 0.5) |
| AlgoGen.ParamChoice.FromVector | src/algogen.rs:63-71 | the first five entries, positionally |
| AlgoGen.ParamChoice.Update | src/algogen.rs:55-61 | the fields become the relative update of the old ones |
| AlgoGen.CapHighBound | src/algogen.rs:195-197 | after the upper cap, `(len-kills)*birth_rate ≤ 200`, and an in-range rate is kept |
| AlgoGen.CapLowBound | src/algogen.rs:198-200 | after the lower cap, the product lies in [4,200] with a positive rate |
| AlgoGen.BirthCapBounds | src/algogen.rs:195-200 | both caps together put the product in [4,200] and keep an in-range rate |
| AlgoGen.ClampedBounds | src/algogen.rs:190-201 | after clamping, `kills ≤ len-2` and the product is in [4,200]; the other fields are untouched; already valid knobs are kept |
| AlgoGen.Applied | src/algogen.rs:190-201 | applied knobs keep at least two survivors |
| AlgoGen.Survivors | src/algogen.rs:250-253 | `len - trunc(kills)` lies between `len - kills` and one more, is at least 2, and is `len` for negative kills |
| AlgoGen.PopulationBounds | src/algogen.rs:186-200 | the next population has between 2 and `len + 300` individuals, with at most 300 children |
| AlgoGen.NextLenBounds | src/algogen.rs:192-200 | the same bounds for any clamped knobs |
| AlgoGen.PopulationExceeds204 | src/algogen.rs:186-200 | 25 individuals with kills 22.5 and birth rate 100 give 3 survivors and 240 children, 243 in all |
| AlgoGen.SameRunSteady | src/algogen.rs:175-183 | with the steady knobs a generation keeps 25 individuals and plays 25 more |
| AlgoGen.SameScenario | src/algogen.rs:144-158 | from `initiate`, repeated `same()` generations keep 25 individuals, have played 25n, and pass 150 exactly from the 7th |
| AlgoGen.ShiftAllWindow | src/algogen.rs:100-105 | shifting values into the window keeps its last entries |
| AlgoGen.Summary | src/algogen.rs:114-129 | five statistics followed by the history twice: 5 plus twice the history's length entries |
| AlgoGen.NormalizeMono | src/algogen.rs:115-118 | normalisation preserves order |
| AlgoGen.NormalizeUnit | src/algogen.rs:115-118 | values between min and max normalise into [0,1] |
| AlgoGen.SummaryLayout | src/algogen.rs:119-127 | the order is max, med, q1, q3, min, then `max5` twice |
| AlgoGen.SummaryShape | src/algogen.rs:114-129 | 15 entries, the two history blocks equal, all 0 when min = max, otherwise max ↦ 1 and min ↦ 0 |
| AlgoGen.SummaryOrder | src/algogen.rs:114-129 | ordered statistics normalise to ordered values in [0,1] |
| AlgoGen.GenResult.New | src/algogen.rs:87-97 | all statistics and both histories zero |
| AlgoGen.GenResult.Update | src/algogen.rs:99-111 | both histories shift left with the previous max and med in the last slot; the five statistics are replaced |
| AlgoGen.GenResult.IntoVector | src/algogen.rs:114-129 | the 15-entry normalised summary |
| AlgoGen.Offspring | src/algogen.rs:224-239 | exactly the required number of children |
| AlgoGen.OffspringFacts | src/algogen.rs:230-237 | child k has score 0 and each gene from parents `k mod (len-1)` and the next |
| AlgoGen.BestIndex | src/algogen.rs:256-262 | the last index with the highest score, as `max_by_key` picks |
| AlgoGen.BestOfSorted | src/algogen.rs:256-262 | on a population sorted descending the best has the first score |
| AlgoGen.AlgoGen.Initiate | src/algogen.rs:144-158 | 25 random solutions, starting knobs, zero statistics, nothing played |
| AlgoGen.AlgoGen.ApplyParams | src/algogen.rs:190-201 | the knobs become the clamped relative update |
| AlgoGen.AlgoGen.KillLast | src/algogen.rs:250-253 | exactly the first `len - trunc(kills)` individuals remain, in order |
| AlgoGen.AlgoGen.MutateAverage | src/algogen.rs:242-247 | the individuals before `AverageStart(len, elite)` are untouched and each one from there on is mutated with its own draws: the trailing `trunc(elite)`, or nobody when `trunc(elite)` exceeds the length |
| AlgoGen.AverageStart | src/algogen.rs:242-245 | mutation starts `trunc(elite)` before the end, or at the end (an empty range) when the `usize` subtraction wraps |
| AlgoGen.EliteWrapKeepsSurvivors | src/algogen.rs:175-179 | with more elite than survivors the next population is the survivors, unchanged, followed by their children |
| AlgoGen.AlgoGen.MakeChilds | src/algogen.rs:224-239 | survivors unchanged, then `trunc(birth_rate·len)` round-robin children appended |
| AlgoGen.AlgoGen.SortPop | src/algogen.rs:215-221 | a permutation of the re-scored population, sorted by descending score; the played count grows by its length |
| AlgoGen.AlgoGen.UpdateRes | src/algogen.rs:204-212 | statistics read at indices 0, len/4, len/2, 3len/4 and len-1 |
| AlgoGen.AlgoGen.Breed | src/algogen.rs:175-179 | the knobs are applied, the population reaches the predicted size, and its contents are `BredFrom` the old one: the first `len - trunc(kills)` survive, those before `AverageStart` unchanged and the rest mutated with their draws, followed by the round-robin children of the mutated survivors |
| AlgoGen.AlgoGen.NextGen | src/algogen.rs:175-183 | `bred` is `BredFrom` the old population under the applied knobs; the new population is a permutation of `bred` re-scored on the problem, in non-increasing score order, of the predicted size; the played count grows by that size; max, min, q1, med and q3 are the scores at 0, len-1, len/4, len/2 and 3len/4, so ordered; both histories are shifted |
| AlgoGen.AlgoGen.Best | src/algogen.rs:256-262 | a member of the population scoring at least as high as all others |
| AlgoGen.AlgoGen.GetState | src/algogen.rs:291-293 | 15 entries, as `output_space` says |
| AlgoGen.AlgoGen.MakeStep | src/algogen.rs:295-297 | `next_gen` with the knobs read from the first five entries of the choice, with every guarantee of `AlgoGen.AlgoGen.NextGen` |
| AlgoGen.AlgoGen.IsSolved | src/algogen.rs:316-318 | more than 150 individuals evaluated; `AlgoGen.SameScenario` shows it first holds after the 7th generation with unchanged knobs |
| AlgoGen.AlgoGen.Evaluate | src/algogen.rs:303-306 | `max²/played` is non-negative, and 0 iff the best score is 0 |
| AlgoGen.Square | src/algogen.rs:305 | `powf(2.0)` is non-negative, and 0 iff its base is |
| AlgoGen.QuartileIndices | src/algogen.rs:204-212 | the statistic indices are ordered and within the population |
| AlgoGen.SpacesFit | src/algogen.rs:308-314 | a choice of `input_space` entries suffices, and the state has `output_space` entries |
| Reilearn.FlipFacts | src/reilearn.rs:42-47 | `1 - c` componentwise, an involution |
| Reilearn.IntoGoodTest | src/reilearn.rs:34-39 | the good example is the bad example of the bad example's target |
| Reilearn.IntoBadTest | src/reilearn.rs:42-47 | inputs kept, one target per component, each `1 - c` |
| Reilearn.GoodBadMirror | src/reilearn.rs:34-47 | both examples keep the inputs; their targets sum to 1 componentwise; bad targets of [0,1] choices lie in [0,1]; the bad example of the bad target is the good example |
| Reilearn.Clamp01 | src/reilearn.rs:258-264 | into [0,1] |
| Reilearn.ClampClose | src/reilearn.rs:257-264 | clamping a perturbed unit value moves it by at most the perturbation |
| Reilearn.Perturb | src/reilearn.rs:254-267 | same length, every entry in [0,1] |
| Reilearn.NoiseBound | src/reilearn.rs:257 | the noise `(r-0.5)*coef` is at most `coef/2` in magnitude |
| Reilearn.PerturbClose | src/reilearn.rs:254-267 | every output is within `coef/2` of the network's; with `coef = 0` the outputs are unchanged |
| Reilearn.Step | src/reilearn.rs:246-252 | the inputs are the state and the outputs the network's; one draw per component; every played component is in [0,1]; the problem steps with the played choice |
| Reilearn.Run | src/reilearn.rs:233-243 | the playout loop on values; `Reilearn.RunFacts` proves its bounds and early stop |
| Reilearn.RunFacts | src/reilearn.rs:233-243 | at most `max_step` choices, at least one, no earlier state solved, an early stop only on a solved state, and every applied choice in [0,1] |
| Reilearn.ExploitIsNoiseless | src/reilearn.rs:144-158 | for a network whose outputs lie in [0,1], the test playout is the exploration playout with `coef = 0` |
| Reilearn.Playouts | src/reilearn.rs:192-199 | exactly `test_per_prob` playouts |
| Reilearn.BadOf | src/reilearn.rs:213-217 | one bad example per choice |
| Reilearn.GoodOf | src/reilearn.rs:218-222 | one good example per choice |
| Reilearn.BadTestsCount | src/reilearn.rs:213-217 | as many bad examples as choices |
| Reilearn.GoodTestsCount | src/reilearn.rs:218-222 | as many good examples as choices |
| Reilearn.Label | src/reilearn.rs:209-228 | the map-then-flatten by rank; `Reilearn.LabelCount` and the band lemmas below state what it yields |
| Reilearn.LabelCount | src/reilearn.rs:209-228 | at most one example per recorded choice |
| Reilearn.Lower | src/reilearn.rs:207 | 0 for a non-positive percentile, at most `len` up to percentile 1 |
| Reilearn.Upper | src/reilearn.rs:208 | 0 from percentile 1 on, at most `len` for a non-negative percentile |
| Reilearn.TestsFromChoices | src/reilearn.rs:203-229 | sort then label; `Reilearn.TestsFromChoicesBands` and `Reilearn.DefaultBands` prove which playouts give which examples |
| Reilearn.LabelAppend | src/reilearn.rs:209-228 | labelling distributes over concatenation, indices continuing |
| Reilearn.LabelLow | src/reilearn.rs:213-217 | indices below `lower` give bad examples |
| Reilearn.LabelMiddle | src/reilearn.rs:223-225 | indices from `lower` to `upper` give nothing |
| Reilearn.LabelHigh | src/reilearn.rs:218-222 | indices above `upper` give good examples |
| Reilearn.LabelThree | src/reilearn.rs:209-228 | three consecutive bands give the bad examples of the first followed by the good examples of the last |
| Reilearn.LabelBands | src/reilearn.rs:209-228 | the result is the bad examples of the first `lower` playouts followed by the good examples of those after `upper` |
| Reilearn.ElitePercentBounds | src/reilearn.rs:207-208 | with an elite percentile up to one half the bad band ends before the good band starts |
| Reilearn.SortedBands | src/reilearn.rs:203-229 | on sorted playouts all bad examples precede all good ones, the count is the labelled playouts' choices, and every bad playout scores at most every good one |
| Reilearn.TestsFromChoicesBands | src/reilearn.rs:203-229 | after the ascending sort, the bad band of the lowest scores precedes the good band of the highest |
| Reilearn.DefaultBands | src/reilearn.rs:203-229 | with 50 playouts and percentile 0.05, the 2 lowest give bad examples, the 2 highest good ones, the other 46 nothing |
| Reilearn.PowFacts | src/reilearn.rs:187 | powers of a factor in [0,1] stay in [0,1] and do not increase |
| Reilearn.CoefAnnealing | src/reilearn.rs:179-188 | after n rounds `coef = start·mod^n`, between 0 and the start and non-increasing |
| Reilearn.ReiLearn.New | src/reilearn.rs:91-103 | 1000 test problems, the given network and parameters, `coef` the starting coefficient |
| Reilearn.ReiLearn.ModifyOutputs | src/reilearn.rs:254-267 | the clamped perturbation, one draw per output |
| Reilearn.ReiLearn.MakeChoice | src/reilearn.rs:246-252 | one step: the state is read, the network's output perturbed and applied, and the choice recorded |
| Reilearn.ReiLearn.PlayProblem | src/reilearn.rs:233-243 | the loop plays the bounded playout with early stop and returns its final score and choices |
| Reilearn.ReiLearn.GenTestsForProb | src/reilearn.rs:192-199 | the labelled examples of `test_per_prob` playouts |
| Reilearn.ReiLearn.NextGen | src/reilearn.rs:179-188 | the network is trained on the round's examples and `coef` multiplied by `coef_mod` exactly once, keeping `coef = start·mod^rounds` |
| Reilearn.ReiLearn.RunOnTestExample | src/reilearn.rs:144-158 | the sum of the noiseless playouts' final scores over the test problems, which are left unchanged |

## Left out

- The GTK/cairo user interface, its shared state and threads (`src/graphics/app.rs`), and every `get_frames`/`get_frame` path: drawing only.
- `src/main.rs`, `src/lib.rs`, `src/graphics/mod.rs`: wiring and reporting. `src/params.rs` constants appear as literal values.
- All `print_state`, `demonstrate`, `demonstrate_on` and `print_pos` console output.
- The lmsmw library (`Network::feed_forward`, `Learner`, hence `ReiLearn::reinforce`): the network is a function and training a function parameter. The shuffle inside `reinforce` belongs to that parameter.
- The random generators: draws are inputs with stated ranges, and `shuffle` is any permutation.
- Floating point: reals replace `f64`, with no NaN, rounding or infinities. `OrderedFloat` ties are broken by the stable sort, and `powf(2.0)` is a plain square.
- The blanket `SingleStepProblem` implementation for every `ManyStepProblem` (src/problems/mod.rs:302-332): its loop never advances its index, so its behaviour rests entirely on `is_solved`. Likewise the `SupervisableSolver` plumbing (src/problems/mod.rs:164-215).
- The unused `farthest` cell tracked by `create_maze`: it is never read.
- `make_step` of the many-step problems returns the new state (`Reilearn.Ops`, `Solutions.MakeStep`) instead of mutating in place. The meta-learner only ever steps clones, so there is no aliasing to capture.
- `Solutions.MakeStep`: `PlayAgainst` is a value, so the in-place update of its `game` and `ai` fields is a returned new value.
- `AlgoGen.AlgoGen.Initiate` and `Reilearn.ReiLearn.New`: the random problem and the test problems are parameters, not drawn inside.
- `Reilearn.ReiLearn.NextGen`: the round's problems are a parameter. The source draws them from the learner's own generator (src/reilearn.rs:181-183), so `drawn` counts only the exploration noise, not those draws.
- `AlgoGen.AlgoGen.MutateAverage`: above the population, `trunc(elite)` is taken with the release build's `usize` wrap-around (nobody mutated); the debug build's panic is not modelled.
- `AlgoGen.AlgoGen.Evaluate`: requires at least one individual played; with none the source divides by zero and yields infinity or NaN, which reals do not have.
- `LifeMap.Update`: requires the neighbour sums not to overflow `u32` (a debug-build panic; the release build's wrap-around is not modelled). `LifeMap.BinaryNoOverflow` shows every 0/1 grid meets this.
- `Maze.Random`: requires `conf * 10 < 2^31 - 1`, which `random` does not ask. The bound keeps `play`'s `i32` walker coordinates and its `size*10` move count from overflowing; larger mazes are not modelled.
- `Maze.CreateMaze`: a coordinate `0 - 1` is modelled as -1. This matches the release build's wrap-around, which fails every bounds check. The debug build's panic is not modelled.
- `Maze.Move`, `Maze.PushAll`, `Maze.OpenCell`, `AlgoGen.AlgoGen.Breed`, `AlgoGen.AlgoGen.Reproduce`, `AlgoGen.AlgoGen.SortAndRecord`: steps of the source's loops and of `next_gen` split out to keep each proof small; they are not source functions.
