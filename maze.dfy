/** A random maze dug by depth-first search from the corner (0,0), and a
    walker that moves one cell at a time along one axis, driven by the genes.
    The score is the Manhattan distance from where the walker ends to the
    maze's end cell (lower is better).

    Coordinates are `usize` in the maze builder; a coordinate `0 - 1` is
    written here as -1. It stands for the wrapped value `usize::MAX`, which
    fails every bound check exactly as -1 does. */
module Maze {
  import opened Num

  /** `Vec<Vec<bool>>`, row-major; true is an open cell. */
  type Grid = seq<seq<bool>>

  datatype Pos = Pos(r: int, c: int)

  const UsizeMax: int := 0xFFFF_FFFF_FFFF_FFFF
  const I32Max: int := 0x7FFF_FFFF

  /** `SOL_SIZE`: moves per unit of maze size. */
  const SolSize: nat := 10

  ghost predicate Square(g: Grid, n: nat)
  {
    |g| == n && forall i :: 0 <= i < n ==> |g[i]| == n
  }

  datatype MazeProblem = MazeProblem(mazeSize: nat, maze: Grid, end: (real, real))

  ghost predicate WellFormed(p: MazeProblem)
  {
    1 <= p.mazeSize && p.mazeSize * SolSize < I32Max && Square(p.maze, p.mazeSize)
  }

  /** `validate_pos`; `maze_size - 1` needs a non-empty maze. */
  function ValidatePos(size: nat, pos: nat): (r: nat)
    requires 1 <= size
    ensures r < size
    ensures r == if pos < size then pos else size - 1
  {
    if pos > size - 1 then size - 1 else pos
  }

  /** `x as usize` for an `i32`: negative values wrap around. */
  function AsUsize(x: int): nat
    requires -I32Max - 1 <= x <= I32Max
  {
    if x < 0 then x + UsizeMax + 1 else x
  }

  /** `clamp`: into [-1,1]. */
  function Clamp(mv: real): (r: real)
    ensures -1.0 <= r <= 1.0
    ensures -1.0 <= mv <= 1.0 ==> r == mv
  {
    if mv > 1.0 then 1.0 else if mv < -1.0 then -1.0 else mv
  }

  /** `into_move`: the sign of the move. */
  function IntoMove(mv: real): (m: int)
    ensures m == -1 || m == 0 || m == 1
    ensures (m == 1 <==> mv > 0.0) && (m == -1 <==> mv < 0.0)
  {
    if mv > 0.0 then 1 else if mv < 0.0 then -1 else 0
  }

  // ---------------------------------------------------------------------
  // Building the maze

  predicate InBounds(g: Grid, p: Pos)
  {
    0 <= p.r < |g| && 0 <= p.c < |g[p.r]|
  }

  predicate Within(n: nat, p: Pos)
  {
    0 <= p.r < n && 0 <= p.c < n
  }

  /** The four candidates in the order the source lists them. */
  function Around(p: Pos): seq<Pos>
  {
    [Pos(p.r, p.c + 1), Pos(p.r, p.c - 1), Pos(p.r - 1, p.c), Pos(p.r + 1, p.c)]
  }

  /** Whether a neighbour counts as explored. The row bound is
      `maze.len() - 1`, so a neighbour in the last row never counts. */
  function Explored(g: Grid, p: Pos): bool
    requires 1 <= |g| && Square(g, |g|)
  {
    0 <= p.r < |g| - 1 && 0 <= p.c < |g| && g[p.r][p.c]
  }

  /** `get_nb_adjacing_explored`. */
  function NbAdjacingExplored(g: Grid, p: Pos): (n: nat)
    requires 1 <= |g| && Square(g, |g|)
    ensures n <= 4
  {
    var a := Around(p);
    (if Explored(g, a[0]) then 1 else 0) + (if Explored(g, a[1]) then 1 else 0) +
    (if Explored(g, a[2]) then 1 else 0) + (if Explored(g, a[3]) then 1 else 0)
  }

  /** `is_explorable`: a closed cell inside the grid with at most one
      open neighbour. */
  function IsExplorable(g: Grid, p: Pos): (b: bool)
    requires Square(g, |g|)
    ensures b ==> p in Closed(g) && NbAdjacingExplored(g, p) <= 1
  {
    0 <= p.r < |g| && 0 <= p.c < |g| && !g[p.r][p.c] && NbAdjacingExplored(g, p) < 2
  }

  function Filter(g: Grid, s: seq<Pos>): (r: seq<Pos>)
    requires Square(g, |g|)
    ensures |r| <= |s|
    ensures forall q :: q in r <==> q in s && IsExplorable(g, q)
  {
    if s == [] then []
    else (if IsExplorable(g, s[0]) then [s[0]] else []) + Filter(g, s[1..])
  }

  /** `get_1_explore`: the explorable candidates, in candidate order. */
  function GetOneExplore(g: Grid, p: Pos): (r: seq<Pos>)
    requires Square(g, |g|)
    ensures |r| <= 4
    ensures forall q :: q in r <==> q in Around(p) && IsExplorable(g, q)
  {
    Filter(g, Around(p))
  }

  /** Opens a cell (no change outside the grid). */
  function Mark(g: Grid, p: Pos): (h: Grid)
    ensures |h| == |g| && forall i :: 0 <= i < |g| ==> |h[i]| == |g[i]|
  {
    if InBounds(g, p) then g[p.r := g[p.r][p.c := true]] else g
  }

  /** The grid after opening `cells` in order. */
  function Replay(g: Grid, cells: seq<Pos>): (h: Grid)
    ensures |h| == |g| && forall i :: 0 <= i < |g| ==> |h[i]| == |g[i]|
  {
    if cells == [] then g else Mark(Replay(g, cells[..|cells| - 1]), cells[|cells| - 1])
  }

  /** The in-bounds cells still closed: the builder's progress measure. */
  ghost function Closed(g: Grid): set<Pos>
  {
    set i, j | 0 <= i < |g| && 0 <= j < |g[i]| && !g[i][j] :: Pos(i, j)
  }

  lemma MarkShrinksClosed(g: Grid, p: Pos)
    requires InBounds(g, p) && !g[p.r][p.c]
    ensures Closed(Mark(g, p)) < Closed(g)
  {
    var h := Mark(g, p);
    assert p in Closed(g) && p !in Closed(h);
    forall q | q in Closed(h) ensures q in Closed(g) {
      assert 0 <= q.r < |h| && 0 <= q.c < |h[q.r]| && !h[q.r][q.c];
    }
  }

  lemma MarkKeepsOpen(g: Grid, p: Pos)
    requires Square(g, |g|) && InBounds(g, p)
    ensures Square(Mark(g, p), |g|)
    ensures forall i, j :: 0 <= i < |g| && 0 <= j < |g| && g[i][j] ==> Mark(g, p)[i][j]
    ensures Mark(g, p) == g[p.r := g[p.r][p.c := true]]
  {
  }

  /** Opening one more cell extends the replay; earlier prefixes stay. */
  lemma ReplayExtend(g: Grid, trace: seq<Pos>, next: Pos)
    requires Square(g, |g|)
    requires forall k :: 0 <= k < |trace| ==> IsExplorable(Replay(g, trace[..k]), trace[k])
    requires IsExplorable(Replay(g, trace), next)
    ensures Replay(g, trace + [next]) == Mark(Replay(g, trace), next)
    ensures forall k :: 0 <= k < |trace + [next]| ==>
      IsExplorable(Replay(g, (trace + [next])[..k]), (trace + [next])[k])
  {
    var t := trace + [next];
    assert t[..|trace|] == trace;
    forall k | 0 <= k < |t| ensures IsExplorable(Replay(g, t[..k]), t[k]) {
      if k < |trace| {
        assert t[..k] == trace[..k];
      }
    }
  }

  /** What the search maintains: `maze` is square, keeps every cell open
      in `maze0` open, and is `maze0` with the cells of `trace` opened in
      order, each explorable when it was opened. */
  ghost predicate Dug(maze0: Grid, maze: Grid, trace: seq<Pos>)
    requires Square(maze0, |maze0|)
  {
    Square(maze, |maze0|) &&
    (forall i, j :: 0 <= i < |maze0| && 0 <= j < |maze0| && maze0[i][j] ==> maze[i][j]) &&
    maze == Replay(maze0, trace) &&
    forall k :: 0 <= k < |trace| ==> IsExplorable(Replay(maze0, trace[..k]), trace[k])
  }

  /** Opening an explorable cell keeps what the search maintains: the grid
      stays square, open cells stay open, the grid is the replay of the
      trace extended by the cell, and fewer cells are closed. */
  lemma OpenCell(maze0: Grid, maze: Grid, trace: seq<Pos>, next: Pos)
    requires Square(maze0, |maze0|) && Dug(maze0, maze, trace)
    requires IsExplorable(maze, next)
    ensures var m := maze[next.r := maze[next.r][next.c := true]];
      Closed(m) < Closed(maze) && Dug(maze0, m, trace + [next])
  {
    MarkShrinksClosed(maze, next);
    ReplayExtend(maze0, trace, next);
    MarkKeepsOpen(maze, next);
  }

  /** The shuffled explorable neighbours all lie inside the grid. */
  lemma ShuffledWithin(maze: Grid, next: Pos, candidates: seq<Pos>, possibles: seq<Pos>)
    requires Square(maze, |maze|) && candidates == GetOneExplore(maze, next)
    requires multiset(possibles) == multiset(candidates)
    ensures forall q :: q in possibles ==> Within(|maze|, q)
  {
    forall q | q in possibles ensures Within(|maze|, q) {
      assert q in multiset(possibles);
      assert q in candidates;
    }
  }

  /** Opening the end cell keeps the grid square and its open cells open,
      and leaves the end cell open. */
  lemma MarkEnd(maze0: Grid, maze: Grid, end: Pos)
    requires Square(maze0, |maze0|) && Square(maze, |maze0|) && Within(|maze0|, end)
    requires forall i, j :: 0 <= i < |maze0| && 0 <= j < |maze0| && maze0[i][j] ==> maze[i][j]
    ensures var m := maze[end.r := maze[end.r][end.c := true]];
      Square(m, |maze0|) && InBounds(m, end) && m[end.r][end.c] && m == Mark(maze, end) &&
      forall i, j :: 0 <= i < |maze0| && 0 <= j < |maze0| && maze0[i][j] ==> m[i][j]
  {
    MarkKeepsOpen(maze, end);
  }

  /** Pushes `items` on the stack, in order. */
  method PushAll(queue: seq<Pos>, items: seq<Pos>) returns (r: seq<Pos>)
    ensures r == queue + items
  {
    r := queue;
    for k := 0 to |items|
      invariant r == queue + items[..k]
    {
      r := r + [items[k]];
      assert items[..k + 1] == items[..k] + [items[k]];
    }
    assert items[..|items|] == items;
  }

  /** `q` is a neighbour of one of the cells of `trace`. */
  ghost predicate Adjacent(trace: seq<Pos>, q: Pos)
  {
    exists j :: 0 <= j < |trace| && q in Around(trace[j])
  }

  /** The digging starts at (0,0) and every later cell is a neighbour of
      a cell opened before it. */
  ghost predicate Linked(trace: seq<Pos>)
  {
    (trace != [] ==> trace[0] == Pos(0, 0)) &&
    forall k :: 1 <= k < |trace| ==> Adjacent(trace[..k], trace[k])
  }

  /** No neighbour of an opened cell is left explorable: the search has
      exhausted every branch. */
  ghost predicate Exhausted(g: Grid, trace: seq<Pos>)
    requires Square(g, |g|)
  {
    forall j, q :: 0 <= j < |trace| && q in Around(trace[j]) ==> !IsExplorable(g, q)
  }

  lemma AdjacentExtend(trace: seq<Pos>, x: Pos, q: Pos)
    requires Adjacent(trace, q)
    ensures Adjacent(trace + [x], q)
  {
    var j :| 0 <= j < |trace| && q in Around(trace[j]);
    assert (trace + [x])[j] == trace[j];
  }

  /** Opening a cell never makes another cell explorable. */
  lemma MarkKeepsUnexplorable(g: Grid, p: Pos, q: Pos)
    requires Square(g, |g|) && InBounds(g, p)
    ensures IsExplorable(Mark(g, p), q) ==> IsExplorable(g, q)
  {
    MarkKeepsOpen(g, p);
    var h := Mark(g, p);
    if IsExplorable(h, q) {
      var a := Around(q);
      assert Explored(g, a[0]) ==> Explored(h, a[0]);
      assert Explored(g, a[1]) ==> Explored(h, a[1]);
      assert Explored(g, a[2]) ==> Explored(h, a[2]);
      assert Explored(g, a[3]) ==> Explored(h, a[3]);
    }
  }

  /** What the search maintains besides `Dug`: the stack and `end` stay
      inside the grid; before the first cell is opened the stack holds just
      (0,0), or is empty because (0,0) was not explorable; afterwards every
      stacked cell and `end` neighbour an opened cell; and every explorable
      neighbour of an opened cell is still on the stack. */
  ghost predicate Searching(maze0: Grid, maze: Grid, trace: seq<Pos>, queue: seq<Pos>, end: Pos)
    requires Square(maze0, |maze0|)
  {
    Dug(maze0, maze, trace) && Linked(trace) &&
    (forall q :: q in queue ==> Within(|maze0|, q)) && Within(|maze0|, end) &&
    (trace == [] ==> queue == [Pos(0, 0)] || (queue == [] && !IsExplorable(maze0, Pos(0, 0)))) &&
    (trace != [] ==> forall q :: q in queue ==> Adjacent(trace, q)) &&
    (end == Pos(0, 0) || Adjacent(trace, end)) &&
    forall j, q :: 0 <= j < |trace| && q in Around(trace[j]) && IsExplorable(maze, q) ==> q in queue
  }

  /** With the stack empty the search is over: the grid is the replay of
      the dug cells, the digging is linked and started if (0,0) was
      explorable, and no neighbour of a dug cell is left explorable. */
  lemma SearchDone(maze0: Grid, maze: Grid, trace: seq<Pos>, end: Pos)
    requires Square(maze0, |maze0|)
    requires Searching(maze0, maze, trace, [], end)
    ensures Square(maze, |maze0|) && maze == Replay(maze0, trace) && Within(|maze0|, end)
    ensures forall i, j :: 0 <= i < |maze0| && 0 <= j < |maze0| && maze0[i][j] ==> maze[i][j]
    ensures forall k :: 0 <= k < |trace| ==> IsExplorable(Replay(maze0, trace[..k]), trace[k])
    ensures IsExplorable(maze0, Pos(0, 0)) ==> trace != []
    ensures Linked(trace) && Exhausted(maze, trace)
    ensures end == Pos(0, 0) || Adjacent(trace, end)
  {
    forall j, q | 0 <= j < |trace| && q in Around(trace[j]) ensures !IsExplorable(maze, q) {
      assert IsExplorable(maze, q) ==> q in [];
    }
  }

  /** Popping a cell that is no longer explorable only drops it. */
  lemma SkipStep(maze0: Grid, maze: Grid, trace: seq<Pos>, rest: seq<Pos>, next: Pos, end: Pos)
    requires Square(maze0, |maze0|) && 1 <= |maze0|
    requires Searching(maze0, maze, trace, rest + [next], end)
    requires !IsExplorable(maze, next)
    ensures Searching(maze0, maze, trace, rest, next)
  {
    assert next in rest + [next];
    forall q | q in rest ensures q in rest + [next] { }
    forall j, q | 0 <= j < |trace| && q in Around(trace[j]) && IsExplorable(maze, q)
      ensures q in rest
    {
      assert q in rest + [next];
    }
    if trace == [] {
      assert maze == maze0;
    }
  }

  /** Appending a cell that starts the digging at (0,0), or neighbours a
      dug cell, keeps the digging linked. */
  lemma LinkedExtend(trace: seq<Pos>, next: Pos)
    requires Linked(trace)
    requires trace == [] ==> next == Pos(0, 0)
    requires trace != [] ==> Adjacent(trace, next)
    ensures Linked(trace + [next])
  {
    var t := trace + [next];
    assert t[..|trace|] == trace;
    forall k | 1 <= k < |t| ensures Adjacent(t[..k], t[k]) {
      if k < |trace| {
        assert t[..k] == trace[..k];
      }
    }
  }

  /** After opening `next` and stacking its explorable neighbours, every
      explorable neighbour of a dug cell is on the stack. */
  lemma FrontierKept(maze: Grid, trace: seq<Pos>, rest: seq<Pos>, next: Pos, possibles: seq<Pos>)
    requires Square(maze, |maze|) && InBounds(maze, next) && !maze[next.r][next.c]
    requires forall j, q :: 0 <= j < |trace| && q in Around(trace[j]) && IsExplorable(maze, q) ==>
      q in rest + [next]
    requires multiset(possibles) == multiset(GetOneExplore(Mark(maze, next), next))
    ensures var t := trace + [next];
      forall j, q :: 0 <= j < |t| && q in Around(t[j]) && IsExplorable(Mark(maze, next), q) ==>
        q in rest + possibles
  {
    var m := Mark(maze, next);
    var t := trace + [next];
    MarkKeepsOpen(maze, next);
    forall j, q | 0 <= j < |t| && q in Around(t[j]) && IsExplorable(m, q)
      ensures q in rest + possibles
    {
      if j < |trace| {
        assert t[j] == trace[j];
        MarkKeepsUnexplorable(maze, next, q);
        assert q in rest + [next];
      } else {
        assert q in GetOneExplore(m, next);
        assert q in multiset(possibles);
      }
    }
  }

  /** After opening `next`, the remaining stack, the stacked neighbours of
      `next` and `next` itself all neighbour a dug cell. */
  lemma StackAdjacent(maze0: Grid, m: Grid, trace: seq<Pos>, rest: seq<Pos>, next: Pos,
                      possibles: seq<Pos>)
    requires Square(maze0, |maze0|) && Square(m, |maze0|)
    requires trace == [] ==> rest == []
    requires trace != [] ==> forall q :: q in rest + [next] ==> Adjacent(trace, q)
    requires forall q :: q in rest ==> Within(|maze0|, q)
    requires multiset(possibles) == multiset(GetOneExplore(m, next))
    ensures var t := trace + [next];
      (forall q :: q in rest + possibles ==> Within(|maze0|, q) && Adjacent(t, q)) &&
      (trace != [] ==> Adjacent(t, next))
  {
    var t := trace + [next];
    assert t[|trace|] == next;
    forall q | q in possibles ensures Within(|maze0|, q) && Adjacent(t, q) {
      assert q in multiset(possibles);
      assert q in GetOneExplore(m, next);
    }
    if trace != [] {
      forall q | q in rest ensures Adjacent(t, q) {
        assert q in rest + [next];
        AdjacentExtend(trace, next, q);
      }
      assert next in rest + [next];
      AdjacentExtend(trace, next, next);
    }
  }

  /** Popping an explorable cell, opening it and stacking its explorable
      neighbours in any order keeps what the search maintains. */
  lemma DigStep(maze0: Grid, maze: Grid, trace: seq<Pos>, rest: seq<Pos>, next: Pos, end: Pos,
                possibles: seq<Pos>)
    requires Square(maze0, |maze0|) && 1 <= |maze0|
    requires Searching(maze0, maze, trace, rest + [next], end)
    requires IsExplorable(maze, next)
    requires multiset(possibles) == multiset(GetOneExplore(Mark(maze, next), next))
    ensures Searching(maze0, Mark(maze, next), trace + [next], rest + possibles, next)
  {
    var m := Mark(maze, next);
    var t := trace + [next];
    OpenCell(maze0, maze, trace, next);
    MarkKeepsOpen(maze, next);
    assert next in rest + [next];
    forall q | q in rest ensures Within(|maze0|, q) {
      assert q in rest + [next];
    }
    if trace == [] {
      assert rest + [next] == [Pos(0, 0)];
    }
    LinkedExtend(trace, next);
    StackAdjacent(maze0, m, trace, rest, next, possibles);
    FrontierKept(maze, trace, rest, next, possibles);
  }

  /** `create_maze`: a stack-driven depth-first search from (0,0). A popped
      cell that is still explorable is opened and its explorable neighbours,
      shuffled, are pushed. The result is the last popped cell, which is then
      opened unconditionally. `shuffle(k, s)` is the `k`-th shuffle's output.

      Cells only go from closed to open; `trace` lists the cells the search
      opened, in order, each explorable when it was opened. The digging
      starts at (0,0) when that cell is explorable, each later cell
      neighbours an earlier one, no neighbour of a dug cell is left
      explorable, and `end` is (0,0) or a neighbour of a dug cell. */
  method CreateMaze(maze0: Grid, shuffle: (nat, seq<Pos>) -> seq<Pos>)
    returns (maze: Grid, end: Pos, ghost trace: seq<Pos>)
    requires 1 <= |maze0| && Square(maze0, |maze0|)
    requires forall k, s :: multiset(shuffle(k, s)) == multiset(s)
    ensures Square(maze, |maze0|)
    ensures InBounds(maze, end) && maze[end.r][end.c]
    ensures forall i, j :: 0 <= i < |maze0| && 0 <= j < |maze0| && maze0[i][j] ==> maze[i][j]
    ensures maze == Mark(Replay(maze0, trace), end)
    ensures forall k :: 0 <= k < |trace| ==> IsExplorable(Replay(maze0, trace[..k]), trace[k])
    ensures IsExplorable(maze0, Pos(0, 0)) ==> trace != []
    ensures Linked(trace)
    ensures Exhausted(Replay(maze0, trace), trace)
    ensures end == Pos(0, 0) || Adjacent(trace, end)
  {
    var queue := [Pos(0, 0)];
    end := Pos(0, 0);
    maze := maze0;
    trace := [];
    var shuffles := 0;
    while queue != []
      invariant Searching(maze0, maze, trace, queue, end)
      decreases Closed(maze), |queue|
    {
      var next := queue[|queue| - 1];
      var rest := queue[..|queue| - 1];
      assert queue == rest + [next];
      queue := rest;
      if IsExplorable(maze, next) {
        OpenCell(maze0, maze, trace, next);
        var m := maze[next.r := maze[next.r][next.c := true]];
        MarkKeepsOpen(maze, next);
        var candidates := GetOneExplore(m, next);
        var possibles := shuffle(shuffles, candidates);
        shuffles := shuffles + 1;
        DigStep(maze0, maze, trace, rest, next, end, possibles);
        maze := m;
        trace := trace + [next];
        queue := PushAll(queue, possibles);
      } else {
        SkipStep(maze0, maze, trace, rest, next, end);
      }
      end := next;
    }
    SearchDone(maze0, maze, trace, end);
    MarkEnd(maze0, maze, end);
    maze := maze[end.r := maze[end.r][end.c := true]];
  }

  /** In a replay, a cell is open iff it was open before or is one of the
      replayed cells. */
  lemma {:induction false} ReplayOpen(g: Grid, cells: seq<Pos>, i: int, j: int)
    requires Square(g, |g|) && 0 <= i < |g| && 0 <= j < |g|
    ensures Replay(g, cells)[i][j] <==> g[i][j] || Pos(i, j) in cells
  {
    if cells != [] {
      var init := cells[..|cells| - 1];
      ReplayOpen(g, init, i, j);
      assert cells == init + [cells[|cells| - 1]];
    }
  }

  /** `random`: digs an all-closed `conf` x `conf` maze, then opens (0,0).
      The dug path starts at (0,0), each dug cell neighbours an earlier one,
      no neighbour of a dug cell is left explorable, the open cells are
      exactly the dug cells and the end, and the end is (0,0) or a
      neighbour of a dug cell. An empty maze would make both `maze[end]`
      and `maze[0][0]` panic. */
  method Random(conf: nat, shuffle: (nat, seq<Pos>) -> seq<Pos>)
    returns (p: MazeProblem, end: Pos, ghost trace: seq<Pos>)
    requires 1 <= conf && conf * SolSize < I32Max
    requires forall k, s :: multiset(shuffle(k, s)) == multiset(s)
    ensures WellFormed(p) && p.mazeSize == conf
    ensures p.maze[0][0]
    ensures p.end == (end.r as real, end.c as real) && InBounds(p.maze, end) && p.maze[end.r][end.c]
    ensures trace != [] && Linked(trace)
    ensures Exhausted(Replay(seq(conf, _ => seq(conf, _ => false)), trace), trace)
    ensures end == Pos(0, 0) || Adjacent(trace, end)
    ensures forall i, j :: 0 <= i < conf && 0 <= j < conf ==>
      (p.maze[i][j] <==> Pos(i, j) in trace || Pos(i, j) == end)
  {
    var empty := seq(conf, _ => seq(conf, _ => false));
    assert NbAdjacingExplored(empty, Pos(0, 0)) == 0;
    var maze;
    maze, end, trace := CreateMaze(empty, shuffle);
    maze := maze[0 := maze[0][0 := true]];
    p := MazeProblem(conf, maze, (end.r as real, end.c as real));
    assert InBounds(p.maze, end) && p.maze[end.r][end.c];
    forall i, j | 0 <= i < conf && 0 <= j < conf
      ensures p.maze[i][j] <==> Pos(i, j) in trace || Pos(i, j) == end
    {
      ReplayOpen(empty, trace, i, j);
      assert trace[0] == Pos(0, 0);
    }
  }

  // ---------------------------------------------------------------------
  // Walking through the maze

  /** `get_sol_conf`: `maze_size * SOL_SIZE * 2` genes, enough for every
      gene `play` reads (the largest index is `2 * (moves - 1)`). */
  function SolConf(p: MazeProblem): (n: nat)
    ensures 1 <= p.mazeSize ==> 2 * (Moves(p) - 1) < n
  {
    p.mazeSize * SolSize * 2
  }

  /** Number of moves `play` makes. */
  function Moves(p: MazeProblem): nat
  {
    p.mazeSize * SolSize
  }

  /** One iteration of `play`: the larger of the two clamped genes picks the
      axis, its sign the direction; the walker moves when the target cell,
      clamped into the grid, is open. The stored position is not clamped:
      a move changes at most one coordinate, by one. */
  function StepPos(p: MazeProblem, pos: Pos, g0: real, g1: real): (q: Pos)
    requires WellFormed(p)
    requires -I32Max < pos.r < I32Max && -I32Max < pos.c < I32Max
    ensures (q.r == pos.r || q.c == pos.c) && -1 <= q.r - pos.r <= 1 && -1 <= q.c - pos.c <= 1
    ensures q != pos ==> p.maze[ValidatePos(p.mazeSize, AsUsize(q.r))][ValidatePos(p.mazeSize, AsUsize(q.c))]
  {
    var mv0 := Clamp(g0);
    var mv1 := Clamp(g1);
    var (m0, m1) := if Abs(mv0) > Abs(mv1) then (mv0, 0.0) else (0.0, mv1);
    var future := Pos(pos.r + IntoMove(m0), pos.c + IntoMove(m1));
    var blockX := ValidatePos(p.mazeSize, AsUsize(future.r));
    var blockY := ValidatePos(p.mazeSize, AsUsize(future.c));
    if p.maze[blockX][blockY] then future else pos
  }

  /** The walker after the first `k` moves. */
  function Walk(p: MazeProblem, sol: seq<real>, k: nat): (pos: Pos)
    requires WellFormed(p) && k <= Moves(p) && (k == 0 || 2 * (k - 1) < |sol|)
    ensures -(k as int) <= pos.r <= k && -(k as int) <= pos.c <= k
  {
    if k == 0 then Pos(0, 0) else
      var prev := Walk(p, sol, k - 1);
      StepPos(p, prev, sol[k - 1], sol[2 * (k - 1)])
  }

  /** `pathfind`: L1 distance to the end cell, so never negative and 0
      exactly at the end cell. */
  function PathFind(p: MazeProblem, pos: Pos): (d: real)
    ensures 0.0 <= d
    ensures d == 0.0 <==> (pos.r as real, pos.c as real) == p.end
  {
    Abs(pos.r as real - p.end.0) + Abs(pos.c as real - p.end.1)
  }

  /** `evaluate`, through `play`: the distance left to the end cell, 0
      exactly when the walk ends there. */
  function Evaluate(p: MazeProblem, sol: seq<real>): (d: real)
    requires WellFormed(p) && (Moves(p) == 0 || 2 * (Moves(p) - 1) < |sol|)
    ensures 0.0 <= d
    ensures var e := Walk(p, sol, Moves(p)); d == 0.0 <==> (e.r as real, e.c as real) == p.end
  {
    PathFind(p, Walk(p, sol, Moves(p)))
  }

  /** The body of `play`'s loop: one move driven by genes `g0` and `g1`. */
  method Move(p: MazeProblem, pos: Pos, g0: real, g1: real) returns (next: Pos)
    requires WellFormed(p)
    requires -I32Max < pos.r < I32Max && -I32Max < pos.c < I32Max
    ensures next == StepPos(p, pos, g0, g1)
  {
    var mv0 := Clamp(g0);
    var mv1 := Clamp(g1);
    if Abs(mv0) > Abs(mv1) {
      mv1 := 0.0;
    } else {
      mv0 := 0.0;
    }
    var future := Pos(pos.r + IntoMove(mv0), pos.c + IntoMove(mv1));
    var blockX, blockY := ValidatePos(p.mazeSize, AsUsize(future.r)), ValidatePos(p.mazeSize, AsUsize(future.c));
    next := pos;
    if p.maze[blockX][blockY] {
      next := future;
    }
  }

  /** `play`: reads genes `i` and `2i` for each of `maze_size * 10` moves. */
  method Play(p: MazeProblem, sol: seq<real>) returns (score: real)
    requires WellFormed(p) && (Moves(p) == 0 || 2 * (Moves(p) - 1) < |sol|)
    ensures score == Evaluate(p, sol)
  {
    var pos := Pos(0, 0);
    for i := 0 to Moves(p)
      invariant pos == Walk(p, sol, i)
    {
      pos := Move(p, pos, sol[i], sol[i * 2]);
    }
    score := PathFind(p, pos);
  }
}
