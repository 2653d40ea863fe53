/** The Game of Life board behind the visualiser: a fixed 150 x 150 table
    of `u32` cells with bounds-checked access, a synchronous update step and
    a copy. */
module LifeMap {

  const Width: int := 150
  const Height: int := 150

  type U32 = x: int | 0 <= x < 0x1_0000_0000

  datatype Option<T> = None | Some(value: T)

  /** `Map = [[u32; HEIGHT]; WIDTH]`. */
  predicate IsMap(m: array2<U32>)
  {
    m.Length0 == Width && m.Length1 == Height
  }

  /** `check`: both coordinates inside the board. */
  predicate Check(x: int, y: int)
    ensures Check(x, y) <==> 0 <= x < Width && 0 <= y < Height
  {
    !(x < 0 || x >= Width || y < 0 || y >= Height)
  }

  /** `get`: the cell when the coordinates are on the board, else nothing. */
  function Get(m: array2<U32>, x: int, y: int): (r: Option<U32>)
    requires IsMap(m)
    reads m
    ensures r.Some? <==> 0 <= x < Width && 0 <= y < Height
    ensures r.Some? ==> r.value == m[x, y]
  {
    if Check(x, y) then Some(m[x, y]) else None
  }

  /** `set`: writes the addressed cell when it is on the board; any other
      call leaves the board as it was. */
  method Set(m: array2<U32>, x: int, y: int, val: U32)
    requires IsMap(m)
    modifies m
    ensures forall i, j :: 0 <= i < Width && 0 <= j < Height ==>
      m[i, j] == if i == x && j == y then val else old(m[i, j])
  {
    if Check(x, y) {
      m[x, y] := val;
    }
  }

  /** `zerotable`. */
  method ZeroTable() returns (m: array2<U32>)
    ensures fresh(m) && IsMap(m)
    ensures forall i, j :: 0 <= i < Width && 0 <= j < Height ==> m[i, j] == 0
  {
    m := new U32[Width, Height]((_, _) => 0);
  }

  /** `randomtable`: cell (i, j) is the low bit of the `(150 i + j)`-th
      `u32` draw. */
  method RandomTable(draws: seq<U32>) returns (m: array2<U32>)
    requires Width * Height <= |draws|
    ensures fresh(m) && IsMap(m)
    ensures forall i, j :: 0 <= i < Width && 0 <= j < Height ==> m[i, j] == draws[i * Height + j] % 2
    ensures forall i, j :: 0 <= i < Width && 0 <= j < Height ==> m[i, j] == 0 || m[i, j] == 1
  {
    m := ZeroTable();
    for i := 0 to Width
      invariant forall a, b :: 0 <= a < i && 0 <= b < Height ==> m[a, b] == draws[a * Height + b] % 2
    {
      for j := 0 to Height
        invariant forall a, b :: 0 <= a < i && 0 <= b < Height ==> m[a, b] == draws[a * Height + b] % 2
        invariant forall b :: 0 <= b < j ==> m[i, b] == draws[i * Height + b] % 2
      {
        m[i, j] := draws[i * Height + j] % 2;
      }
    }
  }

  /** A cell seen through `get`, with off-board cells counting 0. */
  function Cell(m: array2<U32>, x: int, y: int): nat
    requires IsMap(m)
    reads m
  {
    if Check(x, y) then m[x, y] else 0
  }

  /** Sum of the first `dy` cells of row `x` in the window around column `j`. */
  function RowSum(m: array2<U32>, x: int, j: int, dy: int): nat
    requires IsMap(m)
    reads m
  {
    (if dy > 0 then Cell(m, x, j - 1) else 0) +
    (if dy > 1 then Cell(m, x, j) else 0) +
    (if dy > 2 then Cell(m, x, j + 1) else 0)
  }

  /** Sum of the first `dx` rows of the 3 x 3 window around (i, j). */
  function RowsSum(m: array2<U32>, i: int, j: int, dx: int): nat
    requires IsMap(m)
    reads m
  {
    (if dx > 0 then RowSum(m, i - 1, j, 3) else 0) +
    (if dx > 1 then RowSum(m, i, j, 3) else 0) +
    (if dx > 2 then RowSum(m, i + 1, j, 3) else 0)
  }

  /** The whole 3 x 3 window around (i, j), the cell itself included. */
  function Window(m: array2<U32>, i: int, j: int): nat
    requires IsMap(m)
    reads m
  {
    RowsSum(m, i, j, 3)
  }

  /** The number `update` computes for (i, j): its window minus itself. */
  function Neighbours(m: array2<U32>, i: int, j: int): (n: nat)
    requires IsMap(m) && 0 <= i < Width && 0 <= j < Height
    reads m
    ensures n == Window(m, i, j) - m[i, j]
  {
    Window(m, i, j) - m[i, j]
  }

  /** The counts are `u32` too: `update` needs every window sum to fit. */
  ghost predicate NoOverflow(m: array2<U32>)
    requires IsMap(m)
    reads m
  {
    forall i, j :: 0 <= i < Width && 0 <= j < Height ==> Window(m, i, j) < 0x1_0000_0000
  }

  /** Game of Life on one cell: a live cell (== 1) with fewer than 2 or more
      than 3 neighbours dies; any other cell with exactly 3 becomes 1;
      everything else is unchanged. A live cell survives with 2 or 3
      neighbours, a dead one is born with 3, and a 0/1 cell stays 0/1. */
  function LifeRule(c: U32, n: nat): (r: U32)
    ensures c == 1 ==> (r == 1 <==> n == 2 || n == 3)
    ensures c == 0 ==> (r == 1 <==> n == 3)
    ensures (c == 0 || c == 1) ==> r == 0 || r == 1
    ensures c != 1 && n != 3 ==> r == c
  {
    if c == 1 then (if n < 2 || n > 3 then 0 else c)
    else if n == 3 then 1 else c
  }

  /** A 0/1 board can always be updated: each window sums to at most 9. */
  lemma BinaryNoOverflow(m: array2<U32>)
    requires IsMap(m)
    requires forall i, j :: 0 <= i < Width && 0 <= j < Height ==> m[i, j] == 0 || m[i, j] == 1
    ensures NoOverflow(m)
    ensures forall i, j :: 0 <= i < Width && 0 <= j < Height ==> Neighbours(m, i, j) <= 8
  {
    forall i, j | 0 <= i < Width && 0 <= j < Height ensures Window(m, i, j) <= 9 {
      assert forall x, y :: Cell(m, x, y) <= 1;
    }
  }

  /** `update`: first every count, from the board as it is, into a separate
      table (see `Counts`); then the rule on every cell (see `ApplyRule`).
      So the new board depends only on the old one. */
  method Update(m: array2<U32>)
    requires IsMap(m) && NoOverflow(m)
    modifies m
    ensures forall i, j :: 0 <= i < Width && 0 <= j < Height ==>
      m[i, j] == LifeRule(old(m[i, j]), old(Neighbours(m, i, j)))
  {
    var nei := Counts(m);
    assert forall a, b :: 0 <= a < Width && 0 <= b < Height ==> nei[a, b] == old(Neighbours(m, a, b));
    ApplyRule(m, nei);
  }

  /** The second pass of `update`: every cell of the board gets the rule
      applied with the count of the same cell of `nei`. */
  method ApplyRule(m: array2<U32>, nei: array2<U32>)
    requires IsMap(m) && IsMap(nei) && m != nei
    modifies m
    ensures forall i, j :: 0 <= i < Width && 0 <= j < Height ==>
      m[i, j] == LifeRule(old(m[i, j]), nei[i, j])
  {
    for i := 0 to Width
      invariant forall a, b :: 0 <= a < i && 0 <= b < Height ==> m[a, b] == LifeRule(old(m[a, b]), nei[a, b])
      invariant forall a, b :: i <= a < Width && 0 <= b < Height ==> m[a, b] == old(m[a, b])
    {
      for j := 0 to Height
        invariant forall a, b :: 0 <= a < i && 0 <= b < Height ==> m[a, b] == LifeRule(old(m[a, b]), nei[a, b])
        invariant forall b :: 0 <= b < j ==> m[i, b] == LifeRule(old(m[i, b]), nei[i, b])
        invariant forall b :: j <= b < Height ==> m[i, b] == old(m[i, b])
        invariant forall a, b :: i < a < Width && 0 <= b < Height ==> m[a, b] == old(m[a, b])
      {
        ghost var next := LifeRule(m[i, j], nei[i, j]);
        if m[i, j] == 1 {
          if nei[i, j] < 2 || nei[i, j] > 3 {
            m[i, j] := 0;
          }
        } else if nei[i, j] == 3 {
          m[i, j] := 1;
        }
        assert m[i, j] == next;
      }
    }
  }

  /** The first pass of `update`: a fresh zero table `nei` whose every cell
      receives the neighbour count of the same cell of the board. */
  method Counts(m: array2<U32>) returns (nei: array2<U32>)
    requires IsMap(m) && NoOverflow(m)
    ensures fresh(nei) && IsMap(nei)
    ensures forall a, b :: 0 <= a < Width && 0 <= b < Height ==> nei[a, b] == Neighbours(m, a, b)
  {
    nei := ZeroTable();
    for i := 0 to Width
      modifies nei
      invariant forall a, b :: 0 <= a < i && 0 <= b < Height ==> nei[a, b] == Neighbours(m, a, b)
    {
      for j := 0 to Height
        modifies nei
        invariant forall a, b :: 0 <= a < i && 0 <= b < Height ==> nei[a, b] == Neighbours(m, a, b)
        invariant forall b :: 0 <= b < j ==> nei[i, b] == Neighbours(m, i, b)
      {
        var n := CountCell(m, i, j);
        nei[i, j] := n;
      }
    }
  }

  /** The count `update` builds for one cell (i, j): the 3 x 3 loops add
      every on-board cell of the window, then the cell itself is taken off
      again, which cannot go below 0; no partial sum leaves the `u32` range. */
  method CountCell(m: array2<U32>, i: int, j: int) returns (n: U32)
    requires IsMap(m) && NoOverflow(m)
    requires 0 <= i < Width && 0 <= j < Height
    ensures n == Neighbours(m, i, j)
    ensures n <= Window(m, i, j)
  {
    n := 0;
    for x := i - 1 to i + 2
      invariant n == RowsSum(m, i, j, x - (i - 1))
    {
      for y := j - 1 to j + 2
        invariant n == RowsSum(m, i, j, x - (i - 1)) + RowSum(m, x, j, y - (j - 1))
      {
        match Get(m, x, y)
        case Some(u) =>
          assert n + u <= Window(m, i, j);
          n := n + u;
        case None =>
      }
    }
    n := n - Get(m, i, j).value;
  }

  /** `copy_from`: every cell takes the value of the same cell of `s`. */
  method CopyFrom(m: array2<U32>, s: array2<U32>)
    requires IsMap(m) && IsMap(s) && m != s
    modifies m
    ensures forall i, j :: 0 <= i < Width && 0 <= j < Height ==> m[i, j] == s[i, j]
  {
    for i := 0 to Width
      invariant forall a, b :: 0 <= a < i && 0 <= b < Height ==> m[a, b] == s[a, b]
    {
      for j := 0 to Height
        invariant forall a, b :: 0 <= a < i && 0 <= b < Height ==> m[a, b] == s[a, b]
        invariant forall b :: 0 <= b < j ==> m[i, b] == s[i, b]
      {
        m[i, j] := s[i, j];
      }
    }
  }
}
