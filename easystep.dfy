/** A step-by-step puzzle: a walker on a line of cells must visit them all.
    Every cell starts unvisited (1.0); each step moves the walker right or
    left and marks the cell it lands on visited (0.0). */
module EasyStep {
  import opened Num

  class EasyStep {
    var myPos: nat
    var visited: seq<real>

    ghost predicate Valid()
      reads this
    {
      myPos < |visited| && forall i :: 0 <= i < |visited| ==> visited[i] == 0.0 || visited[i] == 1.0
    }

    /** `random`: `conf` unvisited cells and a start `draw % conf`, where
        `draw` is the `gen::<usize>()`; `% 0` panics, so `conf >= 1`.
        The start cell itself is not marked visited. */
    constructor Random(conf: nat, draw: nat)
      requires 1 <= conf
      ensures Valid()
      ensures |visited| == conf && myPos == draw % conf
      ensures forall i :: 0 <= i < conf ==> visited[i] == 1.0
    {
      visited := seq(conf, _ => 1.0);
      myPos := draw % conf;
    }

    /** `get_state`: one pair (is-the-walker-here, visited) per cell. */
    function GetState(): (s: seq<real>)
      reads this
      ensures |s| == 2 * |visited|
      ensures forall k :: 0 <= k < |visited| ==> s[2 * k + 1] == visited[k]
      ensures forall k :: 0 <= k < |visited| ==> (s[2 * k] == 1.0 <==> k == myPos)
      ensures forall k :: 0 <= k < |visited| ==> s[2 * k] == 0.0 || s[2 * k] == 1.0
    {
      var cells, me := visited, myPos;
      var s := seq(2 * |cells|, i requires 0 <= i < 2 * |cells| =>
        if i % 2 == 0 then (if i / 2 == me then 1.0 else 0.0) else cells[i / 2]);
      assert forall k :: 0 <= k < |cells| ==> (2 * k) / 2 == k && (2 * k + 1) / 2 == k && (2 * k + 1) % 2 == 1;
      s
    }

    /** `make_step`: right when `choice[0] > choice[1]` and not at the last
        cell, otherwise left when not at the first; then the cell reached is
        marked visited. */
    method MakeStep(choice: seq<real>)
      requires Valid() && 2 <= |choice|
      modifies this
      ensures Valid()
      ensures |visited| == |old(visited)|
      ensures myPos == if choice[0] > choice[1] then
                         (if old(myPos) < |visited| - 1 then old(myPos) + 1 else old(myPos))
                       else if old(myPos) > 0 then old(myPos) - 1 else old(myPos)
      ensures visited == old(visited)[myPos := 0.0]
      ensures Evaluate() >= old(Evaluate())
    {
      if choice[0] > choice[1] {
        if myPos < |visited| - 1 {
          myPos := myPos + 1;
        }
      } else if myPos > 0 {
        myPos := myPos - 1;
      }
      SumUpdate(visited, myPos, 0.0);
      visited := visited[myPos := 0.0];
    }

    /** `max_step`: `floor(1.5 * len)`. */
    function MaxStep(): (n: nat)
      reads this
      ensures n == |visited| + |visited| / 2
    {
      var m := |visited| as real * 1.5;
      assert m == (|visited| + |visited| / 2) as real + (if |visited| % 2 == 1 then 0.5 else 0.0);
      Trunc(m)
    }

    /** `input_space`: a choice has two components. */
    function InputSpace(): nat
    {
      2
    }

    /** `output_space`: one value per cell. */
    function OutputSpace(): nat
      reads this
    {
      |visited|
    }

    /** `evaluate`: minus the number of unvisited cells. */
    function Evaluate(): real
      reads this
    {
      -Sum(visited)
    }

    /** `is_solved`: the score is below 1. */
    predicate IsSolved()
      reads this
    {
      Evaluate() < 1.0
    }

    /** The score is never positive, so `is_solved` always holds: a playout
        of this puzzle stops after its first step. */
    lemma AlwaysSolved()
      requires Valid()
      ensures Evaluate() <= 0.0
      ensures IsSolved()
    {
      SumNonNegative(visited);
    }
  }
}
