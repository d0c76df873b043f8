/** The two moving things on the field: the paddle (Character, and Player, which
    adds nothing to it) and the ball. */
module Entities {
  import opened Geometry

  /** The cells a paddle whose top cell is `top` covers: a column of
      `Character.Length` cells going down from `top`. */
  function PaddleCells(top: Vector): (cells: seq<Vector>)
    ensures |cells| == Character.Length
    ensures forall i :: 0 <= i < |cells| ==> cells[i] == Vector(top.y + i, top.x)
  {
    seq(Character.Length, i requires 0 <= i < Character.Length => Vector(top.y + i, top.x))
  }

  /** A cell belongs to the paddle exactly when it is in the paddle's column
      and within `Length` rows of its top. */
  lemma PaddleCellsSpan(top: Vector, c: Vector)
    ensures c in PaddleCells(top) <==> c.x == top.x && top.y <= c.y < top.y + Character.Length
  {
    var cells := PaddleCells(top);
    if c.x == top.x && top.y <= c.y < top.y + Character.Length {
      assert cells[c.y - top.y] == c;
    }
  }

  /** Moving a paddle by `dy` moves every one of its cells by `dy` rows. */
  lemma PaddleCellsShift(top: Vector, dy: int)
    ensures forall i :: 0 <= i < Character.Length ==>
      PaddleCells(Vector(top.y + dy, top.x))[i] == Plus(PaddleCells(top)[i], Vector(dy, 0))
  {
  }

  /** A paddle: its top cell and its score. Moving it changes only its row;
      nothing keeps it on the screen. */
  class Character {
    static const Length: nat := 5

    var pos: Vector
    var score: int

    constructor (y: int, x: int)
      ensures pos == Vector(y, x) && score == 0
    {
      pos := Vector(y, x);
      score := 0;
    }

    /** Shifts the paddle `dy` rows; the column and the score stay, and the row
        may go negative. */
    method Move(dy: int)
      modifies this
      ensures pos == Vector(old(pos.y) + dy, old(pos.x))
      ensures score == old(score)
    {
      pos := pos.(y := pos.y + dy);
    }
  }

  /** The result of moving the ball: OutOfBounds stands for OutOfBoundsError. */
  datatype MoveOutcome = Moved | OutOfBounds

  /** The ball: a position and a velocity, which starts at rest. */
  class Ball {
    var pos: Position
    var vel: Vector

    constructor (y: int, x: int)
      ensures pos == Vector(y, x) && vel == Vector(0, 0)
    {
      pos := Vector(y, x);
      vel := Vector(0, 0);
    }

    /** Advances the ball by its velocity. When a coordinate would become
        negative the addition fails before anything is assigned, so the ball
        stays where it was and OutOfBounds is reported. */
    method Move() returns (outcome: MoveOutcome)
      modifies this
      ensures vel == old(vel)
      ensures outcome == Moved <==> NonNegative(Plus(old(pos), vel))
      ensures outcome == Moved ==> pos == Plus(old(pos), vel)
      ensures outcome == OutOfBounds ==> pos == old(pos)
    {
      var sum := Add(pos, VectorOperand(vel));
      match sum
      case Ok(p) =>
        pos := p;
        outcome := Moved;
      case Err(_) =>
        outcome := OutOfBounds;
    }
  }

  /** A ball that was just built, at a non-negative position, does not move
      and does not fail when moved. */
  method MoveFreshBall(y: nat, x: nat) returns (outcome: MoveOutcome, p: Position)
    ensures outcome == Moved && p == Vector(y, x)
  {
    var b := new Ball(y, x);
    outcome := b.Move();
    p := b.pos;
  }
}
