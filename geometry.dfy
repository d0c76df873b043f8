/** Integer geometry of the Pong prototype: vectors, positions, and the checked
    addition that refuses to produce a position with a negative coordinate. */
module Geometry {

  /** The outcome of an operation that the program can make fail by raising. */
  datatype Result<+T, +E> = Ok(value: T) | Err(error: E)

  /** A pair of integer coordinates, row first. Python integers are unbounded,
      like Dafny's `int`, so no wrap-around is involved. */
  datatype Vector = Vector(y: int, x: int)

  /** A Vector used as a location. Building one checks nothing; only addition does. */
  type Position = Vector

  /** The right operand of Position addition: a Vector (a Position is one too),
      or a value of any other type. */
  datatype Operand = VectorOperand(v: Vector) | OtherOperand

  /** The two exceptions Position addition raises: ValueError for a negative
      coordinate, TypeError for an operand that is not a Vector. */
  datatype AddError = NegativeCoordinate | NotAVector

  predicate NonNegative(p: Vector) {
    p.y >= 0 && p.x >= 0
  }

  function Negated(v: Vector): (n: Vector) {
    Vector(-v.y, -v.x)
  }

  /** Component-wise sum of two vectors (no check). */
  function Plus(a: Vector, b: Vector): (s: Vector) {
    Vector(a.y + b.y, a.x + b.x)
  }

  /** `position + other`: succeeds exactly when `other` is a Vector and both
      coordinates of the sum are non-negative, and then yields that sum. */
  function Add(p: Position, other: Operand): (r: Result<Position, AddError>)
    ensures other.OtherOperand? ==> r == Err(NotAVector)
    ensures other.VectorOperand? ==>
      (r.Ok? <==> p.y + other.v.y >= 0 && p.x + other.v.x >= 0)
    ensures other.VectorOperand? && r.Err? ==> r.error == NegativeCoordinate
    ensures r.Ok? ==> NonNegative(r.value)
    ensures r.Ok? ==> r.value.y - p.y == other.v.y && r.value.x - p.x == other.v.x
  {
    match other
    case OtherOperand => Err(NotAVector)
    case VectorOperand(v) =>
      var y, x := p.y + v.y, p.x + v.x;
      if y < 0 || x < 0 then Err(NegativeCoordinate) else Ok(Vector(y, x))
  }

  /** Adding the zero vector to a non-negative position gives it back. */
  lemma AddZero(p: Position)
    requires NonNegative(p)
    ensures Add(p, VectorOperand(Vector(0, 0))) == Ok(p)
  {
  }

  /** A successful addition is undone by adding the negated vector, which never
      fails when the starting position was non-negative. */
  lemma AddUndo(p: Position, v: Vector)
    requires NonNegative(p)
    requires Add(p, VectorOperand(v)).Ok?
    ensures Add(Add(p, VectorOperand(v)).value, VectorOperand(Negated(v))) == Ok(p)
  {
  }

  /** Two successful additions in a row land where one addition of the summed
      vectors lands. */
  lemma AddCompose(p: Position, u: Vector, v: Vector)
    requires Add(p, VectorOperand(u)).Ok?
    requires Add(Add(p, VectorOperand(u)).value, VectorOperand(v)).Ok?
    ensures Add(p, VectorOperand(Plus(u, v))) == Add(Add(p, VectorOperand(u)).value, VectorOperand(v))
  {
  }
}
