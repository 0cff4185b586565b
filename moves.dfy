/** The four walking directions and the unit move each one makes. */
module Moves {
  import opened Wrappers
  import opened Grid

  datatype Direction = Left | Up | Right | Down

  /** The canonical order in which turns are tried. */
  const Directions: seq<Direction> := [Left, Up, Right, Down]

  /** Position of a direction in the canonical order. */
  function Rank(d: Direction): nat {
    match d
    case Left => 0
    case Up => 1
    case Right => 2
    case Down => 3
  }

  /** One cell away from `p` in direction `d`, with no bounds check. */
  function Move(p: Pos, d: Direction): Pos {
    match d
    case Left => (p.0, p.1 - 1)
    case Up => (p.0 - 1, p.1)
    case Right => (p.0, p.1 + 1)
    case Down => (p.0 + 1, p.1)
  }

  function Abs(x: int): nat {
    if x < 0 then -x else x
  }

  /** Two cells that share a side. */
  predicate Adjacent(a: Pos, b: Pos) {
    Abs(a.0 - b.0) + Abs(a.1 - b.1) == 1
  }

  /**
   * `get_relative_position`: None when there is no current position (or no
   * direction to move in), otherwise the neighbouring cell in that direction.
   */
  function RelativePosition(position: Option<Pos>, direction: Option<Direction>): (r: Option<Pos>)
    ensures r.Some? <==> position.Some? && direction.Some?
    ensures r.Some? ==> Adjacent(position.value, r.value)
    ensures r.Some? && direction.value in {Left, Right} ==> r.value.0 == position.value.0
    ensures r.Some? && direction.value in {Up, Down} ==> r.value.1 == position.value.1
  {
    if position.None? || direction.None? then None
    else Some(Move(position.value, direction.value))
  }

  /** `get_opposite_direction`: LEFT and RIGHT, UP and DOWN swap; None stays None. */
  function Opposite(direction: Option<Direction>): (r: Option<Direction>)
    ensures r.Some? <==> direction.Some?
    ensures r.Some? ==> r != direction
  {
    match direction
    case None => None
    case Some(Left) => Some(Right)
    case Some(Up) => Some(Down)
    case Some(Right) => Some(Left)
    case Some(Down) => Some(Up)
  }

  /** Taking the opposite twice gives the direction back. */
  lemma OppositeInvolutive(direction: Option<Direction>)
    ensures Opposite(Opposite(direction)) == direction
  {
  }

  /**
   * Moving in the opposite direction undoes a move, and it is the only
   * direction that does.
   */
  lemma MoveBack(p: Pos, d: Direction, e: Direction)
    ensures Move(Move(p, d), e) == p <==> Some(e) == Opposite(Some(d))
  {
  }

  /** From one cell, different directions reach different cells. */
  lemma MoveInjective(p: Pos, d: Direction, e: Direction)
    ensures Move(p, d) == Move(p, e) <==> d == e
  {
  }
}
