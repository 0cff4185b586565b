/**
 * `find_next_position`: which neighbouring cell the walk moves to next.
 * The current direction is tried first, the opposite one never, and the
 * remaining turns in the order LEFT, UP, RIGHT, DOWN; the first candidate
 * whose cell holds a path character wins.
 */
module NextPosition {
  import opened Wrappers
  import opened Grid
  import opened Moves

  /** `[x for x in ds if x != current and x != opposite]`. */
  function OtherDirections(ds: seq<Direction>, current: Option<Direction>, opposite: Option<Direction>): (r: seq<Direction>)
    ensures forall d :: d in r <==> d in ds && Some(d) != current && Some(d) != opposite
  {
    if ds == [] then []
    else
      var rest := OtherDirections(ds[1..], current, opposite);
      if Some(ds[0]) != current && Some(ds[0]) != opposite then [ds[0]] + rest else rest
  }

  /** The directions of the candidate list, in the order they are tried. */
  function Choices(direction: Option<Direction>): seq<Direction> {
    var first := if direction.Some? then [direction.value] else [];
    first + OtherDirections(Directions, direction, Opposite(direction))
  }

  /** The candidate list for each current direction, written out. */
  lemma ChoicesTable(direction: Option<Direction>)
    ensures Choices(direction) ==
      match direction
      case None => [Left, Up, Right, Down]
      case Some(Left) => [Left, Up, Down]
      case Some(Up) => [Up, Left, Right]
      case Some(Right) => [Right, Up, Down]
      case Some(Down) => [Down, Left, Right]
  {
    match direction {
      case None =>
      case Some(Left) =>
      case Some(Up) =>
      case Some(Right) =>
      case Some(Down) =>
    }
  }

  /**
   * The candidate list holds every direction but the opposite one, each once;
   * the current direction comes first and the others follow in canonical order.
   */
  lemma ChoicesOrder(direction: Option<Direction>)
    ensures var ds := Choices(direction);
      (forall d :: d in ds <==> Some(d) != Opposite(direction)) &&
      (direction.Some? ==> |ds| == 3 && ds[0] == direction.value) &&
      (direction.None? ==> ds == Directions) &&
      (forall i, j :: 0 <= i < j < |ds| ==> ds[i] != ds[j]) &&
      (forall i, j :: 0 <= i < j < |ds| && Some(ds[i]) != direction ==> Rank(ds[i]) < Rank(ds[j]))
  {
    ChoicesTable(direction);
    forall d ensures d in Choices(direction) <==> Some(d) != Opposite(direction) {
      match d {
        case Left =>
        case Up =>
        case Right =>
        case Down =>
      }
    }
  }

  /**
   * The scan of the candidate list: the first direction whose neighbour of
   * `pos` is accepted, with that neighbour; (None, None) when none is.
   */
  function FirstAccepted(grid: Matrix, pos: Pos, ds: seq<Direction>): (r: (Option<Pos>, Option<Direction>))
    ensures r.0.None? <==> r.1.None?
    ensures r.1.Some? ==> r.1.value in ds && r.0 == Some(Move(pos, r.1.value)) && Accepts(grid, r.0.value)
  {
    if ds == [] then (None, None)
    else if Accepts(grid, Move(pos, ds[0])) then (Some(Move(pos, ds[0])), Some(ds[0]))
    else FirstAccepted(grid, pos, ds[1..])
  }

  /**
   * The scan stops at the first accepted candidate: it returns the index `k` of
   * the chosen direction, and every candidate before `k` is refused; when
   * nothing is chosen, every candidate is refused.
   */
  lemma {:induction false} FirstAcceptedIsFirst(grid: Matrix, pos: Pos, ds: seq<Direction>) returns (k: nat)
    ensures var r := FirstAccepted(grid, pos, ds);
      k <= |ds| && (r.1.Some? <==> k < |ds|) && (k < |ds| ==> r.1 == Some(ds[k]))
    ensures forall j :: 0 <= j < k ==> !Accepts(grid, Move(pos, ds[j]))
  {
    if ds == [] {
      k := 0;
    } else if Accepts(grid, Move(pos, ds[0])) {
      k := 0;
    } else {
      var k' := FirstAcceptedIsFirst(grid, pos, ds[1..]);
      k := k' + 1;
      forall j | 0 <= j < k ensures !Accepts(grid, Move(pos, ds[j])) {
        if j > 0 {
          assert ds[j] == ds[1..][j - 1];
        }
      }
    }
  }

  /** `find_next_position` over the grid and the walker's position and direction. */
  function FindNext(grid: Matrix, position: Option<Pos>, direction: Option<Direction>): (Option<Pos>, Option<Direction>) {
    if position.None? then (None, None)
    else
      var candidates := Choices(direction);
      FirstAccepted(grid, position.value, candidates)
  }

  /**
   * Whatever is found is the neighbour in the returned direction, has no
   * negative coordinate, lies in the grid and in its row, and holds a letter
   * or an indicator; position and direction are found together or not at all.
   */
  lemma FindNextSound(grid: Matrix, position: Option<Pos>, direction: Option<Direction>)
    ensures var (p, d) := FindNext(grid, position, direction);
      (p.None? <==> d.None?) &&
      (p.Some? ==>
         p == RelativePosition(position, d) && p.value.0 >= 0 && p.value.1 >= 0 &&
         InGrid(grid, p.value) && IsPathChar(grid[p.value.0][p.value.1]))
  {
  }

  /** Without a current position nothing is found. */
  lemma FindNextNoPosition(grid: Matrix, direction: Option<Direction>)
    ensures FindNext(grid, None, direction) == (None, None)
  {
  }

  /** Going straight on wins whenever the cell straight ahead is accepted. */
  lemma FindNextStraightFirst(grid: Matrix, pos: Pos, d: Direction)
    requires Accepts(grid, Move(pos, d))
    ensures FindNext(grid, Some(pos), Some(d)) == (Some(Move(pos, d)), Some(d))
  {
    var ds := Choices(Some(d));
    ChoicesOrder(Some(d));
    var k := FirstAcceptedIsFirst(grid, pos, ds);
    assert ds[..1] == [d];
  }

  /** The walk never turns back the way it came. */
  lemma FindNextNeverReverses(grid: Matrix, position: Option<Pos>, direction: Option<Direction>)
    requires FindNext(grid, position, direction).1.Some?
    ensures FindNext(grid, position, direction).1 != Opposite(direction)
  {
    ChoicesOrder(direction);
  }

  /**
   * Any accepted direction `e` other than back loses only to straight on or to
   * a turn earlier in LEFT, UP, RIGHT, DOWN; if `e` is straight on, it wins.
   */
  lemma {:induction false} FindNextPriority(grid: Matrix, pos: Pos, direction: Option<Direction>, e: Direction)
    requires FindNext(grid, Some(pos), direction).1.Some?
    requires Some(e) != Opposite(direction)
    requires Accepts(grid, Move(pos, e))
    ensures var d := FindNext(grid, Some(pos), direction).1.value;
      d == e || (Some(e) != direction && (Some(d) == direction || Rank(d) < Rank(e)))
  {
    var ds := Choices(direction);
    ChoicesOrder(direction);
    var r := FirstAccepted(grid, pos, ds);
    var d := r.1.value;
    var k := FirstAcceptedIsFirst(grid, pos, ds);
    var j :| 0 <= j < |ds| && ds[j] == e;
    if k < j {
      if Some(d) != direction {
        assert Rank(ds[k]) < Rank(ds[j]);
      }
    }
  }

  /**
   * Nothing is found exactly when the current position is missing or no
   * direction other than back is accepted.
   */
  lemma FindNextNoneIff(grid: Matrix, position: Option<Pos>, direction: Option<Direction>)
    ensures FindNext(grid, position, direction).0.None? <==>
      (position.None? || forall e :: Some(e) != Opposite(direction) ==> !Accepts(grid, Move(position.value, e)))
  {
    if position.Some? && FindNext(grid, position, direction).0.None? {
      var ds := Choices(direction);
      ChoicesOrder(direction);
      var k := FirstAcceptedIsFirst(grid, position.value, ds);
      forall e | Some(e) != Opposite(direction)
        ensures !Accepts(grid, Move(position.value, e))
      {
        var j :| 0 <= j < |ds| && ds[j] == e;
      }
    }
  }

  /**
   * Candidate `e` is tried before candidate `d` when the walker heads in
   * `direction`: neither is the way back, and `e` is straight on or both are
   * turns with `e` earlier in LEFT, UP, RIGHT, DOWN.
   */
  predicate TriedBefore(direction: Option<Direction>, e: Direction, d: Direction) {
    e != d && Some(e) != Opposite(direction) && Some(d) != Opposite(direction) &&
    (Some(e) == direction || (Some(d) != direction && Rank(e) < Rank(d)))
  }

  /**
   * The choice of `find_next_position`, characterised: it returns direction
   * `d` and the neighbour that way exactly when `d` is not the way back, its
   * neighbour is accepted, and every candidate tried before `d` is refused.
   */
  lemma FindNextChoice(grid: Matrix, pos: Pos, direction: Option<Direction>, d: Direction)
    ensures FindNext(grid, Some(pos), direction) == (Some(Move(pos, d)), Some(d)) <==>
      Some(d) != Opposite(direction) && Accepts(grid, Move(pos, d)) &&
      forall e :: TriedBefore(direction, e, d) ==> !Accepts(grid, Move(pos, e))
  {
    var r := FindNext(grid, Some(pos), direction);
    FindNextSound(grid, Some(pos), direction);
    if r == (Some(Move(pos, d)), Some(d)) {
      FindNextNeverReverses(grid, Some(pos), direction);
      forall e | TriedBefore(direction, e, d) ensures !Accepts(grid, Move(pos, e)) {
        if Accepts(grid, Move(pos, e)) {
          FindNextPriority(grid, pos, direction, e);
        }
      }
    } else if Some(d) != Opposite(direction) && Accepts(grid, Move(pos, d)) {
      FindNextNoneIff(grid, Some(pos), direction);
      FindNextNeverReverses(grid, Some(pos), direction);
      FindNextPriority(grid, pos, direction, d);
      var found := r.1.value;
      assert found != d;
      assert TriedBefore(direction, found, d);
    }
  }
}
