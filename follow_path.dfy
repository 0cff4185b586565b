/**
 * The `FollowPath` object: a map, a walker position and direction, and the
 * logs a walk fills in. Its methods change these fields in place and are
 * proved to follow the state machine of module Walk step for step; a ghost
 * trail of the visited cells carries the invariant.
 */
module PathFollowing {
  import opened Wrappers
  import opened Grid
  import opened Moves
  import opened NextPosition
  import opened Walk

  class FollowPath {
    const text: string
    const matrix: Matrix
    var direction: Option<Direction>
    var position: Option<Pos>
    /** Whether a walk has been started: the logs exist only from then on. */
    var started: bool
    var letterLog: seq<char>
    var characterLog: seq<char>
    var usedPositions: seq<Pos>
    /** The cells visited since the walk started, start first. */
    ghost var trail: seq<Pos>

    /** The fields a walk changes, as a value of the state machine. */
    function Snapshot(): Walk.State
      reads this
    {
      Walk.State(position, direction, letterLog, characterLog, usedPositions)
    }

    ghost predicate Valid()
      reads this
    {
      matrix == Split(text) &&
      Consistent(matrix, Snapshot(), trail) &&
      (!started ==> position.None? && letterLog == [] && characterLog == [] && usedPositions == [])
    }

    /** The map is split into its lines; there is no position, direction or walk yet. */
    constructor(text: string)
      ensures this.text == text && matrix == Split(text)
      ensures position.None? && direction.None? && !started
      ensures Valid()
    {
      this.text := text;
      matrix := Split(text);
      direction := None;
      position := None;
      started := false;
      letterLog := [];
      characterLog := [];
      usedPositions := [];
      trail := [];
    }

    /**
     * The `letters` property: nothing before a walk has started; afterwards
     * the letters collected, all of them uppercase.
     */
    function Letters(): (r: Option<string>)
      reads this
      ensures r.Some? <==> started
      ensures Valid() && r.Some? ==> forall i :: 0 <= i < |r.value| ==> IsUpper(r.value[i])
    {
      assert Valid() ==> forall i :: 0 <= i < |letterLog| ==> IsUpper(letterLog[i]) by {
        if Valid() {
          ConsistentFacts(matrix, Snapshot(), trail);
        }
      }
      if started then Some(letterLog) else None
    }

    /**
     * The `characters` property: nothing before a walk has started (the
     * source tests for the letters log here too); afterwards the characters
     * passed over, all path characters, the start first.
     */
    function Characters(): (r: Option<string>)
      reads this
      ensures r.Some? <==> started
      ensures Valid() && r.Some? ==>
        (forall i :: 0 <= i < |r.value| ==> IsPathChar(r.value[i])) &&
        (r.value != [] ==> r.value[0] == Start)
    {
      assert Valid() ==>
        (forall i :: 0 <= i < |characterLog| ==> IsPathChar(characterLog[i])) &&
        (characterLog != [] ==> characterLog[0] == Start)
      by {
        if Valid() {
          ConsistentFacts(matrix, Snapshot(), trail);
        }
      }
      if started then Some(characterLog) else None
    }

    /**
     * The row scan of `set_starting_position`: rows are visited top to
     * bottom and each row holding `@` overrides the position found so far
     * with its first `@`; the result is the map's start, or `position` if
     * there is none.
     */
    method ScanStart() returns (found: Option<Pos>)
      ensures found == if StartOf(matrix).Some? then StartOf(matrix) else position
    {
      found := position;
      for row := 0 to |matrix|
        invariant found == if StartOf(matrix[..row]).Some? then StartOf(matrix[..row]) else position
      {
        StartOfLastRow(matrix, row);
        var column := IndexOf(matrix[row], Start);
        if column.Some? {
          found := Some((row, column.value));
        }
      }
      assert matrix[..|matrix|] == matrix;
    }

    /**
     * `set_starting_position`: clears the logs and the direction, takes the
     * position from the row scan, and logs `@` when there is a position.
     * Without a start the previous position is kept. The trail restarts
     * from the start cell.
     */
    method StartWalk()
      requires Valid()
      modifies this
      ensures Valid() && started
      ensures Snapshot() == Reset(matrix, old(position))
      ensures trail == StartTrail(matrix)
    {
      assert position.Some? ==> |trail| > 0;
      ResetConsistent(matrix, position);
      ResetFields();
      trail := StartTrail(matrix);
    }

    /** The field updates of `set_starting_position`, apart from the trail. */
    method ResetFields()
      modifies this
      ensures Snapshot() == Reset(matrix, old(position)) && started
      ensures trail == old(trail)
    {
      var found := ScanStart();
      var characters := if found.Some? then [Start] else [];
      position, direction, letterLog, characterLog, usedPositions := found, None, [], characters, [];
      started := true;
    }

    /**
     * `find_next_position`: the candidates are the current direction and
     * then the other directions but the opposite one, in canonical order;
     * the first whose cell holds a path character is returned with its
     * direction.
     */
    method FindNextPosition() returns (p: Option<Pos>, d: Option<Direction>)
      ensures (p, d) == FindNext(matrix, position, direction)
    {
      if position.None? {
        return None, None;
      }
      var choices := if direction.Some? then [direction.value] else [];
      var opposite := Opposite(direction);
      choices := choices + OtherDirections(Directions, direction, opposite);
      assert choices == Choices(direction);
      for i := 0 to |choices|
        invariant FirstAccepted(matrix, position.value, choices) == FirstAccepted(matrix, position.value, choices[i..])
      {
        assert choices[i..][1..] == choices[i + 1..];
        var candidate := RelativePosition(position, Some(choices[i]));
        var c := CharAt(matrix, candidate.value);
        if c.Some? && IsPathChar(c.value) {
          return candidate, Some(choices[i]);
        }
      }
      return None, None;
    }

    /**
     * `next_step`: without a position nothing happens. Otherwise position
     * and direction take the next candidate; when there is one, its
     * character is logged, and its letter too the first time its cell is.
     * The visited cell is added to the trail.
     */
    method NextStep()
      requires Valid()
      modifies this
      ensures Valid() && started == old(started)
      ensures Snapshot() == Step(matrix, old(Snapshot()))
      ensures trail == Advance(matrix, old(Snapshot()), old(trail))
    {
      ghost var s := Snapshot();
      StepConsistent(matrix, s, trail);
      UpdateFields();
      trail := Advance(matrix, s, trail);
    }

    /** The field updates of `next_step`, apart from the trail. */
    method UpdateFields()
      modifies this
      ensures Snapshot() == Step(matrix, old(Snapshot()))
      ensures started == old(started) && trail == old(trail)
    {
      if position.None? {
        return;
      }
      ghost var s := Snapshot();
      StepEffect(matrix, s);
      var p, d := FindNextPosition();
      var letters, characters, used := letterLog, characterLog, usedPositions;
      if p.Some? {
        var c := matrix[p.value.0][p.value.1];
        characters := characters + [c];
        if IsUpper(c) && p.value !in used {
          letters := letters + [c];
          used := used + [p.value];
        }
      }
      position, direction, letterLog, characterLog, usedPositions := p, d, letters, characters, used;
    }

    /**
     * `run`: start the walk, then step while there is a position, for at
     * most `fuel` steps.
     */
    method Run(fuel: nat)
      requires Valid()
      modifies this
      ensures Valid() && started
      ensures Snapshot() == RunFrom(matrix, Reset(matrix, old(position)), fuel)
    {
      StartWalk();
      var n := fuel;
      while position.Some? && n > 0
        invariant Valid() && started
        invariant RunFrom(matrix, Snapshot(), n) == RunFrom(matrix, Reset(matrix, old(position)), fuel)
        decreases n
      {
        NextStep();
        n := n - 1;
      }
    }
  }

  /** The start among the first `row + 1` rows: in row `row` if it holds one, else among the earlier rows. */
  lemma StartOfLastRow(grid: Matrix, row: nat)
    requires row < |grid|
    ensures StartOf(grid[..row + 1]) ==
      if Start in grid[row] then Some((row, IndexOf(grid[row], Start).value)) else StartOf(grid[..row])
  {
    assert grid[..row + 1][..row] == grid[..row];
  }

  /**
   * `follow_path`: a fresh object on `text`, run; its letters and characters
   * are those of the walk from the map's start.
   */
  method FollowPathText(text: string, fuel: nat) returns (letters: Option<string>, characters: Option<string>)
    ensures letters == Some(WalkText(text, fuel).letters)
    ensures characters == Some(WalkText(text, fuel).characters)
  {
    var path := new FollowPath(text);
    path.Run(fuel);
    letters := path.Letters();
    characters := path.Characters();
  }
}
