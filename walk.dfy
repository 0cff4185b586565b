/**
 * The walk as a state machine over values: the walker state, the reset done
 * by `set_starting_position`, one `next_step`, and a run of steps. The class
 * in module PathFollowing is proved to follow exactly these functions.
 */
module Walk {
  import opened Wrappers
  import opened Grid
  import opened Moves
  import opened NextPosition

  /**
   * What a walk changes: the current position and direction, the letters log,
   * the characters log, and the cells whose letter has been logged.
   */
  datatype State = State(
    position: Option<Pos>,
    direction: Option<Direction>,
    letters: seq<char>,
    characters: seq<char>,
    usedPositions: seq<Pos>)

  /**
   * `set_starting_position`: logs, used cells and direction are cleared; the
   * position becomes the start cell when the grid has one and is otherwise
   * left as it was; if there is a position, the characters log is `['@']`.
   */
  function Reset(grid: Matrix, position: Option<Pos>): State {
    var start := StartOf(grid);
    var p := if start.Some? then start else position;
    State(p, None, [], if p.Some? then [Start] else [], [])
  }

  /**
   * `next_step`: without a position nothing changes. Otherwise position and
   * direction become what FindNext returns, and when a cell was found its
   * character is logged, its letter too if it is one and the cell is new.
   */
  function Step(grid: Matrix, s: State): State {
    if s.position.None? then s
    else
      var (p, d) := FindNext(grid, s.position, s.direction);
      FindNextSound(grid, s.position, s.direction);
      if p.None? then s.(position := p, direction := d)
      else
        var c := grid[p.value.0][p.value.1];
        var isNew := IsUpper(c) && p.value !in s.usedPositions;
        State(p, d,
          if isNew then s.letters + [c] else s.letters,
          s.characters + [c],
          if isNew then s.usedPositions + [p.value] else s.usedPositions)
  }

  /**
   * `run`'s loop, `while self.position: self.next_step()`, bounded by `fuel`
   * steps because the source has no guard against a map that cycles forever.
   */
  function RunFrom(grid: Matrix, s: State, fuel: nat): State
    decreases fuel
  {
    if s.position.None? || fuel == 0 then s else RunFrom(grid, Step(grid, s), fuel - 1)
  }

  /** `follow_path(text)`: build the grid, reset, and run (at most `fuel` steps). */
  function WalkText(text: string, fuel: nat): State {
    var grid := Split(text);
    RunFrom(grid, Reset(grid, None), fuel)
  }

  /**
   * The cells of `trail` that hold a letter, each once, in the order they were
   * first reached: what `usedPositions` records along a walk.
   */
  function FirstVisits(grid: Matrix, trail: seq<Pos>): seq<Pos> {
    if trail == [] then []
    else
      var seen := FirstVisits(grid, trail[..|trail| - 1]);
      var p := trail[|trail| - 1];
      if InGrid(grid, p) && IsUpper(grid[p.0][p.1]) && p !in seen then seen + [p] else seen
  }

  predicate NoDuplicates<T(==)>(s: seq<T>) {
    forall i, j :: 0 <= i < j < |s| ==> s[i] != s[j]
  }

  /** The letter cells of a trail are recorded without repetition. */
  lemma {:induction false} FirstVisitsDistinct(grid: Matrix, trail: seq<Pos>)
    ensures NoDuplicates(FirstVisits(grid, trail))
  {
    if trail != [] {
      var seen := FirstVisits(grid, trail[..|trail| - 1]);
      FirstVisitsDistinct(grid, trail[..|trail| - 1]);
      var p := trail[|trail| - 1];
      var f := FirstVisits(grid, trail);
      if InGrid(grid, p) && IsUpper(grid[p.0][p.1]) && p !in seen {
        assert f == seen + [p];
        forall i, j | 0 <= i < j < |f| ensures f[i] != f[j] {
          if j == |seen| {
            assert f[i] == seen[i];
          } else {
            assert f[i] == seen[i] && f[j] == seen[j];
          }
        }
      } else {
        assert f == seen;
      }
    }
  }

  /** A cell is recorded exactly when the trail reaches it and it holds a letter. */
  lemma {:induction false} FirstVisitsMembers(grid: Matrix, trail: seq<Pos>, p: Pos)
    ensures p in FirstVisits(grid, trail) <==> p in trail && InGrid(grid, p) && IsUpper(grid[p.0][p.1])
  {
    if trail != [] {
      var init := trail[..|trail| - 1];
      FirstVisitsMembers(grid, init, p);
      assert trail == init + [trail[|trail| - 1]];
    }
  }

  /**
   * Cells are recorded in first-visit order: what a prefix of the trail
   * records is a prefix of what the whole trail records.
   */
  lemma {:induction false} FirstVisitsPrefix(grid: Matrix, trail: seq<Pos>, k: nat)
    requires k <= |trail|
    ensures FirstVisits(grid, trail[..k]) <= FirstVisits(grid, trail)
    decreases |trail|
  {
    if k < |trail| {
      var init := trail[..|trail| - 1];
      FirstVisitsPrefix(grid, init, k);
      assert init[..k] == trail[..k];
    } else {
      assert trail[..k] == trail;
    }
  }

  /** One logged character per visited cell, each the grid's character there and a path character. */
  ghost predicate Logged(grid: Matrix, characters: seq<char>, trail: seq<Pos>) {
    |trail| == |characters| &&
    forall i :: 0 <= i < |trail| ==>
      InGrid(grid, trail[i]) && characters[i] == grid[trail[i].0][trail[i].1] && IsPathChar(characters[i])
  }

  /** Consecutive cells share a side, and no step returns to the cell two back. */
  ghost predicate Connected(trail: seq<Pos>) {
    (forall i :: 0 < i < |trail| ==> Adjacent(trail[i - 1], trail[i])) &&
    (forall i :: 1 < i < |trail| ==> trail[i] != trail[i - 2])
  }

  /**
   * The position is the last cell of the trail; the direction is the last
   * move made, and there is none only right after the start.
   */
  ghost predicate Heading(s: State, trail: seq<Pos>) {
    (s.position.Some? ==> |trail| > 0 && s.position.value == trail[|trail| - 1]) &&
    (s.position.Some? && s.direction.None? ==> |trail| == 1) &&
    (s.direction.Some? ==>
       s.position.Some? && |trail| >= 2 && trail[|trail| - 1] == Move(trail[|trail| - 2], s.direction.value))
  }

  /** The used cells are the trail's first visits to letters, and the letters log holds their letters. */
  ghost predicate LettersLogged(grid: Matrix, s: State, trail: seq<Pos>) {
    s.usedPositions == FirstVisits(grid, trail) &&
    |s.letters| == |s.usedPositions| &&
    (forall i :: 0 <= i < |s.usedPositions| ==>
       InGrid(grid, s.usedPositions[i]) && s.letters[i] == grid[s.usedPositions[i].0][s.usedPositions[i].1])
  }

  /** A trail records no more letter cells than it has cells. */
  lemma {:induction false} FirstVisitsLength(grid: Matrix, trail: seq<Pos>)
    ensures |FirstVisits(grid, trail)| <= |trail|
  {
    if trail != [] {
      FirstVisitsLength(grid, trail[..|trail| - 1]);
    }
  }

  /**
   * The walker state agrees with `trail`, the cells visited so far, start
   * first.
   */
  ghost predicate Consistent(grid: Matrix, s: State, trail: seq<Pos>) {
    Logged(grid, s.characters, trail) &&
    Connected(trail) &&
    (|trail| > 0 ==> StartOf(grid) == Some(trail[0])) &&
    Heading(s, trail) &&
    LettersLogged(grid, s, trail)
  }

  /**
   * What agreement with a trail means for the logs: every logged letter is
   * uppercase, every logged character is a path character and the first one
   * is the start, each letter cell is recorded once, there are no more
   * letters than characters, and a walker with a position has logged something.
   */
  lemma ConsistentFacts(grid: Matrix, s: State, trail: seq<Pos>)
    requires Consistent(grid, s, trail)
    ensures forall i :: 0 <= i < |s.letters| ==> IsUpper(s.letters[i])
    ensures forall i :: 0 <= i < |s.characters| ==> IsPathChar(s.characters[i])
    ensures s.characters != [] ==> s.characters[0] == Start
    ensures s.position.Some? ==> s.characters != []
    ensures NoDuplicates(s.usedPositions)
    ensures |s.letters| <= |s.characters|
  {
    FirstVisitsDistinct(grid, trail);
    FirstVisitsLength(grid, trail);
    forall i | 0 <= i < |s.letters| ensures IsUpper(s.letters[i]) {
      FirstVisitsMembers(grid, trail, s.usedPositions[i]);
    }
  }

  /** The trail right after a reset: the start cell, or nothing if there is none. */
  function StartTrail(grid: Matrix): seq<Pos> {
    if StartOf(grid).Some? then [StartOf(grid).value] else []
  }

  /** The trail after one more step. */
  function Advance(grid: Matrix, s: State, trail: seq<Pos>): seq<Pos> {
    var t := Step(grid, s);
    if s.position.Some? && t.position.Some? then trail + [t.position.value] else trail
  }

  /** The trail after a run. */
  function RunTrail(grid: Matrix, s: State, trail: seq<Pos>, fuel: nat): seq<Pos>
    decreases fuel
  {
    if s.position.None? || fuel == 0 then trail
    else RunTrail(grid, Step(grid, s), Advance(grid, s, trail), fuel - 1)
  }

  /**
   * One step from a position adopts what FindNext returns; when it found a
   * cell, exactly that cell's character is appended to the characters log,
   * and its letter to the letters log just when it is a letter on a cell not
   * yet used; when it found nothing, the logs are left alone.
   */
  lemma StepEffect(grid: Matrix, s: State)
    requires s.position.Some?
    ensures var t := Step(grid, s);
      (t.position, t.direction) == FindNext(grid, s.position, s.direction) &&
      (t.position.None? ==> t.characters == s.characters && t.letters == s.letters && t.usedPositions == s.usedPositions) &&
      (t.position.Some? ==>
         var p := t.position.value;
         InGrid(grid, p) &&
         t.characters == s.characters + [grid[p.0][p.1]] &&
         var isNew := IsUpper(grid[p.0][p.1]) && p !in s.usedPositions;
         t.letters == (if isNew then s.letters + [grid[p.0][p.1]] else s.letters) &&
         t.usedPositions == (if isNew then s.usedPositions + [p] else s.usedPositions))
  {
    var next := FindNext(grid, s.position, s.direction);
    FindNextSound(grid, s.position, s.direction);
  }

  /** A step only appends to the logs. */
  lemma StepLogsGrow(grid: Matrix, s: State)
    ensures s.characters <= Step(grid, s).characters
    ensures s.letters <= Step(grid, s).letters
  {
    if s.position.Some? {
      StepEffect(grid, s);
    }
  }

  /** A reset leaves a state that agrees with the start trail. */
  lemma ResetConsistent(grid: Matrix, position: Option<Pos>)
    requires position.Some? ==> StartOf(grid).Some?
    ensures Consistent(grid, Reset(grid, position), StartTrail(grid))
  {
  }

  /** One step keeps the state in agreement with the trail it extends. */
  lemma StepConsistent(grid: Matrix, s: State, trail: seq<Pos>)
    requires Consistent(grid, s, trail)
    ensures Consistent(grid, Step(grid, s), Advance(grid, s, trail))
  {
    var t := Step(grid, s);
    if s.position.None? {
      assert t == s && Advance(grid, s, trail) == trail;
    } else {
      StepEffect(grid, s);
      FindNextSound(grid, s.position, s.direction);
      if t.position.None? {
        assert Advance(grid, s, trail) == trail;
      } else {
        var d := t.direction.value;
        if s.direction.Some? {
          FindNextNeverReverses(grid, s.position, s.direction);
        }
        assert Advance(grid, s, trail) == trail + [t.position.value];
        ExtendConsistent(grid, s, t, trail, d);
      }
    }
  }

  /** Moving to an accepted neighbour and logging it extends the agreement by that cell. */
  lemma ExtendConsistent(grid: Matrix, s: State, t: State, trail: seq<Pos>, d: Direction)
    requires Consistent(grid, s, trail)
    requires s.position.Some? && t.position == Some(Move(s.position.value, d)) && t.direction == Some(d)
    requires Some(d) != Opposite(s.direction)
    requires InGrid(grid, t.position.value) && IsPathChar(grid[t.position.value.0][t.position.value.1])
    requires var p := t.position.value;
      var isNew := IsUpper(grid[p.0][p.1]) && p !in s.usedPositions;
      t.characters == s.characters + [grid[p.0][p.1]] &&
      t.letters == (if isNew then s.letters + [grid[p.0][p.1]] else s.letters) &&
      t.usedPositions == (if isNew then s.usedPositions + [p] else s.usedPositions)
    ensures Consistent(grid, t, trail + [t.position.value])
  {
    var p := t.position.value;
    var trail' := trail + [p];
    var n := |trail|;
    LoggedExtend(grid, s.characters, t.characters, trail, p);
    if s.direction.Some? {
      MoveBack(trail[n - 2], s.direction.value, d);
    }
    ConnectedExtend(trail, p);
    LettersExtend(grid, s, t, trail, p);
    HeadingExtend(s, t, trail, d);
    assert trail'[0] == trail[0];
  }

  lemma HeadingExtend(s: State, t: State, trail: seq<Pos>, d: Direction)
    requires Heading(s, trail) && s.position.Some?
    requires t.position == Some(Move(s.position.value, d)) && t.direction == Some(d)
    ensures Heading(t, trail + [t.position.value])
  {
    var trail' := trail + [t.position.value];
    var n := |trail|;
    assert trail'[n] == t.position.value && trail'[n - 1] == trail[n - 1];
  }

  lemma LoggedExtend(grid: Matrix, characters: seq<char>, characters': seq<char>, trail: seq<Pos>, p: Pos)
    requires Logged(grid, characters, trail) && InGrid(grid, p) && IsPathChar(grid[p.0][p.1])
    requires characters' == characters + [grid[p.0][p.1]]
    ensures Logged(grid, characters', trail + [p])
  {
    var n := |trail|;
    assert forall i :: 0 <= i < n ==> (trail + [p])[i] == trail[i] && characters'[i] == characters[i];
  }

  lemma ConnectedExtend(trail: seq<Pos>, p: Pos)
    requires Connected(trail) && |trail| > 0
    requires Adjacent(trail[|trail| - 1], p)
    requires |trail| >= 2 ==> p != trail[|trail| - 2]
    ensures Connected(trail + [p])
  {
    var trail' := trail + [p];
    assert forall i :: 0 <= i < |trail| ==> trail'[i] == trail[i];
  }

  lemma LettersExtend(grid: Matrix, s: State, t: State, trail: seq<Pos>, p: Pos)
    requires LettersLogged(grid, s, trail) && InGrid(grid, p)
    requires var isNew := IsUpper(grid[p.0][p.1]) && p !in s.usedPositions;
      t.letters == (if isNew then s.letters + [grid[p.0][p.1]] else s.letters) &&
      t.usedPositions == (if isNew then s.usedPositions + [p] else s.usedPositions)
    ensures LettersLogged(grid, t, trail + [p])
  {
    assert (trail + [p])[..|trail|] == trail;
    assert t.usedPositions == FirstVisits(grid, trail + [p]);
  }

  /** A run keeps the state in agreement with the trail it walks. */
  lemma {:induction false} RunConsistent(grid: Matrix, s: State, trail: seq<Pos>, fuel: nat)
    requires Consistent(grid, s, trail)
    ensures Consistent(grid, RunFrom(grid, s, fuel), RunTrail(grid, s, trail, fuel))
    decreases fuel
  {
    if s.position.None? || fuel == 0 {
      assert RunFrom(grid, s, fuel) == s;
      assert RunTrail(grid, s, trail, fuel) == trail;
    } else {
      var s', trail', fuel' := Step(grid, s), Advance(grid, s, trail), fuel - 1;
      StepConsistent(grid, s, trail);
      var r, t := RunFrom(grid, s', fuel'), RunTrail(grid, s', trail', fuel');
      assert RunFrom(grid, s, fuel) == r;
      assert RunTrail(grid, s, trail, fuel) == t;
      RunConsistent(grid, s', trail', fuel');
    }
  }

  /**
   * Once a run has stopped, more fuel changes nothing: the result does not
   * depend on the bound as long as it is large enough.
   */
  lemma {:induction false} RunFuelEnough(grid: Matrix, s: State, n: nat, m: nat)
    requires n <= m
    requires RunFrom(grid, s, n).position.None?
    ensures RunFrom(grid, s, m) == RunFrom(grid, s, n)
    decreases n
  {
    if s.position.Some? {
      var s' := Step(grid, s);
      var n', m' := n - 1, m - 1;
      var a, b := RunFrom(grid, s', n'), RunFrom(grid, s', m');
      assert RunFrom(grid, s, n) == a;
      assert RunFrom(grid, s, m) == b;
      RunFuelEnough(grid, s', n', m');
      assert a == b;
    } else {
      assert RunFrom(grid, s, n) == s == RunFrom(grid, s, m);
    }
  }

  lemma PrefixTransitive<T>(a: seq<T>, b: seq<T>, c: seq<T>)
    requires a <= b && b <= c
    ensures a <= c
  {
    assert c[..|a|] == c[..|b|][..|a|];
  }

  /**
   * The logs only grow: a run appends to the characters log and to the
   * letters log what it already held.
   */
  lemma {:induction false} RunLogsGrow(grid: Matrix, s: State, fuel: nat)
    ensures s.characters <= RunFrom(grid, s, fuel).characters
    ensures s.letters <= RunFrom(grid, s, fuel).letters
    decreases fuel
  {
    if s.position.None? || fuel == 0 {
      assert RunFrom(grid, s, fuel) == s;
    } else {
      var s', fuel' := Step(grid, s), fuel - 1;
      var r := RunFrom(grid, s', fuel');
      assert RunFrom(grid, s, fuel) == r;
      RunLogsGrow(grid, s', fuel');
      StepLogsGrow(grid, s);
      PrefixTransitive(s.characters, s'.characters, r.characters);
      PrefixTransitive(s.letters, s'.letters, r.letters);
    }
  }

  /**
   * `follow_path(text)` for any text: the result agrees with the trail the
   * walk takes from the start, and the characters log is empty exactly when
   * the map has no start.
   */
  lemma WalkAgrees(text: string, fuel: nat)
    ensures var grid := Split(text);
      Consistent(grid, WalkText(text, fuel), RunTrail(grid, Reset(grid, None), StartTrail(grid), fuel))
    ensures WalkText(text, fuel).characters == [] <==> StartOf(Split(text)).None?
  {
    var grid := Split(text);
    var s := Reset(grid, None);
    ResetConsistent(grid, None);
    RunConsistent(grid, s, StartTrail(grid), fuel);
    RunLogsGrow(grid, s, fuel);
    if StartOf(grid).None? {
      assert RunFrom(grid, s, fuel) == s;
    }
  }
}
