/**
 * The examples of the repository's tests replayed on the model: the three
 * maps walked step by step to their end, and the unit examples of the
 * individual operations.
 */
module Scenarios {
  import opened Wrappers
  import opened Grid
  import opened Moves
  import opened NextPosition
  import opened Walk
  import PathFollowing

  /**
   * The choice at `pos` is `d` when `d` is not the way back, its neighbour is
   * accepted, and every candidate tried before it is among `refused`, whose
   * neighbours are all refused.
   */
  lemma ChooseTo(grid: Matrix, pos: Pos, direction: Option<Direction>, d: Direction, refused: seq<Direction>)
    requires Some(d) != Opposite(direction) && Accepts(grid, Move(pos, d))
    requires forall e :: TriedBefore(direction, e, d) ==> e in refused
    requires forall e :: e in refused ==> !Accepts(grid, Move(pos, e))
    ensures FindNext(grid, Some(pos), direction) == (Some(Move(pos, d)), Some(d))
  {
    FindNextChoice(grid, pos, direction, d);
  }

  /**
   * One step of the walk from `s`, which moves in direction `d` (chosen as in
   * ChooseTo) and ends in the state `t`.
   */
  lemma StepTo(grid: Matrix, s: State, d: Direction, refused: seq<Direction>, t: State)
    requires s.position.Some?
    requires Some(d) != Opposite(s.direction) && Accepts(grid, Move(s.position.value, d))
    requires forall e :: TriedBefore(s.direction, e, d) ==> e in refused
    requires forall e :: e in refused ==> !Accepts(grid, Move(s.position.value, e))
    requires var p := Move(s.position.value, d);
      var c := grid[p.0][p.1];
      var isNew := IsUpper(c) && p !in s.usedPositions;
      t == State(Some(p), Some(d),
        if isNew then s.letters + [c] else s.letters,
        s.characters + [c],
        if isNew then s.usedPositions + [p] else s.usedPositions)
    ensures Step(grid, s) == t
  {
    FindNextChoice(grid, s.position.value, s.direction, d);
    StepEffect(grid, s);
  }

  /** One step from `s` where every candidate is refused: the walk ends there. */
  lemma StepStuck(grid: Matrix, s: State)
    requires s.position.Some?
    requires forall e :: Some(e) != Opposite(s.direction) ==> !Accepts(grid, Move(s.position.value, e))
    ensures Step(grid, s) == s.(position := None, direction := None)
  {
    FindNextNoneIff(grid, s.position, s.direction);
    FindNextSound(grid, s.position, s.direction);
    StepEffect(grid, s);
  }

  /** Running with fuel left from a state with a position is a step and the rest of the run. */
  lemma RunStep(grid: Matrix, s: State, fuel: nat)
    requires s.position.Some? && fuel > 0
    ensures RunFrom(grid, s, fuel) == RunFrom(grid, Step(grid, s), fuel - 1)
  {
  }



  // ----------------------------------------------------------------------
  // Map1: the map of the tests, one string per line.

  const Map1Grid: Matrix := [
    "",
    "@---A---+",
    "        |",
    "x-B-+   C",
    "    |   |",
    "    +---+",
    ""
  ]

  /** The text of the map: its lines joined with line breaks. */
  const Map1: string := Join(Map1Grid)

  // The walker state before each step.
  const Map1S00 := State(Some((1, 0)), None, "", "@", [])
  const Map1S01 := State(Some((1, 1)), Some(Right), "", "@-", [])
  const Map1S02 := State(Some((1, 2)), Some(Right), "", "@--", [])
  const Map1S03 := State(Some((1, 3)), Some(Right), "", "@---", [])
  const Map1S04 := State(Some((1, 4)), Some(Right), "A", "@---A", [(1, 4)])
  const Map1S05 := State(Some((1, 5)), Some(Right), "A", "@---A-", [(1, 4)])
  const Map1S06 := State(Some((1, 6)), Some(Right), "A", "@---A--", [(1, 4)])
  const Map1S07 := State(Some((1, 7)), Some(Right), "A", "@---A---", [(1, 4)])
  const Map1S08 := State(Some((1, 8)), Some(Right), "A", "@---A---+", [(1, 4)])
  const Map1S09 := State(Some((2, 8)), Some(Down), "A", "@---A---+|", [(1, 4)])
  const Map1S10 := State(Some((3, 8)), Some(Down), "AC", "@---A---+|C", [(1, 4), (3, 8)])
  const Map1S11 := State(Some((4, 8)), Some(Down), "AC", "@---A---+|C|", [(1, 4), (3, 8)])
  const Map1S12 := State(Some((5, 8)), Some(Down), "AC", "@---A---+|C|+", [(1, 4), (3, 8)])
  const Map1S13 := State(Some((5, 7)), Some(Left), "AC", "@---A---+|C|+-", [(1, 4), (3, 8)])
  const Map1S14 := State(Some((5, 6)), Some(Left), "AC", "@---A---+|C|+--", [(1, 4), (3, 8)])
  const Map1S15 := State(Some((5, 5)), Some(Left), "AC", "@---A---+|C|+---", [(1, 4), (3, 8)])
  const Map1S16 := State(Some((5, 4)), Some(Left), "AC", "@---A---+|C|+---+", [(1, 4), (3, 8)])
  const Map1S17 := State(Some((4, 4)), Some(Up), "AC", "@---A---+|C|+---+|", [(1, 4), (3, 8)])
  const Map1S18 := State(Some((3, 4)), Some(Up), "AC", "@---A---+|C|+---+|+", [(1, 4), (3, 8)])
  const Map1S19 := State(Some((3, 3)), Some(Left), "AC", "@---A---+|C|+---+|+-", [(1, 4), (3, 8)])
  const Map1S20 := State(Some((3, 2)), Some(Left), "ACB", "@---A---+|C|+---+|+-B", [(1, 4), (3, 8), (3, 2)])
  const Map1S21 := State(Some((3, 1)), Some(Left), "ACB", "@---A---+|C|+---+|+-B-", [(1, 4), (3, 8), (3, 2)])
  const Map1S22 := State(Some((3, 0)), Some(Left), "ACB", "@---A---+|C|+---+|+-B-x", [(1, 4), (3, 8), (3, 2)])
  const Map1S23 := State(None, None, "ACB", "@---A---+|C|+---+|+-B-x", [(1, 4), (3, 8), (3, 2)])

  /** The text splits back into the lines of the map. */
  lemma Map1Split()
    ensures Split(Map1) == Map1Grid
  {
    SplitJoin(Map1Grid);
  }

  /** The walk starts on the `@` of line 1, column 0. */
  lemma Map1Start()
    ensures Reset(Map1Grid, None) == Map1S00
  {
    assert Start !in Map1Grid[6];
    assert Start !in Map1Grid[5];
    assert Start !in Map1Grid[4];
    assert Start !in Map1Grid[3];
    assert Start !in Map1Grid[2];
    assert Map1Grid[1][0] == Start;
  }

  lemma Map1Step00()
    ensures Step(Map1Grid, Map1S00) == Map1S01
  {
    StepTo(Map1Grid, Map1S00, Right, [Left, Up], Map1S01);
  }

  lemma Map1Step01()
    ensures Step(Map1Grid, Map1S01) == Map1S02
  {
    StepTo(Map1Grid, Map1S01, Right, [], Map1S02);
  }

  lemma Map1Step02()
    ensures Step(Map1Grid, Map1S02) == Map1S03
  {
    StepTo(Map1Grid, Map1S02, Right, [], Map1S03);
  }

  lemma Map1Step03()
    ensures Step(Map1Grid, Map1S03) == Map1S04
  {
    StepTo(Map1Grid, Map1S03, Right, [], Map1S04);
  }

  lemma Map1Step04()
    ensures Step(Map1Grid, Map1S04) == Map1S05
  {
    StepTo(Map1Grid, Map1S04, Right, [], Map1S05);
  }

  lemma Map1Step05()
    ensures Step(Map1Grid, Map1S05) == Map1S06
  {
    StepTo(Map1Grid, Map1S05, Right, [], Map1S06);
  }

  lemma Map1Step06()
    ensures Step(Map1Grid, Map1S06) == Map1S07
  {
    StepTo(Map1Grid, Map1S06, Right, [], Map1S07);
  }

  lemma Map1Step07()
    ensures Step(Map1Grid, Map1S07) == Map1S08
  {
    StepTo(Map1Grid, Map1S07, Right, [], Map1S08);
  }

  lemma Map1Step08()
    ensures Step(Map1Grid, Map1S08) == Map1S09
  {
    StepTo(Map1Grid, Map1S08, Down, [Right, Up], Map1S09);
  }

  lemma Map1Step09()
    ensures Step(Map1Grid, Map1S09) == Map1S10
  {
    StepTo(Map1Grid, Map1S09, Down, [], Map1S10);
  }

  lemma Map1Step10()
    ensures Step(Map1Grid, Map1S10) == Map1S11
  {
    StepTo(Map1Grid, Map1S10, Down, [], Map1S11);
  }

  lemma Map1Step11()
    ensures Step(Map1Grid, Map1S11) == Map1S12
  {
    StepTo(Map1Grid, Map1S11, Down, [], Map1S12);
  }

  lemma Map1Step12()
    ensures Step(Map1Grid, Map1S12) == Map1S13
  {
    StepTo(Map1Grid, Map1S12, Left, [Down], Map1S13);
  }

  lemma Map1Step13()
    ensures Step(Map1Grid, Map1S13) == Map1S14
  {
    StepTo(Map1Grid, Map1S13, Left, [], Map1S14);
  }

  lemma Map1Step14()
    ensures Step(Map1Grid, Map1S14) == Map1S15
  {
    StepTo(Map1Grid, Map1S14, Left, [], Map1S15);
  }

  lemma Map1Step15()
    ensures Step(Map1Grid, Map1S15) == Map1S16
  {
    StepTo(Map1Grid, Map1S15, Left, [], Map1S16);
  }

  lemma Map1Step16()
    ensures Step(Map1Grid, Map1S16) == Map1S17
  {
    StepTo(Map1Grid, Map1S16, Up, [Left], Map1S17);
  }

  lemma Map1Step17()
    ensures Step(Map1Grid, Map1S17) == Map1S18
  {
    StepTo(Map1Grid, Map1S17, Up, [], Map1S18);
  }

  lemma Map1Step18()
    ensures Step(Map1Grid, Map1S18) == Map1S19
  {
    StepTo(Map1Grid, Map1S18, Left, [Up], Map1S19);
  }

  lemma Map1Step19()
    ensures Step(Map1Grid, Map1S19) == Map1S20
  {
    StepTo(Map1Grid, Map1S19, Left, [], Map1S20);
  }

  lemma Map1Step20()
    ensures Step(Map1Grid, Map1S20) == Map1S21
  {
    StepTo(Map1Grid, Map1S20, Left, [], Map1S21);
  }

  lemma Map1Step21()
    ensures Step(Map1Grid, Map1S21) == Map1S22
  {
    StepTo(Map1Grid, Map1S21, Left, [], Map1S22);
  }

  lemma Map1Step22()
    ensures Step(Map1Grid, Map1S22) == Map1S23
  {
    forall e | Some(e) != Opposite(Map1S22.direction) ensures !Accepts(Map1Grid, Move(Map1S22.position.value, e)) {
      match e {
        case Left =>
        case Up =>
        case Right =>
        case Down =>
      }
    }
    StepStuck(Map1Grid, Map1S22);
  }

  lemma Map1RunFrom12()
    ensures RunFrom(Map1Grid, Map1S12, 11) == Map1S23
  {
    Map1Step12();
    Map1Step13();
    Map1Step14();
    Map1Step15();
    Map1Step16();
    Map1Step17();
    Map1Step18();
    Map1Step19();
    Map1Step20();
    Map1Step21();
    Map1Step22();
    RunStep(Map1Grid, Map1S22, 1);
    RunStep(Map1Grid, Map1S21, 2);
    RunStep(Map1Grid, Map1S20, 3);
    RunStep(Map1Grid, Map1S19, 4);
    RunStep(Map1Grid, Map1S18, 5);
    RunStep(Map1Grid, Map1S17, 6);
    RunStep(Map1Grid, Map1S16, 7);
    RunStep(Map1Grid, Map1S15, 8);
    RunStep(Map1Grid, Map1S14, 9);
    RunStep(Map1Grid, Map1S13, 10);
    RunStep(Map1Grid, Map1S12, 11);
  }

  lemma Map1RunFrom00()
    ensures RunFrom(Map1Grid, Map1S00, 23) == Map1S23
  {
    Map1RunFrom12();
    Map1Step00();
    Map1Step01();
    Map1Step02();
    Map1Step03();
    Map1Step04();
    Map1Step05();
    Map1Step06();
    Map1Step07();
    Map1Step08();
    Map1Step09();
    Map1Step10();
    Map1Step11();
    RunStep(Map1Grid, Map1S11, 12);
    RunStep(Map1Grid, Map1S10, 13);
    RunStep(Map1Grid, Map1S09, 14);
    RunStep(Map1Grid, Map1S08, 15);
    RunStep(Map1Grid, Map1S07, 16);
    RunStep(Map1Grid, Map1S06, 17);
    RunStep(Map1Grid, Map1S05, 18);
    RunStep(Map1Grid, Map1S04, 19);
    RunStep(Map1Grid, Map1S03, 20);
    RunStep(Map1Grid, Map1S02, 21);
    RunStep(Map1Grid, Map1S01, 22);
    RunStep(Map1Grid, Map1S00, 23);
  }

  /**
   * `follow_path` on Map1: the letters "ACB" and the characters
   * "@---A---+|C|+---+|+-B-x", given at least 23 steps of fuel.
   */
  lemma Map1Walk(fuel: nat)
    requires fuel >= 23
    ensures WalkText(Map1, fuel).letters == "ACB"
    ensures WalkText(Map1, fuel).characters == "@---A---+|C|+---+|+-B-x"
    ensures WalkText(Map1, fuel).position.None?
  {
    Map1Split();
    Map1Start();
    Map1RunFrom00();
    RunFuelEnough(Map1Grid, Map1S00, 23, fuel);
  }

  // ----------------------------------------------------------------------
  // Map2: the map of the tests, one string per line.

  const Map2Grid: Matrix := [
    "",
    "@",
    "|",
    "A",
    "|",
    "x",
    ""
  ]

  /** The text of the map: its lines joined with line breaks. */
  const Map2: string := Join(Map2Grid)

  // The walker state before each step.
  const Map2S00 := State(Some((1, 0)), None, "", "@", [])
  const Map2S01 := State(Some((2, 0)), Some(Down), "", "@|", [])
  const Map2S02 := State(Some((3, 0)), Some(Down), "A", "@|A", [(3, 0)])
  const Map2S03 := State(Some((4, 0)), Some(Down), "A", "@|A|", [(3, 0)])
  const Map2S04 := State(Some((5, 0)), Some(Down), "A", "@|A|x", [(3, 0)])
  const Map2S05 := State(None, None, "A", "@|A|x", [(3, 0)])

  /** The text splits back into the lines of the map. */
  lemma Map2Split()
    ensures Split(Map2) == Map2Grid
  {
    SplitJoin(Map2Grid);
  }

  /** The walk starts on the `@` of line 1, column 0. */
  lemma Map2Start()
    ensures Reset(Map2Grid, None) == Map2S00
  {
    assert Start !in Map2Grid[6];
    assert Start !in Map2Grid[5];
    assert Start !in Map2Grid[4];
    assert Start !in Map2Grid[3];
    assert Start !in Map2Grid[2];
    assert Map2Grid[1][0] == Start;
  }

  lemma Map2Step00()
    ensures Step(Map2Grid, Map2S00) == Map2S01
  {
    StepTo(Map2Grid, Map2S00, Down, [Left, Up, Right], Map2S01);
  }

  lemma Map2Step01()
    ensures Step(Map2Grid, Map2S01) == Map2S02
  {
    StepTo(Map2Grid, Map2S01, Down, [], Map2S02);
  }

  lemma Map2Step02()
    ensures Step(Map2Grid, Map2S02) == Map2S03
  {
    StepTo(Map2Grid, Map2S02, Down, [], Map2S03);
  }

  lemma Map2Step03()
    ensures Step(Map2Grid, Map2S03) == Map2S04
  {
    StepTo(Map2Grid, Map2S03, Down, [], Map2S04);
  }

  lemma Map2Step04()
    ensures Step(Map2Grid, Map2S04) == Map2S05
  {
    forall e | Some(e) != Opposite(Map2S04.direction) ensures !Accepts(Map2Grid, Move(Map2S04.position.value, e)) {
      match e {
        case Left =>
        case Up =>
        case Right =>
        case Down =>
      }
    }
    StepStuck(Map2Grid, Map2S04);
  }

  lemma Map2RunFrom00()
    ensures RunFrom(Map2Grid, Map2S00, 5) == Map2S05
  {
    Map2Step00();
    Map2Step01();
    Map2Step02();
    Map2Step03();
    Map2Step04();
    RunStep(Map2Grid, Map2S04, 1);
    RunStep(Map2Grid, Map2S03, 2);
    RunStep(Map2Grid, Map2S02, 3);
    RunStep(Map2Grid, Map2S01, 4);
    RunStep(Map2Grid, Map2S00, 5);
  }

  /**
   * `follow_path` on Map2: the letters "A" and the characters
   * "@|A|x", given at least 5 steps of fuel.
   */
  lemma Map2Walk(fuel: nat)
    requires fuel >= 5
    ensures WalkText(Map2, fuel).letters == "A"
    ensures WalkText(Map2, fuel).characters == "@|A|x"
    ensures WalkText(Map2, fuel).position.None?
  {
    Map2Split();
    Map2Start();
    Map2RunFrom00();
    RunFuelEnough(Map2Grid, Map2S00, 5, fuel);
  }

  // ----------------------------------------------------------------------
  // Map3: the map of the tests, one string per line.

  const Map3Grid: Matrix := [
    "",
    "  @---+",
    "      B",
    "K-----|--A",
    "|     |  |",
    "|  +--E  |",
    "|  |     |",
    "+--E--Ex C",
    "   |     |",
    "   +--F--+",
    ""
  ]

  /** The text of the map: its lines joined with line breaks. */
  const Map3: string := Join(Map3Grid)

  // The walker state before each step.
  const Map3S00 := State(Some((1, 2)), None, "", "@", [])
  const Map3S01 := State(Some((1, 3)), Some(Right), "", "@-", [])
  const Map3S02 := State(Some((1, 4)), Some(Right), "", "@--", [])
  const Map3S03 := State(Some((1, 5)), Some(Right), "", "@---", [])
  const Map3S04 := State(Some((1, 6)), Some(Right), "", "@---+", [])
  const Map3S05 := State(Some((2, 6)), Some(Down), "B", "@---+B", [(2, 6)])
  const Map3S06 := State(Some((3, 6)), Some(Down), "B", "@---+B|", [(2, 6)])
  const Map3S07 := State(Some((4, 6)), Some(Down), "B", "@---+B||", [(2, 6)])
  const Map3S08 := State(Some((5, 6)), Some(Down), "BE", "@---+B||E", [(2, 6), (5, 6)])
  const Map3S09 := State(Some((5, 5)), Some(Left), "BE", "@---+B||E-", [(2, 6), (5, 6)])
  const Map3S10 := State(Some((5, 4)), Some(Left), "BE", "@---+B||E--", [(2, 6), (5, 6)])
  const Map3S11 := State(Some((5, 3)), Some(Left), "BE", "@---+B||E--+", [(2, 6), (5, 6)])
  const Map3S12 := State(Some((6, 3)), Some(Down), "BE", "@---+B||E--+|", [(2, 6), (5, 6)])
  const Map3S13 := State(Some((7, 3)), Some(Down), "BEE", "@---+B||E--+|E", [(2, 6), (5, 6), (7, 3)])
  const Map3S14 := State(Some((8, 3)), Some(Down), "BEE", "@---+B||E--+|E|", [(2, 6), (5, 6), (7, 3)])
  const Map3S15 := State(Some((9, 3)), Some(Down), "BEE", "@---+B||E--+|E|+", [(2, 6), (5, 6), (7, 3)])
  const Map3S16 := State(Some((9, 4)), Some(Right), "BEE", "@---+B||E--+|E|+-", [(2, 6), (5, 6), (7, 3)])
  const Map3S17 := State(Some((9, 5)), Some(Right), "BEE", "@---+B||E--+|E|+--", [(2, 6), (5, 6), (7, 3)])
  const Map3S18 := State(Some((9, 6)), Some(Right), "BEEF", "@---+B||E--+|E|+--F", [(2, 6), (5, 6), (7, 3), (9, 6)])
  const Map3S19 := State(Some((9, 7)), Some(Right), "BEEF", "@---+B||E--+|E|+--F-", [(2, 6), (5, 6), (7, 3), (9, 6)])
  const Map3S20 := State(Some((9, 8)), Some(Right), "BEEF", "@---+B||E--+|E|+--F--", [(2, 6), (5, 6), (7, 3), (9, 6)])
  const Map3S21 := State(Some((9, 9)), Some(Right), "BEEF", "@---+B||E--+|E|+--F--+", [(2, 6), (5, 6), (7, 3), (9, 6)])
  const Map3S22 := State(Some((8, 9)), Some(Up), "BEEF", "@---+B||E--+|E|+--F--+|", [(2, 6), (5, 6), (7, 3), (9, 6)])
  const Map3S23 := State(Some((7, 9)), Some(Up), "BEEFC", "@---+B||E--+|E|+--F--+|C", [(2, 6), (5, 6), (7, 3), (9, 6), (7, 9)])
  const Map3S24 := State(Some((6, 9)), Some(Up), "BEEFC", "@---+B||E--+|E|+--F--+|C|", [(2, 6), (5, 6), (7, 3), (9, 6), (7, 9)])
  const Map3S25 := State(Some((5, 9)), Some(Up), "BEEFC", "@---+B||E--+|E|+--F--+|C||", [(2, 6), (5, 6), (7, 3), (9, 6), (7, 9)])
  const Map3S26 := State(Some((4, 9)), Some(Up), "BEEFC", "@---+B||E--+|E|+--F--+|C|||", [(2, 6), (5, 6), (7, 3), (9, 6), (7, 9)])
  const Map3S27 := State(Some((3, 9)), Some(Up), "BEEFCA", "@---+B||E--+|E|+--F--+|C|||A", [(2, 6), (5, 6), (7, 3), (9, 6), (7, 9), (3, 9)])
  const Map3S28 := State(Some((3, 8)), Some(Left), "BEEFCA", "@---+B||E--+|E|+--F--+|C|||A-", [(2, 6), (5, 6), (7, 3), (9, 6), (7, 9), (3, 9)])
  const Map3S29 := State(Some((3, 7)), Some(Left), "BEEFCA", "@---+B||E--+|E|+--F--+|C|||A--", [(2, 6), (5, 6), (7, 3), (9, 6), (7, 9), (3, 9)])
  const Map3S30 := State(Some((3, 6)), Some(Left), "BEEFCA", "@---+B||E--+|E|+--F--+|C|||A--|", [(2, 6), (5, 6), (7, 3), (9, 6), (7, 9), (3, 9)])
  const Map3S31 := State(Some((3, 5)), Some(Left), "BEEFCA", "@---+B||E--+|E|+--F--+|C|||A--|-", [(2, 6), (5, 6), (7, 3), (9, 6), (7, 9), (3, 9)])
  const Map3S32 := State(Some((3, 4)), Some(Left), "BEEFCA", "@---+B||E--+|E|+--F--+|C|||A--|--", [(2, 6), (5, 6), (7, 3), (9, 6), (7, 9), (3, 9)])
  const Map3S33 := State(Some((3, 3)), Some(Left), "BEEFCA", "@---+B||E--+|E|+--F--+|C|||A--|---", [(2, 6), (5, 6), (7, 3), (9, 6), (7, 9), (3, 9)])
  const Map3S34 := State(Some((3, 2)), Some(Left), "BEEFCA", "@---+B||E--+|E|+--F--+|C|||A--|----", [(2, 6), (5, 6), (7, 3), (9, 6), (7, 9), (3, 9)])
  const Map3S35 := State(Some((3, 1)), Some(Left), "BEEFCA", "@---+B||E--+|E|+--F--+|C|||A--|-----", [(2, 6), (5, 6), (7, 3), (9, 6), (7, 9), (3, 9)])
  const Map3S36 := State(Some((3, 0)), Some(Left), "BEEFCAK", "@---+B||E--+|E|+--F--+|C|||A--|-----K", [(2, 6), (5, 6), (7, 3), (9, 6), (7, 9), (3, 9), (3, 0)])
  const Map3S37 := State(Some((4, 0)), Some(Down), "BEEFCAK", "@---+B||E--+|E|+--F--+|C|||A--|-----K|", [(2, 6), (5, 6), (7, 3), (9, 6), (7, 9), (3, 9), (3, 0)])
  const Map3S38 := State(Some((5, 0)), Some(Down), "BEEFCAK", "@---+B||E--+|E|+--F--+|C|||A--|-----K||", [(2, 6), (5, 6), (7, 3), (9, 6), (7, 9), (3, 9), (3, 0)])
  const Map3S39 := State(Some((6, 0)), Some(Down), "BEEFCAK", "@---+B||E--+|E|+--F--+|C|||A--|-----K|||", [(2, 6), (5, 6), (7, 3), (9, 6), (7, 9), (3, 9), (3, 0)])
  const Map3S40 := State(Some((7, 0)), Some(Down), "BEEFCAK", "@---+B||E--+|E|+--F--+|C|||A--|-----K|||+", [(2, 6), (5, 6), (7, 3), (9, 6), (7, 9), (3, 9), (3, 0)])
  const Map3S41 := State(Some((7, 1)), Some(Right), "BEEFCAK", "@---+B||E--+|E|+--F--+|C|||A--|-----K|||+-", [(2, 6), (5, 6), (7, 3), (9, 6), (7, 9), (3, 9), (3, 0)])
  const Map3S42 := State(Some((7, 2)), Some(Right), "BEEFCAK", "@---+B||E--+|E|+--F--+|C|||A--|-----K|||+--", [(2, 6), (5, 6), (7, 3), (9, 6), (7, 9), (3, 9), (3, 0)])
  const Map3S43 := State(Some((7, 3)), Some(Right), "BEEFCAK", "@---+B||E--+|E|+--F--+|C|||A--|-----K|||+--E", [(2, 6), (5, 6), (7, 3), (9, 6), (7, 9), (3, 9), (3, 0)])
  const Map3S44 := State(Some((7, 4)), Some(Right), "BEEFCAK", "@---+B||E--+|E|+--F--+|C|||A--|-----K|||+--E-", [(2, 6), (5, 6), (7, 3), (9, 6), (7, 9), (3, 9), (3, 0)])
  const Map3S45 := State(Some((7, 5)), Some(Right), "BEEFCAK", "@---+B||E--+|E|+--F--+|C|||A--|-----K|||+--E--", [(2, 6), (5, 6), (7, 3), (9, 6), (7, 9), (3, 9), (3, 0)])
  const Map3S46 := State(Some((7, 6)), Some(Right), "BEEFCAKE", "@---+B||E--+|E|+--F--+|C|||A--|-----K|||+--E--E", [(2, 6), (5, 6), (7, 3), (9, 6), (7, 9), (3, 9), (3, 0), (7, 6)])
  const Map3S47 := State(Some((7, 7)), Some(Right), "BEEFCAKE", "@---+B||E--+|E|+--F--+|C|||A--|-----K|||+--E--Ex", [(2, 6), (5, 6), (7, 3), (9, 6), (7, 9), (3, 9), (3, 0), (7, 6)])
  const Map3S48 := State(None, None, "BEEFCAKE", "@---+B||E--+|E|+--F--+|C|||A--|-----K|||+--E--Ex", [(2, 6), (5, 6), (7, 3), (9, 6), (7, 9), (3, 9), (3, 0), (7, 6)])

  /** The text splits back into the lines of the map. */
  lemma Map3Split()
    ensures Split(Map3) == Map3Grid
  {
    SplitJoin(Map3Grid);
  }

  /** The walk starts on the `@` of line 1, column 2. */
  lemma Map3Start()
    ensures Reset(Map3Grid, None) == Map3S00
  {
    assert Start !in Map3Grid[10];
    assert Start !in Map3Grid[9];
    assert Start !in Map3Grid[8];
    assert Start !in Map3Grid[7];
    assert Start !in Map3Grid[6];
    assert Start !in Map3Grid[5];
    assert Start !in Map3Grid[4];
    assert Start !in Map3Grid[3];
    assert Start !in Map3Grid[2];
    assert Map3Grid[1][2] == Start;
  }

  lemma Map3Step00()
    ensures Step(Map3Grid, Map3S00) == Map3S01
  {
    StepTo(Map3Grid, Map3S00, Right, [Left, Up], Map3S01);
  }

  lemma Map3Step01()
    ensures Step(Map3Grid, Map3S01) == Map3S02
  {
    StepTo(Map3Grid, Map3S01, Right, [], Map3S02);
  }

  lemma Map3Step02()
    ensures Step(Map3Grid, Map3S02) == Map3S03
  {
    StepTo(Map3Grid, Map3S02, Right, [], Map3S03);
  }

  lemma Map3Step03()
    ensures Step(Map3Grid, Map3S03) == Map3S04
  {
    StepTo(Map3Grid, Map3S03, Right, [], Map3S04);
  }

  lemma Map3Step04()
    ensures Step(Map3Grid, Map3S04) == Map3S05
  {
    StepTo(Map3Grid, Map3S04, Down, [Right, Up], Map3S05);
  }

  lemma Map3Step05()
    ensures Step(Map3Grid, Map3S05) == Map3S06
  {
    StepTo(Map3Grid, Map3S05, Down, [], Map3S06);
  }

  lemma Map3Step06()
    ensures Step(Map3Grid, Map3S06) == Map3S07
  {
    StepTo(Map3Grid, Map3S06, Down, [], Map3S07);
  }

  lemma Map3Step07()
    ensures Step(Map3Grid, Map3S07) == Map3S08
  {
    StepTo(Map3Grid, Map3S07, Down, [], Map3S08);
  }

  lemma Map3Step08()
    ensures Step(Map3Grid, Map3S08) == Map3S09
  {
    StepTo(Map3Grid, Map3S08, Left, [Down], Map3S09);
  }

  lemma Map3Step09()
    ensures Step(Map3Grid, Map3S09) == Map3S10
  {
    StepTo(Map3Grid, Map3S09, Left, [], Map3S10);
  }

  lemma Map3Step10()
    ensures Step(Map3Grid, Map3S10) == Map3S11
  {
    StepTo(Map3Grid, Map3S10, Left, [], Map3S11);
  }

  lemma Map3Step11()
    ensures Step(Map3Grid, Map3S11) == Map3S12
  {
    StepTo(Map3Grid, Map3S11, Down, [Left, Up], Map3S12);
  }

  lemma Map3Step12()
    ensures Step(Map3Grid, Map3S12) == Map3S13
  {
    StepTo(Map3Grid, Map3S12, Down, [], Map3S13);
  }

  lemma Map3Step13()
    ensures Step(Map3Grid, Map3S13) == Map3S14
  {
    StepTo(Map3Grid, Map3S13, Down, [], Map3S14);
  }

  lemma Map3Step14()
    ensures Step(Map3Grid, Map3S14) == Map3S15
  {
    StepTo(Map3Grid, Map3S14, Down, [], Map3S15);
  }

  lemma Map3Step15()
    ensures Step(Map3Grid, Map3S15) == Map3S16
  {
    StepTo(Map3Grid, Map3S15, Right, [Down, Left], Map3S16);
  }

  lemma Map3Step16()
    ensures Step(Map3Grid, Map3S16) == Map3S17
  {
    StepTo(Map3Grid, Map3S16, Right, [], Map3S17);
  }

  lemma Map3Step17()
    ensures Step(Map3Grid, Map3S17) == Map3S18
  {
    StepTo(Map3Grid, Map3S17, Right, [], Map3S18);
  }

  lemma Map3Step18()
    ensures Step(Map3Grid, Map3S18) == Map3S19
  {
    StepTo(Map3Grid, Map3S18, Right, [], Map3S19);
  }

  lemma Map3Step19()
    ensures Step(Map3Grid, Map3S19) == Map3S20
  {
    StepTo(Map3Grid, Map3S19, Right, [], Map3S20);
  }

  lemma Map3Step20()
    ensures Step(Map3Grid, Map3S20) == Map3S21
  {
    StepTo(Map3Grid, Map3S20, Right, [], Map3S21);
  }

  lemma Map3Step21()
    ensures Step(Map3Grid, Map3S21) == Map3S22
  {
    StepTo(Map3Grid, Map3S21, Up, [Right], Map3S22);
  }

  lemma Map3Step22()
    ensures Step(Map3Grid, Map3S22) == Map3S23
  {
    StepTo(Map3Grid, Map3S22, Up, [], Map3S23);
  }

  lemma Map3Step23()
    ensures Step(Map3Grid, Map3S23) == Map3S24
  {
    StepTo(Map3Grid, Map3S23, Up, [], Map3S24);
  }

  lemma Map3Step24()
    ensures Step(Map3Grid, Map3S24) == Map3S25
  {
    StepTo(Map3Grid, Map3S24, Up, [], Map3S25);
  }

  lemma Map3Step25()
    ensures Step(Map3Grid, Map3S25) == Map3S26
  {
    StepTo(Map3Grid, Map3S25, Up, [], Map3S26);
  }

  lemma Map3Step26()
    ensures Step(Map3Grid, Map3S26) == Map3S27
  {
    StepTo(Map3Grid, Map3S26, Up, [], Map3S27);
  }

  lemma Map3Step27()
    ensures Step(Map3Grid, Map3S27) == Map3S28
  {
    StepTo(Map3Grid, Map3S27, Left, [Up], Map3S28);
  }

  lemma Map3Step28()
    ensures Step(Map3Grid, Map3S28) == Map3S29
  {
    StepTo(Map3Grid, Map3S28, Left, [], Map3S29);
  }

  lemma Map3Step29()
    ensures Step(Map3Grid, Map3S29) == Map3S30
  {
    StepTo(Map3Grid, Map3S29, Left, [], Map3S30);
  }

  lemma Map3Step30()
    ensures Step(Map3Grid, Map3S30) == Map3S31
  {
    StepTo(Map3Grid, Map3S30, Left, [], Map3S31);
  }

  lemma Map3Step31()
    ensures Step(Map3Grid, Map3S31) == Map3S32
  {
    StepTo(Map3Grid, Map3S31, Left, [], Map3S32);
  }

  lemma Map3Step32()
    ensures Step(Map3Grid, Map3S32) == Map3S33
  {
    StepTo(Map3Grid, Map3S32, Left, [], Map3S33);
  }

  lemma Map3Step33()
    ensures Step(Map3Grid, Map3S33) == Map3S34
  {
    StepTo(Map3Grid, Map3S33, Left, [], Map3S34);
  }

  lemma Map3Step34()
    ensures Step(Map3Grid, Map3S34) == Map3S35
  {
    StepTo(Map3Grid, Map3S34, Left, [], Map3S35);
  }

  lemma Map3Step35()
    ensures Step(Map3Grid, Map3S35) == Map3S36
  {
    StepTo(Map3Grid, Map3S35, Left, [], Map3S36);
  }

  lemma Map3Step36()
    ensures Step(Map3Grid, Map3S36) == Map3S37
  {
    StepTo(Map3Grid, Map3S36, Down, [Left, Up], Map3S37);
  }

  lemma Map3Step37()
    ensures Step(Map3Grid, Map3S37) == Map3S38
  {
    StepTo(Map3Grid, Map3S37, Down, [], Map3S38);
  }

  lemma Map3Step38()
    ensures Step(Map3Grid, Map3S38) == Map3S39
  {
    StepTo(Map3Grid, Map3S38, Down, [], Map3S39);
  }

  lemma Map3Step39()
    ensures Step(Map3Grid, Map3S39) == Map3S40
  {
    StepTo(Map3Grid, Map3S39, Down, [], Map3S40);
  }

  lemma Map3Step40()
    ensures Step(Map3Grid, Map3S40) == Map3S41
  {
    StepTo(Map3Grid, Map3S40, Right, [Down, Left], Map3S41);
  }

  lemma Map3Step41()
    ensures Step(Map3Grid, Map3S41) == Map3S42
  {
    StepTo(Map3Grid, Map3S41, Right, [], Map3S42);
  }

  lemma Map3Step42()
    ensures Step(Map3Grid, Map3S42) == Map3S43
  {
    StepTo(Map3Grid, Map3S42, Right, [], Map3S43);
  }

  lemma Map3Step43()
    ensures Step(Map3Grid, Map3S43) == Map3S44
  {
    StepTo(Map3Grid, Map3S43, Right, [], Map3S44);
  }

  lemma Map3Step44()
    ensures Step(Map3Grid, Map3S44) == Map3S45
  {
    StepTo(Map3Grid, Map3S44, Right, [], Map3S45);
  }

  lemma Map3Step45()
    ensures Step(Map3Grid, Map3S45) == Map3S46
  {
    StepTo(Map3Grid, Map3S45, Right, [], Map3S46);
  }

  lemma Map3Step46()
    ensures Step(Map3Grid, Map3S46) == Map3S47
  {
    StepTo(Map3Grid, Map3S46, Right, [], Map3S47);
  }

  lemma Map3Step47()
    ensures Step(Map3Grid, Map3S47) == Map3S48
  {
    forall e | Some(e) != Opposite(Map3S47.direction) ensures !Accepts(Map3Grid, Move(Map3S47.position.value, e)) {
      match e {
        case Left =>
        case Up =>
        case Right =>
        case Down =>
      }
    }
    StepStuck(Map3Grid, Map3S47);
  }

  lemma Map3RunFrom36()
    ensures RunFrom(Map3Grid, Map3S36, 12) == Map3S48
  {
    Map3Step36();
    Map3Step37();
    Map3Step38();
    Map3Step39();
    Map3Step40();
    Map3Step41();
    Map3Step42();
    Map3Step43();
    Map3Step44();
    Map3Step45();
    Map3Step46();
    Map3Step47();
    RunStep(Map3Grid, Map3S47, 1);
    RunStep(Map3Grid, Map3S46, 2);
    RunStep(Map3Grid, Map3S45, 3);
    RunStep(Map3Grid, Map3S44, 4);
    RunStep(Map3Grid, Map3S43, 5);
    RunStep(Map3Grid, Map3S42, 6);
    RunStep(Map3Grid, Map3S41, 7);
    RunStep(Map3Grid, Map3S40, 8);
    RunStep(Map3Grid, Map3S39, 9);
    RunStep(Map3Grid, Map3S38, 10);
    RunStep(Map3Grid, Map3S37, 11);
    RunStep(Map3Grid, Map3S36, 12);
  }

  lemma Map3RunFrom24()
    ensures RunFrom(Map3Grid, Map3S24, 24) == Map3S48
  {
    Map3RunFrom36();
    Map3Step24();
    Map3Step25();
    Map3Step26();
    Map3Step27();
    Map3Step28();
    Map3Step29();
    Map3Step30();
    Map3Step31();
    Map3Step32();
    Map3Step33();
    Map3Step34();
    Map3Step35();
    RunStep(Map3Grid, Map3S35, 13);
    RunStep(Map3Grid, Map3S34, 14);
    RunStep(Map3Grid, Map3S33, 15);
    RunStep(Map3Grid, Map3S32, 16);
    RunStep(Map3Grid, Map3S31, 17);
    RunStep(Map3Grid, Map3S30, 18);
    RunStep(Map3Grid, Map3S29, 19);
    RunStep(Map3Grid, Map3S28, 20);
    RunStep(Map3Grid, Map3S27, 21);
    RunStep(Map3Grid, Map3S26, 22);
    RunStep(Map3Grid, Map3S25, 23);
    RunStep(Map3Grid, Map3S24, 24);
  }

  lemma Map3RunFrom12()
    ensures RunFrom(Map3Grid, Map3S12, 36) == Map3S48
  {
    Map3RunFrom24();
    Map3Step12();
    Map3Step13();
    Map3Step14();
    Map3Step15();
    Map3Step16();
    Map3Step17();
    Map3Step18();
    Map3Step19();
    Map3Step20();
    Map3Step21();
    Map3Step22();
    Map3Step23();
    RunStep(Map3Grid, Map3S23, 25);
    RunStep(Map3Grid, Map3S22, 26);
    RunStep(Map3Grid, Map3S21, 27);
    RunStep(Map3Grid, Map3S20, 28);
    RunStep(Map3Grid, Map3S19, 29);
    RunStep(Map3Grid, Map3S18, 30);
    RunStep(Map3Grid, Map3S17, 31);
    RunStep(Map3Grid, Map3S16, 32);
    RunStep(Map3Grid, Map3S15, 33);
    RunStep(Map3Grid, Map3S14, 34);
    RunStep(Map3Grid, Map3S13, 35);
    RunStep(Map3Grid, Map3S12, 36);
  }

  lemma Map3RunFrom00()
    ensures RunFrom(Map3Grid, Map3S00, 48) == Map3S48
  {
    Map3RunFrom12();
    Map3Step00();
    Map3Step01();
    Map3Step02();
    Map3Step03();
    Map3Step04();
    Map3Step05();
    Map3Step06();
    Map3Step07();
    Map3Step08();
    Map3Step09();
    Map3Step10();
    Map3Step11();
    RunStep(Map3Grid, Map3S11, 37);
    RunStep(Map3Grid, Map3S10, 38);
    RunStep(Map3Grid, Map3S09, 39);
    RunStep(Map3Grid, Map3S08, 40);
    RunStep(Map3Grid, Map3S07, 41);
    RunStep(Map3Grid, Map3S06, 42);
    RunStep(Map3Grid, Map3S05, 43);
    RunStep(Map3Grid, Map3S04, 44);
    RunStep(Map3Grid, Map3S03, 45);
    RunStep(Map3Grid, Map3S02, 46);
    RunStep(Map3Grid, Map3S01, 47);
    RunStep(Map3Grid, Map3S00, 48);
  }

  /**
   * `follow_path` on Map3: the letters "BEEFCAKE" and the characters
   * "@---+B||E--+|E|+--F--+|C|||A--|-----K|||+--E--Ex", given at least 48 steps of fuel.
   */
  lemma Map3Walk(fuel: nat)
    requires fuel >= 48
    ensures WalkText(Map3, fuel).letters == "BEEFCAKE"
    ensures WalkText(Map3, fuel).characters == "@---+B||E--+|E|+--F--+|C|||A--|-----K|||+--E--Ex"
    ensures WalkText(Map3, fuel).position.None?
  {
    Map3Split();
    Map3Start();
    Map3RunFrom00();
    RunFuelEnough(Map3Grid, Map3S00, 48, fuel);
  }

  // ----------------------------------------------------------------------
  // The unit examples of the tests.

  /** Constructing the walker on the second map cuts its text into these rows. */
  lemma Map2Rows()
    ensures Split("\n@\n|\nA\n|\nx\n") == [[], ['@'], ['|'], ['A'], ['|'], ['x'], []]
  {
    assert Join(Map2Grid) == "\n@\n|\nA\n|\nx\n";
    SplitJoin(Map2Grid);
  }

  /** The neighbours of the start of the first map; none without a position. */
  lemma Map1Neighbours()
    ensures RelativePosition(None, Some(Left)) == None
    ensures RelativePosition(Map1S00.position, Some(Left)) == Some((1, -1))
    ensures RelativePosition(Map1S00.position, Some(Up)) == Some((0, 0))
    ensures RelativePosition(Map1S00.position, Some(Right)) == Some((1, 1))
    ensures RelativePosition(Map1S00.position, Some(Down)) == Some((2, 0))
  {
    Map1Start();
  }

  /** The four opposite pairs. */
  lemma OppositePairs()
    ensures Opposite(Some(Left)) == Some(Right) && Opposite(Some(Up)) == Some(Down)
    ensures Opposite(Some(Right)) == Some(Left) && Opposite(Some(Down)) == Some(Up)
  {
  }

  /**
   * The first move on the first map: nothing before the start is set, then
   * RIGHT, since LEFT and UP lead off the path.
   */
  lemma Map1FirstMove()
    ensures FindNext(Map1Grid, None, None) == (None, None)
    ensures FindNext(Map1Grid, Map1S00.position, None) == (Some((1, 1)), Some(Right))
  {
    Map1Start();
    ChooseTo(Map1Grid, (1, 0), None, Right, [Left, Up]);
  }

  /** The first move on the second map is DOWN. */
  lemma Map2FirstMove()
    ensures FindNext(Map2Grid, Map2S00.position, None) == (Some((2, 0)), Some(Down))
  {
    ChooseTo(Map2Grid, (1, 0), None, Down, [Left, Up, Right]);
  }

  /** A start with path cells to its left, above and below. */
  const PriorityGrid: Matrix := ["", "-|", "-@", "-|"]

  /** The priority map's text cut into its rows. */
  lemma PriorityRows()
    ensures Split("\n-|\n-@\n-|") == PriorityGrid
  {
    assert Join(PriorityGrid) == "\n-|\n-@\n-|";
    SplitJoin(PriorityGrid);
  }

  /** The priority map's start. */
  lemma PriorityStart()
    ensures Reset(PriorityGrid, None).position == Some((2, 1))
  {
    assert Start !in PriorityGrid[3] && PriorityGrid[2][1] == Start;
  }

  /** Without a direction LEFT is tried first, and wins. */
  lemma PriorityNoDirection()
    ensures FindNext(PriorityGrid, Some((2, 1)), None) == (Some((2, 0)), Some(Left))
  {
    ChooseTo(PriorityGrid, (2, 1), None, Left, []);
  }

  /** Heading RIGHT, the way back (LEFT) is ignored, straight on leaves the row, and UP wins. */
  lemma PriorityHeadingRight()
    ensures FindNext(PriorityGrid, Some((2, 1)), Some(Right)) == (Some((1, 1)), Some(Up))
  {
    ChooseTo(PriorityGrid, (2, 1), Some(Right), Up, [Right]);
  }

  /**
   * Two steps on the second map: the first logs `|` and moves to (2, 0), the
   * second logs the letter `A`.
   */
  lemma Map2TwoSteps()
    ensures var s := Step(Map2Grid, Map2S00);
      s.position == Some((2, 0)) && s.characters == "@|"
    ensures var s := Step(Map2Grid, Step(Map2Grid, Map2S00));
      s.characters == "@|A" && s.letters == "A"
  {
    Map2Step00();
    Map2Step01();
  }

  /**
   * A map without `@`: the walk never moves and both logs are empty (after a
   * run the object's properties hold these empty strings, not None).
   */
  lemma EmptyMapWalk(fuel: nat)
    ensures WalkText("", fuel).letters == [] && WalkText("", fuel).characters == []
    ensures WalkText("", fuel).position.None?
  {
    assert Split("") == [[]];
  }

  /** A fresh object on the second map has neither letters nor characters before it runs. */
  method LogsBeforeRun() returns (letters: Option<string>, characters: Option<string>)
    ensures letters == None && characters == None
  {
    var path := new PathFollowing.FollowPath(Map2);
    letters := path.Letters();
    characters := path.Characters();
  }
}
