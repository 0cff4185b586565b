# FollowPath, modelled in Dafny

`follow_path.py` walks an ASCII map. The map is a text whose lines form a
ragged grid of characters. The walk starts at `@` and moves one cell at a
time over the path characters `-`, `|`, `+`, `x` and the uppercase letters.
At each cell it tries to keep its current direction. Otherwise it turns, trying LEFT, UP,
RIGHT, DOWN in that order, and it never turns back. It stops when no
candidate cell is on the path. Along the way it logs every character it
passes over. It also logs every letter, but only the first time its cell is
reached. `follow_path(text)` returns both logs.

The model has these modules:

- `Wrappers`: the `Option` type.
- `Grid`: how the text is cut into rows (`str.split('\n')`), the cell lookup
  with the source's `try`/`except`, the character classes, and the row scan
  for `@`.
- `Moves`: the four directions, `get_relative_position` and
  `get_opposite_direction`.
- `NextPosition`: `find_next_position` as a function. Its choice is
  characterised completely: what it may return, what wins, and when nothing
  is found.
- `Walk`: the walker's state as a value. `set_starting_position`,
  `next_step`, `run` and `follow_path` are functions over it. A ghost trail
  of visited cells gives the invariant every step preserves: the logs are
  exactly the characters of the trail and the first visits of its letters.
- `PathFollowing`: the class `FollowPath`, with the source's fields updated
  in place by its methods. Each method is proved to move the object's state
  exactly as the functions of `Walk` say, and to keep the invariant.
  `FollowPathText` is the module-level `follow_path`.
- `Scenarios`: the examples of `tests.py`. It covers the unit examples of
  each operation and the three maps, each walked step by step to its end
  with the expected letters and characters.

Two behaviours of the source that are easy to miss, both modelled as written:

- After `run` on a map without `@`, `letters` and `characters` are empty
  strings, not `None`. `run` always calls `set_starting_position`, which
  creates both logs (`follow_path.py:62-63`). `FollowPathText` therefore
  always returns `Some(...)`, and `Scenarios.EmptyMapWalk` shows the empty
  logs.
- When the map has no `@`, `set_starting_position` keeps the previous
  `position` (`follow_path.py:67-71`). `Walk.Reset` takes that previous
  position as a parameter.

## Model

| member | source | states |
|---|---|---|
| Grid.Split | follow_path.py:46 | the map is cut into one row more than it has line breaks, and no row holds a line break |
| Grid.JoinSplit | follow_path.py:46 | cutting loses nothing: the rows joined with line breaks give back the text |
| Grid.SplitJoin | follow_path.py:46 | any grid of rows without line breaks is what its joined text is cut into |
| Grid.CharAt | follow_path.py:111-115 | the character at a cell, or none where the source's lookup fails (negative coordinate, row or column past the end); characterised through FindNextSound and FindNextChoice |
| Grid.Accepts | follow_path.py:111-116 | a cell is a candidate the loop accepts: it can be looked up and holds an uppercase letter or an indicator; characterised through FindNextSound and FindNextChoice |
| Grid.IndexOf | follow_path.py:69 | `row.index('@')`: the first column holding the character, none when the row lacks it |
| Grid.StartOf | follow_path.py:67-69 | the start cell holds `@`, it is the first `@` of the last row holding one, and it is absent only when no row holds `@` |
| Moves.Move | follow_path.py:78-85 | the unit move of each direction, with no bounds check; characterised by MoveBack and MoveInjective |
| Moves.RelativePosition | follow_path.py:74-85 | none without a position; otherwise an adjacent cell, in the same row for LEFT/RIGHT and the same column for UP/DOWN |
| Moves.Opposite | follow_path.py:87-95 | defined exactly for a direction and never the direction itself |
| Moves.OppositeInvolutive | follow_path.py:87-95 | the opposite of the opposite is the direction |
| Moves.MoveBack | follow_path.py:74-95 | a move is undone by the opposite direction and by no other |
| Moves.MoveInjective | follow_path.py:74-85 | different directions lead to different cells |
| NextPosition.OtherDirections | follow_path.py:107 | the turns list holds exactly the directions that are neither the current one nor its opposite |
| NextPosition.Choices | follow_path.py:105-108 | the candidate directions in the order they are tried; characterised by ChoicesTable and ChoicesOrder |
| NextPosition.ChoicesTable | follow_path.py:105-108 | the candidate list for each current direction, written out |
| NextPosition.ChoicesOrder | follow_path.py:105-108 | every direction but the way back is a candidate once; the current one first, the others in LEFT, UP, RIGHT, DOWN order |
| NextPosition.FirstAccepted | follow_path.py:110-118 | the loop returns a direction from the list together with its neighbour, which is on the path, or nothing at all |
| NextPosition.FirstAcceptedIsFirst | follow_path.py:110-118 | the loop returns the first accepted candidate: all candidates before it are refused, and all are refused when it returns nothing |
| NextPosition.FindNext | follow_path.py:97-118 | `find_next_position`; characterised by FindNextChoice, FindNextNoneIff and FindNextSound |
| NextPosition.FindNextSound | follow_path.py:110-117 | a found cell is the neighbour in the found direction, with no negative coordinate, inside the grid, and it holds a path character |
| NextPosition.FindNextNoPosition | follow_path.py:102-103 | without a position the result is (None, None) |
| NextPosition.FindNextStraightFirst | follow_path.py:105 | straight on wins whenever its cell is on the path |
| NextPosition.FindNextNeverReverses | follow_path.py:106-107 | the walk never turns back the way it came |
| NextPosition.FindNextPriority | follow_path.py:105-117 | an accepted candidate loses only to straight on or to an earlier turn |
| NextPosition.FindNextNoneIff | follow_path.py:102-118 | nothing is found exactly when there is no position or no direction but the way back leads onto the path |
| NextPosition.FindNextChoice | follow_path.py:97-118 | the result is direction d and its neighbour if and only if d is not back, its cell is on the path, and every candidate tried before it is refused |
| Walk.Reset | follow_path.py:58-72 | `set_starting_position` on the walker state; the class method StartWalk is proved to follow it, ResetConsistent establishes the invariant from it |
| Walk.Step | follow_path.py:120-137 | `next_step` on the walker state; characterised by StepEffect, kept consistent by StepConsistent, and followed by NextStep |
| Walk.RunFrom | follow_path.py:139-142 | `run`'s loop, bounded by fuel; RunConsistent, RunFuelEnough and RunLogsGrow state its properties, and Run follows it |
| Walk.WalkText | follow_path.py:145-171 | `follow_path` on values; WalkAgrees states its agreement with the walked trail, and FollowPathText follows it |
| Walk.ResetConsistent | follow_path.py:58-72 | after `set_starting_position` the cleared logs, the `@` entry and the start position agree with a trail holding just the start |
| Walk.StepEffect | follow_path.py:120-137 | a step takes position and direction from `find_next_position`; it logs the cell's character, and its letter and cell exactly when it is a letter on a cell not yet used; when nothing is found the logs are unchanged |
| Walk.StepLogsGrow | follow_path.py:127-137 | a step only appends to the logs |
| Walk.StepConsistent | follow_path.py:120-137 | a step preserves the agreement of the walker state with its trail, the trail growing by the new cell |
| Walk.ConsistentFacts | follow_path.py:129-137 | along any walk the letters log holds only uppercase letters; the characters log holds only path characters and begins with `@`; no used cell repeats; there are no more letters than characters |
| Walk.ExtendConsistent | follow_path.py:127-137 | moving to a path cell that is not back keeps the agreement with the trail |
| Walk.HeadingExtend | follow_path.py:127 | after a move the position is the trail's last cell, and the direction is that last move |
| Walk.LoggedExtend | follow_path.py:133-134 | logging the new cell's character keeps the characters log equal to the trail's characters |
| Walk.ConnectedExtend | follow_path.py:127 | a neighbouring cell that is not the one two back keeps the trail connected |
| Walk.LettersExtend | follow_path.py:132-137 | logging a new letter cell keeps the used cells equal to the trail's first visits to letters |
| Walk.FirstVisitsDistinct | follow_path.py:135-137 | the used cells never repeat |
| Walk.FirstVisitsMembers | follow_path.py:135-137 | a cell is used exactly when the trail reached it and it holds a letter |
| Walk.FirstVisitsPrefix | follow_path.py:135-137 | the used cells only grow as the trail grows |
| Walk.FirstVisitsLength | follow_path.py:135-137 | there are no more used cells than visited cells |
| Walk.RunConsistent | follow_path.py:139-142 | any number of steps keeps the agreement with the trail |
| Walk.RunFuelEnough | follow_path.py:141-142 | once the loop has stopped, more steps change nothing |
| Walk.RunLogsGrow | follow_path.py:139-142 | running only appends to the logs |
| Walk.WalkAgrees | follow_path.py:145-171 | the result of `follow_path` agrees with the trail walked from the start, and its characters are empty exactly when the map has no `@` |
| PathFollowing.FollowPath.constructor | follow_path.py:44-48 | the object keeps the text and its rows; there is no position or direction, and no walk yet |
| PathFollowing.FollowPath.Letters | follow_path.py:50-52 | None before a walk has started and the letters log after; every letter is uppercase |
| PathFollowing.FollowPath.Characters | follow_path.py:54-56 | None before a walk has started and the characters log after; all path characters, `@` first |
| PathFollowing.FollowPath.ScanStart | follow_path.py:67-69 | the row loop finds the start cell, or keeps the old position when the map has no `@` |
| PathFollowing.FollowPath.StartWalk | follow_path.py:58-72 | the object's state becomes the reset state, the walk has started, and the invariant holds |
| PathFollowing.FollowPath.ResetFields | follow_path.py:62-72 | the field updates of `set_starting_position` produce the reset state |
| PathFollowing.FollowPath.FindNextPosition | follow_path.py:97-118 | the candidate loop returns what `find_next_position` is characterised to return |
| PathFollowing.FollowPath.NextStep | follow_path.py:120-137 | the object's state becomes one step of the walk, and the invariant holds |
| PathFollowing.FollowPath.UpdateFields | follow_path.py:124-137 | the field updates of `next_step` produce the next state |
| PathFollowing.FollowPath.Run | follow_path.py:139-142 | the object's state becomes the walk from the start, and the invariant holds |
| PathFollowing.StartOfLastRow | follow_path.py:67-69 | each row holding `@` overrides the start found in earlier rows |
| PathFollowing.FollowPathText | follow_path.py:145-171 | `follow_path` returns the letters and characters of the walk from the map's start, never None |
| Scenarios.LogsBeforeRun | tests.py:42-50 | before `run`, a fresh object on the second map has `letters` and `characters` None |
| Scenarios.Map2Rows | tests.py:38-40 | the second map is cut into its seven rows |
| Scenarios.Map1Start | tests.py:54-60 | starting on the first map gives position (1, 0), no direction, no letters and `@` logged |
| Scenarios.Map1Neighbours | tests.py:62-69 | none without a position; the four neighbours of (1, 0) |
| Scenarios.OppositePairs | tests.py:71-76 | the four opposite pairs |
| Scenarios.Map1FirstMove | tests.py:78-82 | nothing before the start is set; from the start the walk goes RIGHT to (1, 1) |
| Scenarios.Map2FirstMove | tests.py:83-85 | on the second map the walk goes DOWN to (2, 0) |
| Scenarios.PriorityRows | tests.py:87 | the priority map's rows |
| Scenarios.PriorityStart | tests.py:87-88 | the priority map starts at (2, 1) |
| Scenarios.PriorityNoDirection | tests.py:86-89 | without a direction LEFT wins over UP and DOWN |
| Scenarios.PriorityHeadingRight | tests.py:90-92 | heading RIGHT with straight on blocked, the way back is ignored and UP wins |
| Scenarios.Map2TwoSteps | tests.py:94-102 | two steps on the second map log `@|` then `@|A` and the letter `A` |
| Scenarios.Map2Walk | tests.py:42-52 | the second map gives the letters `A` and the characters `@|A|x` |
| Scenarios.Map1Walk | tests.py:104-108 | the first map gives `ACB` and `@---A---+|C|+---+|+-B-x` |
| Scenarios.Map3Walk | tests.py:110-114 | the third map gives `BEEFCAKE` and `@---+B||E--+|E|+--F--+|C|||A--|-----K|||+--E--Ex` |
| Scenarios.EmptyMapWalk | follow_path.py:139-142 | on an empty map nothing moves and both logs are empty |

## Left out

- The `__main__` block, which reads files or standard input and prints. It is I/O.
- `usedPositions` holds the strings `'{row}/{column}'` in the source. The
  model holds the (row, column) pairs. The format is injective, so the
  membership test answers the same.
- The value `next_step` returns when there is no position,
  `(None, self.direction)`. No caller uses it, and `NextStep` returns nothing.
- PathFollowing.FollowPath.Run: the source loops while there is a position,
  with no bound. On a map whose path closes into a cycle it never stops. The
  model bounds the loop by a `fuel` parameter. Its contract is the walk with
  at most that many steps, and Walk.RunFuelEnough shows that more fuel
  changes nothing once the walk has ended. Termination itself is not proved.
- Walk.RunFrom, Walk.WalkText, PathFollowing.FollowPathText: bounded by the
  same `fuel` parameter, for the same reason.
- The `hasattr(self, '_letters')` test is modelled as the field `started`.
  The logs exist exactly from the first `set_starting_position` on.
- Python's exceptions in the candidate loop are modelled as `Grid.CharAt`
  returning None. Those are the `assert` on negative coordinates and the
  `IndexError` past the end of the grid or of a short row. The model follows
  the program run with assertions enabled. Under `python -O` the `assert` is
  removed, and a negative coordinate reads from the end of a row. On the
  first test map the LEFT candidate (1, -1) would then read `+`, and the
  first move would be LEFT, not RIGHT.
- Scenarios: the texts of the first and third maps are stated as their lines
  joined with line breaks (`Join`). They are not written as one string
  literal.
