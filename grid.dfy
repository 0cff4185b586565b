/**
 * The character grid a FollowPath walks over: how the map text is cut into
 * rows, how a cell is looked up, and where the walk starts.
 */
module Grid {
  import opened Wrappers

  type Row = seq<char>
  type Matrix = seq<Row>

  /** A (row, column) pair. Candidate cells may have negative coordinates. */
  type Pos = (int, int)

  // The path indicators of the map.
  const Start: char := '@'
  const Horizontal: char := '-'
  const Vertical: char := '|'
  const Corner: char := '+'
  const End: char := 'x'
  const Indicators: seq<char> := [Start, Horizontal, Vertical, Corner, End]

  /** A waypoint letter: one of `A` .. `Z`. */
  predicate IsUpper(c: char) {
    'A' <= c <= 'Z'
  }

  /** A character the walk may step onto. */
  predicate IsPathChar(c: char) {
    IsUpper(c) || c in Indicators
  }

  /** The rows of `text` cut at every line break, as `str.split('\n')` does. */
  function Split(text: string): (rows: Matrix)
    ensures |rows| == Count(text, '\n') + 1
    ensures forall i :: 0 <= i < |rows| ==> '\n' !in rows[i]
  {
    if text == [] then [[]]
    else
      var rest := Split(text[1..]);
      if text[0] == '\n' then [[]] + rest
      else [[text[0]] + rest[0]] + rest[1..]
  }

  /** Number of occurrences of `c` in `s`. */
  function Count(s: string, c: char): nat {
    if s == [] then 0 else (if s[0] == c then 1 else 0) + Count(s[1..], c)
  }

  /** The rows glued back together with line breaks: the inverse of Split. */
  function Join(rows: Matrix): string
    requires |rows| >= 1
  {
    if |rows| == 1 then rows[0] else rows[0] + "\n" + Join(rows[1..])
  }

  /** Splitting loses nothing: joining the rows gives back the text. */
  lemma {:induction false} JoinSplit(text: string)
    ensures Join(Split(text)) == text
  {
    if text != [] {
      var rest := Split(text[1..]);
      JoinSplit(text[1..]);
      if text[0] == '\n' {
        assert Split(text)[1..] == rest;
      } else {
        var rows := Split(text);
        assert rows[1..] == rest[1..];
        if |rest| == 1 {
          assert Join(rows) == [text[0]] + rest[0];
        } else {
          assert Join(rows) == [text[0]] + rest[0] + "\n" + Join(rest[1..]);
          assert Join(rest) == rest[0] + "\n" + Join(rest[1..]);
        }
      }
    }
  }

  /** Every ragged grid without line breaks in its rows is the split of its join. */
  lemma {:induction false} SplitJoin(rows: Matrix)
    requires |rows| >= 1
    requires forall i :: 0 <= i < |rows| ==> '\n' !in rows[i]
    ensures Split(Join(rows)) == rows
  {
    if |rows| == 1 {
      SplitRow(rows[0], []);
      assert rows[0] + [] == rows[0];
      assert Split([]) == [[]];
    } else {
      SplitJoin(rows[1..]);
      var tail := "\n" + Join(rows[1..]);
      assert Split(tail) == [[]] + rows[1..] by {
        assert tail[1..] == Join(rows[1..]);
      }
      SplitRow(rows[0], tail);
      assert Join(rows) == rows[0] + tail;
      assert rows[0] + [] == rows[0];
      assert [rows[0]] + rows[1..] == rows;
    }
  }

  /** Splitting a line-break-free prefix in front of `tail` prepends it to the first row. */
  lemma {:induction false} SplitRow(row: Row, tail: string)
    requires '\n' !in row
    ensures var r := Split(tail); Split(row + tail) == [row + r[0]] + r[1..]
  {
    if row == [] {
      assert row + tail == tail;
      var r := Split(tail);
      assert row + r[0] == r[0];
      assert [r[0]] + r[1..] == r;
    } else {
      SplitRow(row[1..], tail);
      assert (row + tail)[1..] == row[1..] + tail;
      assert [row[0]] + (row[1..] + Split(tail)[0]) == row + Split(tail)[0];
    }
  }

  /** The cell lies inside the grid and inside its (possibly short) row. */
  predicate InGrid(grid: Matrix, p: Pos) {
    0 <= p.0 < |grid| && 0 <= p.1 < |grid[p.0]|
  }

  /**
   * The character at `p`, or None where the source's lookup fails: a negative
   * coordinate is refused before indexing, a row or column past the end
   * raises IndexError. Both are "no character here".
   */
  function CharAt(grid: Matrix, p: Pos): Option<char> {
    if p.0 > -1 && p.1 > -1 && p.0 < |grid| && p.1 < |grid[p.0]| then Some(grid[p.0][p.1]) else None
  }

  /** The candidate test of the walk: a cell in the grid holding a path character. */
  predicate Accepts(grid: Matrix, p: Pos) {
    CharAt(grid, p).Some? && IsPathChar(CharAt(grid, p).value)
  }

  /** `row.index(c)`: the first column holding `c`, None where the row has none. */
  function IndexOf(row: Row, c: char): (r: Option<nat>)
    ensures r.None? <==> c !in row
    ensures r.Some? ==> r.value < |row| && row[r.value] == c && c !in row[..r.value]
  {
    if row == [] then None
    else if row[0] == c then Some(0)
    else match IndexOf(row[1..], c)
      case None => None
      case Some(i) => Some(i + 1)
  }

  /**
   * The start cell found by scanning rows top to bottom: the last row that
   * holds `@` wins, and within it the first `@`.
   */
  function StartOf(grid: Matrix): (r: Option<Pos>)
    ensures r.None? <==> forall i :: 0 <= i < |grid| ==> Start !in grid[i]
    ensures r.Some? ==> InGrid(grid, r.value) && grid[r.value.0][r.value.1] == Start
    ensures r.Some? ==> Start !in grid[r.value.0][..r.value.1]
    ensures r.Some? ==> forall i :: r.value.0 < i < |grid| ==> Start !in grid[i]
  {
    if grid == [] then None
    else
      var last := |grid| - 1;
      if Start in grid[last] then Some((last, IndexOf(grid[last], Start).value))
      else
        var r := StartOf(grid[..last]);
        assert forall i :: 0 <= i < last ==> grid[..last][i] == grid[i];
        r
  }
}
