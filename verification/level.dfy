/**
 * The level loader's parse: text lines become a column-major grid
 * `map[x][y]`, where column x holds character x of every line.
 */
module Level {
  import opened Blocks

  /** Ways the parse fails; the source panics on an out-of-range index in both cases. */
  datatype ParseError =
    | NoLines               // there is no first line to size the grid by
    | LineTooLong(line: nat) // this line has more characters than the first

  datatype Result<T> = Ok(value: T) | Err(error: ParseError)

  /** '#' is a wall, '.' is floor, every other character is void. */
  function Classify(c: char): LevelBlock {
    match c
    case '#' => Wall
    case '.' => Free
    case _ => LevelBlock.Void
  }

  /** What cell (x, y) should hold: the classified character, or void past the end of a short line. */
  function CellOf(lines: seq<string>, x: nat, y: nat): LevelBlock
    requires y < |lines|
  {
    if x < |lines[y]| then Classify(lines[y][x]) else LevelBlock.Void
  }

  /** Every line fits in the width set by the first one. */
  predicate AllLinesFit(lines: seq<string>)
    requires |lines| > 0
  {
    forall y :: 0 <= y < |lines| ==> |lines[y]| <= |lines[0]|
  }

  /** The grid a successful parse produces. */
  predicate IsParseOf(lines: seq<string>, m: seq<seq<LevelBlock>>)
    requires |lines| > 0
  {
    && |m| == |lines[0]|
    && (forall x :: 0 <= x < |m| ==> |m[x]| == |lines|)
    && (forall x, y :: 0 <= x < |m| && 0 <= y < |lines| ==> m[x][y] == CellOf(lines, x, y))
  }

  /** Lines [y0, y) have been copied into columns of m; later lines are still void. */
  ghost predicate FilledUpTo(lines: seq<string>, m: seq<seq<LevelBlock>>, y: nat)
    requires |lines| > 0
  {
    && |m| == |lines[0]|
    && (forall x :: 0 <= x < |m| ==> |m[x]| == |lines|)
    && (forall x, j :: 0 <= x < |m| && 0 <= j < |lines| ==>
          m[x][j] == (if j < y then CellOf(lines, x, j) else LevelBlock.Void))
  }

  /**
   * `Level::new` without the file read: allocate `|lines[0]|` columns of
   * `|lines|` void cells, then write each character of each line into its
   * column, stopping with an error where the source would index out of range.
   */
  method Parse(lines: seq<string>) returns (r: Result<seq<seq<LevelBlock>>>)
    ensures r == Err(NoLines) <==> |lines| == 0
    ensures r.Ok? <==> |lines| > 0 && AllLinesFit(lines)
    ensures r.Ok? ==> IsParseOf(lines, r.value)
    ensures r.Err? && r.error.LineTooLong? ==>
      && |lines| > 0
      && r.error.line < |lines|
      && |lines[r.error.line]| > |lines[0]|
      && forall y :: 0 <= y < r.error.line ==> |lines[y]| <= |lines[0]|
  {
    if |lines| == 0 {
      return Err(NoLines);
    }
    var column := seq(|lines|, _ => LevelBlock.Void);
    var m := seq(|lines[0]|, _ => column);
    var y := 0;
    while y < |lines|
      invariant y <= |lines|
      invariant FilledUpTo(lines, m, y)
      invariant forall j :: 0 <= j < y ==> |lines[j]| <= |lines[0]|
    {
      var line := lines[y];
      var x := 0;
      while x < |line|
        invariant x <= |line|
        invariant |m| == |lines[0]|
        invariant forall i :: 0 <= i < |m| ==> |m[i]| == |lines|
        invariant x <= |m|
        invariant forall i, j :: 0 <= i < |m| && 0 <= j < |lines| ==>
          m[i][j] == (if j < y || (j == y && i < x) then CellOf(lines, i, j) else LevelBlock.Void)
      {
        if x >= |m| {
          return Err(LineTooLong(y));
        }
        m := m[x := m[x][y := Classify(line[x])]];
        x := x + 1;
      }
      y := y + 1;
    }
    return Ok(m);
  }

  /** The character a cell is written as; the inverse of Classify on the three kinds. */
  function Glyph(b: LevelBlock): (c: char)
    ensures Classify(c) == b
  {
    match b
    case Wall => '#'
    case Free => '.'
    case Void => ' '
  }

  /** A grid written back out as text, one line per row. */
  function Render(m: seq<seq<LevelBlock>>): (lines: seq<string>)
    requires IsGrid(m)
    ensures |lines| == |m[0]|
    ensures forall y :: 0 <= y < |lines| ==> |lines[y]| == |m|
  {
    seq(|m[0]|, y requires 0 <= y < |m[0]| => seq(|m|, x requires 0 <= x < |m| => Glyph(m[x][y])))
  }

  /** Parsing a rendered grid gives the grid back. */
  lemma RenderThenParse(m: seq<seq<LevelBlock>>)
    requires IsGrid(m) && |m[0]| > 0
    ensures var lines := Render(m); AllLinesFit(lines) && IsParseOf(lines, m)
  {
    var lines := Render(m);
    forall x, y | 0 <= x < |m| && 0 <= y < |lines|
      ensures m[x][y] == CellOf(lines, x, y)
    {
      assert lines[y][x] == Glyph(m[x][y]);
    }
  }
}
