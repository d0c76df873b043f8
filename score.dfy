/** The scoreboard: a table of five-row digit drawings, and the screen writes
    that drawing one digit makes. */
module Scoreboard {
  import opened Geometry

  /** One `addstr(row, col, text)` call on the screen. */
  datatype Write = Write(row: int, col: int, text: string)

  /** A digit drawing: five rows of three characters. */
  type Glyph = seq<string>

  const Block: char := '\U{2588}'
  const Full: string := [Block, Block, Block]
  const Sides: string := [Block, ' ', Block]
  const RightBar: string := [' ', ' ', Block]
  const LeftBar: string := [Block, ' ', ' ']

  /** The drawings of the digits 0 to 9, in order. */
  const Nums: seq<Glyph> := [
    [Full, Sides, Sides, Sides, Full],
    [RightBar, RightBar, RightBar, RightBar, RightBar],
    [Full, RightBar, Full, LeftBar, Full],
    [Full, RightBar, Full, RightBar, Full],
    [Sides, Sides, Full, RightBar, RightBar],
    [Full, LeftBar, Full, RightBar, Full],
    [Full, LeftBar, Full, Sides, Full],
    [Full, RightBar, RightBar, RightBar, RightBar],
    [Full, Sides, Full, Sides, Full],
    [Full, Sides, Full, RightBar, Full]
  ]

  /** A scoreboard only knows where its digit goes. */
  datatype Score = Score(pos: Vector)

  /** ScoreOutOfRange stands for the ValueError the range guard raises,
      IndexError for indexing past either end of the table. */
  datatype DrawError = ScoreOutOfRange | IndexError

  /** The table holds ten drawings, each of five rows three characters wide. */
  lemma NumsShape()
    ensures |Nums| == 10
    ensures forall d :: 0 <= d < 10 ==> |Nums[d]| == 5
    ensures forall d, i :: 0 <= d < 10 && 0 <= i < 5 ==> |Nums[d][i]| == 3
  {
  }

  /** No two digits share a drawing. */
  lemma NumsDistinct()
    ensures forall a, b :: 0 <= a < b < 10 ==> Nums[a] != Nums[b]
  {
  }

  /** Row `i` of glyph `g` written at (pos.y + i, pos.x), top row first. */
  function GlyphWrites(pos: Vector, g: Glyph): (ws: seq<Write>)
    ensures |ws| == |g|
    ensures forall i :: 0 <= i < |g| ==> ws[i] == Write(pos.y + i, pos.x, g[i])
  {
    seq(|g|, i requires 0 <= i < |g| => Write(pos.y + i, pos.x, g[i]))
  }

  /** Score.draw as the program has it. Its range guard is a chained
      comparison, `9 < score and score < 0`, which no score satisfies; the
      table is then indexed the Python way, where -1 to -10 count from the end
      and anything else outside 0 to 9 raises IndexError. */
  function DrawAsWritten(board: Score, score: int): (r: Result<seq<Write>, DrawError>)
    ensures r.Ok? <==> -10 <= score <= 9
    ensures r.Err? ==> r.error == IndexError
    ensures r.Ok? ==> |r.value| == 5
    ensures 0 <= score <= 9 ==> r == Draw(board, score)
    ensures -10 <= score < 0 ==> r == Draw(board, score + 10)
  {
    if 9 < score && score < 0 then Err(ScoreOutOfRange)
    else if 0 <= score < |Nums| then Ok(GlyphWrites(board.pos, Nums[score]))
    else if -|Nums| <= score < 0 then Ok(GlyphWrites(board.pos, Nums[|Nums| + score]))
    else Err(IndexError)
  }

  /** The range guard as written never fires. */
  lemma GuardNeverFires(score: int)
    ensures !(9 < score && score < 0)
  {
  }

  /** A negative score is drawn as another digit, and 10 is not reported as
      out of range. */
  lemma DrawAsWrittenMisreads(board: Score)
    ensures DrawAsWritten(board, -1) == DrawAsWritten(board, 9)
    ensures DrawAsWritten(board, -1).Ok?
    ensures DrawAsWritten(board, 10) == Err(IndexError)
  {
  }

  /** Score.draw with the guard it evidently intends: any score outside 0 to 9
      is refused; otherwise five rows, top to bottom from the board's position,
      in the board's column, three characters each, showing that digit. */
  function Draw(board: Score, score: int): (r: Result<seq<Write>, DrawError>)
    ensures r.Ok? <==> 0 <= score <= 9
    ensures r.Err? ==> r.error == ScoreOutOfRange
    ensures r.Ok? ==> |r.value| == 5
    ensures r.Ok? ==> forall i :: 0 <= i < 5 ==>
      r.value[i].row == board.pos.y + i && r.value[i].col == board.pos.x && |r.value[i].text| == 3
    ensures r.Ok? ==> forall i :: 0 <= i < 5 ==> r.value[i].text == Nums[score][i]
  {
    NumsShape();
    if score < 0 || 9 < score then Err(ScoreOutOfRange)
    else Ok(GlyphWrites(board.pos, Nums[score]))
  }

  /** Different digits produce different writes, so the display can be read
      back: the writes determine the score. */
  lemma DrawDistinguishes(board: Score, a: int, b: int)
    requires Draw(board, a).Ok? && Draw(board, b).Ok?
    requires Draw(board, a) == Draw(board, b)
    ensures a == b
  {
    NumsShape();
    NumsDistinct();
  }
}
