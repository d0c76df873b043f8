/** The game object: the screen layout it derives from the terminal size, and
    the key handling that is its only way of changing state. */
module Pong {
  import opened Geometry
  import opened Entities
  import opened Scoreboard

  /** Key codes as curses reports them. */
  const KeyDown: int := 258
  const KeyUp: int := 259
  const LowerQ: int := 113
  const UpperQ: int := 81

  predicate IsQuit(ch: int) {
    ch == LowerQ || ch == UpperQ
  }

  predicate NoQuit(keys: seq<int>) {
    forall i :: 0 <= i < |keys| ==> !IsQuit(keys[i])
  }

  // ---------------------------------------------------------------------------
  // Layout

  /** Where `init` puts everything on a screen of `rows` by `cols` cells. */
  datatype Layout = Layout(center: Vector, player: Vector, ball: Vector, boards: seq<Score>)

  /** The centre is the floor half of the screen size; the paddle stands in
      column 3 with its middle cell on the centre row; the ball starts on the
      centre row in column 5; the two scoreboards sit on row 3, the left one
      at half the centre column and the right one that far past the centre. */
  function LayoutFor(rows: int, cols: int): (l: Layout)
    ensures 0 <= rows - 2 * l.center.y <= 1 && 0 <= cols - 2 * l.center.x <= 1
    ensures l.player.y + Character.Length / 2 == l.center.y && l.player.x == 3
    ensures l.ball.y == l.center.y && l.ball.x == 5
    ensures |l.boards| == 2 && l.boards[0].pos.y == 3 && l.boards[1].pos.y == 3
    ensures 0 <= l.center.x - 2 * l.boards[0].pos.x <= 1
    ensures l.boards[1].pos.x - l.center.x == l.boards[0].pos.x
  {
    var center := Vector(rows / 2, cols / 2);
    Layout(center,
           Vector(center.y - 2, 3),
           Vector(center.y, 5),
           [Score(Vector(3, center.x / 2)), Score(Vector(3, center.x + center.x / 2))])
  }

  /** The paddle's five cells run from two rows above the centre to two rows
      below it, and its middle cell is level with the ball. */
  lemma PaddleCentred(rows: int, cols: int)
    ensures var l := LayoutFor(rows, cols);
      var cells := PaddleCells(l.player);
      cells[0].y == l.center.y - 2 && cells[Character.Length - 1].y == l.center.y + 2 &&
      cells[Character.Length / 2].y == l.ball.y
  {
  }

  /** On any real screen (no negative size) the ball starts at a non-negative
      position, so moving the fresh ball, whose velocity is zero, succeeds and
      leaves it where it is. */
  lemma InitialBallStaysPut(rows: int, cols: int)
    requires rows >= 0
    ensures var l := LayoutFor(rows, cols);
      Add(l.ball, VectorOperand(Vector(0, 0))) == Ok(l.ball)
  {
    AddZero(LayoutFor(rows, cols).ball);
  }

  // ---------------------------------------------------------------------------
  // Key handling

  /** What a key press can change: the running flag and the player's top cell. */
  datatype Control = Control(running: bool, player: Vector)

  /** One key press: 'q' or 'Q' clears the running flag, the up arrow moves the
      player one row up, the down arrow one row down, and any other code
      changes nothing. Nothing sets the flag again. */
  function AfterKey(c: Control, ch: int): (r: Control)
    ensures IsQuit(ch) ==> r == Control(false, c.player)
    ensures ch == KeyUp ==> r == Control(c.running, Vector(c.player.y - 1, c.player.x))
    ensures ch == KeyDown ==> r == Control(c.running, Vector(c.player.y + 1, c.player.x))
    ensures !IsQuit(ch) && ch != KeyUp && ch != KeyDown ==> r == c
  {
    var running := if ch == LowerQ || ch == UpperQ then false else c.running;
    var y := if ch == KeyUp then c.player.y - 1
             else if ch == KeyDown then c.player.y + 1
             else c.player.y;
    Control(running, Vector(y, c.player.x))
  }

  /** Up then down, or down then up, puts everything back. */
  lemma UpDownCancel(c: Control)
    ensures AfterKey(AfterKey(c, KeyUp), KeyDown) == c
    ensures AfterKey(AfterKey(c, KeyDown), KeyUp) == c
  {
  }

  /** The main loop fed with `keys`: one key per round while the flag is set. */
  function AfterKeys(c: Control, keys: seq<int>): (r: Control)
    ensures r.running ==> c.running
    ensures r.player.x == c.player.x
    ensures c.player.y - |keys| <= r.player.y <= c.player.y + |keys|
    decreases |keys|
  {
    if !c.running || keys == [] then c else AfterKeys(AfterKey(c, keys[0]), keys[1..])
  }

  /** The loop is still running after `keys` exactly when it was running before
      and none of the keys is a quit key. */
  lemma {:induction false} StillRunning(c: Control, keys: seq<int>)
    ensures AfterKeys(c, keys).running <==> c.running && NoQuit(keys)
    decreases |keys|
  {
    if c.running && keys != [] {
      StillRunning(AfterKey(c, keys[0]), keys[1..]);
      if !IsQuit(keys[0]) {
        assert NoQuit(keys[1..]) ==> NoQuit(keys) by {
          if NoQuit(keys[1..]) {
            forall i | 0 <= i < |keys| ensures !IsQuit(keys[i]) {
              if i > 0 { assert keys[i] == keys[1..][i - 1]; }
            }
          }
        }
      } else {
        assert !NoQuit(keys) by { assert IsQuit(keys[0]); }
        assert AfterKeys(AfterKey(c, keys[0]), keys[1..]) == AfterKey(c, keys[0]);
      }
    }
  }

  /** With no quit key among them, `keys` moves the player down by the number
      of down arrows and up by the number of up arrows, and keeps its column. */
  lemma {:induction false} Displacement(c: Control, keys: seq<int>)
    requires c.running && NoQuit(keys)
    decreases |keys|
    ensures AfterKeys(c, keys) ==
      Control(true, Vector(c.player.y + multiset(keys)[KeyDown] - multiset(keys)[KeyUp], c.player.x))
  {
    if keys != [] {
      var k := keys[0];
      assert keys == [k] + keys[1..];
      assert multiset(keys) == multiset([k]) + multiset(keys[1..]);
      assert NoQuit(keys[1..]) by {
        forall i | 0 <= i < |keys[1..]| ensures !IsQuit(keys[1..][i]) {
          assert keys[1..][i] == keys[i + 1];
        }
      }
      assert !IsQuit(k) by { assert k == keys[0]; }
      Displacement(AfterKey(c, k), keys[1..]);
    }
  }

  /** The first quit key ends the loop: the player is where the keys before it
      put it, and whatever comes after it is never read. */
  lemma {:induction false} QuitEndsLoop(c: Control, before: seq<int>, q: int, after: seq<int>)
    requires c.running && NoQuit(before) && IsQuit(q)
    ensures AfterKeys(c, before + [q] + after) == Control(false, AfterKeys(c, before).player)
    decreases |before|
  {
    var keys := before + [q] + after;
    if before == [] {
      assert keys[0] == q && keys[1..] == after;
      assert AfterKey(c, q) == Control(false, c.player);
    } else {
      var k := before[0];
      assert keys[0] == k;
      assert keys[1..] == before[1..] + [q] + after;
      assert !IsQuit(k) by { assert k == before[0]; }
      var c' := AfterKey(c, k);
      assert NoQuit(before[1..]) by {
        forall i | 0 <= i < |before[1..]| ensures !IsQuit(before[1..][i]) {
          assert before[1..][i] == before[i + 1];
        }
      }
      QuitEndsLoop(c', before[1..], q, after);
    }
  }

  /** Once the flag is clear, further keys change nothing. */
  lemma StoppedStaysStopped(c: Control, keys: seq<int>)
    requires !c.running
    ensures AfterKeys(c, keys) == c
  {
  }

  // ---------------------------------------------------------------------------
  // The game object

  /** The writes of drawing `score` on the left board, then on the right one,
      each with the scoreboard drawing as the program has it; the first
      failure stops the drawing. For a digit score both boards show that
      digit, each at its own position. */
  function BoardsWrites(left: Score, right: Score, score: int): (r: Result<seq<Write>, DrawError>)
    ensures r.Ok? <==> -10 <= score <= 9
    ensures r.Err? ==> r.error == IndexError
    ensures r.Ok? ==> r.value == DrawAsWritten(left, score).value + DrawAsWritten(right, score).value
    ensures 0 <= score <= 9 ==> r.Ok? && |r.value| == 10
    ensures 0 <= score <= 9 ==> forall i :: 0 <= i < 5 ==>
      r.value[i] == Write(left.pos.y + i, left.pos.x, Nums[score][i]) &&
      r.value[i + 5] == Write(right.pos.y + i, right.pos.x, Nums[score][i])
  {
    var l := DrawAsWritten(left, score);
    var r := DrawAsWritten(right, score);
    if l.Err? then l
    else if r.Err? then r
    else Ok(l.value + r.value)
  }

  class Game {
    var running: bool
    var rows: int
    var cols: int
    var center: Vector
    var player: Character?
    var ball: Ball?
    var scoreboard: seq<Score>

    /** `init` has run: the player, the ball and both scoreboards exist. */
    ghost predicate Initialized()
      reads this
    {
      player != null && ball != null && |scoreboard| == 2
    }

    function Snapshot(): (c: Control)
      reads this, player
      requires player != null
    {
      Control(running, player.pos)
    }

    /** A new game is running and has nothing on the field yet. */
    constructor ()
      ensures running
      ensures player == null && ball == null && scoreboard == []
    {
      running := true;
      rows, cols := 0, 0;
      center := Vector(0, 0);
      player, ball := null, null;
      scoreboard := [];
    }

    /** Lays out the field for a screen of `rows` by `cols` cells: centre,
        player paddle with score 0, ball at rest, and the two scoreboards. */
    method Init(rows: int, cols: int)
      modifies this
      ensures Initialized() && fresh(player) && fresh(ball)
      ensures this.rows == rows && this.cols == cols && running == old(running)
      ensures var l := LayoutFor(rows, cols);
        center == l.center && player.pos == l.player && ball.pos == l.ball &&
        scoreboard == l.boards
      ensures player.score == 0 && ball.vel == Vector(0, 0)
    {
      this.rows, this.cols := rows, cols;
      center := Vector(this.rows / 2, this.cols / 2);
      player := new Character(center.y - 2, 3);
      ball := new Ball(center.y, 5);
      scoreboard := [Score(Vector(3, center.x / 2)), Score(Vector(3, center.x + center.x / 2))];
    }

    /** Handles one key code; see AfterKey. The player's score, the ball and
        the layout are untouched. */
    method ProcInput(ch: int)
      requires Initialized()
      modifies this, player
      ensures Initialized() && player == old(player) && ball == old(ball)
      ensures Snapshot() == AfterKey(old(Snapshot()), ch)
      ensures player.score == old(player.score)
      ensures rows == old(rows) && cols == old(cols) && center == old(center)
      ensures scoreboard == old(scoreboard)
    {
      if ch == LowerQ || ch == UpperQ {
        running := false;
      }
      if ch == KeyUp {
        player.Move(-1);
      }
      if ch == KeyDown {
        player.Move(1);
      }
    }

    /** The main loop over a finite supply of key codes: while the flag is set
        and keys remain, read one and handle it. Returns how many were read:
        all of them while still running, none when already stopped, and up to
        and including the first quit key otherwise. */
    method Run(keys: seq<int>) returns (consumed: nat)
      requires Initialized()
      modifies this, player
      ensures Initialized() && player == old(player) && ball == old(ball)
      ensures consumed <= |keys|
      ensures Snapshot() == AfterKeys(old(Snapshot()), keys)
      ensures running ==> consumed == |keys| && NoQuit(keys)
      ensures !old(running) ==> consumed == 0
      ensures old(running) && !running ==>
        0 < consumed && IsQuit(keys[consumed - 1]) && NoQuit(keys[..consumed - 1])
      ensures player.score == old(player.score)
      ensures rows == old(rows) && cols == old(cols) && center == old(center)
      ensures scoreboard == old(scoreboard)
    {
      consumed := 0;
      while running && consumed < |keys|
        invariant Initialized() && player == old(player) && ball == old(ball)
        invariant consumed <= |keys|
        invariant running ==> old(running) && NoQuit(keys[..consumed])
        invariant !old(running) ==> consumed == 0
        invariant old(running) && !running ==>
          0 < consumed && IsQuit(keys[consumed - 1]) && NoQuit(keys[..consumed - 1])
        invariant AfterKeys(Snapshot(), keys[consumed..]) == AfterKeys(old(Snapshot()), keys)
        invariant player.score == old(player.score)
        invariant rows == old(rows) && cols == old(cols) && center == old(center)
        invariant scoreboard == old(scoreboard)
      {
        assert keys[..consumed + 1] == keys[..consumed] + [keys[consumed]];
        ProcInput(keys[consumed]);
        consumed := consumed + 1;
      }
      assert running ==> keys[..consumed] == keys;
    }

    /** What the two scoreboards draw: both show the player's score, the left
        board first. */
    function ScoreboardWrites(): (r: Result<seq<Write>, DrawError>)
      reads this, player
      requires Initialized()
      ensures r.Ok? <==> -10 <= player.score <= 9
      ensures r.Err? ==> r.error == IndexError
      ensures r.Ok? ==> |r.value| == 10 && forall i :: 0 <= i < 5 ==> r.value[i].text == r.value[i + 5].text
      ensures 0 <= player.score <= 9 ==> r.Ok?
      ensures 0 <= player.score <= 9 ==> forall i :: 0 <= i < 5 ==>
          r.value[i] == Write(scoreboard[0].pos.y + i, scoreboard[0].pos.x, Nums[player.score][i]) &&
          r.value[i + 5] == Write(scoreboard[1].pos.y + i, scoreboard[1].pos.x, Nums[player.score][i])
    {
      BoardsWrites(scoreboard[0], scoreboard[1], player.score)
    }
  }
}
