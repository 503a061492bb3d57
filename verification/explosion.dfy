/** The explosion effect: a 4 x 4 sprite sheet played cell by cell, one cell
    every 1000/30 milliseconds, left to right and then top to bottom. */
module Explosions {
  import opened Batching

  const TIME_TO_NEXT_FRAME: real := 1000.0 / 30.0
  const COLS: nat := 4
  const ROWS: nat := 4
  /** Width and height of one cell of the sheet, in texels. */
  const CELL: real := 32.0

  /** The animation state: whether it plays, the time gathered towards the next
      cell, and the current cell. */
  datatype Playback = Playback(playing: bool, timeToNextFrame: real, currCol: nat, currRow: nat)

  const START := Playback(true, 0.0, 0, 0)

  predicate InGrid(p: Playback)
  {
    p.currCol < COLS && p.currRow < ROWS
  }

  /** Moves to the next cell, wrapping to the next row after the last column;
      after the last row the animation stops and returns to row 0. */
  function Advance(p: Playback): (q: Playback)
    requires InGrid(p)
    ensures InGrid(q) && q.timeToNextFrame == 0.0
    ensures q.playing ==> q.currRow * COLS + q.currCol == p.currRow * COLS + p.currCol + 1
    ensures !q.playing <==> (!p.playing || (p.currCol == COLS - 1 && p.currRow == ROWS - 1))
  {
    if p.currCol + 1 < COLS then p.(timeToNextFrame := 0.0, currCol := p.currCol + 1)
    else if p.currRow + 1 < ROWS then p.(timeToNextFrame := 0.0, currCol := 0, currRow := p.currRow + 1)
    else p.(playing := false, timeToNextFrame := 0.0, currCol := 0, currRow := 0)
  }

  /** One update of `dt` milliseconds. */
  function Step(p: Playback, dt: real): (q: Playback)
    requires InGrid(p)
    ensures InGrid(q)
    ensures !p.playing ==> q == p
    ensures (q.currCol, q.currRow) != (p.currCol, p.currRow)
            ==> p.playing && p.timeToNextFrame + dt > TIME_TO_NEXT_FRAME && q.timeToNextFrame == 0.0
    ensures p.playing && p.timeToNextFrame + dt <= TIME_TO_NEXT_FRAME
            ==> q == p.(timeToNextFrame := p.timeToNextFrame + dt)
  {
    if !p.playing then p
    else if p.timeToNextFrame + dt > TIME_TO_NEXT_FRAME then Advance(p)
    else p.(timeToNextFrame := p.timeToNextFrame + dt)
  }

  /** `n` cell advances in a row. */
  function Advances(p: Playback, n: nat): (q: Playback)
    requires InGrid(p)
    ensures InGrid(q)
  {
    if n == 0 then p else Advance(Advances(p, n - 1))
  }

  /** After `k` < 16 advances from the start the animation still plays and
      shows cell k, counting row by row. */
  lemma {:induction false} PlayingThrough(k: nat)
    requires k < COLS * ROWS
    ensures var q := Advances(START, k);
      q.playing && q.timeToNextFrame == 0.0 && q.currRow * COLS + q.currCol == k
  {
    if k > 0 {
      PlayingThrough(k - 1);
    }
  }

  /** After cols * rows = 16 advances from the start, the animation has stopped
      and is back at row 0. */
  lemma PlayedOut()
    ensures var q := Advances(START, COLS * ROWS); !q.playing && q.currRow == 0 && q.currCol == 0
  {
    PlayingThrough(COLS * ROWS - 1);
  }

  /** The sheet cell shown for `p`. */
  function CellRect(p: Playback): (r: Rect)
    requires InGrid(p)
    ensures 0.0 <= r.x && r.x + r.width <= COLS as real * CELL
    ensures 0.0 <= r.y && r.y + r.height <= ROWS as real * CELL
  {
    Rect(p.currCol as real * CELL, p.currRow as real * CELL, CELL, CELL)
  }

  /** On a sheet of exactly cols x rows cells, the cell maps to the texture
      coordinates of its quarter of the sheet in each direction. */
  lemma CellUv(id: TextureId, p: Playback)
    requires InGrid(p)
    ensures var uv := SourceUv(Texture(id, COLS as real * CELL, ROWS as real * CELL), CellRect(p));
      && uv == UvSpan(p.currCol as real / COLS as real, p.currRow as real / ROWS as real,
                      (p.currCol + 1) as real / COLS as real, (p.currRow + 1) as real / ROWS as real)
      && 0.0 <= uv.u0 < uv.u1 <= 1.0 && 0.0 <= uv.v0 < uv.v1 <= 1.0
  {
  }

  /** What `draw` asks the sprite renderer for: `drawSpriteSource(texture,
      drawRect, sourceRect)`. */
  datatype DrawRequest = DrawRequest(texture: Texture, drawRect: Rect, sourceRect: Rect)

  class Explosion {
    var playing: bool
    var timeToNextFrame: real
    var sourceRect: Rect
    var drawRect: Rect
    var currCol: nat
    var currRow: nat
    const cols: nat := COLS
    const rows: nat := ROWS

    ghost function State(): Playback
      reads this
    {
      Playback(playing, timeToNextFrame, currCol, currRow)
    }

    ghost predicate Valid()
      reads this
    {
      && InGrid(State())
      && sourceRect.width == CELL && sourceRect.height == CELL
    }

    constructor()
      ensures Valid()
      ensures State() == Playback(false, 0.0, 0, 0)
      ensures sourceRect == Rect(0.0, 0.0, CELL, CELL) && drawRect == Rect(0.0, 0.0, CELL, CELL)
    {
      playing := false;
      timeToNextFrame := 0.0;
      currCol := 0;
      currRow := 0;
      sourceRect := Rect(0.0, 0.0, CELL, CELL);
      drawRect := Rect(0.0, 0.0, CELL, CELL);
    }

    /** Starts the animation over at the first cell, drawn at `drawRect`. */
    method Play(drawRect: Rect)
      requires Valid()
      modifies this
      ensures Valid()
      ensures State() == START
      ensures this.drawRect == drawRect && sourceRect == old(sourceRect)
    {
      playing := true;
      timeToNextFrame := 0.0;
      currCol := 0;
      currRow := 0;
      this.drawRect := drawRect;
    }

    /** Gathers `dt` milliseconds and shows the next cell once more than
        TIME_TO_NEXT_FRAME have gathered. */
    method Update(dt: real)
      requires Valid()
      modifies this
      ensures Valid()
      ensures State() == Step(old(State()), dt)
      ensures drawRect == old(drawRect) && sourceRect == old(sourceRect)
    {
      if playing {
        timeToNextFrame := timeToNextFrame + dt;
        if timeToNextFrame > TIME_TO_NEXT_FRAME {
          timeToNextFrame := 0.0;
          currCol := currCol + 1;
          if currCol >= cols {
            currCol := 0;
            currRow := currRow + 1;
            if currRow >= rows {
              playing := false;
              currRow := 0;
            }
          }
        }
      }
    }

    /** Points the source rectangle at the current cell and asks for the
        explosion sheet to be drawn from it. */
    method Draw(texture: Texture) returns (request: DrawRequest)
      requires Valid()
      modifies this`sourceRect
      ensures Valid()
      ensures sourceRect == CellRect(State())
      ensures request == DrawRequest(texture, drawRect, sourceRect)
    {
      sourceRect := sourceRect.(x := currCol as real * sourceRect.width);
      sourceRect := sourceRect.(y := currRow as real * sourceRect.height);
      request := DrawRequest(texture, drawRect, sourceRect);
    }
  }
}
