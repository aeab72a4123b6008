/**
 * Geometry of the stage: the fixed sizes, the player-versus-balloon
 * overlap test and the clamped horizontal moves (js/catch.js).
 * Coordinates are reals, x to the right and y downwards; a box is given by
 * its top-left corner.
 */
module Geometry {

  const BALLOON_W: real := 44.0
  const BALLOON_H: real := 56.0
  const PLAYER_W: real := 44.0
  const PLAYER_H: real := 62.0
  const KEY_MOVE_PX: real := 6.0
  const TAP_MOVE_PX: real := 24.0
  const BASE_FALL_SPEED: real := 80.0
  /** How far below the stage a balloon may fall before it is dropped. */
  const OFFSCREEN_MARGIN: real := 10.0

  function Min(a: real, b: real): real { if a <= b then a else b }
  function Max(a: real, b: real): real { if a >= b then a else b }

  /**
   * Strict overlap of the player's box (left edge `px`, standing on the
   * bottom of a stage of height `stageHeight`) with a balloon's box at
   * (`ballX`, `ballY`). Equivalently: the balloon's corner lies in an open window.
   */
  predicate Collides(px: real, stageHeight: real, ballX: real, ballY: real)
    ensures Collides(px, stageHeight, ballX, ballY) <==>
      (px - BALLOON_W < ballX < px + PLAYER_W && stageHeight - PLAYER_H - BALLOON_H < ballY < stageHeight)
  {
    var py := stageHeight - PLAYER_H;
    px < ballX + BALLOON_W && px + PLAYER_W > ballX && py < ballY + BALLOON_H && py + PLAYER_H > ballY
  }

  /** The point (x, y) lies strictly inside the box at (left, top) of size w by h. */
  predicate Inside(x: real, y: real, left: real, top: real, w: real, h: real)
  {
    left < x < left + w && top < y < top + h
  }

  /** Reference definition: two boxes overlap when some point lies strictly inside both. */
  lemma CollidesIffSharedPoint(px: real, stageHeight: real, ballX: real, ballY: real)
    ensures Collides(px, stageHeight, ballX, ballY) <==>
      exists x, y :: Inside(x, y, px, stageHeight - PLAYER_H, PLAYER_W, PLAYER_H) && Inside(x, y, ballX, ballY, BALLOON_W, BALLOON_H)
  {
    var py := stageHeight - PLAYER_H;
    if Collides(px, stageHeight, ballX, ballY) {
      var x := (Max(px, ballX) + Min(px + PLAYER_W, ballX + BALLOON_W)) / 2.0;
      var y := (Max(py, ballY) + Min(py + PLAYER_H, ballY + BALLOON_H)) / 2.0;
      assert Inside(x, y, px, py, PLAYER_W, PLAYER_H) && Inside(x, y, ballX, ballY, BALLOON_W, BALLOON_H);
    }
  }

  /** Boxes that only touch along an edge do not collide. */
  lemma TouchingIsNoCollision(px: real, stageHeight: real, ballX: real, ballY: real)
    requires ballX == px + PLAYER_W || ballX + BALLOON_W == px || ballY + BALLOON_H == stageHeight - PLAYER_H || ballY == stageHeight
    ensures !Collides(px, stageHeight, ballX, ballY)
  {
  }

  /** A move to the left by `step`, stopped by the left wall. */
  function MoveLeft(x: real, step: real): (nx: real)
    ensures nx >= 0.0
    ensures x >= step ==> nx == x - step
    ensures x < step ==> nx == 0.0
  {
    Max(0.0, x - step)
  }

  /** A move to the right by `step`, stopped where the player's right edge meets the stage's. */
  function MoveRight(x: real, step: real, width: real): (nx: real)
    ensures nx <= width - PLAYER_W
    ensures x + step <= width - PLAYER_W ==> nx == x + step
    ensures x + step > width - PLAYER_W ==> nx == width - PLAYER_W
  {
    Min(width - PLAYER_W, x + step)
  }

  /** A player inside a stage at least as wide as the player stays inside after any move. */
  lemma MovesStayInside(x: real, step: real, width: real)
    requires PLAYER_W <= width && 0.0 <= x <= width - PLAYER_W && step >= 0.0
    ensures 0.0 <= MoveLeft(x, step) <= x
    ensures x <= MoveRight(x, step, width) <= width - PLAYER_W
  {
  }
}
