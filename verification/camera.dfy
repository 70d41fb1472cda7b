/**
 * The camera update of the frame loop in `main`: each held arrow key moves the
 * camera by the frame's step `d` (the truncated `camera_speed * dt`), clamped by
 * `max`/`min` expressions. The keys are handled in the order LEFT, RIGHT (for
 * `camera_x`) and UP, DOWN (for `camera_y`), so both keys of an axis can apply
 * in one frame. One axis is modelled; the other is the same function.
 */
module Camera {
  import opened Arith
  import opened Tiles

  /** The largest offset that keeps a screen of `screen` pixels inside `tiles` tiles. */
  function CameraLimit(tiles: int, screen: int): int {
    tiles * TILE_SIZE - screen
  }

  /** LEFT or UP: move back by `d`, never before the world's first pixel. */
  function StepBack(cam: int, d: nat): (c: int)
    ensures c >= 0
    ensures cam - d >= 0 ==> c == cam - d
    ensures cam - d < 0 ==> c == 0
  {
    Max(0, cam - d)
  }

  /**
   * RIGHT or DOWN as written: move forward by `d`, but not past the limit.
   * There is no lower clamp, so when the world is smaller than the screen
   * the limit, and with it the result, is negative.
   */
  function StepForward(cam: int, d: nat, tiles: int, screen: int): (c: int)
    ensures c <= CameraLimit(tiles, screen)
    ensures cam + d <= CameraLimit(tiles, screen) ==> c == cam + d
    ensures cam + d > CameraLimit(tiles, screen) ==> c == CameraLimit(tiles, screen)
  {
    Min(CameraLimit(tiles, screen), cam + d)
  }

  /** One frame's update of one camera coordinate, as the frame loop does it. */
  function MoveCamera(cam: int, back: bool, forward: bool, d: nat, tiles: int, screen: int): (c: int)
    ensures !back && !forward ==> c == cam
    ensures back && !forward ==> c >= 0
    ensures forward ==> c <= CameraLimit(tiles, screen)
  {
    var afterBack := if back then StepBack(cam, d) else cam;
    if forward then StepForward(afterBack, d, tiles, screen) else afterBack
  }

  /** A camera offset that keeps the whole screen inside the world, or 0 when the world is smaller. */
  predicate InView(cam: int, tiles: int, screen: int) {
    0 <= cam <= Max(0, CameraLimit(tiles, screen))
  }

  /** When the world is at least as large as the screen, the update keeps the camera in view. */
  lemma MoveCameraKeepsInView(cam: int, back: bool, forward: bool, d: nat, tiles: int, screen: int)
    requires CameraLimit(tiles, screen) >= 0
    requires InView(cam, tiles, screen)
    ensures InView(MoveCamera(cam, back, forward, d, tiles, screen), tiles, screen)
  {
  }

  /**
   * When the world is smaller than the screen, pressing RIGHT (or DOWN) takes
   * every camera in view to a negative offset, whatever the step and whether
   * or not LEFT (or UP) is held too.
   */
  lemma MoveCameraLeavesView(cam: int, back: bool, d: nat, tiles: int, screen: int)
    requires CameraLimit(tiles, screen) < 0
    requires InView(cam, tiles, screen)
    ensures MoveCamera(cam, back, true, d, tiles, screen) < 0
    ensures !InView(MoveCamera(cam, back, true, d, tiles, screen), tiles, screen)
  {
  }

  /**
   * An instance, even with a zero step: 40 tiles of 64 pixels on a
   * 3000-pixel-wide window take a camera at 0 to -440.
   */
  lemma MoveCameraLeavesViewExample()
    ensures InView(0, 40, 3000)
    ensures MoveCamera(0, false, true, 0, 40, 3000) == -440
    ensures !InView(MoveCamera(0, false, true, 0, 40, 3000), 40, 3000)
  {
  }

  /** The update with the forward step also clamped at 0. */
  function MoveCameraClamped(cam: int, back: bool, forward: bool, d: nat, tiles: int, screen: int): (c: int)
    ensures !back && !forward ==> c == cam
    ensures back && !forward ==> c >= 0
    ensures forward ==> 0 <= c <= Max(0, CameraLimit(tiles, screen))
  {
    var afterBack := if back then StepBack(cam, d) else cam;
    if forward then Max(0, StepForward(afterBack, d, tiles, screen)) else afterBack
  }

  /** The clamped update keeps the camera in view for every world and screen size. */
  lemma MoveCameraClampedKeepsInView(cam: int, back: bool, forward: bool, d: nat, tiles: int, screen: int)
    requires InView(cam, tiles, screen)
    ensures InView(MoveCameraClamped(cam, back, forward, d, tiles, screen), tiles, screen)
  {
  }

  /** With a world at least as large as the screen, the clamp changes nothing for a camera in view. */
  lemma MoveCameraClampedAgrees(cam: int, back: bool, forward: bool, d: nat, tiles: int, screen: int)
    requires CameraLimit(tiles, screen) >= 0
    requires InView(cam, tiles, screen)
    ensures MoveCameraClamped(cam, back, forward, d, tiles, screen) == MoveCamera(cam, back, forward, d, tiles, screen)
  {
  }
}
