/** The camera: a horizontal scroll offset that follows the player. */
module Viewport {
  import opened Geometry

  /** The offset that puts the target's centre in the middle of the screen,
      clamped so that the screen never shows anything outside the level. */
  function ScrollFor(centerX: int, levelWidth: int): (x: int)
    ensures 0 <= x
    ensures levelWidth >= SCREEN_WIDTH ==> x <= levelWidth - SCREEN_WIDTH
    ensures 0 <= centerX - SCREEN_WIDTH / 2 <= levelWidth - SCREEN_WIDTH
            ==> x == centerX - SCREEN_WIDTH / 2
    ensures centerX <= SCREEN_WIDTH / 2 ==> x == 0
    ensures levelWidth >= SCREEN_WIDTH && centerX >= levelWidth - SCREEN_WIDTH / 2
            ==> x == levelWidth - SCREEN_WIDTH
  {
    Max(0, Min(centerX - SCREEN_WIDTH / 2, levelWidth - SCREEN_WIDTH))
  }

  /** A target inside the level is always on screen. */
  lemma TargetOnScreen(centerX: int, levelWidth: int)
    requires levelWidth >= SCREEN_WIDTH && 0 <= centerX <= levelWidth
    ensures ScrollFor(centerX, levelWidth) <= centerX <= ScrollFor(centerX, levelWidth) + SCREEN_WIDTH
  {
  }

  /** The camera never scrolls against the target's movement. */
  lemma ScrollMonotone(c1: int, c2: int, levelWidth: int)
    requires c1 <= c2
    ensures ScrollFor(c1, levelWidth) <= ScrollFor(c2, levelWidth)
  {
  }

  class Camera {
    /** The width of the level the camera scrolls over. */
    const width: int
    /** The scroll offset. */
    var x: int

    constructor (width: int)
      ensures this.width == width && x == 0
    {
      this.width := width;
      x := 0;
    }

    /** `Camera.update(target)`. */
    method Update(target: Rect)
      modifies this
      ensures x == ScrollFor(target.CenterX(), width)
      ensures 0 <= x && (width >= SCREEN_WIDTH ==> x <= width - SCREEN_WIDTH)
    {
      var nx := target.CenterX() - SCREEN_WIDTH / 2;
      nx := Max(0, Min(nx, width - SCREEN_WIDTH));
      x := nx;
    }
  }
}
