/** Units, game constants and axis-aligned rectangles.

    Every length and velocity is counted in tenths of a pixel, so that the two
    fractional constants of the game (a gravity of 0.8 px per tick and the heavy
    enemy's 1.2 px per tick) are exact integers. A pixel constant `n` of the game
    therefore appears here as `10 * n`, and a pixel count computed at run time
    as `Px(n)`. */
module Geometry {

  const SCREEN_WIDTH: int := 8000  // 800 px
  const SCREEN_HEIGHT: int := 6000  // 600 px
  /** The floor line every body stands on when no platform holds it. */
  const FLOOR_Y: int := 5500  // 550 px
  /** The width of the first level; projectiles are culled against it in every level. */
  const LEVEL_WIDTH: int := 24000  // 2400 px
  const GRAVITY: int := 8
  const PLAYER_SPEED: int := 50  // 5 px
  const JUMP_STRENGTH: int := -150  // -15 px
  const BULLET_SPEED: int := 120  // 12 px
  const ENEMY_SPEED: int := 20  // 2 px

  /** `n` whole pixels, in model units. */
  function Px(n: int): (u: int)
    ensures n >= 0 ==> u >= 0
  {
    n * 10
  }

  /** A length in model units, in whole pixels (rounded down). */
  function ToPx(len: int): int { len / 10 }

  function Max(a: int, b: int): int { if a < b then b else a }
  function Min(a: int, b: int): int { if a < b then a else b }

  /** Half of a length the way the game's rectangles halve it: floor division of
      the whole-pixel size. */
  function Half(len: nat): nat { Px(ToPx(len) / 2) }

  /** An axis-aligned rectangle: top-left corner and size. */
  datatype Rect = Rect(x: int, y: int, w: nat, h: nat) {
    function Right(): int { x + w }
    function Bottom(): int { y + h }
    function CenterX(): int { x + Half(w) }
    function CenterY(): int { y + Half(h) }

    /** The same rectangle moved vertically so that its bottom edge is at `b`. */
    function WithBottom(b: int): (r: Rect)
      ensures r.Bottom() == b && r.x == x && r.w == w && r.h == h
    {
      Rect(x, b - h, w, h)
    }
  }

  /** The rectangle of size `w` by `h` whose centre is at (`cx`, `cy`). */
  function Centered(cx: int, cy: int, w: nat, h: nat): Rect {
    Rect(cx - Half(w), cy - Half(h), w, h)
  }

  /** A centred rectangle has the centre and the size it was asked for. */
  lemma CenteredAt(cx: int, cy: int, w: nat, h: nat)
    ensures var r := Centered(cx, cy, w, h);
      r.CenterX() == cx && r.CenterY() == cy && r.w == w && r.h == h
  {
  }

  /** Two rectangles overlap when their interiors intersect; touching edges do not count. */
  predicate Overlaps(a: Rect, b: Rect) {
    a.x < b.Right() && b.x < a.Right() && a.y < b.Bottom() && b.y < a.Bottom()
  }
}
