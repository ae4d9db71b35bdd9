/** Player bullets, enemy bullets and explosion effects. */
module Projectiles {
  import opened Geometry
  import opened Options

  /** The bullet's fallback sprite is 12 x 6 px. */
  const BULLET_W: int := 120  // 12 px
  const BULLET_H: int := 60  // 6 px
  /** Enemy bullets move 4 px per tick slower than the player's. */
  const ENEMY_BULLET_SPEED: int := 80  // 8 px
  const ENEMY_BULLET_SIZE: int := 100  // 10 px
  const EXPLOSION_FRAMES: int := 15

  /** The angles a bullet can be fired at, in degrees above the facing direction. */
  predicate FiringAngle(angle: int) { angle == -15 || angle == 0 || angle == 15 }

  predicate Facing(direction: int) { direction == 1 || direction == -1 }

  /** A player bullet: its centre, its velocity, and the direction and angle it
      was fired with. */
  datatype Bullet = Bullet(x: int, y: int, vx: int, vy: int, direction: int, angle: int) {
    function Box(): Rect { Centered(x, y, BULLET_W, BULLET_H) }
  }

  /** The velocity `BULLET_SPEED * (cos a, -sin a) * direction`, with the cosine
      and sine of 15 degrees rounded to tenths of a pixel. */
  function Velocity(angle: int, direction: int): (v: (int, int))
    requires FiringAngle(angle) && Facing(direction)
    ensures v.0 * direction > 0
    ensures angle == 0 ==> v == (if direction > 0 then BULLET_SPEED else -BULLET_SPEED, 0)
    ensures angle != 0 ==> v.1 * angle * direction < 0
  {
    if angle == 0 then (120 * direction, 0)
    else if angle > 0 then (116 * direction, -31 * direction)
    else (116 * direction, 31 * direction)
  }

  /** `Bullet(x, y, direction, angle)`: a bullet centred on (x, y). */
  function Fire(x: int, y: int, direction: int, angle: int): (b: Bullet)
    requires FiringAngle(angle) && Facing(direction)
    ensures b.x == x && b.y == y && b.direction == direction && b.angle == angle
    ensures b.vx * direction > 0
  {
    var v := Velocity(angle, direction);
    Bullet(x, y, v.0, v.1, direction, angle)
  }

  /** A bullet is destroyed once it is past an edge of the play area. The
      horizontal bound is the first level's width, whatever level is played. */
  predicate OutOfPlay(r: Rect) {
    r.Right() < 0 || r.x > LEVEL_WIDTH || r.y < 0 || r.Bottom() > SCREEN_HEIGHT
  }

  /** `Bullet.update`: move by the velocity, then disappear if out of play. */
  function BulletStep(b: Bullet): (r: Option<Bullet>)
    ensures r.Some? ==> !OutOfPlay(r.value.Box())
    ensures r.Some? ==> r.value == b.(x := b.x + b.vx, y := b.y + b.vy)
    ensures r.None? ==> OutOfPlay(b.(x := b.x + b.vx, y := b.y + b.vy).Box())
  {
    var moved := b.(x := b.x + b.vx, y := b.y + b.vy);
    if OutOfPlay(moved.Box()) then None else Some(moved)
  }

  /** `for bullet in self.bullets: bullet.update()`: every bullet moves once
      and those that left play are removed; the rest keep their order. */
  function BulletsStepped(bs: seq<Bullet>): (r: seq<Bullet>)
    ensures |r| <= |bs|
    ensures forall i :: 0 <= i < |r| ==> !OutOfPlay(r[i].Box())
    ensures forall i :: 0 <= i < |bs| && BulletStep(bs[i]).Some? ==> BulletStep(bs[i]).value in r
  {
    if bs == [] then []
    else
      var step := BulletStep(bs[|bs| - 1]);
      assert forall i :: 0 <= i < |bs| - 1 ==> bs[..|bs| - 1][i] == bs[i];
      BulletsStepped(bs[..|bs| - 1]) + (if step.Some? then [step.value] else [])
  }

  /** The bullets after the pass are exactly the moved bullets that are still
      in play: nothing is added, and none that stays in play is lost. */
  lemma {:induction false} BulletsSteppedExactly(bs: seq<Bullet>)
    ensures forall b :: b in BulletsStepped(bs) <==> exists i :: 0 <= i < |bs| && BulletStep(bs[i]) == Some(b)
  {
    if bs != [] {
      var init := bs[..|bs| - 1];
      BulletsSteppedExactly(init);
      forall b | b in BulletsStepped(bs)
        ensures exists i :: 0 <= i < |bs| && BulletStep(bs[i]) == Some(b)
      {
        if b in BulletsStepped(init) {
          var i :| 0 <= i < |init| && BulletStep(init[i]) == Some(b);
          assert bs[i] == init[i];
        } else {
          assert BulletStep(bs[|bs| - 1]) == Some(b);
        }
      }
    }
  }

  method StepBullets(bs: seq<Bullet>) returns (r: seq<Bullet>)
    ensures r == BulletsStepped(bs)
  {
    r := [];
    for i := 0 to |bs|
      invariant r == BulletsStepped(bs[..i])
    {
      assert bs[..i + 1][..i] == bs[..i];
      match BulletStep(bs[i]) {
        case Some(b) => r := r + [b];
        case None =>
      }
    }
    assert bs[..|bs|] == bs;
  }

  /** The bullet after `n` updates, or None once it has been destroyed. */
  function Fly(b: Bullet, n: nat): (r: Option<Bullet>)
    ensures r.Some? ==> r.value == b.(x := b.x + n * b.vx, y := b.y + n * b.vy)
    ensures n > 0 && r.Some? ==> !OutOfPlay(r.value.Box())
    decreases n
  {
    if n == 0 then Some(b)
    else match BulletStep(b)
      case None => None
      case Some(next) =>
        assert b.x + b.vx + (n - 1) * b.vx == b.x + n * b.vx;
        assert b.y + b.vy + (n - 1) * b.vy == b.y + n * b.vy;
        Fly(next, n - 1)
  }

  /** How far the bullet still is from the edge it is heading for. */
  function Remaining(b: Bullet): int {
    if b.vx > 0 then LEVEL_WIDTH - b.Box().x else b.Box().Right()
  }

  /** No bullet lives forever: a bullet with a horizontal velocity (every fired
      bullet has one) is gone after at most `Remaining(b) + 1` updates. */
  lemma {:induction false} BulletLifetime(b: Bullet, n: nat)
    requires b.vx != 0 && n >= 1 && n > Remaining(b)
    ensures Fly(b, n) == None
    decreases n
  {
    assert Half(BULLET_W) == 60;
    match BulletStep(b)
    case None =>
    case Some(next) =>
      assert Remaining(next) <= Remaining(b) - 1;
      assert Remaining(next) >= 0;
      BulletLifetime(next, n - 1);
  }

  /** The quirk of the bounds test: in the second level (2800 px wide) a
      bullet flying right at x = 2500 px is destroyed although it is still
      inside the level. */
  lemma BulletCulledInsideWiderLevel()
    ensures BulletStep(Fire(Px(2500), Px(300), 1, 0)) == None
  {
    assert Half(BULLET_W) == 60;
  }

  /** An enemy bullet: a 10 px ball moving horizontally. */
  datatype EnemyBullet = EnemyBullet(box: Rect, direction: int)

  /** `EnemyBullet.update`: move `ENEMY_BULLET_SPEED` (80 units) in the bullet's
      direction; disappear past the left edge or past the first level's width
      (there is no vertical bound). */
  function EnemyBulletStep(b: EnemyBullet): (r: Option<EnemyBullet>)
    ensures r.Some? ==> r.value.box.Right() >= 0 && r.value.box.x <= LEVEL_WIDTH
    ensures r.Some? ==> r.value == b.(box := b.box.(x := b.box.x + 80 * b.direction))
    ensures r.None? ==> b.box.Right() + 80 * b.direction < 0
                        || b.box.x + 80 * b.direction > LEVEL_WIDTH
  {
    var moved := b.box.(x := b.box.x + 80 * b.direction);
    if moved.Right() < 0 || moved.x > LEVEL_WIDTH then None else Some(b.(box := moved))
  }

  /** `for bullet in self.enemy_bullets: bullet.update()`: every enemy bullet
      moves once and those past the edges are removed; the rest keep their order. */
  function EnemyBulletsStepped(bs: seq<EnemyBullet>): (r: seq<EnemyBullet>)
    ensures |r| <= |bs|
    ensures forall i :: 0 <= i < |r| ==> r[i].box.Right() >= 0 && r[i].box.x <= LEVEL_WIDTH
    ensures forall i :: 0 <= i < |bs| && EnemyBulletStep(bs[i]).Some? ==> EnemyBulletStep(bs[i]).value in r
  {
    if bs == [] then []
    else
      var step := EnemyBulletStep(bs[|bs| - 1]);
      assert forall i :: 0 <= i < |bs| - 1 ==> bs[..|bs| - 1][i] == bs[i];
      EnemyBulletsStepped(bs[..|bs| - 1]) + (if step.Some? then [step.value] else [])
  }

  /** The enemy bullets after the pass are exactly the moved ones still
      inside the horizontal bounds. */
  lemma {:induction false} EnemyBulletsSteppedExactly(bs: seq<EnemyBullet>)
    ensures forall b :: b in EnemyBulletsStepped(bs) <==> exists i :: 0 <= i < |bs| && EnemyBulletStep(bs[i]) == Some(b)
  {
    if bs != [] {
      var init := bs[..|bs| - 1];
      EnemyBulletsSteppedExactly(init);
      forall b | b in EnemyBulletsStepped(bs)
        ensures exists i :: 0 <= i < |bs| && EnemyBulletStep(bs[i]) == Some(b)
      {
        if b in EnemyBulletsStepped(init) {
          var i :| 0 <= i < |init| && EnemyBulletStep(init[i]) == Some(b);
          assert bs[i] == init[i];
        } else {
          assert EnemyBulletStep(bs[|bs| - 1]) == Some(b);
        }
      }
    }
  }

  method StepEnemyBullets(bs: seq<EnemyBullet>) returns (r: seq<EnemyBullet>)
    ensures r == EnemyBulletsStepped(bs)
  {
    r := [];
    for i := 0 to |bs|
      invariant r == EnemyBulletsStepped(bs[..i])
    {
      assert bs[..i + 1][..i] == bs[..i];
      match EnemyBulletStep(bs[i]) {
        case Some(b) => r := r + [b];
        case None =>
      }
    }
    assert bs[..|bs|] == bs;
  }

  /** The explosion drawn where an enemy died: a 15-frame animation. */
  datatype Explosion = Explosion(x: int, y: int, frame: nat)

  /** `Explosion.update`: advance one frame; disappear when the animation ends. */
  function ExplosionStep(e: Explosion): (r: Option<Explosion>)
    ensures r.Some? <==> e.frame + 1 < EXPLOSION_FRAMES
    ensures r.Some? ==> r.value == e.(frame := e.frame + 1)
  {
    if e.frame + 1 >= EXPLOSION_FRAMES then None else Some(e.(frame := e.frame + 1))
  }

  /** `for explosion in self.explosions: explosion.update()`: every explosion
      advances one frame and those whose animation ended are removed. */
  function ExplosionsStepped(es: seq<Explosion>): (r: seq<Explosion>)
    ensures |r| <= |es|
    ensures forall i :: 0 <= i < |r| ==> 0 < r[i].frame < EXPLOSION_FRAMES
    ensures forall i :: 0 <= i < |es| && ExplosionStep(es[i]).Some? ==> ExplosionStep(es[i]).value in r
  {
    if es == [] then []
    else
      var step := ExplosionStep(es[|es| - 1]);
      assert forall i :: 0 <= i < |es| - 1 ==> es[..|es| - 1][i] == es[i];
      ExplosionsStepped(es[..|es| - 1]) + (if step.Some? then [step.value] else [])
  }

  /** The explosions after the pass are exactly those that were below their
      last frame, each one frame further on. */
  lemma {:induction false} ExplosionsSteppedExactly(es: seq<Explosion>)
    ensures forall e :: e in ExplosionsStepped(es) <==> exists i :: 0 <= i < |es| && ExplosionStep(es[i]) == Some(e)
  {
    if es != [] {
      var init := es[..|es| - 1];
      ExplosionsSteppedExactly(init);
      forall e | e in ExplosionsStepped(es)
        ensures exists i :: 0 <= i < |es| && ExplosionStep(es[i]) == Some(e)
      {
        if e in ExplosionsStepped(init) {
          var i :| 0 <= i < |init| && ExplosionStep(init[i]) == Some(e);
          assert es[i] == init[i];
        } else {
          assert ExplosionStep(es[|es| - 1]) == Some(e);
        }
      }
    }
  }

  method StepExplosions(es: seq<Explosion>) returns (r: seq<Explosion>)
    ensures r == ExplosionsStepped(es)
  {
    r := [];
    for i := 0 to |es|
      invariant r == ExplosionsStepped(es[..i])
    {
      assert es[..i + 1][..i] == es[..i];
      match ExplosionStep(es[i]) {
        case Some(e) => r := r + [e];
        case None =>
      }
    }
    assert es[..|es|] == es;
  }

  /** The explosion after `n` updates, or None once it has been removed. */
  function Fade(e: Explosion, n: nat): (r: Option<Explosion>)
    ensures r.Some? ==> r.value == e.(frame := e.frame + n)
    ensures n > 0 && r.Some? ==> r.value.frame < EXPLOSION_FRAMES
    decreases n
  {
    if n == 0 then Some(e)
    else match ExplosionStep(e)
      case None => None
      case Some(next) => Fade(next, n - 1)
  }

  /** An explosion at frame f is still shown after 14 - f updates and is
      removed by the update after that; a new one lasts 15 ticks. */
  lemma {:induction false} ExplosionLifetime(e: Explosion)
    requires e.frame < EXPLOSION_FRAMES
    ensures Fade(e, EXPLOSION_FRAMES - 1 - e.frame) == Some(e.(frame := EXPLOSION_FRAMES - 1))
    ensures Fade(e, EXPLOSION_FRAMES - e.frame) == None
    decreases EXPLOSION_FRAMES - e.frame
  {
    if e.frame + 1 < EXPLOSION_FRAMES {
      ExplosionLifetime(e.(frame := e.frame + 1));
    }
  }
}
