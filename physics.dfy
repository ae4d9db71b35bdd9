/** Static platforms and the one-pass landing rule shared by the player and the enemies. */
module Physics {
  import opened Geometry

  const MIN_PLATFORM_W: int := 640  // 64 px
  const MIN_PLATFORM_H: int := 320  // 32 px

  datatype Theme = Graveyard | Scifi

  /** A static collision surface; it never changes after level generation. */
  datatype Platform = Platform(rect: Rect, theme: Theme)

  /** `Platform(x, y, width, height)`: a platform is at least one tile wide and
      32 px tall, whatever size was asked for. */
  function MakePlatform(x: int, y: int, w: nat, h: nat, theme: Theme): (p: Platform)
    ensures p.rect.x == x && p.rect.y == y && p.theme == theme
    ensures p.rect.w >= MIN_PLATFORM_W && p.rect.h >= MIN_PLATFORM_H
    ensures p.rect.w >= w && p.rect.h >= h
    ensures w >= MIN_PLATFORM_W ==> p.rect.w == w
    ensures h >= MIN_PLATFORM_H ==> p.rect.h == h
  {
    Platform(Rect(x, y, Max(w, MIN_PLATFORM_W), Max(h, MIN_PLATFORM_H)), theme)
  }

  /** The vertical state of a falling body during the platform pass. */
  datatype Fall = Fall(rect: Rect, velY: int, landed: bool)

  /** One platform of the pass. A body that overlaps the platform while moving
      down is put on the platform's top with its fall stopped. The player also
      demands that its bottom is not below the platform's bottom (it cannot be
      pulled up through a platform it is under); the enemies do not. */
  function LandOn(f: Fall, p: Platform, fromAboveOnly: bool): Fall {
    if Catches(f, p, fromAboveOnly) then Fall(f.rect.WithBottom(p.rect.y), 0, true) else f
  }

  /** Whether a platform stops the body in `LandOn`. */
  predicate Catches(f: Fall, p: Platform, fromAboveOnly: bool) {
    Overlaps(f.rect, p.rect) && f.velY > 0
    && (!fromAboveOnly || f.rect.Bottom() <= p.rect.Bottom())
  }

  /** The pass over all platforms in order, one resolution step per platform. */
  function Settle(f: Fall, ps: seq<Platform>, fromAboveOnly: bool): Fall
    decreases |ps|
  {
    if ps == [] then f else Settle(LandOn(f, ps[0], fromAboveOnly), ps[1..], fromAboveOnly)
  }

  /** A body that is not moving down passes through every platform untouched. */
  lemma {:induction false} RisingPassesThrough(f: Fall, ps: seq<Platform>, fromAboveOnly: bool)
    requires f.velY <= 0
    ensures Settle(f, ps, fromAboveOnly) == f
    decreases |ps|
  {
    if ps != [] {
      RisingPassesThrough(f, ps[1..], fromAboveOnly);
    }
  }

  /** The first platform that catches the body decides where it lands: after a
      landing the body is no longer falling, so the rest of the pass leaves it. */
  lemma FirstLandingWins(f: Fall, ps: seq<Platform>, fromAboveOnly: bool)
    requires ps != [] && LandOn(f, ps[0], fromAboveOnly) != f
    ensures Settle(f, ps, fromAboveOnly) == LandOn(f, ps[0], fromAboveOnly)
  {
    RisingPassesThrough(LandOn(f, ps[0], fromAboveOnly), ps[1..], fromAboveOnly);
  }

  /** The pass never moves a body sideways or resizes it; either nothing
      happens, or the body ends up standing still on the top edge of one of the
      platforms. */
  lemma {:induction false} SettleOutcome(f: Fall, ps: seq<Platform>, fromAboveOnly: bool)
    ensures var r := Settle(f, ps, fromAboveOnly);
      && r.rect.x == f.rect.x && r.rect.w == f.rect.w && r.rect.h == f.rect.h
      && (r == f || (r.landed && r.velY == 0
                     && exists i :: 0 <= i < |ps| && r.rect.Bottom() == ps[i].rect.y))
    decreases |ps|
  {
    if ps != [] {
      var g := LandOn(f, ps[0], fromAboveOnly);
      SettleOutcome(g, ps[1..], fromAboveOnly);
      var r := Settle(g, ps[1..], fromAboveOnly);
      if r != g {
        var i :| 0 <= i < |ps[1..]| && r.rect.Bottom() == ps[1..][i].rect.y;
        assert r.rect.Bottom() == ps[i + 1].rect.y;
      } else if g != f {
        assert r.rect.Bottom() == ps[0].rect.y;
      }
    }
  }

  /** Whether the pass stops a body depends only on the body as it enters the
      pass: if some platform would catch it, it ends up standing on one
      (not necessarily that one: an earlier platform may catch it first);
      if none would, the pass leaves it alone. */
  lemma {:induction false} SettleCaught(f: Fall, ps: seq<Platform>, fromAboveOnly: bool)
    ensures (exists i :: 0 <= i < |ps| && Catches(f, ps[i], fromAboveOnly)) ==>
      var r := Settle(f, ps, fromAboveOnly); r.landed && r.velY == 0
    ensures (forall i :: 0 <= i < |ps| ==> !Catches(f, ps[i], fromAboveOnly)) ==>
      Settle(f, ps, fromAboveOnly) == f
    decreases |ps|
  {
    if ps != [] {
      if Catches(f, ps[0], fromAboveOnly) {
        FirstLandingWins(f, ps, fromAboveOnly);
      } else {
        SettleCaught(f, ps[1..], fromAboveOnly);
        if exists i :: 0 <= i < |ps| && Catches(f, ps[i], fromAboveOnly) {
          var i :| 0 <= i < |ps| && Catches(f, ps[i], fromAboveOnly);
          assert ps[1..][i - 1] == ps[i];
        }
      }
    }
  }

  /** The quirk between the two landing rules: an enemy falling while its
      bottom is already below a platform's bottom is snapped up onto that
      platform, where the player would keep falling. */
  lemma EnemySnapsUpThroughPlatform()
    ensures var p := MakePlatform(0, 4000, 1500, 200, Graveyard);
      var f := Fall(Rect(0, 3900, 700, 700), 8, false);
      && LandOn(f, p, false) == Fall(Rect(0, 3300, 700, 700), 0, true)
      && LandOn(f, p, true) == f
  {
    var p := MakePlatform(0, 4000, 1500, 200, Graveyard);
    assert p.rect == Rect(0, 4000, 1500, 320);
    var f := Fall(Rect(0, 3900, 700, 700), 8, false);
    assert Overlaps(f.rect, p.rect);
    assert f.rect.Bottom() == 4600 > p.rect.Bottom();
  }
}
