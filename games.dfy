/** The game controller: one tick of play, the key handling, the level
    change and the restart. */
module Games {
  import opened Geometry
  import opened Physics
  import opened Options
  import opened Projectiles
  import opened Players
  import opened Enemies
  import opened Levels
  import opened Viewport
  import opened Randomness
  import opened Input

  /** Damage dealt by an enemy bullet and by touching a living enemy. */
  const SHOT_DAMAGE: int := 20
  const MELEE_DAMAGE: int := 15
  /** Health restored by a health pack, and points for any pickup. */
  const HEAL: int := 30
  const PICKUP_POINTS: int := 50

  /** The state of a game that its rules read and write. */
  datatype GameData = GameData(
    player: PlayerData, level: LevelData, cameraX: int,
    bullets: seq<Bullet>, enemyBullets: seq<EnemyBullet>, explosions: seq<Explosion>,
    score: int, levelNum: int, character: int,
    gameOver: bool, levelComplete: bool, paused: bool, returnToMenu: bool,
    cursor: nat)

  /** `Game(character_num)`: level 1, a new player at the spawn point, nothing
      in flight, no score; `cursor` is the generator's position afterwards. */
  function NewGame(character: int, stream: seq<int>, cursor: nat): (g: GameData)
    ensures g.levelNum == 1 && g.level.num == 1 && g.score == 0 && g.character == character
    ensures g.player == NewPlayer(SPAWN_X, SPAWN_Y, character)
    ensures g.bullets == [] && g.enemyBullets == [] && g.explosions == [] && g.cameraX == 0
    ensures !g.gameOver && !g.levelComplete && !g.paused && !g.returnToMenu
  {
    Begun(character, Generated(FIRST_LEVEL, stream, cursor))
  }

  /** A new game on the freshly generated first level `l.0`, the generator
      left at `l.1`. */
  function Begun(character: int, l: (LevelData, nat)): GameData {
    GameData(NewPlayer(SPAWN_X, SPAWN_Y, character), l.0, 0, [], [], [], 0, FIRST_LEVEL, character,
             false, false, false, false, l.1)
  }

  // ---------------------------------------------------------------------
  // One tick: movement

  /** The enemy pass: every enemy is updated once, in group order, and those
      whose death animation has ended leave the group. */
  function EnemiesStepped(ds: seq<EnemyData>, platforms: seq<Platform>, playerX: int): (r: seq<EnemyData>)
    ensures |r| <= |ds|
  {
    if ds == [] then []
    else
      var last := Stepped(ds[|ds| - 1], platforms, playerX);
      EnemiesStepped(ds[..|ds| - 1], platforms, playerX) + (if last.1 then [] else [last.0])
  }

  /** The enemy pass keeps exactly the updated enemies whose death animation
      has not ended: a dying enemy stays in the group until its timer
      reaches 60. */
  lemma {:induction false} EnemiesSteppedExactly(ds: seq<EnemyData>, platforms: seq<Platform>, playerX: int)
    ensures forall x :: x in EnemiesStepped(ds, platforms, playerX) <==>
      exists i :: 0 <= i < |ds| && !Stepped(ds[i], platforms, playerX).1 && Stepped(ds[i], platforms, playerX).0 == x
  {
    if ds != [] {
      var init := ds[..|ds| - 1];
      EnemiesSteppedExactly(init, platforms, playerX);
      forall x | x in EnemiesStepped(ds, platforms, playerX)
        ensures exists i :: 0 <= i < |ds| && !Stepped(ds[i], platforms, playerX).1 && Stepped(ds[i], platforms, playerX).0 == x
      {
        if x in EnemiesStepped(init, platforms, playerX) {
          var i :| 0 <= i < |init| && !Stepped(init[i], platforms, playerX).1 && Stepped(init[i], platforms, playerX).0 == x;
          assert ds[i] == init[i];
        } else {
          assert Stepped(ds[|ds| - 1], platforms, playerX).0 == x;
        }
      }
      forall i | 0 <= i < |ds| && !Stepped(ds[i], platforms, playerX).1
        ensures Stepped(ds[i], platforms, playerX).0 in EnemiesStepped(ds, platforms, playerX)
      {
        if i < |init| {
          assert ds[i] == init[i];
        }
      }
    }
  }

  /** Every enemy of a group is well formed. */
  predicate AllWellformed(ds: seq<EnemyData>) {
    forall i :: 0 <= i < |ds| ==> Wellformed(ds[i])
  }

  /** The number of enemies that are not dying. */
  function Living(ds: seq<EnemyData>): nat {
    if ds == [] then 0 else Living(ds[..|ds| - 1]) + (if ds[|ds| - 1].dying then 0 else 1)
  }

  /** Counting the living and checking well-formedness both extend over one
      more enemy at the end. */
  lemma LivingAppend(ds: seq<EnemyData>, d: EnemyData)
    ensures Living(ds + [d]) == Living(ds) + (if d.dying then 0 else 1)
    ensures AllWellformed(ds) && Wellformed(d) ==> AllWellformed(ds + [d])
  {
    assert (ds + [d])[..|ds|] == ds;
  }

  /** The enemy pass removes only dying enemies, and keeps every enemy well formed. */
  lemma {:induction false} EnemiesSteppedKeepLiving(ds: seq<EnemyData>, platforms: seq<Platform>, playerX: int)
    requires AllWellformed(ds)
    ensures var r := EnemiesStepped(ds, platforms, playerX); Living(r) == Living(ds) && AllWellformed(r)
  {
    if ds != [] {
      var init := ds[..|ds| - 1];
      var d := ds[|ds| - 1];
      assert ds == init + [d];
      EnemiesSteppedKeepLiving(init, platforms, playerX);
      SteppedWellformed(d, platforms, playerX);
      LivingAppend(init, d);
      var rest := EnemiesStepped(init, platforms, playerX);
      var last := Stepped(d, platforms, playerX);
      if last.1 {
        assert EnemiesStepped(ds, platforms, playerX) == rest;
      } else {
        LivingAppend(rest, last.0);
        assert EnemiesStepped(ds, platforms, playerX) == rest + [last.0];
      }
    }
  }

  /** The player moves and the camera follows it. */
  function PlayerMoved(g: GameData, held: Held): GameData {
    var player := Updated(g.player, g.level.platforms, g.level.width, held);
    g.(player := player, cameraX := ScrollFor(player.box.CenterX(), g.level.width))
  }

  /** The player's bullets update. */
  function BulletsMoved(g: GameData): GameData {
    g.(bullets := BulletsStepped(g.bullets))
  }

  /** The enemy bullets and then the explosions update. */
  function EffectsMoved(g: GameData): GameData {
    g.(enemyBullets := EnemyBulletsStepped(g.enemyBullets), explosions := ExplosionsStepped(g.explosions))
  }

  /** The enemy pass, chasing the player where it stands now. */
  function EnemiesMoved(g: GameData): GameData {
    g.(level := g.level.(enemies := EnemiesStepped(g.level.enemies, g.level.platforms, g.player.box.CenterX())))
  }

  /** The first half of `Game.update`: the player moves, the camera follows,
      and the bullets, the enemies, the enemy bullets and the explosions each
      update once (the power-ups' update never moves them). */
  function Moved(g: GameData, held: Held): (r: GameData)
    ensures r.levelNum == g.levelNum && r.score == g.score && r.level.num == g.level.num
    ensures r.gameOver == g.gameOver && r.levelComplete == g.levelComplete
    ensures r.paused == g.paused && r.returnToMenu == g.returnToMenu
  {
    EffectsMoved(EnemiesMoved(BulletsMoved(PlayerMoved(g, held))))
  }

  // ---------------------------------------------------------------------
  // One tick: player bullets against enemies

  /** Whether a bullet hits an enemy: the enemy is not dying and they overlap. */
  predicate Hits(b: Bullet, e: EnemyData) {
    !e.dying && Overlaps(b.Box(), e.box)
  }

  /** The enemy a bullet hits: the first in group order, if any. */
  function Target(b: Bullet, ds: seq<EnemyData>): (t: Option<nat>)
    ensures t.Some? ==> t.value < |ds| && Hits(b, ds[t.value])
    ensures t.Some? ==> forall j :: 0 <= j < t.value ==> !Hits(b, ds[j])
    ensures t.None? ==> forall j :: 0 <= j < |ds| ==> !Hits(b, ds[j])
  {
    if ds == [] then None
    else if Hits(b, ds[0]) then Some(0)
    else match Target(b, ds[1..])
      case None => None
      case Some(j) => Some(j + 1)
  }

  /** The bullet pass so far: the bullets still flying, the enemies, the
      explosions it has added and the points it has scored. */
  datatype Strikes = Strikes(bullets: seq<Bullet>, enemies: seq<EnemyData>, explosions: seq<Explosion>, points: int)

  /** One bullet of the pass. With no target it keeps flying. Otherwise it is
      removed and its target takes one point of damage and nothing else
      changes, except that a target that starts dying leaves an explosion at
      its centre and scores `100 * levelNum`. */
  function Strike(s: Strikes, b: Bullet, levelNum: int): (r: Strikes)
    ensures Target(b, s.enemies).None? ==> r == s.(bullets := s.bullets + [b])
    ensures Target(b, s.enemies).Some? ==>
      var j := Target(b, s.enemies).value;
      && r.bullets == s.bullets
      && |r.enemies| == |s.enemies|
      && r.enemies[j] == Hurt(s.enemies[j])
      && (forall k :: 0 <= k < |s.enemies| && k != j ==> r.enemies[k] == s.enemies[k])
      && (!r.enemies[j].dying ==> r.points == s.points && r.explosions == s.explosions)
      && (r.enemies[j].dying ==>
            && r.points == s.points + 100 * levelNum
            && r.explosions == s.explosions + [Explosion(s.enemies[j].box.CenterX(), s.enemies[j].box.CenterY(), 0)])
  {
    match Target(b, s.enemies)
    case None => s.(bullets := s.bullets + [b])
    case Some(j) =>
      var e := Hurt(s.enemies[j]);
      if e.dying
      then s.(enemies := s.enemies[j := e],
              explosions := s.explosions + [Explosion(e.box.CenterX(), e.box.CenterY(), 0)],
              points := s.points + 100 * levelNum)
      else s.(enemies := s.enemies[j := e])
  }

  /** The whole bullet pass, bullet by bullet in group order. */
  function StrikesOf(bs: seq<Bullet>, ds: seq<EnemyData>, levelNum: int): Strikes {
    if bs == [] then Strikes([], ds, [], 0)
    else Strike(StrikesOf(bs[..|bs| - 1], ds, levelNum), bs[|bs| - 1], levelNum)
  }

  /** No enemy is added or removed by the bullet pass, no bullet is added, and
      the points are `100 * levelNum` for each explosion, i.e. each enemy
      that a bullet put into its death animation. */
  lemma {:induction false} StrikesTally(bs: seq<Bullet>, ds: seq<EnemyData>, levelNum: int)
    ensures var s := StrikesOf(bs, ds, levelNum);
      && |s.enemies| == |ds| && |s.bullets| <= |bs|
      && s.points == 100 * levelNum * |s.explosions|
  {
    if bs != [] {
      StrikesTally(bs[..|bs| - 1], ds, levelNum);
      var s := StrikesOf(bs[..|bs| - 1], ds, levelNum);
      assert 100 * levelNum * (|s.explosions| + 1) == 100 * levelNum * |s.explosions| + 100 * levelNum;
    }
  }

  /** The bullet pass keeps every enemy well formed. */
  lemma {:induction false} StrikesWellformed(bs: seq<Bullet>, ds: seq<EnemyData>, levelNum: int)
    requires AllWellformed(ds)
    ensures AllWellformed(StrikesOf(bs, ds, levelNum).enemies)
  {
    if bs != [] {
      StrikesWellformed(bs[..|bs| - 1], ds, levelNum);
      var s := StrikesOf(bs[..|bs| - 1], ds, levelNum);
      var b := bs[|bs| - 1];
      assert StrikesOf(bs, ds, levelNum) == Strike(s, b, levelNum);
      match Target(b, s.enemies)
      case None =>
      case Some(j) =>
        HurtWellformed(s.enemies[j]);
    }
  }

  /** The bullet pass applied to the game. */
  function Struck(g: GameData): GameData {
    var s := StrikesOf(g.bullets, g.level.enemies, g.levelNum);
    g.(bullets := s.bullets, level := g.level.(enemies := s.enemies),
       explosions := g.explosions + s.explosions, score := g.score + s.points)
  }

  // ---------------------------------------------------------------------
  // One tick: damage to the player

  /** The enemy-bullet pass so far: the player, the bullets still flying, and
      whether a hit used up the last life. */
  datatype Shelling = Shelling(player: PlayerData, kept: seq<EnemyBullet>, lost: bool)

  /** The first enemy bullet touching `box`, if any. */
  function FirstTouch(bs: seq<EnemyBullet>, box: Rect): (t: Option<nat>)
    ensures t.Some? ==> t.value < |bs| && Overlaps(bs[t.value].box, box)
    ensures t.Some? ==> forall j :: 0 <= j < t.value ==> !Overlaps(bs[j].box, box)
    ensures t.None? ==> forall j :: 0 <= j < |bs| ==> !Overlaps(bs[j].box, box)
  {
    if bs == [] then None
    else if Overlaps(bs[0].box, box) then Some(0)
    else match FirstTouch(bs[1..], box)
      case None => None
      case Some(j) => Some(j + 1)
  }

  /** The enemy bullets not touching `box`, in their order. */
  function Untouched(bs: seq<EnemyBullet>, box: Rect): seq<EnemyBullet> {
    if bs == [] then []
    else Untouched(bs[..|bs| - 1], box) + (if Overlaps(bs[|bs| - 1].box, box) then [] else [bs[|bs| - 1]])
  }

  lemma {:induction false} UntouchedMembers(bs: seq<EnemyBullet>, box: Rect)
    ensures forall b :: b in Untouched(bs, box) <==> b in bs && !Overlaps(b.box, box)
  {
    if bs != [] {
      assert bs == bs[..|bs| - 1] + [bs[|bs| - 1]];
      UntouchedMembers(bs[..|bs| - 1], box);
    }
  }

  /** Each enemy bullet touching the player is removed and deals 20 damage. */
  function Shelled(bs: seq<EnemyBullet>, p: PlayerData): (r: Shelling)
    ensures |r.kept| <= |bs|
  {
    if bs == [] then Shelling(p, [], false)
    else
      var s := Shelled(bs[..|bs| - 1], p);
      var b := bs[|bs| - 1];
      if Overlaps(b.box, s.player.box)
      then var d := Damaged(s.player, SHOT_DAMAGE); Shelling(d.0, s.kept, s.lost || d.1)
      else s.(kept := s.kept + [b])
  }

  /** The melee pass: each living enemy touching the player deals 15 damage;
      the player and whether a hit used up the last life. */
  function Mauled(ds: seq<EnemyData>, p: PlayerData): (PlayerData, bool) {
    if ds == [] then (p, false)
    else
      var m := Mauled(ds[..|ds| - 1], p);
      var e := ds[|ds| - 1];
      if !e.dying && Overlaps(m.0.box, e.box)
      then var d := Damaged(m.0, MELEE_DAMAGE); (d.0, m.1 || d.1)
      else m
  }

  /** The damage passes keep a player vital unless a hit used up the last life. */
  lemma {:induction false} ShelledVital(bs: seq<EnemyBullet>, p: PlayerData)
    requires Vital(p)
    ensures Shelled(bs, p).lost || Vital(Shelled(bs, p).player)
  {
    if bs != [] {
      ShelledVital(bs[..|bs| - 1], p);
      var s := Shelled(bs[..|bs| - 1], p);
      if !s.lost {
        DamagePreservesVitality(s.player, SHOT_DAMAGE);
      }
    }
  }

  lemma {:induction false} MauledVital(ds: seq<EnemyData>, p: PlayerData)
    requires Vital(p)
    ensures Mauled(ds, p).1 || Vital(Mauled(ds, p).0)
  {
    if ds != [] {
      MauledVital(ds[..|ds| - 1], p);
      var m := Mauled(ds[..|ds| - 1], p);
      if !m.1 {
        DamagePreservesVitality(m.0, MELEE_DAMAGE);
      }
    }
  }

  /** A damaged player is invincible, so a second hit in the same pass is ignored. */
  lemma DamagedThenIgnored(p: PlayerData, amount: int, again: int)
    ensures var d := Damaged(p, amount); Damaged(d.0, again) == (d.0, false)
  {
  }

  lemma UntouchedAppend(bs: seq<EnemyBullet>, b: EnemyBullet, box: Rect)
    ensures Untouched(bs + [b], box) == Untouched(bs, box) + (if Overlaps(b.box, box) then [] else [b])
  {
    assert (bs + [b])[..|bs|] == bs;
  }

  /** One more bullet once bullet `k` has left the player as `q`, on whom
      another hit has no effect. */
  lemma ShelledAfterHit(init: seq<EnemyBullet>, b: EnemyBullet, p: PlayerData, k: nat, q: PlayerData, lost: bool)
    requires k < |init|
    requires Damaged(q, SHOT_DAMAGE) == (q, false)
    requires Shelled(init, p) == Shelling(q, init[..k] + Untouched(init[k + 1..], q.box), lost)
    ensures var bs := init + [b];
      Shelled(bs, p) == Shelling(q, bs[..k] + Untouched(bs[k + 1..], q.box), lost)
  {
    var bs := init + [b];
    assert bs[..|bs| - 1] == init;
    assert bs[..k] == init[..k];
    assert bs[k + 1..] == init[k + 1..] + [b];
    var u := Untouched(init[k + 1..], q.box);
    UntouchedAppend(init[k + 1..], b, q.box);
    if !Overlaps(b.box, q.box) {
      assert init[..k] + u + [b] == init[..k] + (u + [b]);
    }
  }

  /** The first bullet touching `box` after one more bullet: the earlier one
      if there was one, else the new bullet if it touches. */
  lemma FirstTouchAppend(bs: seq<EnemyBullet>, b: EnemyBullet, box: Rect)
    ensures FirstTouch(bs + [b], box) ==
      if FirstTouch(bs, box).Some? then FirstTouch(bs, box)
      else if Overlaps(b.box, box) then Some(|bs|)
      else None
  {
    if FirstTouch(bs, box).Some? {
      assert (bs + [b])[FirstTouch(bs, box).value] == bs[FirstTouch(bs, box).value];
    } else if Overlaps(b.box, box) {
      assert (bs + [b])[|bs|] == b;
    }
  }

  /** One more bullet while no bullet has touched the player yet. */
  lemma ShelledFirstHit(init: seq<EnemyBullet>, b: EnemyBullet, p: PlayerData)
    requires Shelled(init, p) == Shelling(p, init, false)
    ensures var d := Damaged(p, SHOT_DAMAGE);
      Shelled(init + [b], p) ==
        if Overlaps(b.box, p.box) then Shelling(d.0, init, d.1) else Shelling(p, init + [b], false)
  {
    assert (init + [b])[..|init|] == init;
  }

  /** The enemy-bullet pass in full: with no bullet touching the player nothing
      changes; otherwise the first touching bullet deals 20 damage (the
      invincibility it starts makes later hits harmless), and the bullets kept
      are those before it and, after it, those not touching the player where
      the hit left them. */
  lemma {:induction false} ShelledOutcome(bs: seq<EnemyBullet>, p: PlayerData)
    ensures FirstTouch(bs, p.box).None? ==> Shelled(bs, p) == Shelling(p, bs, false)
    ensures FirstTouch(bs, p.box).Some? ==>
      var k := FirstTouch(bs, p.box).value;
      var d := Damaged(p, SHOT_DAMAGE);
      Shelled(bs, p) == Shelling(d.0, bs[..k] + Untouched(bs[k + 1..], d.0.box), d.1)
  {
    if bs != [] {
      var init, b := bs[..|bs| - 1], bs[|bs| - 1];
      assert bs == init + [b];
      ShelledOutcome(init, p);
      FirstTouchAppend(init, b, p.box);
      match FirstTouch(init, p.box)
      case None =>
        ShelledFirstHit(init, b, p);
        if Overlaps(b.box, p.box) {
          assert bs[|init| + 1..] == [];
          assert bs[..|init|] == init;
        }
      case Some(k) =>
        var d := Damaged(p, SHOT_DAMAGE);
        DamagedThenIgnored(p, SHOT_DAMAGE, SHOT_DAMAGE);
        ShelledAfterHit(init, b, p, k, d.0, d.1);
    }
  }

  /** The first living enemy touching `box`, if any. */
  function FirstContact(ds: seq<EnemyData>, box: Rect): (t: Option<nat>)
    ensures t.Some? ==> t.value < |ds| && !ds[t.value].dying && Overlaps(box, ds[t.value].box)
    ensures t.None? ==> forall j :: 0 <= j < |ds| ==> ds[j].dying || !Overlaps(box, ds[j].box)
  {
    if ds == [] then None
    else if !ds[0].dying && Overlaps(box, ds[0].box) then Some(0)
    else match FirstContact(ds[1..], box)
      case None => None
      case Some(j) => Some(j + 1)
  }

  /** The melee pass in full: the player takes one 15-point hit if any living
      enemy touches them, and none otherwise. */
  lemma {:induction false} MauledOutcome(ds: seq<EnemyData>, p: PlayerData)
    ensures Mauled(ds, p) == if FirstContact(ds, p.box).None? then (p, false) else Damaged(p, MELEE_DAMAGE)
  {
    if ds != [] {
      var init, e := ds[..|ds| - 1], ds[|ds| - 1];
      MauledOutcome(init, p);
      if FirstContact(init, p.box).Some? {
        var k := FirstContact(init, p.box).value;
        assert init[k] == ds[k];
        assert FirstContact(ds, p.box).Some?;
        DamagedThenIgnored(p, MELEE_DAMAGE, MELEE_DAMAGE);
      } else if !e.dying && Overlaps(p.box, e.box) {
        assert FirstContact(ds, p.box).Some?;
      } else {
        forall j | 0 <= j < |ds|
          ensures ds[j].dying || !Overlaps(p.box, ds[j].box)
        {
          if j < |init| { assert ds[j] == init[j]; }
        }
      }
    }
  }

  // ---------------------------------------------------------------------
  // One tick: power-ups and the end of the level

  /** The effect of a power-up on the player. */
  function Boosted(p: PlayerData, kind: PowerKind): (r: PlayerData)
    ensures kind == SpreadGun ==> r == p.(weapon := Spread)
    ensures kind == RapidGun ==> r == p.(weapon := Rapid)
    ensures kind == HealthPack ==> r == p.(health := Min(p.maxHealth, p.health + HEAL))
    ensures kind == ExtraLife ==> r == p.(lives := p.lives + 1)
  {
    match kind
    case SpreadGun => p.(weapon := Spread)
    case RapidGun => p.(weapon := Rapid)
    case HealthPack => p.(health := Min(p.maxHealth, p.health + HEAL))
    case ExtraLife => p.(lives := p.lives + 1)
  }

  /** The pickup pass so far: the player, the power-ups left, and the points. */
  datatype Pickup = Pickup(player: PlayerData, left: seq<PowerUp>, points: int)

  /** Each power-up the player touches takes effect, is removed, and scores 50. */
  function Collected(pus: seq<PowerUp>, p: PlayerData): (r: Pickup)
    ensures r.player.box == p.box
  {
    if pus == [] then Pickup(p, [], 0)
    else
      var c := Collected(pus[..|pus| - 1], p);
      var pu := pus[|pus| - 1];
      if Overlaps(c.player.box, pu.Box())
      then Pickup(Boosted(c.player, pu.kind), c.left, c.points + PICKUP_POINTS)
      else c.(left := c.left + [pu])
  }

  /** The power-ups touching `box`, in their order. */
  function Taken(pus: seq<PowerUp>, box: Rect): seq<PowerUp> {
    if pus == [] then []
    else Taken(pus[..|pus| - 1], box) + (if Overlaps(box, pus[|pus| - 1].Box()) then [pus[|pus| - 1]] else [])
  }

  /** The power-ups not touching `box`, in their order. */
  function Untaken(pus: seq<PowerUp>, box: Rect): seq<PowerUp> {
    if pus == [] then []
    else Untaken(pus[..|pus| - 1], box) + (if Overlaps(box, pus[|pus| - 1].Box()) then [] else [pus[|pus| - 1]])
  }

  /** `Taken` and `Untaken` split the power-ups by whether they touch `box`. */
  lemma {:induction false} PickupSplit(pus: seq<PowerUp>, box: Rect)
    ensures forall pu :: pu in Taken(pus, box) <==> pu in pus && Overlaps(box, pu.Box())
    ensures forall pu :: pu in Untaken(pus, box) <==> pu in pus && !Overlaps(box, pu.Box())
    ensures |Taken(pus, box)| + |Untaken(pus, box)| == |pus|
  {
    if pus != [] {
      assert pus == pus[..|pus| - 1] + [pus[|pus| - 1]];
      PickupSplit(pus[..|pus| - 1], box);
    }
  }

  /** The player after the given power-ups take effect one after another. */
  function Boosts(p: PlayerData, pus: seq<PowerUp>): (r: PlayerData)
    ensures r.box == p.box
  {
    if pus == [] then p else Boosted(Boosts(p, pus[..|pus| - 1]), pus[|pus| - 1].kind)
  }

  /** The pickup pass in full: the power-ups touching the player take effect
      in order and score 50 each, and exactly the others are left, in order. */
  lemma {:induction false} CollectedOutcome(pus: seq<PowerUp>, p: PlayerData)
    ensures Collected(pus, p) ==
      Pickup(Boosts(p, Taken(pus, p.box)), Untaken(pus, p.box), PICKUP_POINTS * |Taken(pus, p.box)|)
  {
    if pus != [] {
      var init, pu := pus[..|pus| - 1], pus[|pus| - 1];
      CollectedOutcome(init, p);
      var t := Taken(init, p.box);
      var c := Collected(init, p);
      assert c.player.box == p.box;
      if Overlaps(p.box, pu.Box()) {
        assert Taken(pus, p.box) == t + [pu];
        assert Untaken(pus, p.box) == Untaken(init, p.box);
        assert (t + [pu])[..|t|] == t;
        assert Boosts(p, t + [pu]) == Boosted(Boosts(p, t), pu.kind);
      } else {
        assert Taken(pus, p.box) == t;
        assert Untaken(pus, p.box) == Untaken(init, p.box) + [pu];
      }
    }
  }

  /** Every power-up is either left or collected, and each collected one is
      worth 50 points; a vital player stays vital. */
  lemma {:induction false} CollectedTally(pus: seq<PowerUp>, p: PlayerData)
    ensures var c := Collected(pus, p);
      && |c.left| <= |pus|
      && c.points == PICKUP_POINTS * (|pus| - |c.left|)
      && (Vital(p) ==> Vital(c.player))
  {
    if pus != [] {
      CollectedTally(pus[..|pus| - 1], p);
    }
  }

  /** Whether every enemy left in the level is dying. */
  predicate AllDying(ds: seq<EnemyData>) {
    forall i :: 0 <= i < |ds| ==> ds[i].dying
  }

  /** `level_complete` is set once no living enemy remains. */
  function Completed(g: GameData): (r: GameData)
    ensures r.levelComplete <==> g.levelComplete || AllDying(g.level.enemies)
    ensures r == g.(levelComplete := r.levelComplete)
  {
    if AllDying(g.level.enemies) then g.(levelComplete := true) else g
  }

  /** The enemy-bullet pass applied to the game: a hit that uses up the last
      life ends the game. */
  function FiredUpon(g: GameData): GameData {
    var sh := Shelled(g.enemyBullets, g.player);
    g.(player := sh.player, enemyBullets := sh.kept, gameOver := g.gameOver || sh.lost)
  }

  /** The melee pass applied to the game. */
  function Meleed(g: GameData): GameData {
    var m := Mauled(g.level.enemies, g.player);
    g.(player := m.0, gameOver := g.gameOver || m.1)
  }

  /** The pickup pass applied to the game. */
  function PickedUp(g: GameData): GameData {
    var c := Collected(g.level.powerups, g.player);
    g.(player := c.player, level := g.level.(powerups := c.left), score := g.score + c.points)
  }

  /** The second half of `Game.update`: the bullet pass, the enemy-bullet
      pass, the melee pass, the pickups and the completion test. */
  function Fought(g: GameData): GameData {
    Completed(PickedUp(Meleed(FiredUpon(Struck(g)))))
  }

  /** `Game.update`: nothing while the game is over, paused or the level is
      complete; otherwise a tick of movement and then of combat. */
  function Tick(g: GameData, held: Held): GameData {
    if g.gameOver || g.paused || g.levelComplete then g else Fought(Moved(g, held))
  }

  /** A stopped game does not change. */
  lemma TickGated(g: GameData, held: Held)
    requires g.gameOver || g.paused || g.levelComplete
    ensures Tick(g, held) == g
  {
  }

  /** After a tick of play the level is complete exactly when every enemy
      left is dying; the score never falls; the level does not change. */
  lemma TickOutcome(g: GameData, held: Held)
    requires !g.gameOver && !g.paused && !g.levelComplete && g.levelNum >= 1
    ensures var r := Tick(g, held);
      && (r.levelComplete <==> AllDying(r.level.enemies))
      && r.score >= g.score
      && r.levelNum == g.levelNum && r.level.num == g.level.num
  {
    var m := Moved(g, held);
    StrikesTally(m.bullets, m.level.enemies, m.levelNum);
    var s := Struck(m);
    assert s.score >= g.score && !s.levelComplete && s.levelNum == g.levelNum && s.level.num == g.level.num;
    var f := Meleed(FiredUpon(s));
    assert f.score == s.score && f.level == s.level && f.levelNum == s.levelNum && !f.levelComplete;
    CollectedTally(f.level.powerups, f.player);
    var c := PickedUp(f);
    assert c.score >= f.score && !c.levelComplete && c.level.num == f.level.num;
  }

  /** A tick never changes the level being played. */
  lemma TickKeepsLevel(g: GameData, held: Held)
    requires g.levelNum >= 1
    ensures Tick(g, held).levelNum == g.levelNum
  {
    if !(g.gameOver || g.paused || g.levelComplete) {
      TickOutcome(g, held);
    }
  }

  /** A tick keeps the player vital unless it ends the game. */
  lemma TickVital(g: GameData, held: Held)
    requires Vital(g.player)
    ensures var r := Tick(g, held); r.gameOver || Vital(r.player)
  {
    if !(g.gameOver || g.paused || g.levelComplete) {
      var m := Moved(g, held);
      assert Vital(m.player);
      var s := Struck(m);
      ShelledVital(s.enemyBullets, s.player);
      var f := FiredUpon(s);
      if !f.gameOver {
        MauledVital(f.level.enemies, f.player);
        var mm := Meleed(f);
        if !mm.gameOver {
          CollectedTally(mm.level.powerups, mm.player);
        }
      }
    }
  }

  // ---------------------------------------------------------------------
  // Keys, the next level and the restart

  /** `Game.next_level`: the next level is generated; the player goes back to
      the spawn point with the normal weapon; everything in flight is cleared. */
  function Advanced(g: GameData, stream: seq<int>): GameData
    requires g.levelNum >= 1
  {
    Entered(g, Generated(g.levelNum + 1, stream, g.cursor))
  }

  /** The game once the next level `l.0` has been generated, leaving the
      generator at `l.1`. */
  function Entered(g: GameData, l: (LevelData, nat)): GameData {
    g.(levelNum := g.levelNum + 1, level := l.0, cursor := l.1, cameraX := 0,
       player := g.player.(box := g.player.box.(x := SPAWN_X, y := SPAWN_Y), weapon := Normal),
       bullets := [], enemyBullets := [], explosions := [], levelComplete := false)
  }

  /** The next level keeps health, lives and score, and starts afresh at the spawn point. */
  lemma AdvancedKeeps(g: GameData, stream: seq<int>)
    requires g.levelNum >= 1
    ensures var r := Advanced(g, stream);
      && r.levelNum == g.levelNum + 1 && r.level.num == g.levelNum + 1
      && r.player.health == g.player.health && r.player.lives == g.player.lives
      && r.score == g.score && r.player.weapon == Normal
      && r.player.box.x == SPAWN_X && r.player.box.y == SPAWN_Y
      && r.bullets == [] && r.enemyBullets == [] && r.explosions == [] && !r.levelComplete
  {
    GeneratedShape(g.levelNum + 1, stream, g.cursor);
  }

  /** One key press during play. */
  function KeyStep(g: GameData, k: Key, stream: seq<int>): GameData
    requires g.levelNum >= 1
  {
    match k
    case R => if g.gameOver then NewGame(g.character, stream, g.cursor) else g
    case Return => if g.levelComplete then Advanced(g, stream) else g
    case _ => PlayStep(g, k)
  }

  /** A key press that neither restarts nor moves on to the next level. */
  function PlayStep(g: GameData, k: Key): GameData {
    match k
    case Space => g.(player := Jumped(g.player))
    case Z => var s := Shot(g.player); g.(player := s.0, bullets := g.bullets + s.1)
    case P => g.(paused := !g.paused)
    case Escape => if g.paused || g.gameOver then g.(returnToMenu := true) else g.(paused := true)
    case _ => g
  }

  /** Every level number stays at least 1. */
  lemma KeyStepLevel(g: GameData, k: Key, stream: seq<int>)
    requires g.levelNum >= 1
    ensures KeyStep(g, k, stream).levelNum >= 1
  {
  }

  /** Leaving for the menu is only possible with Escape from a paused or lost game. */
  lemma ReturnToMenuOnlyByEscape(g: GameData, k: Key, stream: seq<int>)
    requires g.levelNum >= 1 && !g.returnToMenu
    ensures KeyStep(g, k, stream).returnToMenu <==> k == Escape && (g.paused || g.gameOver)
  {
  }

  /** What each key does during play:
      - Space jumps and Z shoots, whether or not the game is paused or over;
      - P flips the pause flag and changes nothing else;
      - Escape pauses a running game, and on a paused or lost game it only
        asks to go back to the menu;
      - R changes nothing unless the game is lost, and then starts a new game
        on level 1 with score 0 and the same character;
      - Return changes nothing unless the level is complete, and then enters
        the next level. */
  lemma KeyStepOutcome(g: GameData, stream: seq<int>)
    requires g.levelNum >= 1
    ensures KeyStep(g, Space, stream) == g.(player := Jumped(g.player))
    ensures KeyStep(g, Z, stream) == g.(player := Shot(g.player).0, bullets := g.bullets + Shot(g.player).1)
    ensures KeyStep(g, P, stream) == g.(paused := !g.paused)
    ensures !g.paused && !g.gameOver ==> KeyStep(g, Escape, stream) == g.(paused := true)
    ensures g.paused || g.gameOver ==> KeyStep(g, Escape, stream) == g.(returnToMenu := true)
    ensures !g.gameOver ==> KeyStep(g, R, stream) == g
    ensures g.gameOver ==> var r := KeyStep(g, R, stream);
      r.levelNum == 1 && r.score == 0 && r.character == g.character && !r.gameOver && !r.paused
    ensures !g.levelComplete ==> KeyStep(g, Return, stream) == g
    ensures g.levelComplete ==> var r := KeyStep(g, Return, stream);
      r.levelNum == g.levelNum + 1 && r.score == g.score && !r.levelComplete
  {
    if g.levelComplete {
      AdvancedKeeps(g, stream);
    }
  }

  /** P pressed twice leaves the game as it was. */
  lemma PauseToggles(g: GameData, stream: seq<int>)
    requires g.levelNum >= 1
    ensures KeyStep(KeyStep(g, P, stream), P, stream) == g
  {
  }

  /** `Game.handle_events`: the events in order; `false` as soon as the window
      is closed, the rest of the queue unread. */
  function Handled(g: GameData, events: seq<Event>, stream: seq<int>): (r: (GameData, bool))
    requires g.levelNum >= 1
    ensures r.0.levelNum >= 1
    decreases |events|
  {
    if events == [] then (g, true)
    else match events[0]
      case Quit => (g, false)
      case KeyDown(k) => KeyStepLevel(g, k, stream); Handled(KeyStep(g, k, stream), events[1..], stream)
      case OtherEvent => Handled(g, events[1..], stream)
  }

  /** `Game.handle_events` answers that the loop goes on exactly when no
      event of the frame closes the window. */
  lemma {:induction false} HandledRunning(g: GameData, events: seq<Event>, stream: seq<int>)
    requires g.levelNum >= 1
    ensures Handled(g, events, stream).1 <==> Quit !in events
    decreases |events|
  {
    if events != [] {
      assert events == [events[0]] + events[1..];
      match events[0]
      case Quit =>
      case KeyDown(k) =>
        KeyStepLevel(g, k, stream);
        HandledRunning(KeyStep(g, k, stream), events[1..], stream);
      case OtherEvent =>
        HandledRunning(g, events[1..], stream);
    }
  }

  /** Only a group where every enemy is dying has no living enemy. */
  lemma {:induction false} NoneLiving(ds: seq<EnemyData>)
    ensures Living(ds) == 0 <==> AllDying(ds)
  {
    if ds != [] {
      var init := ds[..|ds| - 1];
      NoneLiving(init);
      if AllDying(ds) {
        assert AllDying(init) by {
          forall i | 0 <= i < |init| ensures init[i].dying { assert init[i] == ds[i]; }
        }
      } else if Living(ds) == 0 {
        forall i | 0 <= i < |ds| ensures ds[i].dying { if i < |init| { assert init[i] == ds[i]; } }
      }
    }
  }

  // ---------------------------------------------------------------------
  // The loops of `Game.update`, over the sprite objects

  /** `for enemy in list(self.level.enemies): enemy.update(...)`: the enemies
      whose update did not remove them, in order. */
  method StepAll(es: seq<Enemy>, platforms: seq<Platform>, playerX: int) returns (kept: seq<Enemy>)
    requires Distinct(es)
    modifies es
    ensures Distinct(kept) && forall e :: e in kept ==> e in es
    ensures Datas(kept) == EnemiesStepped(old(Datas(es)), platforms, playerX)
  {
    ghost var ds := Datas(es);
    kept := [];
    var i := 0;
    while i < |es|
      invariant 0 <= i <= |es|
      invariant Distinct(kept) && forall e :: e in kept ==> e in es[..i]
      invariant Datas(kept) == EnemiesStepped(ds[..i], platforms, playerX)
      invariant forall j :: i <= j < |es| ==> es[j].Data() == ds[j]
    {
      var e := es[i];
      assert e !in kept;
      assert ds[..i + 1][..i] == ds[..i];
      var shot, killed := e.Update(platforms, playerX);
      if !killed {
        DatasAppend(kept, e);
        kept := kept + [e];
      }
      i := i + 1;
    }
    assert ds[..i] == ds;
  }

  /** The inner loop of the bullet pass: the first living enemy the bullet touches. */
  method FindTarget(b: Bullet, es: seq<Enemy>) returns (t: Option<nat>)
    ensures t == Target(b, Datas(es))
  {
    var i := 0;
    while i < |es|
      invariant 0 <= i <= |es|
      invariant forall k :: 0 <= k < i ==> !Hits(b, es[k].Data())
    {
      if !es[i].dying && Overlaps(b.Box(), es[i].rect) {
        return Some(i);
      }
      i := i + 1;
    }
    return None;
  }

  /** One bullet of the pass depends on the pass so far only through the enemies. */
  lemma StrikeFrom(s: Strikes, b: Bullet, levelNum: int)
    ensures var r := Strike(Strikes([], s.enemies, [], 0), b, levelNum);
      Strike(s, b, levelNum) == Strikes(s.bullets + r.bullets, r.enemies, s.explosions + r.explosions, s.points + r.points)
  {
  }

  /** One bullet of the pass: whether it hit, the explosion it caused and its points. */
  method StrikeOne(b: Bullet, es: seq<Enemy>, levelNum: int)
    returns (hit: bool, boom: seq<Explosion>, points: int)
    requires Distinct(es)
    modifies es
    ensures var r := Strike(Strikes([], old(Datas(es)), [], 0), b, levelNum);
      && r.bullets == (if hit then [] else [b])
      && r.enemies == Datas(es) && r.explosions == boom && r.points == points
  {
    ghost var ds := Datas(es);
    var t := FindTarget(b, es);
    boom, points := [], 0;
    match t {
      case None =>
        hit := false;
      case Some(j) =>
        hit := true;
        var e := es[j];
        var removed := e.TakeDamage();
        assert Datas(es) == ds[j := e.Data()];
        if e.dying {
          boom := [Explosion(e.rect.CenterX(), e.rect.CenterY(), 0)];
          points := 100 * levelNum;
        }
    }
  }

  /** The bullet pass: the bullets still flying, the explosions added and the
      points scored. */
  method StrikeAll(bs: seq<Bullet>, es: seq<Enemy>, levelNum: int)
    returns (flying: seq<Bullet>, added: seq<Explosion>, points: int)
    requires Distinct(es)
    modifies es
    ensures StrikesOf(bs, old(Datas(es)), levelNum) == Strikes(flying, Datas(es), added, points)
  {
    ghost var ds := Datas(es);
    flying, added, points := [], [], 0;
    var i := 0;
    while i < |bs|
      invariant 0 <= i <= |bs|
      invariant StrikesOf(bs[..i], ds, levelNum) == Strikes(flying, Datas(es), added, points)
    {
      var b := bs[i];
      assert bs[..i + 1][..i] == bs[..i];
      StrikeFrom(Strikes(flying, Datas(es), added, points), b, levelNum);
      var hit, boom, gained := StrikeOne(b, es, levelNum);
      if !hit {
        flying := flying + [b];
      }
      added := added + boom;
      points := points + gained;
      i := i + 1;
    }
    assert bs[..i] == bs;
  }

  /** `for bullet in list(self.enemy_bullets)`: the bullets that did not hit
      the player, and whether a hit used up the last life. */
  method FireAt(bs: seq<EnemyBullet>, player: Player) returns (kept: seq<EnemyBullet>, lost: bool)
    modifies player
    ensures Shelled(bs, old(player.Data())) == Shelling(player.Data(), kept, lost)
  {
    ghost var p0 := player.Data();
    kept, lost := [], false;
    for i := 0 to |bs|
      invariant Shelled(bs[..i], p0) == Shelling(player.Data(), kept, lost)
    {
      assert bs[..i + 1][..i] == bs[..i];
      var b := bs[i];
      if Overlaps(b.box, player.rect) {
        var dead := player.TakeDamage(SHOT_DAMAGE);
        if dead {
          lost := true;
        }
      } else {
        kept := kept + [b];
      }
    }
    assert bs[..|bs|] == bs;
  }

  /** `for enemy in self.level.enemies`, the melee check: whether a hit used
      up the last life. */
  method Maul(es: seq<Enemy>, player: Player) returns (lost: bool)
    modifies player
    ensures Mauled(Datas(es), old(player.Data())) == (player.Data(), lost)
  {
    ghost var ds := Datas(es);
    ghost var p0 := player.Data();
    lost := false;
    for i := 0 to |es|
      invariant ds == Datas(es)
      invariant Mauled(ds[..i], p0) == (player.Data(), lost)
    {
      assert ds[..i + 1][..i] == ds[..i];
      var e := es[i];
      if !e.dying && Overlaps(player.rect, e.rect) {
        var dead := player.TakeDamage(MELEE_DAMAGE);
        if dead {
          lost := true;
        }
      }
    }
    assert ds[..|es|] == ds;
  }

  /** `for powerup in list(self.level.powerups)`: the power-ups left and the
      points scored. */
  method Collect(pus: seq<PowerUp>, player: Player) returns (left: seq<PowerUp>, points: int)
    modifies player
    ensures Collected(pus, old(player.Data())) == Pickup(player.Data(), left, points)
  {
    ghost var p0 := player.Data();
    left, points := [], 0;
    for i := 0 to |pus|
      invariant Collected(pus[..i], p0) == Pickup(player.Data(), left, points)
    {
      assert pus[..i + 1][..i] == pus[..i];
      var pu := pus[i];
      if Overlaps(player.rect, pu.Box()) {
        match pu.kind {
          case SpreadGun => player.weapon := Spread;
          case RapidGun => player.weapon := Rapid;
          case HealthPack => player.health := Min(player.maxHealth, player.health + HEAL);
          case ExtraLife => player.lives := player.lives + 1;
        }
        points := points + PICKUP_POINTS;
      } else {
        left := left + [pu];
      }
    }
    assert pus[..|pus|] == pus;
  }

  /** `[e for e in self.level.enemies if not e.dying]`. */
  method AliveOf(es: seq<Enemy>) returns (alive: seq<Enemy>)
    ensures |alive| == Living(Datas(es))
    ensures forall e :: e in alive ==> e in es && !e.dying
  {
    ghost var ds := Datas(es);
    alive := [];
    for i := 0 to |es|
      invariant |alive| == Living(ds[..i])
      invariant forall e :: e in alive ==> e in es && !e.dying
    {
      assert ds[..i + 1][..i] == ds[..i];
      if !es[i].dying {
        alive := alive + [es[i]];
      }
    }
    assert ds[..|es|] == ds;
  }

  // ---------------------------------------------------------------------
  // The game object

  /** `Game(character_num)`: the first level is generated from `rng`, then
      the player and the camera are created for it. */
  method Start(character: int, rng: Random) returns (g: Game)
    modifies rng
    ensures fresh(g) && g.Valid() && g.rng == rng
    ensures fresh(g.player) && fresh(g.level) && fresh(g.camera) && fresh(g.level.enemies)
    ensures g.Data() == NewGame(character, rng.stream, old(rng.cursor))
  {
    ghost var gen := Generated(FIRST_LEVEL, rng.stream, rng.cursor);
    var l := new Level(FIRST_LEVEL, rng.stream, rng.cursor);
    g := new Game(character, rng, l, gen);
  }

  class Game {
    var player: Player
    var level: Level
    var camera: Camera
    /** The generator every level draws from. */
    const rng: Random
    var bullets: seq<Bullet>
    var enemyBullets: seq<EnemyBullet>
    var explosions: seq<Explosion>
    var score: int
    var levelNum: int
    const character: int
    var gameOver: bool
    var levelComplete: bool
    var paused: bool
    var returnToMenu: bool

    function Data(): GameData
      reads this, player, level, level.enemies, camera, rng
    {
      GameData(player.Data(), level.Data(), camera.x, bullets, enemyBullets, explosions,
               score, levelNum, character, gameOver, levelComplete, paused, returnToMenu, rng.cursor)
    }

    /** Each object of the game is either the one it had before or a new one;
        a new level comes with new enemies. */
    twostate predicate Refreshed()
      reads this, level
    {
      && (player == old(player) || fresh(player))
      && (camera == old(camera) || fresh(camera))
      && (level == old(level) || (fresh(level) && fresh(level.enemies)))
    }

    /** The level is the one numbered `levelNum`, and the camera scrolls over it. */
    predicate Valid()
      reads this, level
    {
      level.Valid() && levelNum == level.num && levelNum >= 1 && camera.width == level.width
    }

    /** The game around the freshly generated first level `l`; `Start` is
        `Game(character_num)` itself. */
    constructor (character: int, rng: Random, l: Level, ghost gen: (LevelData, nat))
      requires l.Valid() && l.num == FIRST_LEVEL && gen == (l.Data(), l.next)
      modifies rng
      ensures Valid() && this.rng == rng && level == l && fresh(player) && fresh(camera)
      ensures Data() == Begun(character, gen)
    {
      this.character := character;
      this.rng := rng;
      level := l;
      player := new Player(SPAWN_X, SPAWN_Y, character);
      camera := new Camera(l.width);
      rng.cursor := l.next;
      new;
      Reset();
    }

    /** The counters and flags of a game that has just started. */
    method Reset()
      requires level.Valid() && level.num == FIRST_LEVEL && camera.width == level.width
      requires player.Data() == NewPlayer(SPAWN_X, SPAWN_Y, character) && camera.x == 0
      modifies this
      ensures Valid() && player == old(player) && level == old(level) && camera == old(camera)
      ensures Data() == Begun(character, (level.Data(), rng.cursor))
    {
      levelNum, bullets, enemyBullets, explosions, score, gameOver, levelComplete, paused, returnToMenu :=
        FIRST_LEVEL, [], [], [], 0, false, false, false, false;
    }

    /** `self.__init__(self.character_num)`: a new game with the same character. */
    method Restart()
      modifies this, rng
      ensures Valid() && fresh(player) && fresh(camera) && fresh(level)
      ensures fresh(level.enemies)
      ensures Data() == NewGame(character, rng.stream, old(rng.cursor))
    {
      ghost var gen := Generated(FIRST_LEVEL, rng.stream, rng.cursor);
      var l := new Level(FIRST_LEVEL, rng.stream, rng.cursor);
      Begin(l, gen);
    }

    /** Starts over on the freshly generated first level `l`. */
    method Begin(l: Level, ghost gen: (LevelData, nat))
      requires l.Valid() && l.num == FIRST_LEVEL && gen == (l.Data(), l.next)
      modifies this, rng
      ensures Valid() && level == l && fresh(player) && fresh(camera)
      ensures Data() == Begun(character, gen)
    {
      level := l;
      player := new Player(SPAWN_X, SPAWN_Y, character);
      camera := new Camera(l.width);
      rng.cursor := l.next;
      Reset();
    }

    /** `Game.next_level`. */
    method NextLevel()
      requires Valid()
      modifies this, player, rng
      ensures Valid() && player == old(player) && Refreshed()
      ensures Data() == Advanced(old(Data()), rng.stream)
    {
      ghost var g0 := Data();
      ghost var gen := Generated(g0.levelNum + 1, rng.stream, g0.cursor);
      var l := new Level(levelNum + 1, rng.stream, rng.cursor);
      assert (l.Data(), l.next) == gen;
      var c := new Camera(l.width);
      player.Respawn();
      Enter(l, c);
      assert Data() == Entered(g0, gen) == Advanced(g0, rng.stream);
    }

    /** Moves the game onto the freshly generated next level `l`: the player
        back at the spawn point with the normal gun, nothing in flight. */
    method Enter(l: Level, c: Camera)
      requires Valid() && l.Valid() && l.num == levelNum + 1 && c.width == l.width && c.x == 0
      modifies this, rng
      ensures Valid() && player == old(player) && level == l && camera == c
      ensures Data() == old(Data()).(levelNum := old(levelNum) + 1, level := l.Data(), cursor := l.next, cameraX := 0,
                                     bullets := [], enemyBullets := [], explosions := [], levelComplete := false)
    {
      rng.cursor, levelNum, level, camera, bullets, enemyBullets, explosions, levelComplete :=
        l.next, levelNum + 1, l, c, [], [], [], false;
    }

    /** One `KEYDOWN` event of `Game.handle_events`. */
    method Press(k: Key)
      requires Valid()
      modifies this, player, rng
      ensures Valid() && Refreshed()
      ensures Data() == KeyStep(old(Data()), k, rng.stream)
    {
      if k == R {
        Retry();
      } else if k == Return {
        Proceed();
      } else {
        Play(k);
      }
    }

    /** `R`: a lost game starts over. */
    method Retry()
      requires Valid()
      modifies this, player, rng
      ensures Valid() && Refreshed()
      ensures Data() == KeyStep(old(Data()), R, rng.stream)
    {
      if gameOver {
        Restart();
      }
    }

    /** `Return`: a completed level moves on to the next one. */
    method Proceed()
      requires Valid()
      modifies this, player, rng
      ensures Valid() && player == old(player) && Refreshed()
      ensures Data() == KeyStep(old(Data()), Return, rng.stream)
    {
      if levelComplete {
        NextLevel();
      }
    }

    /** Every other key. */
    method Play(k: Key)
      requires Valid() && k != R && k != Return
      modifies this, player
      ensures Valid() && player == old(player) && level == old(level) && camera == old(camera)
      ensures Data() == PlayStep(old(Data()), k)
    {
      match k {
        case Space => player.Jump();
        case Z =>
          var shot := player.Shoot();
          bullets := bullets + shot;
        case P => paused := !paused;
        case Escape =>
          if paused || gameOver {
            returnToMenu := true;
          } else {
            paused := true;
          }
        case _ =>
      }
    }

    /** `Game.handle_events`: `false` once the window is closed. */
    method HandleEvents(events: seq<Event>) returns (running: bool)
      requires Valid()
      modifies this, player, rng
      ensures Valid() && Refreshed()
      ensures (Data(), running) == Handled(old(Data()), events, rng.stream)
    {
      var i := 0;
      while i < |events|
        invariant 0 <= i <= |events|
        invariant Valid() && Refreshed()
        invariant Handled(Data(), events[i..], rng.stream) == Handled(old(Data()), events, rng.stream)
      {
        match events[i] {
          case Quit => return false;
          case KeyDown(k) => Press(k);
          case OtherEvent =>
        }
        i := i + 1;
      }
      return true;
    }

    /** `Game.update` with the keys held during the tick. */
    method Update(held: Held)
      requires Valid()
      modifies this, player, camera, level, level.enemies
      ensures Valid() && player == old(player) && level == old(level) && camera == old(camera)
      ensures forall e :: e in level.enemies ==> e in old(level.enemies)
      ensures Data() == Tick(old(Data()), held)
    {
      if gameOver || paused || levelComplete {
        return;
      }
      ghost var es := level.enemies;
      Move(held);
      assert forall i :: 0 <= i < |level.enemies| ==> level.enemies[i] in es;
      Fight();
    }

    /** The collisions, the pickups and the completion test, in that order. */
    method Fight()
      requires Valid()
      modifies this, player, level, level.enemies
      ensures Valid() && player == old(player) && level == old(level) && camera == old(camera)
      ensures level.enemies == old(level.enemies)
      ensures Data() == Fought(old(Data()))
    {
      ResolveHits();
      ResolveFire();
      ResolveMelee();
      CollectPowerUps();
      CheckCompletion();
    }

    /** The player, the camera and every group update once. */
    method Move(held: Held)
      requires Valid()
      modifies this, player, camera, level, level.enemies
      ensures Valid() && player == old(player) && level == old(level) && camera == old(camera)
      ensures forall e :: e in level.enemies ==> e in old(level.enemies)
      ensures Data() == Moved(old(Data()), held)
    {
      MovePlayer(held);
      MoveBullets();
      StepEnemies();
      MoveEffects();
    }

    /** `self.player.update(...)` and `self.camera.update(self.player)`. */
    method MovePlayer(held: Held)
      requires Valid()
      modifies player, camera
      ensures Data() == PlayerMoved(old(Data()), held)
    {
      player.Update(level.platforms, level.width, held);
      camera.Update(player.rect);
    }

    /** `for bullet in self.bullets: bullet.update()`. */
    method MoveBullets()
      modifies this
      ensures Valid() == old(Valid()) && player == old(player) && level == old(level) && camera == old(camera)
      ensures Data() == BulletsMoved(old(Data()))
    {
      bullets := StepBullets(bullets);
    }

    /** The enemy bullets' and the explosions' updates. */
    method MoveEffects()
      modifies this
      ensures Valid() == old(Valid()) && player == old(player) && level == old(level) && camera == old(camera)
      ensures Data() == EffectsMoved(old(Data()))
    {
      var flying := StepEnemyBullets(enemyBullets);
      var fading := StepExplosions(explosions);
      enemyBullets, explosions := flying, fading;
    }

    /** `for enemy in list(self.level.enemies): enemy.update(...)`. */
    method StepEnemies()
      requires Valid()
      modifies level, level.enemies
      ensures Valid() && forall e :: e in level.enemies ==> e in old(level.enemies)
      ensures Data() == EnemiesMoved(old(Data()))
    {
      ghost var g := Data();
      var kept := StepAll(level.enemies, level.platforms, player.rect.CenterX());
      level.enemies := kept;
      assert level.Data() == EnemiesMoved(g).level;
    }

    /** Player bullets against enemies. */
    method ResolveHits()
      requires Valid()
      modifies this, level.enemies
      ensures Valid() && player == old(player) && level == old(level) && camera == old(camera)
      ensures level.enemies == old(level.enemies)
      ensures Data() == Struck(old(Data()))
    {
      var flying, added, points := StrikeAll(bullets, level.enemies, levelNum);
      bullets, explosions, score := flying, explosions + added, score + points;
    }

    /** Enemy bullets against the player. */
    method ResolveFire()
      requires Valid()
      modifies this, player
      ensures Valid() && player == old(player) && level == old(level) && camera == old(camera)
      ensures Data() == FiredUpon(old(Data()))
    {
      ghost var g := Data();
      var kept, lost := FireAt(enemyBullets, player);
      assert Shelling(player.Data(), kept, lost) == Shelled(g.enemyBullets, g.player);
      enemyBullets := kept;
      if lost {
        gameOver := true;
      }
    }

    /** Living enemies touching the player. */
    method ResolveMelee()
      requires Valid()
      modifies this, player
      ensures Valid() && player == old(player) && level == old(level) && camera == old(camera)
      ensures Data() == Meleed(old(Data()))
    {
      var lost := Maul(level.enemies, player);
      if lost {
        gameOver := true;
      }
    }

    /** Power-ups the player touches. */
    method CollectPowerUps()
      requires Valid()
      modifies this, player, level
      ensures Valid() && player == old(player) && level == old(level) && camera == old(camera)
      ensures level.enemies == old(level.enemies)
      ensures Data() == PickedUp(old(Data()))
    {
      var left, points := Collect(level.powerups, player);
      level.powerups := left;
      score := score + points;
    }

    /** The level is complete once no enemy is left alive. */
    method CheckCompletion()
      requires Valid()
      modifies this
      ensures Valid() && player == old(player) && level == old(level) && camera == old(camera)
      ensures Data() == Completed(old(Data()))
    {
      var alive := AliveOf(level.enemies);
      NoneLiving(Datas(level.enemies));
      if |alive| == 0 {
        levelComplete := true;
      }
    }
  }
}
