/** The enemies: a per-kind parameter table, patrol and chase movement, and
    the death sequence. Enemies are melee only. */
module Enemies {
  import opened Geometry
  import opened Options
  import opened Physics
  import opened Projectiles
  import opened Randomness

  /** The enemies' sprites are scaled to 70 x 70 px. */
  const ENEMY_SIZE: int := 700  // 70 px
  /** An enemy turns towards a player closer than this, horizontally. */
  const CHASE_RANGE: int := 3000  // 300 px
  /** How far an enemy patrols on either side of where it was placed. */
  const PATROL_REACH: int := 1000  // 100 px
  /** The death animation has 12 frames, each held for 5 ticks. */
  const DEATH_FRAMES: int := 12
  const DEATH_TICKS: nat := 60

  datatype EnemyKind = Soldier | Heavy | Turret

  /** Which of the two zombie sprite sets the enemy wears. */
  datatype Gender = Male | Female

  /** The per-kind parameters fixed at creation. The shoot interval is kept
      although no enemy ever shoots. */
  datatype KindStats = KindStats(health: int, speed: nat, shootMin: int, shootMax: int)

  function Stats(kind: EnemyKind): (s: KindStats)
    ensures s.health > 0 && s.shootMin <= s.shootMax
    ensures s.speed == 0 <==> kind == Turret
  {
    match kind
    case Soldier => KindStats(2, ENEMY_SPEED, 90, 150)
    case Heavy => KindStats(4, 12, 60, 100)
    case Turret => KindStats(5, 0, 40, 80)
  }

  /** Tougher kinds take more hits and move more slowly; the heavy moves at
      0.6 of the soldier's speed. */
  lemma KindTable()
    ensures Stats(Soldier).health == 2 && Stats(Heavy).health == 4 && Stats(Turret).health == 5
    ensures Stats(Soldier).speed == Px(2) && Stats(Heavy).speed * 10 == Stats(Soldier).speed * 6
    ensures Stats(Turret).speed == 0
  {
  }

  datatype EnemyData = EnemyData(
    kind: EnemyKind, gender: Gender, box: Rect, velY: int, health: int, speed: nat, direction: int,
    patrolStart: int, patrolEnd: int, dying: bool, deathTimer: nat,
    attacking: bool, attackTimer: nat, shootTimer: int)

  /** `Enemy(x, y, enemy_type)` with the sprite set and the shoot timer already drawn. */
  function NewEnemy(x: int, y: int, kind: EnemyKind, gender: Gender, shootTimer: int): (e: EnemyData)
    ensures e.box == Rect(x, y, ENEMY_SIZE, ENEMY_SIZE) && e.kind == kind && e.gender == gender
    ensures e.health == Stats(kind).health && e.speed == Stats(kind).speed
    ensures e.direction == -1 && !e.dying && e.deathTimer == 0 && e.velY == 0
    ensures e.patrolStart == x - PATROL_REACH && e.patrolEnd == x + PATROL_REACH
  {
    EnemyData(kind, gender, Rect(x, y, ENEMY_SIZE, ENEMY_SIZE), 0, Stats(kind).health, Stats(kind).speed, -1,
              x - PATROL_REACH, x + PATROL_REACH, false, 0, false, 0, shootTimer)
  }

  /** `Enemy(x, y, enemy_type)`: first the sprite set is chosen, then the
      shoot timer is drawn from the kind's interval. */
  function Spawned(x: int, y: int, kind: EnemyKind, stream: seq<int>, cursor: nat): (r: (EnemyData, nat))
    ensures r.1 == cursor + 2
    ensures Stats(kind).shootMin <= r.0.shootTimer <= Stats(kind).shootMax
    ensures r.0 == NewEnemy(x, y, kind, r.0.gender, r.0.shootTimer)
  {
    var gender := if Draw(stream, cursor, 0, 1) == 0 then Male else Female;
    (NewEnemy(x, y, kind, gender, Draw(stream, cursor + 1, Stats(kind).shootMin, Stats(kind).shootMax)), cursor + 2)
  }

  /** What every enemy in a level satisfies: it faces left or right, it is
      dying exactly when its health is used up, its speed is its kind's, and a
      death timer runs only while it is dying and is removed at `DEATH_TICKS`. */
  predicate Wellformed(e: EnemyData) {
    && Facing(e.direction)
    && (e.dying <==> e.health <= 0)
    && e.health <= Stats(e.kind).health
    && e.speed == Stats(e.kind).speed
    && e.deathTimer < DEATH_TICKS
    && (!e.dying ==> e.deathTimer == 0)
    && e.box.w == ENEMY_SIZE && e.box.h == ENEMY_SIZE
  }

  lemma NewEnemyWellformed(x: int, y: int, kind: EnemyKind, gender: Gender, shootTimer: int)
    ensures Wellformed(NewEnemy(x, y, kind, gender, shootTimer))
  {
  }

  function Abs(n: int): nat { if n < 0 then -n else n }

  /** The horizontal part of a living enemy's tick: turn towards a close
      player, walk, and turn round when past either patrol bound. Turrets do
      not move. */
  function Walked(e: EnemyData, playerX: int): EnemyData {
    if e.kind == Turret then e
    else
      var dir := if Abs(e.box.CenterX() - playerX) < CHASE_RANGE
                 then (if playerX > e.box.CenterX() then 1 else -1)
                 else e.direction;
      var x := e.box.x + e.speed * dir;
      e.(box := e.box.(x := x),
         direction := if x < e.patrolStart || x > e.patrolEnd then -dir else dir)
  }

  /** The vertical part of a living enemy's tick: gravity, the platform pass
      without the player's from-above guard, then the floor line. */
  function Dropped(e: EnemyData, platforms: seq<Platform>): EnemyData {
    var vy := e.velY + GRAVITY;
    var settled := Settle(Fall(e.box.(y := e.box.y + vy), vy, false), platforms, false);
    var onFloor := settled.rect.Bottom() >= FLOOR_Y;
    e.(box := if onFloor then settled.rect.WithBottom(FLOOR_Y) else settled.rect,
       velY := if onFloor then 0 else settled.velY)
  }

  /** `Enemy.update(platforms, player_x)`: the enemy after the tick, and whether
      it removed itself from the level. */
  function Stepped(e: EnemyData, platforms: seq<Platform>, playerX: int): (r: (EnemyData, bool))
    ensures e.dying ==> r == (e.(deathTimer := e.deathTimer + 1), e.deathTimer + 1 >= DEATH_TICKS)
    ensures !e.dying ==> !r.1 && !r.0.dying && r.0.health == e.health && r.0.kind == e.kind
  {
    if e.dying then
      var t := e.deathTimer + 1;
      (e.(deathTimer := t), t >= DEATH_TICKS)
    else
      var moved := Dropped(Walked(e, playerX), platforms);
      var timer := if moved.attackTimer > 0 then moved.attackTimer - 1 else 0;
      (moved.(attackTimer := timer,
              attacking := if moved.attackTimer > 0 then timer > 0 else moved.attacking),
       false)
  }

  /** An update keeps every enemy that stays in the level well formed. */
  lemma SteppedWellformed(e: EnemyData, platforms: seq<Platform>, playerX: int)
    requires Wellformed(e)
    ensures !Stepped(e, platforms, playerX).1 ==> Wellformed(Stepped(e, platforms, playerX).0)
  {
    if !e.dying {
      var w := Walked(e, playerX);
      assert Facing(w.direction);
      var vy := w.velY + GRAVITY;
      SettleOutcome(Fall(w.box.(y := w.box.y + vy), vy, false), platforms, false);
    }
  }

  /** Turrets never move sideways and never turn. */
  lemma TurretStationary(e: EnemyData, platforms: seq<Platform>, playerX: int)
    requires e.kind == Turret
    ensures Stepped(e, platforms, playerX).0.box.x == e.box.x
    ensures Stepped(e, platforms, playerX).0.direction == e.direction
  {
    if !e.dying {
      var vy := e.velY + GRAVITY;
      SettleOutcome(Fall(e.box.(y := e.box.y + vy), vy, false), platforms, false);
    }
  }

  /** The vertical step never moves an enemy sideways or resizes it, and
      leaves it no lower than the floor line; it stops falling on a platform
      or the floor, and otherwise keeps the speed gravity gave it. Nothing
      else about the enemy changes. If no platform catches the box moved
      down by the new speed (without the player's from-above guard) and it
      stays above the floor line, the enemy is there with that speed;
      otherwise it stands still on the floor line or on some platform's top. */
  lemma DropRule(e: EnemyData, platforms: seq<Platform>)
    ensures var r := Dropped(e, platforms);
      && r == e.(box := r.box, velY := r.velY)
      && r.box.x == e.box.x && r.box.w == e.box.w && r.box.h == e.box.h
      && r.box.Bottom() <= FLOOR_Y
      && (r.velY == 0 || r.velY == e.velY + GRAVITY)
    ensures var r := Dropped(e, platforms);
      var vy := e.velY + GRAVITY;
      var moved := e.box.(y := e.box.y + vy);
      var free := (forall i :: 0 <= i < |platforms| ==> !Catches(Fall(moved, vy, false), platforms[i], false))
                  && moved.Bottom() < FLOOR_Y;
      && (free ==> r.box == moved && r.velY == vy)
      && (!free ==> r.velY == 0
                    && (r.box.Bottom() == FLOOR_Y || exists i :: 0 <= i < |platforms| && r.box.Bottom() == platforms[i].rect.y))
  {
    var vy := e.velY + GRAVITY;
    var f := Fall(e.box.(y := e.box.y + vy), vy, false);
    SettleOutcome(f, platforms, false);
    SettleCaught(f, platforms, false);
  }

  /** A walking enemy inside its patrol range faces a player within 300 px
      and otherwise keeps its direction; one that walks past a patrol bound
      turns round. */
  lemma WalkRule(e: EnemyData, platforms: seq<Platform>, playerX: int)
    requires Wellformed(e) && !e.dying && e.kind != Turret
    ensures var r := Stepped(e, platforms, playerX).0;
      var dir := if Abs(e.box.CenterX() - playerX) < CHASE_RANGE
                 then (if playerX > e.box.CenterX() then 1 else -1) else e.direction;
      && r.box.x == e.box.x + e.speed * dir
      && (e.patrolStart <= r.box.x <= e.patrolEnd ==> r.direction == dir)
      && (r.box.x < e.patrolStart || r.box.x > e.patrolEnd ==> r.direction == -dir)
  {
    var w := Walked(e, playerX);
    var vy := w.velY + GRAVITY;
    SettleOutcome(Fall(w.box.(y := w.box.y + vy), vy, false), platforms, false);
  }

  /** The enemy after `n` updates with the same platforms and player position,
      or None once it has removed itself. */
  function After(e: EnemyData, platforms: seq<Platform>, playerX: int, n: nat): Option<EnemyData>
    decreases n
  {
    if n == 0 then Some(e)
    else
      var r := Stepped(e, platforms, playerX);
      if r.1 then None else After(r.0, platforms, playerX, n - 1)
  }

  /** A dying enemy is frozen where it fell and is removed after exactly
      `DEATH_TICKS` updates counted from its last hit: the twelve frames of its
      death animation, five ticks each. */
  lemma {:induction false} DeathSequence(e: EnemyData, platforms: seq<Platform>, playerX: int)
    requires e.dying && e.deathTimer < DEATH_TICKS
    ensures After(e, platforms, playerX, DEATH_TICKS - 1 - e.deathTimer)
            == Some(e.(deathTimer := DEATH_TICKS - 1))
    ensures After(e, platforms, playerX, DEATH_TICKS - e.deathTimer) == None
    decreases DEATH_TICKS - e.deathTimer
  {
    if e.deathTimer + 1 < DEATH_TICKS {
      DeathSequence(e.(deathTimer := e.deathTimer + 1), platforms, playerX);
    }
  }

  /** `Enemy.take_damage`: one unit of damage; the enemy starts dying when its
      health is used up. */
  function Hurt(e: EnemyData): (r: EnemyData)
    ensures r.health == e.health - 1
    ensures r.dying <==> e.dying || r.health <= 0
    ensures r == e.(health := r.health, dying := r.dying)
  {
    var h := e.health - 1;
    if h <= 0 then e.(health := h, dying := true) else e.(health := h)
  }

  lemma HurtWellformed(e: EnemyData)
    requires Wellformed(e) && !e.dying
    ensures Wellformed(Hurt(e))
  {
  }

  /** A soldier (health 2) hit twice: still alive after the first hit, dying
      after the second. */
  lemma SoldierTwoHits(x: int, y: int, gender: Gender, shootTimer: int)
    ensures var e := NewEnemy(x, y, Soldier, gender, shootTimer);
      && Hurt(e).health == 1 && !Hurt(e).dying
      && Hurt(Hurt(e)).health <= 0 && Hurt(Hurt(e)).dying
  {
  }

  /** The state of each enemy of a group, in group order. */
  function Datas(es: seq<Enemy>): (ds: seq<EnemyData>)
    reads es
    ensures |ds| == |es| && forall i :: 0 <= i < |es| ==> ds[i] == es[i].Data()
  {
    seq(|es|, i reads es requires 0 <= i < |es| => es[i].Data())
  }

  lemma DatasAppend(es: seq<Enemy>, e: Enemy)
    ensures Datas(es + [e]) == Datas(es) + [e.Data()]
  {
  }

  /** No enemy object occurs twice in a group. */
  predicate Distinct(es: seq<Enemy>) {
    forall i, j :: 0 <= i < j < |es| ==> es[i] != es[j]
  }

  class Enemy {
    const kind: EnemyKind
    const gender: Gender
    var rect: Rect
    var velY: int
    var health: int
    const speed: nat
    var direction: int
    const patrolStart: int
    const patrolEnd: int
    var dying: bool
    var deathTimer: nat
    var attacking: bool
    var attackTimer: nat
    const shootTimer: int

    function Data(): EnemyData
      reads this
    {
      EnemyData(kind, gender, rect, velY, health, speed, direction, patrolStart, patrolEnd,
                dying, deathTimer, attacking, attackTimer, shootTimer)
    }

    /** `Enemy(x, y, enemy_type)`: the sprite set and then the shoot timer are
        drawn from the generator, at positions `cursor` and `cursor + 1`. */
    constructor (x: int, y: int, kind: EnemyKind, stream: seq<int>, cursor: nat)
      ensures Data() == Spawned(x, y, kind, stream, cursor).0
    {
      this.kind := kind;
      var pick := Draw(stream, cursor, 0, 1);
      gender := if pick == 0 then Male else Female;
      var stats := Stats(kind);
      health := stats.health;
      speed := stats.speed;
      rect := Rect(x, y, ENEMY_SIZE, ENEMY_SIZE);
      velY := 0;
      direction := -1;
      var timer := Draw(stream, cursor + 1, stats.shootMin, stats.shootMax);
      shootTimer := timer;
      patrolStart := x - PATROL_REACH;
      patrolEnd := x + PATROL_REACH;
      attacking := false;
      attackTimer := 0;
      dying := false;
      deathTimer := 0;
    }

    /** `Enemy.update(platforms, player_x)`: the bullet fired (never one), and
        whether the enemy removed itself from the level. */
    method Update(platforms: seq<Platform>, playerX: int) returns (shot: Option<EnemyBullet>, killed: bool)
      modifies this
      ensures shot == None
      ensures (Data(), killed) == Stepped(old(Data()), platforms, playerX)
    {
      shot := None;
      killed := false;
      if dying {
        deathTimer := deathTimer + 1;
        killed := deathTimer >= DEATH_TICKS;
        return;
      }
      Walk(playerX);
      Drop(platforms);
      if attackTimer > 0 {
        attackTimer := attackTimer - 1;
        attacking := attackTimer > 0;
      }
    }

    method Walk(playerX: int)
      modifies this
      ensures Data() == Walked(old(Data()), playerX)
    {
      if kind != Turret {
        if Abs(rect.CenterX() - playerX) < CHASE_RANGE {
          direction := if playerX > rect.CenterX() then 1 else -1;
        }
        rect := rect.(x := rect.x + speed * direction);
        if rect.x < patrolStart || rect.x > patrolEnd {
          direction := direction * -1;
        }
      }
    }

    method Drop(platforms: seq<Platform>)
      modifies this
      ensures Data() == Dropped(old(Data()), platforms)
    {
      velY := velY + GRAVITY;
      rect := rect.(y := rect.y + velY);
      ghost var start := Fall(rect, velY, false);
      ghost var landed := false;
      var i := 0;
      while i < |platforms|
        invariant 0 <= i <= |platforms|
        invariant Settle(Fall(rect, velY, landed), platforms[i..], false) == Settle(start, platforms, false)
        invariant unchanged(`health, `direction, `dying, `deathTimer, `attacking, `attackTimer)
      {
        assert platforms[i..][1..] == platforms[i + 1..];
        var platform := platforms[i];
        if Overlaps(rect, platform.rect) {
          if velY > 0 {
            rect := rect.WithBottom(platform.rect.y);
            velY := 0;
            landed := true;
          }
        }
        i := i + 1;
      }
      assert platforms[|platforms|..] == [];
      if rect.Bottom() >= FLOOR_Y {
        rect := rect.WithBottom(FLOOR_Y);
        velY := 0;
      }
    }

    /** `Enemy.take_damage`: always answers false (the enemy is not removed yet). */
    method TakeDamage() returns (removed: bool)
      modifies this
      ensures !removed
      ensures Data() == Hurt(old(Data()))
    {
      health := health - 1;
      if health <= 0 {
        dying := true;
        return false;
      }
      return false;
    }
  }
}
