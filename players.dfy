/** The player character: movement, jumping, shooting and the damage protocol. */
module Players {
  import opened Geometry
  import opened Physics
  import opened Projectiles

  /** The player's sprites are scaled to 80 x 80 px. */
  const PLAYER_SIZE: int := 800  // 80 px
  /** Where the player starts a level and reappears after losing a life. */
  const SPAWN_X: int := 1000  // 100 px
  const SPAWN_Y: int := 4500  // 450 px, 150 px above the bottom of the screen
  const MAX_HEALTH: int := 100
  const START_LIVES: int := 3
  /** Ticks of invincibility after a hit (one second). */
  const INVINCIBLE_TICKS: nat := 60
  /** Ticks of the throwing animation after a shot. */
  const ATTACK_TICKS: nat := 20

  datatype Weapon = Normal | Spread | Rapid

  /** The movement keys held down during a tick. */
  datatype Held = Held(left: bool, right: bool)

  /** The state of the player that the rules read and write. */
  datatype PlayerData = PlayerData(
    box: Rect, velY: int, onGround: bool, facingRight: bool,
    health: int, maxHealth: int, lives: int,
    shootCooldown: nat, weapon: Weapon, invincible: nat,
    moving: bool, attacking: bool, attackTimer: nat, character: int)

  /** `Player(x, y, character_num)`. */
  function NewPlayer(x: int, y: int, character: int): (p: PlayerData)
    ensures p.box == Rect(x, y, PLAYER_SIZE, PLAYER_SIZE)
    ensures p.health == p.maxHealth == MAX_HEALTH && p.lives == START_LIVES
    ensures p.weapon == Normal && p.shootCooldown == 0 && p.invincible == 0
    ensures !p.attacking && p.attackTimer == 0 && p.facingRight
  {
    PlayerData(Rect(x, y, PLAYER_SIZE, PLAYER_SIZE), 0, false, true,
               MAX_HEALTH, MAX_HEALTH, START_LIVES, 0, Normal, 0, false, false, 0, character)
  }

  /** Ticks between two shots: rapid fire is fastest, the spread gun slowest. */
  function CooldownFor(w: Weapon): (t: nat)
    ensures t > 0
  {
    match w
    case Normal => 15
    case Rapid => 5
    case Spread => 20
  }

  lemma CooldownOrder()
    ensures CooldownFor(Rapid) < CooldownFor(Normal) < CooldownFor(Spread)
  {
  }

  /** A timer after one tick: down by one while positive, never below zero. */
  function Countdown(n: nat): nat { if n > 0 then n - 1 else 0 }

  /** The horizontal part of a tick: walk with the held keys, then stay inside the level. */
  function Steered(p: PlayerData, levelWidth: int, held: Held): PlayerData {
    var x1 := if held.left then p.box.x - PLAYER_SPEED else p.box.x;
    var x2 := if held.right then x1 + PLAYER_SPEED else x1;
    p.(box := p.box.(x := Max(0, Min(x2, levelWidth - p.box.w))),
       facingRight := if held.right then true else if held.left then false else p.facingRight,
       moving := held.left || held.right)
  }

  /** The vertical part of a tick: gravity, the platform pass, then the floor line. */
  function Fallen(p: PlayerData, platforms: seq<Platform>): PlayerData {
    var vy := p.velY + GRAVITY;
    var settled := Settle(Fall(p.box.(y := p.box.y + vy), vy, false), platforms, true);
    var onFloor := settled.rect.Bottom() >= FLOOR_Y;
    p.(box := if onFloor then settled.rect.WithBottom(FLOOR_Y) else settled.rect,
       velY := if onFloor then 0 else settled.velY,
       onGround := onFloor || settled.landed)
  }

  /** The timers of a tick: the attack animation, the weapon cooldown and invincibility. */
  function TimersRun(p: PlayerData): PlayerData {
    var timer := Countdown(p.attackTimer);
    p.(attackTimer := timer,
       attacking := if p.attackTimer > 0 then timer > 0 else p.attacking,
       shootCooldown := Countdown(p.shootCooldown),
       invincible := Countdown(p.invincible))
  }

  /** `Player.update`: one tick of movement, gravity, landing and timers. */
  function Updated(p: PlayerData, platforms: seq<Platform>, levelWidth: int, held: Held): PlayerData {
    TimersRun(Fallen(Steered(p, levelWidth, held), platforms))
  }

  /** What one tick guarantees: the player stays inside the level and above
      the floor line, stands still exactly when on the ground, and each timer
      runs down by one without going below zero. */
  lemma UpdateBounds(p: PlayerData, platforms: seq<Platform>, levelWidth: int, held: Held)
    requires levelWidth >= p.box.w
    ensures var r := Updated(p, platforms, levelWidth, held);
      && 0 <= r.box.x <= levelWidth - r.box.w
      && r.box.w == p.box.w && r.box.h == p.box.h
      && r.box.Bottom() <= FLOOR_Y
      && (r.box.Bottom() == FLOOR_Y ==> r.onGround)
      && (r.onGround ==> r.velY == 0)
      && (!r.onGround ==> r.velY == p.velY + GRAVITY)
      && r.shootCooldown == (if p.shootCooldown > 0 then p.shootCooldown - 1 else 0)
      && r.invincible == (if p.invincible > 0 then p.invincible - 1 else 0)
      && r.attackTimer == (if p.attackTimer > 0 then p.attackTimer - 1 else 0)
      && r.health == p.health && r.lives == p.lives && r.weapon == p.weapon
  {
    var q := Steered(p, levelWidth, held);
    var vy := q.velY + GRAVITY;
    SettleOutcome(Fall(q.box.(y := q.box.y + vy), vy, false), platforms, true);
  }

  /** Where one tick puts the player. The held keys move it 5 px left and/or
      right, clamped to the level, and set the facing; then it falls by its
      speed plus gravity. If no platform catches the moved box and it stays
      above the floor line, it is in the air with the faster speed; otherwise
      it stands still on the floor line or on the top of some platform. */
  lemma UpdateMotion(p: PlayerData, platforms: seq<Platform>, levelWidth: int, held: Held)
    ensures var r := Updated(p, platforms, levelWidth, held);
      && r.box.x == Max(0, Min(p.box.x - (if held.left then PLAYER_SPEED else 0)
                                        + (if held.right then PLAYER_SPEED else 0), levelWidth - p.box.w))
      && r.facingRight == (if held.right then true else if held.left then false else p.facingRight)
      && r.moving == (held.left || held.right)
    ensures var r := Updated(p, platforms, levelWidth, held);
      var vy := p.velY + GRAVITY;
      var moved := p.box.(x := r.box.x, y := p.box.y + vy);
      var free := (forall i :: 0 <= i < |platforms| ==> !Catches(Fall(moved, vy, false), platforms[i], true))
                  && moved.Bottom() < FLOOR_Y;
      && (free ==> r.box == moved && r.velY == vy && !r.onGround)
      && (!free ==> r.velY == 0 && r.onGround && r.box.x == moved.x && r.box.w == p.box.w && r.box.h == p.box.h
                    && (r.box.Bottom() == FLOOR_Y || exists i :: 0 <= i < |platforms| && r.box.Bottom() == platforms[i].rect.y))
  {
    var q := Steered(p, levelWidth, held);
    var vy := q.velY + GRAVITY;
    var f := Fall(q.box.(y := q.box.y + vy), vy, false);
    SettleOutcome(f, platforms, true);
    SettleCaught(f, platforms, true);
  }

  /** `Player.jump`: only from the ground. */
  function Jumped(p: PlayerData): (r: PlayerData)
    ensures p.onGround ==> r == p.(velY := JUMP_STRENGTH, onGround := false)
    ensures !p.onGround ==> r == p
  {
    if p.onGround then p.(velY := JUMP_STRENGTH, onGround := false) else p
  }

  /** The angle of every bullet of a volley, in order. */
  function Angles(bs: seq<Bullet>): (a: seq<int>)
    ensures |a| == |bs| && forall i :: 0 <= i < |bs| ==> a[i] == bs[i].angle
  {
    if bs == [] then [] else [bs[0].angle] + Angles(bs[1..])
  }

  /** The volley a ready weapon fires from the side of the player it faces. */
  function Volley(p: PlayerData): seq<Bullet> {
    var direction := if p.facingRight then 1 else -1;
    var x := if p.facingRight then p.box.Right() else p.box.x;
    if p.weapon == Spread
    then [Fire(x, p.box.CenterY(), direction, -15), Fire(x, p.box.CenterY(), direction, 0),
          Fire(x, p.box.CenterY(), direction, 15)]
    else [Fire(x, p.box.CenterY(), direction, 0)]
  }

  /** `Player.shoot`: the new player and the bullets fired. */
  function Shot(p: PlayerData): (r: (PlayerData, seq<Bullet>))
    ensures p.shootCooldown > 0 ==> r == (p, [])
    ensures p.shootCooldown == 0 ==>
      r.0 == p.(shootCooldown := CooldownFor(p.weapon), attacking := true, attackTimer := ATTACK_TICKS)
    ensures p.shootCooldown == 0 ==> Angles(r.1) == (if p.weapon == Spread then [-15, 0, 15] else [0])
    ensures forall b :: b in r.1 ==>
      && b.direction == (if p.facingRight then 1 else -1)
      && b.vx * b.direction > 0
      && b.x == (if p.facingRight then p.box.Right() else p.box.x)
      && b.y == p.box.CenterY()
  {
    if p.shootCooldown == 0
    then (p.(shootCooldown := CooldownFor(p.weapon), attacking := true, attackTimer := ATTACK_TICKS),
          Volley(p))
    else (p, [])
  }

  /** `Player.take_damage(amount)`: the new player, and whether that hit used
      up the last life. */
  function Damaged(p: PlayerData, amount: int): (r: (PlayerData, bool))
    ensures p.invincible > 0 ==> r == (p, false)
    ensures p.invincible == 0 ==> r.0.invincible == INVINCIBLE_TICKS
    ensures r.1 <==> p.invincible == 0 && p.health - amount <= 0 && p.lives - 1 <= 0
    ensures p.invincible == 0 && p.health - amount > 0 ==>
      r.0 == p.(health := p.health - amount, invincible := INVINCIBLE_TICKS)
    ensures p.invincible == 0 && p.health - amount <= 0 && p.lives - 1 > 0 ==>
      r.0 == p.(health := p.maxHealth, invincible := INVINCIBLE_TICKS, lives := p.lives - 1,
                box := p.box.(x := SPAWN_X, y := SPAWN_Y))
    ensures p.invincible == 0 && p.health - amount <= 0 && p.lives - 1 <= 0 ==>
      r.0 == p.(health := p.health - amount, invincible := INVINCIBLE_TICKS, lives := p.lives - 1)
    ensures r.0.weapon == p.weapon && r.0.velY == p.velY && r.0.shootCooldown == p.shootCooldown
  {
    if p.invincible != 0 then (p, false)
    else
      var hurt := p.(health := p.health - amount, invincible := INVINCIBLE_TICKS);
      if hurt.health > 0 then (hurt, false)
      else
        var lost := hurt.(lives := hurt.lives - 1);
        if lost.lives > 0
        then (lost.(health := lost.maxHealth, box := lost.box.(x := SPAWN_X, y := SPAWN_Y)), false)
        else (lost, true)
  }

  /** A player with lives left has positive health no greater than the maximum. */
  predicate Vital(p: PlayerData) {
    p.lives > 0 && 0 < p.health <= p.maxHealth
  }

  /** The damage protocol keeps a living player vital, or reports the game
      lost with no lives left (health may then be negative). */
  lemma DamagePreservesVitality(p: PlayerData, amount: int)
    requires Vital(p) && amount >= 0
    ensures Damaged(p, amount).1 ==> Damaged(p, amount).0.lives == 0
    ensures !Damaged(p, amount).1 ==> Vital(Damaged(p, amount).0)
  {
  }

  /** A 120-point hit on a fresh player costs a life and restores full health
      at the spawn point. */
  lemma HeavyHitScenario(character: int)
    ensures var p := NewPlayer(Px(500), Px(300), character);
      var r := Damaged(p, 120);
      && r.0.lives == 2 && r.0.health == 100 && !r.1
      && r.0.box.x == SPAWN_X && r.0.box.y == SPAWN_Y && r.0.invincible == INVINCIBLE_TICKS
  {
  }

  /** While invincible the player is drawn on the first five ticks of every ten. */
  predicate Visible(invincible: nat) {
    invincible == 0 || invincible % 10 < 5
  }

  lemma BlinkAlternates(n: nat)
    requires n > 0
    ensures Visible(n) != Visible(n + 5)
  {
  }

  class Player {
    var rect: Rect
    var velY: int
    var onGround: bool
    var facingRight: bool
    var health: int
    const maxHealth: int
    var lives: int
    var shootCooldown: nat
    var weapon: Weapon
    var invincible: nat
    var moving: bool
    var attacking: bool
    var attackTimer: nat
    const character: int

    function Data(): PlayerData
      reads this
    {
      PlayerData(rect, velY, onGround, facingRight, health, maxHealth, lives,
                 shootCooldown, weapon, invincible, moving, attacking, attackTimer, character)
    }

    constructor (x: int, y: int, character: int)
      ensures Data() == NewPlayer(x, y, character)
    {
      rect := Rect(x, y, PLAYER_SIZE, PLAYER_SIZE);
      velY := 0;
      onGround := false;
      facingRight := true;
      health := MAX_HEALTH;
      maxHealth := MAX_HEALTH;
      lives := START_LIVES;
      shootCooldown := 0;
      weapon := Normal;
      invincible := 0;
      moving := false;
      attacking := false;
      attackTimer := 0;
      this.character := character;
    }

    /** `Player.update(platforms, level_width)` with the held keys of the tick. */
    method Update(platforms: seq<Platform>, levelWidth: int, held: Held)
      modifies this
      ensures Data() == Updated(old(Data()), platforms, levelWidth, held)
    {
      Steer(levelWidth, held);
      ApplyGravity(platforms);
      RunTimers();
    }

    method Steer(levelWidth: int, held: Held)
      modifies this
      ensures Data() == Steered(old(Data()), levelWidth, held)
    {
      moving := false;
      if held.left {
        rect := rect.(x := rect.x - PLAYER_SPEED);
        facingRight := false;
        moving := true;
      }
      if held.right {
        rect := rect.(x := rect.x + PLAYER_SPEED);
        facingRight := true;
        moving := true;
      }
      rect := rect.(x := Max(0, Min(rect.x, levelWidth - rect.w)));
    }

    method ApplyGravity(platforms: seq<Platform>)
      modifies this
      ensures Data() == Fallen(old(Data()), platforms)
    {
      velY := velY + GRAVITY;
      rect := rect.(y := rect.y + velY);
      onGround := false;
      ghost var start := Fall(rect, velY, false);
      var i := 0;
      while i < |platforms|
        invariant 0 <= i <= |platforms|
        invariant Settle(Fall(rect, velY, onGround), platforms[i..], true) == Settle(start, platforms, true)
        invariant unchanged(`health, `lives, `weapon, `shootCooldown, `invincible, `attackTimer)
        invariant unchanged(`attacking, `moving, `facingRight)
      {
        assert platforms[i..][1..] == platforms[i + 1..];
        var platform := platforms[i];
        if Overlaps(rect, platform.rect) {
          if velY > 0 && rect.Bottom() <= platform.rect.Bottom() {
            rect := rect.WithBottom(platform.rect.y);
            velY := 0;
            onGround := true;
          }
        }
        i := i + 1;
      }
      assert platforms[|platforms|..] == [];
      if rect.Bottom() >= FLOOR_Y {
        rect := rect.WithBottom(FLOOR_Y);
        velY := 0;
        onGround := true;
      }
    }

    method RunTimers()
      modifies this
      ensures Data() == TimersRun(old(Data()))
    {
      if attackTimer > 0 {
        attackTimer := attackTimer - 1;
        attacking := attackTimer > 0;
      }
      if shootCooldown > 0 {
        shootCooldown := shootCooldown - 1;
      }
      if invincible > 0 {
        invincible := invincible - 1;
      }
    }

    /** The player part of `Game.next_level`: back to the spawn point with the
        normal weapon; speed, health, lives and timers are kept. */
    method Respawn()
      modifies this
      ensures Data() == old(Data()).(box := old(rect).(x := SPAWN_X, y := SPAWN_Y), weapon := Normal)
    {
      rect := rect.(x := SPAWN_X, y := SPAWN_Y);
      weapon := Normal;
    }

    /** `Player.jump`. */
    method Jump()
      modifies this
      ensures Data() == Jumped(old(Data()))
    {
      if onGround {
        velY := JUMP_STRENGTH;
        onGround := false;
      }
    }

    /** `Player.shoot`: the bullets fired, none while the weapon cools down. */
    method Shoot() returns (bullets: seq<Bullet>)
      modifies this
      ensures (Data(), bullets) == Shot(old(Data()))
    {
      bullets := [];
      var cooldown := if weapon == Normal then 15 else if weapon == Rapid then 5 else 20;
      if shootCooldown == 0 {
        shootCooldown := cooldown;
        attacking := true;
        attackTimer := ATTACK_TICKS;
        var direction := if facingRight then 1 else -1;
        var x := if facingRight then rect.Right() else rect.x;
        var y := rect.CenterY();
        if weapon == Spread {
          var angles := [-15, 0, 15];
          for k := 0 to |angles|
            invariant bullets == seq(k, j requires 0 <= j < k => Fire(x, y, direction, angles[j]))
          {
            bullets := bullets + [Fire(x, y, direction, angles[k])];
          }
        } else {
          bullets := bullets + [Fire(x, y, direction, 0)];
        }
        assert bullets == Volley(old(Data()));
      }
    }

    /** `Player.take_damage(amount)`: true when the hit used up the last life. */
    method TakeDamage(amount: int) returns (dead: bool)
      modifies this
      ensures (Data(), dead) == Damaged(old(Data()), amount)
    {
      if invincible == 0 {
        health := health - amount;
        invincible := INVINCIBLE_TICKS;
        if health <= 0 {
          lives := lives - 1;
          if lives > 0 {
            health := maxHealth;
            rect := rect.(x := SPAWN_X);
            rect := rect.(y := SPAWN_Y);
          }
          return lives <= 0;
        }
      }
      return false;
    }

    /** The blink test of `Player.draw`. */
    predicate IsDrawn()
      reads this
    {
      Visible(invincible)
    }
  }
}
