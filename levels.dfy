/** Levels: their width and theme, and the generation of platforms, enemies
    and power-ups from the random generator. */
module Levels {
  import opened Geometry
  import opened Physics
  import opened Randomness
  import opened Enemies

  /** The level a new game starts on. */
  const FIRST_LEVEL: int := 1

  /** Each level is 400 px wider than the one before. */
  const WIDTH_STEP: int := 4000  // 400 px
  const POWERUP_SIZE: nat := 250  // 25 px

  /** One entry of the fixed platform layout, in pixels. */
  datatype Slab = Slab(x: int, y: int, w: nat, h: nat)

  /** The heights, in pixels, of the eleven platforms every level starts from. */
  const BASE_HEIGHTS: seq<int> := [480, 400, 320, 400, 480, 350, 280, 400, 480, 350, 280]

  /** Slab `i` of the base layout: 150 x 20 px, every 200 px from x = 100. */
  function BaseSlab(i: int): Slab {
    Slab(100 + 200 * i, if 0 <= i < |BASE_HEIGHTS| then BASE_HEIGHTS[i] else 0, 150, 20)
  }

  /** The eleven platforms every level starts from, in pixels and in order. */
  function BaseLayout(): (layout: seq<Slab>)
    ensures |layout| == |BASE_HEIGHTS|
  {
    seq(|BASE_HEIGHTS|, BaseSlab)
  }

  /** The heights, in pixels, an enemy may be placed at: on the floor line or
      near one of the platform rows. */
  const ENEMY_ROWS: seq<int> := [600 - 90, 260, 330, 410]

  datatype PowerKind = SpreadGun | RapidGun | HealthPack | ExtraLife

  const POWER_KINDS: seq<PowerKind> := [SpreadGun, RapidGun, HealthPack, ExtraLife]

  /** A pickup, centred on (x, y); it stays where it was placed until collected
      (its bobbing offset, the integer part of half a sine, is always 0). */
  datatype PowerUp = PowerUp(x: int, y: int, kind: PowerKind) {
    function Box(): (r: Rect)
      ensures r.CenterX() == x && r.CenterY() == y
      ensures r.w == POWERUP_SIZE && r.h == POWERUP_SIZE
    {
      CenteredAt(x, y, POWERUP_SIZE, POWERUP_SIZE);
      Centered(x, y, POWERUP_SIZE, POWERUP_SIZE)
    }
  }

  function LevelWidth(n: int): int { LEVEL_WIDTH + (n - 1) * WIDTH_STEP }

  function ThemeOf(n: int): Theme { if n == 1 then Graveyard else Scifi }

  /** Every level is at least a screen wide, and each is wider than the last. */
  lemma WidthGrows(n: int)
    requires n >= 1
    ensures LevelWidth(n) >= LEVEL_WIDTH > SCREEN_WIDTH
    ensures LevelWidth(n + 1) == LevelWidth(n) + WIDTH_STEP
  {
  }

  /** The layout entries that start inside the level, as platforms, in layout order. */
  function BaseFrom(layout: seq<Slab>, width: int, theme: Theme): (ps: seq<Platform>)
    ensures |ps| <= |layout|
  {
    if layout == [] then [] else Kept(layout[0], width, theme) + BaseFrom(layout[1..], width, theme)
  }

  /** One slab of the base layout: its platform if the slab starts inside the
      level, nothing otherwise. */
  function Kept(s: Slab, width: int, theme: Theme): (ps: seq<Platform>)
    ensures |ps| <= 1
  {
    if Px(s.x) < width then [MakePlatform(Px(s.x), Px(s.y), Px(s.w), Px(s.h), theme)] else []
  }

  /** Filtering the layout slab by slab: the filter distributes over concatenation. */
  lemma {:induction false} BaseFromAppend(a: seq<Slab>, b: seq<Slab>, width: int, theme: Theme)
    ensures BaseFrom(a + b, width, theme) == BaseFrom(a, width, theme) + BaseFrom(b, width, theme)
  {
    if a == [] {
      assert a + b == b;
    } else {
      assert (a + b)[1..] == a[1..] + b;
      BaseFromAppend(a[1..], b, width, theme);
    }
  }

  /** When every entry starts inside the level, none is filtered out. */
  lemma {:induction false} AllBaseKept(layout: seq<Slab>, width: int, theme: Theme)
    requires forall i :: 0 <= i < |layout| ==> Px(layout[i].x) < width
    ensures |BaseFrom(layout, width, theme)| == |layout|
  {
    if layout != [] {
      AllBaseKept(layout[1..], width, theme);
    }
  }

  /** Where generation puts an extra platform: inside the level, between 200
      and 450 px down, 100 to 180 px wide and clamped to 32 px tall. */
  predicate PlacedPlatform(p: Platform, width: int, theme: Theme) {
    && Px(200) <= p.rect.x <= width - Px(200) && Px(200) <= p.rect.y <= Px(450)
    && Px(100) <= p.rect.w <= Px(180) && p.rect.h == MIN_PLATFORM_H && p.theme == theme
  }

  /** One extra platform: x, y, then the width; always 20 px tall before the
      size clamp. */
  function ExtraPlatform(width: int, theme: Theme, stream: seq<int>, cursor: nat): (p: Platform)
    requires width >= Px(400)
    ensures PlacedPlatform(p, width, theme)
  {
    var x := Draw(stream, cursor, 200, ToPx(width) - 200);
    var y := Draw(stream, cursor + 1, 200, 450);
    var w := Draw(stream, cursor + 2, 100, 180);
    MakePlatform(Px(x), Px(y), Px(w), Px(20), theme)
  }

  /** The extra platforms of a level, `count` of them; the cursor after the draws. */
  function ExtraPlatforms(count: nat, width: int, theme: Theme, stream: seq<int>, cursor: nat)
    : (r: (seq<Platform>, nat))
    requires width >= Px(400)
    ensures |r.0| == count && r.1 == cursor + 3 * count
    ensures forall i :: 0 <= i < count ==> PlacedPlatform(r.0[i], width, theme)
  {
    if count == 0 then ([], cursor)
    else
      var prev := ExtraPlatforms(count - 1, width, theme, stream, cursor);
      (prev.0 + [ExtraPlatform(width, theme, stream, prev.1)], prev.1 + 3)
  }

  /** The enemy kind for level `n`: a turret one time in five from level 3,
      otherwise a heavy three times in ten from level 2, otherwise a soldier.
      A level too low for a kind draws nothing for it. */
  function PickKind(n: int, stream: seq<int>, cursor: nat): (r: (EnemyKind, nat))
    ensures r.0 == Turret ==> n >= 3
    ensures r.0 == Heavy ==> n >= 2
    ensures n <= 1 ==> r == (Soldier, cursor)
    ensures cursor <= r.1 <= cursor + 2
  {
    if n >= 3 && Below(stream, cursor, 2) then (Turret, cursor + 1)
    else
      var c := if n >= 3 then cursor + 1 else cursor;
      if n >= 2 && Below(stream, c, 3) then (Heavy, c + 1)
      else (Soldier, if n >= 2 then c + 1 else c)
  }

  /** The gate works both ways: from level 3 a turret can be drawn, from level
      2 a heavy, and on every level a soldier. */
  lemma KindsReachable(n: int, cursor: nat)
    ensures n >= 3 ==> PickKind(n, seq(cursor + 2, _ => 0), cursor).0 == Turret
    ensures n == 2 ==> PickKind(n, seq(cursor + 2, _ => 0), cursor).0 == Heavy
    ensures PickKind(n, seq(cursor + 2, _ => 9), cursor).0 == Soldier
  {
  }

  /** What generation promises about each enemy of level `n`. */
  predicate PlacedEnemy(e: EnemyData, n: int, width: int) {
    && Px(400) <= e.box.x <= width - Px(100)
    && e.box.y in [Px(ENEMY_ROWS[0]), Px(ENEMY_ROWS[1]), Px(ENEMY_ROWS[2]), Px(ENEMY_ROWS[3])]
    && (e.kind == Turret ==> n >= 3) && (e.kind == Heavy ==> n >= 2)
    && Wellformed(e) && !e.dying && e.health == Stats(e.kind).health
  }

  /** Where and as what the enemy loop creates one enemy: the arguments of
      `Enemy(x, y, enemy_type)`, and the generator position at which that
      enemy's own two draws are made. */
  datatype Placement = Placement(x: int, y: int, kind: EnemyKind, cursor: nat)

  /** The placement rule of level `n`: inside the level, on one of the rows,
      with a kind the level allows. */
  predicate PlacedAt(p: Placement, n: int, width: int) {
    && Px(400) <= p.x <= width - Px(100)
    && p.y in [Px(ENEMY_ROWS[0]), Px(ENEMY_ROWS[1]), Px(ENEMY_ROWS[2]), Px(ENEMY_ROWS[3])]
    && (p.kind == Turret ==> n >= 3) && (p.kind == Heavy ==> n >= 2)
  }

  /** One iteration of the enemy loop: x, then the row, then the kind. */
  function PlaceEnemy(n: int, width: int, stream: seq<int>, cursor: nat): (p: Placement)
    requires width >= Px(500)
    ensures PlacedAt(p, n, width) && cursor + 2 <= p.cursor <= cursor + 4
  {
    var x := Draw(stream, cursor, 400, ToPx(width) - 100);
    var row := Draw(stream, cursor + 1, 0, |ENEMY_ROWS| - 1);
    var kind := PickKind(n, stream, cursor + 2);
    Placement(Px(x), Px(ENEMY_ROWS[row]), kind.0, kind.1)
  }

  /** The placements of the `count` enemies of level `n`, in creation order,
      and the cursor after the last enemy's own draws. */
  function Placements(count: nat, n: int, width: int, stream: seq<int>, cursor: nat)
    : (r: (seq<Placement>, nat))
    requires width >= Px(500)
    ensures |r.0| == count && r.1 >= cursor
    ensures forall i :: 0 <= i < count ==> PlacedAt(r.0[i], n, width)
  {
    if count == 0 then ([], cursor)
    else
      var prev := Placements(count - 1, n, width, stream, cursor);
      var p := PlaceEnemy(n, width, stream, prev.1);
      (prev.0 + [p], p.cursor + 2)
  }

  /** The enemy `Enemy(x, y, enemy_type)` creates at a placement. */
  function Spawn(p: Placement, stream: seq<int>): EnemyData {
    Spawned(p.x, p.y, p.kind, stream, p.cursor).0
  }

  /** The enemies created at the placements, in order. */
  function Spawns(plan: seq<Placement>, stream: seq<int>): (ds: seq<EnemyData>)
    ensures |ds| == |plan| && forall i :: 0 <= i < |plan| ==> ds[i] == Spawn(plan[i], stream)
  {
    seq(|plan|, i requires 0 <= i < |plan| => Spawn(plan[i], stream))
  }

  /** Every enemy created at a placement of level `n` obeys the placement rule,
      is well formed and starts alive with its kind's full health. */
  lemma SpawnPlaced(p: Placement, stream: seq<int>, n: int, width: int)
    requires PlacedAt(p, n, width)
    ensures PlacedEnemy(Spawn(p, stream), n, width)
  {
    var e := Spawn(p, stream);
    NewEnemyWellformed(p.x, p.y, p.kind, e.gender, e.shootTimer);
  }

  /** Where generation puts a power-up: a 25 px square centred inside the
      level, between 200 and 400 px down. */
  predicate PlacedPowerUp(pu: PowerUp, width: int) {
    Px(300) <= pu.x <= width - Px(100) && Px(200) <= pu.y <= Px(400)
  }

  /** One power-up: x, y, then the kind, centred on (x, y). */
  function SpawnPowerUp(width: int, stream: seq<int>, cursor: nat): (pu: PowerUp)
    requires width >= Px(400)
    ensures PlacedPowerUp(pu, width)
  {
    var x := Draw(stream, cursor, 300, ToPx(width) - 100);
    var y := Draw(stream, cursor + 1, 200, 400);
    PowerUp(Px(x), Px(y), POWER_KINDS[Draw(stream, cursor + 2, 0, |POWER_KINDS| - 1)])
  }

  /** The power-ups of a level, `count` of them, each centred inside the level. */
  function SpawnPowerUps(count: nat, width: int, stream: seq<int>, cursor: nat)
    : (r: (seq<PowerUp>, nat))
    requires width >= Px(400)
    ensures |r.0| == count && r.1 == cursor + 3 * count
    ensures forall i :: 0 <= i < count ==> PlacedPowerUp(r.0[i], width)
  {
    if count == 0 then ([], cursor)
    else
      var prev := SpawnPowerUps(count - 1, width, stream, cursor);
      var pus := prev.0 + [SpawnPowerUp(width, stream, prev.1)];
      assert forall i :: 0 <= i < count ==> PlacedPowerUp(pus[i], width) by {
        forall i | 0 <= i < count
          ensures PlacedPowerUp(pus[i], width)
        {
          if i < count - 1 {
            assert pus[i] == prev.0[i];
          }
        }
      }
      (pus, prev.1 + 3)
  }

  datatype LevelData = LevelData(
    num: int, width: int, theme: Theme, platforms: seq<Platform>,
    enemies: seq<EnemyData>, powerups: seq<PowerUp>)

  /** The platforms of level n: the base layout cut to the level's width, then
      the extra platforms drawn from the generator. */
  function LevelPlatforms(n: int, stream: seq<int>, cursor: nat): (r: (seq<Platform>, nat))
    requires n >= 1
  {
    var extras := ExtraPlatforms(2 * n, LevelWidth(n), ThemeOf(n), stream, cursor);
    (BaseFrom(BaseLayout(), LevelWidth(n), ThemeOf(n)) + extras.0, extras.1)
  }

  /** What is drawn for level n after its platforms: the enemy placements, the
      power-ups, and the cursor after both. */
  function Occupants(n: int, stream: seq<int>, cursor: nat): (r: (seq<Placement>, seq<PowerUp>, nat))
    requires n >= 1
  {
    var plan := Placements(5 + 3 * n, n, LevelWidth(n), stream, cursor);
    var pus := SpawnPowerUps(2 + n, LevelWidth(n), stream, plan.1);
    (plan.0, pus.0, pus.1)
  }

  /** `Level(n)`: the level and the generator's cursor after building it. */
  function Generated(n: int, stream: seq<int>, cursor: nat): (r: (LevelData, nat))
    requires n >= 1
  {
    var platforms := LevelPlatforms(n, stream, cursor);
    var occupants := Occupants(n, stream, platforms.1);
    (LevelData(n, LevelWidth(n), ThemeOf(n), platforms.0, Spawns(occupants.0, stream), occupants.1),
     occupants.2)
  }

  /** The shape of every generated level: 11 + 2n platforms of at least 64 x
      32 px, 5 + 3n enemies placed inside the level with kinds gated by level,
      2 + n power-ups, and the width and theme of level n. */
  lemma GeneratedShape(n: int, stream: seq<int>, cursor: nat)
    requires n >= 1
    ensures var l := Generated(n, stream, cursor).0;
      && l.num == n && l.width == LevelWidth(n) && (l.theme == Graveyard <==> n == 1)
      && |l.platforms| == |BaseLayout()| + 2 * n && |l.enemies| == 5 + 3 * n && |l.powerups| == 2 + n
      && (forall p :: p in l.platforms ==> p.rect.w >= MIN_PLATFORM_W && p.rect.h >= MIN_PLATFORM_H)
      && (forall i :: 0 <= i < |l.enemies| ==> PlacedEnemy(l.enemies[i], n, l.width))
      && (n == 1 ==> forall i :: 0 <= i < |l.enemies| ==> l.enemies[i].kind == Soldier)
  {
    var width := LevelWidth(n);
    var theme := ThemeOf(n);
    AllBaseKept(BaseLayout(), width, theme);
    var l := Generated(n, stream, cursor).0;
    var base := BaseFrom(BaseLayout(), width, theme);
    var platforms := LevelPlatforms(n, stream, cursor);
    var extras := ExtraPlatforms(2 * n, width, theme, stream, cursor).0;
    assert l.platforms == base + extras;
    forall p | p in l.platforms
      ensures p.rect.w >= MIN_PLATFORM_W && p.rect.h >= MIN_PLATFORM_H
    {
      if p in base {
        BasePlatformsSized(BaseLayout(), width, theme, p);
      } else {
        var i :| 0 <= i < |extras| && extras[i] == p;
      }
    }
    var plan := Placements(5 + 3 * n, n, width, stream, platforms.1).0;
    assert l.enemies == Spawns(plan, stream);
    forall i | 0 <= i < |l.enemies|
      ensures PlacedEnemy(l.enemies[i], n, width)
    {
      SpawnPlaced(plan[i], stream, n, width);
    }
  }

  lemma {:induction false} BasePlatformsSized(layout: seq<Slab>, width: int, theme: Theme, p: Platform)
    requires p in BaseFrom(layout, width, theme)
    ensures p.rect.w >= MIN_PLATFORM_W && p.rect.h >= MIN_PLATFORM_H
  {
    var s := layout[0];
    if Px(s.x) < width && p == MakePlatform(Px(s.x), Px(s.y), Px(s.w), Px(s.h), theme) {
    } else {
      BasePlatformsSized(layout[1..], width, theme, p);
    }
  }

  class Level {
    const num: int
    const width: int
    const theme: Theme
    const platforms: seq<Platform>
    var enemies: seq<Enemy>
    var powerups: seq<PowerUp>
    /** The generator's position once the level has been generated. */
    const next: nat

    function Data(): LevelData
      reads this, enemies
    {
      LevelData(num, width, theme, platforms, Datas(enemies), powerups)
    }

    predicate Valid()
      reads this
    {
      Distinct(enemies)
    }

    /** `Level(level_num)`, generating the level from the generator's draws
        at `cursor` onwards; `next` is where the generator stands afterwards. */
    constructor (n: int, stream: seq<int>, cursor: nat)
      requires n >= 1
      ensures Valid() && num == n && width == LevelWidth(n) && fresh(enemies)
      ensures (Data(), next) == Generated(n, stream, cursor)
    {
      var ps, es, pus, c;
      ghost var ds;
      ps, es, ds, pus, c := Generate(n, stream, cursor);
      num := n;
      width := LevelWidth(n);
      theme := ThemeOf(n);
      platforms := ps;
      enemies := es;
      powerups := pus;
      next := c;
    }
  }

  /** `Level.generate_level`: the platforms, the enemy objects and the
      power-ups, drawn from the generator starting at `cursor`; `c` is where
      the next draw will be made, and `ds` the enemies' state. The draws are
      made in the order of the source; the enemy objects are allocated once
      the draws are done, each from the draws made for it. */
  method Generate(n: int, stream: seq<int>, cursor: nat)
    returns (ps: seq<Platform>, es: seq<Enemy>, ghost ds: seq<EnemyData>, pus: seq<PowerUp>, c: nat)
    requires n >= 1
    ensures Distinct(es) && Datas(es) == ds && fresh(es)
    ensures Generated(n, stream, cursor) == (LevelData(n, LevelWidth(n), ThemeOf(n), ps, ds, pus), c)
  {
    var plan;
    ps, plan, pus, c := Draws(n, stream, cursor);
    es := MakeEnemies(plan, stream);
    ds := Datas(es);
  }

  /** Every draw of `Level.generate_level`, in order: the platforms, where and
      as what each enemy is created, and the power-ups. */
  method Draws(n: int, stream: seq<int>, cursor: nat)
    returns (ps: seq<Platform>, plan: seq<Placement>, pus: seq<PowerUp>, c: nat)
    requires n >= 1
    ensures Generated(n, stream, cursor)
            == (LevelData(n, LevelWidth(n), ThemeOf(n), ps, Spawns(plan, stream), pus), c)
  {
    var c1;
    ps, c1 := GeneratePlatforms(n, stream, cursor);
    plan, pus, c := Populate(n, stream, c1);
  }

  /** The enemy and power-up passes. */
  method Populate(n: int, stream: seq<int>, cursor: nat)
    returns (plan: seq<Placement>, pus: seq<PowerUp>, c: nat)
    requires n >= 1
    ensures (plan, pus, c) == Occupants(n, stream, cursor)
  {
    var c1;
    plan, c1 := PlanEnemies(5 + 3 * n, n, LevelWidth(n), stream, cursor);
    pus, c := GrowPowerUps(2 + n, LevelWidth(n), stream, c1);
  }

  /** The platform passes: keep the base slabs that fit, then add the extras. */
  method GeneratePlatforms(n: int, stream: seq<int>, cursor: nat) returns (ps: seq<Platform>, c: nat)
    requires n >= 1
    ensures (ps, c) == LevelPlatforms(n, stream, cursor)
  {
    var base := KeepBase(BaseLayout(), LevelWidth(n), ThemeOf(n));
    var extras;
    extras, c := GrowPlatforms(2 * n, LevelWidth(n), ThemeOf(n), stream, cursor);
    ps := base + extras;
  }

  method KeepBase(layout: seq<Slab>, width: int, theme: Theme) returns (base: seq<Platform>)
    ensures base == BaseFrom(layout, width, theme)
  {
    base := [];
    var i := 0;
    while i < |layout|
      invariant 0 <= i <= |layout|
      invariant base == BaseFrom(layout[..i], width, theme)
    {
      var s := layout[i];
      assert layout[..i + 1] == layout[..i] + [s];
      BaseFromAppend(layout[..i], [s], width, theme);
      if Px(s.x) < width {
        base := base + [MakePlatform(Px(s.x), Px(s.y), Px(s.w), Px(s.h), theme)];
      }
      i := i + 1;
    }
    assert layout[..i] == layout;
  }


  /** The loop adding the extra platforms. */
  method GrowPlatforms(count: nat, width: int, theme: Theme, stream: seq<int>, cursor: nat)
    returns (ps: seq<Platform>, c: nat)
    requires width >= Px(400)
    ensures (ps, c) == ExtraPlatforms(count, width, theme, stream, cursor)
  {
    ps := [];
    c := cursor;
    var k := 0;
    while k < count
      invariant 0 <= k <= count
      invariant ps == ExtraPlatforms(k, width, theme, stream, cursor).0
      invariant c == ExtraPlatforms(k, width, theme, stream, cursor).1
    {
      var x := Draw(stream, c, 200, ToPx(width) - 200);
      var y := Draw(stream, c + 1, 200, 450);
      var w := Draw(stream, c + 2, 100, 180);
      ps := ps + [MakePlatform(Px(x), Px(y), Px(w), Px(20), theme)];
      c := c + 3;
      k := k + 1;
    }
  }

  /** The draws of the enemy loop: where and as what each enemy is created. */
  method PlanEnemies(count: nat, n: int, width: int, stream: seq<int>, cursor: nat)
    returns (plan: seq<Placement>, c: nat)
    requires width >= Px(500)
    ensures (plan, c) == Placements(count, n, width, stream, cursor)
  {
    plan := [];
    c := cursor;
    var k := 0;
    while k < count
      invariant 0 <= k <= count
      invariant plan == Placements(k, n, width, stream, cursor).0
      invariant c == Placements(k, n, width, stream, cursor).1
    {
      var p := PlaceOne(n, width, stream, c);
      plan := plan + [p];
      c := p.cursor + 2;
      k := k + 1;
    }
  }

  /** One iteration of the enemy loop: x, then the row, then the kind. */
  method PlaceOne(n: int, width: int, stream: seq<int>, cursor: nat) returns (p: Placement)
    requires width >= Px(500)
    ensures p == PlaceEnemy(n, width, stream, cursor)
  {
    var x := Draw(stream, cursor, 400, ToPx(width) - 100);
    var row := Draw(stream, cursor + 1, 0, |ENEMY_ROWS| - 1);
    var kind, c := PickKindFrom(n, stream, cursor + 2);
    p := Placement(Px(x), Px(ENEMY_ROWS[row]), kind, c);
  }

  /** The enemy objects of the enemy loop, one new `Enemy` per placement. */
  method MakeEnemies(plan: seq<Placement>, stream: seq<int>) returns (es: seq<Enemy>)
    ensures Distinct(es) && fresh(es)
    ensures Datas(es) == Spawns(plan, stream)
  {
    es := [];
    var k := 0;
    while k < |plan|
      invariant 0 <= k <= |plan|
      invariant Distinct(es) && fresh(es)
      invariant Datas(es) == Spawns(plan[..k], stream)
    {
      var p := plan[k];
      var e := new Enemy(p.x, p.y, p.kind, stream, p.cursor);
      DatasAppend(es, e);
      assert plan[..k + 1] == plan[..k] + [p];
      es := es + [e];
      k := k + 1;
    }
    assert plan[..k] == plan;
  }

  /** The enemy-kind choice of the creation loop. */
  method PickKindFrom(n: int, stream: seq<int>, cursor: nat) returns (kind: EnemyKind, c: nat)
    ensures (kind, c) == PickKind(n, stream, cursor)
  {
    c := cursor;
    var turret := false;
    if n >= 3 {
      turret := Below(stream, c, 2);
      c := c + 1;
    }
    if turret {
      return Turret, c;
    }
    var heavy := false;
    if n >= 2 {
      heavy := Below(stream, c, 3);
      c := c + 1;
    }
    kind := if heavy then Heavy else Soldier;
  }

  /** The loop placing the power-ups. */
  method GrowPowerUps(count: nat, width: int, stream: seq<int>, cursor: nat)
    returns (pus: seq<PowerUp>, c: nat)
    requires width >= Px(400)
    ensures (pus, c) == SpawnPowerUps(count, width, stream, cursor)
  {
    pus := [];
    c := cursor;
    var k := 0;
    while k < count
      invariant 0 <= k <= count
      invariant pus == SpawnPowerUps(k, width, stream, cursor).0
      invariant c == SpawnPowerUps(k, width, stream, cursor).1
    {
      var x := Draw(stream, c, 300, ToPx(width) - 100);
      var y := Draw(stream, c + 1, 200, 400);
      var pick := Draw(stream, c + 2, 0, |POWER_KINDS| - 1);
      pus := pus + [PowerUp(Px(x), Px(y), POWER_KINDS[pick])];
      c := c + 3;
      k := k + 1;
    }
  }
}
