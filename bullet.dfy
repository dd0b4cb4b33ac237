/** Bullet rules (src/bullet.rs): which collisions matter, the one-bullet-per-tank
    bookkeeping over `CanFire` and `BulletOwners`, and the outcomes of bullets
    meeting terrain and tanks.

    A system reads its queries at the start of the frame: despawns are
    deferred commands, so an entity despawned while a system runs is still
    seen by the rest of that run. The queries are therefore a `World` value
    that the system does not change, while the resources it mutates
    (`CanFire`, `BulletOwners`, `EnemyCount`, `PlayerInfo`) are fields. */
module Bullets {

  import opened Wrappers
  import opened Resources
  import opened Keys

  /** The queries of one frame: the enemy tanks, the player tanks with their
      player index, and every bullet with the tank that fired it. */
  datatype World = World(enemyTanks: set<Entity>, playerTanks: map<Entity, nat>, bullets: map<Entity, Entity>)

  /** An entity is at most one of bullet, enemy tank and player tank. */
  predicate WorldValid(w: World)
  {
    w.enemyTanks !! w.playerTanks.Keys && w.bullets.Keys !! w.enemyTanks && w.bullets.Keys !! w.playerTanks.Keys
  }

  predicate IsTank(w: World, e: Entity)
  {
    e in w.enemyTanks || e in w.playerTanks
  }

  predicate IsBulletTankPair(w: World, bullet: Entity, tank: Entity)
  {
    bullet in w.bullets && IsTank(w, tank)
  }

  // -------------------------------------------------------------------------
  // Classifying a collision

  /** Orders a collision pair as (bullet, tank), trying (e1, e2) first. */
  function FindBulletAndTank(e1: Entity, e2: Entity, w: World): (r: Option<(Entity, Entity)>)
    ensures r.Some? ==> IsBulletTankPair(w, r.value.0, r.value.1) && (r.value == (e1, e2) || r.value == (e2, e1))
    ensures r.None? <==> !IsBulletTankPair(w, e1, e2) && !IsBulletTankPair(w, e2, e1)
  {
    if e1 in w.bullets && (e2 in w.enemyTanks || e2 in w.playerTanks) then Some((e1, e2))
    else if e2 in w.bullets && (e1 in w.enemyTanks || e1 in w.playerTanks) then Some((e2, e1))
    else None
  }

  /** The order in which the pair arrives does not matter. */
  lemma FindBulletAndTankSymmetric(e1: Entity, e2: Entity, w: World)
    requires WorldValid(w)
    ensures FindBulletAndTank(e1, e2, w) == FindBulletAndTank(e2, e1, w)
  {
  }

  datatype Side = PlayerSide | EnemySide | NoSide

  function SideOf(w: World, e: Entity): Side
  {
    if e in w.playerTanks then PlayerSide else if e in w.enemyTanks then EnemySide else NoSide
  }

  /** A bullet stops at a tank of the other side. */
  function ShouldBulletDestroy(owner: Entity, tank: Entity, w: World): bool
  {
    var isPlayerBullet := owner in w.playerTanks;
    var isEnemyBullet := owner in w.enemyTanks;
    var isPlayerTank := tank in w.playerTanks;
    var isEnemyTank := tank in w.enemyTanks;
    (isPlayerBullet && isEnemyTank) || (isEnemyBullet && isPlayerTank)
  }

  /** A bullet is destroyed exactly when its owner and the tank it touches are
      on opposite sides; same-side hits pass through, and so does the bullet
      of a tank that no longer exists. */
  lemma ShouldBulletDestroyIffOpposing(owner: Entity, tank: Entity, w: World)
    requires WorldValid(w)
    ensures ShouldBulletDestroy(owner, tank, w) <==>
      SideOf(w, owner) != NoSide && SideOf(w, tank) != NoSide && SideOf(w, owner) != SideOf(w, tank)
  {
  }

  // -------------------------------------------------------------------------
  // One live bullet per tank

  /** The key a player index shoots with: J for the first player, Numpad 1 for
      the second, none for any other index. */
  function ShootKey(index: nat): (k: Option<Key>)
    ensures k.Some? <==> index <= 1
  {
    match index
    case 0 => Some(KeyJ)
    case 1 => Some(Numpad1)
    case _ => None
  }

  /** The trigger of `player_shoot_bullet` in src/main.rs: J for index 0,
      Digit 1 or Numpad 1 for any other index. It agrees with `ShootKey` on
      the two players, and the second player has Digit 1 as well. */
  function MainShootTriggered(index: nat, justPressed: set<Key>): (fire: bool)
    ensures index <= 1 && ShootKey(index).value in justPressed ==> fire
    ensures index == 0 ==> (fire <==> KeyJ in justPressed)
    ensures index > 0 ==> (fire <==> Digit1 in justPressed || Numpad1 in justPressed)
    ensures justPressed == {} ==> !fire
  {
    if index == 0 then KeyJ in justPressed
    else Digit1 in justPressed || Numpad1 in justPressed
  }

  /** `CanFire` and `BulletOwners`. `ungated` records the tanks that shoot
      through `player_shoot_system`, which does not consult `CanFire`; every
      other tank fires only from `CanFire`. */
  class BulletBook {
    var canFire: set<Entity>
    var owners: map<Entity, Entity>
    ghost var ungated: set<Entity>

    /** No tank owns two live bullets, and a tank with a live bullet is only
        allowed to fire when it shoots without the `CanFire` gate. */
    ghost predicate Valid()
      reads this
    {
      (forall b1, b2 :: b1 in owners && b2 in owners && owners[b1] == owners[b2] ==> b1 == b2) &&
      (forall b :: b in owners && owners[b] in canFire ==> owners[b] in ungated)
    }

    /** Both resources start empty. */
    constructor ()
      ensures Valid() && canFire == {} && owners == map[] && ungated == {}
    {
      canFire, owners := {}, map[];
      ungated := {};
    }

    /** A newly spawned tank may fire at once. */
    method AddTank(tank: Entity, bypassesGate: bool)
      requires Valid() && tank !in owners.Values
      modifies this
      ensures Valid()
      ensures canFire == old(canFire) + {tank} && owners == old(owners)
      ensures ungated == if bypassesGate then old(ungated) + {tank} else old(ungated)
    {
      canFire := canFire + {tank};
      if bypassesGate {
        ungated := ungated + {tank};
      }
    }

    /** A shot gated on `CanFire`: one enemy tank's turn in
        `enemy_shoot_system`, where `chance` is the outcome of the random
        draw, or one player's turn in `player_shoot_bullet` of src/main.rs,
        where it is the shoot key. `bullet` is the entity the spawn returns. */
    method GatedShoot(tank: Entity, chance: bool, bullet: Entity) returns (fired: bool)
      requires Valid() && tank !in ungated && bullet !in owners
      modifies this
      ensures Valid() && ungated == old(ungated)
      ensures fired <==> tank in old(canFire) && chance
      ensures fired ==> tank !in old(owners).Values
      ensures fired ==> owners == old(owners)[bullet := tank] && canFire == old(canFire) - {tank}
      ensures !fired ==> owners == old(owners) && canFire == old(canFire)
    {
      fired := false;
      if tank in canFire {
        if chance {
          assert tank !in owners.Values;
          owners := owners[bullet := tank];
          canFire := canFire - {tank};
          fired := true;
        }
      }
    }

    /** The whole of `enemy_shoot_system` over the enemy tanks of one frame. */
    method EnemyShootAll(tanks: seq<Entity>, chances: seq<bool>, bullets: seq<Entity>)
      requires Valid() && |chances| == |tanks| == |bullets|
      requires forall i, j :: 0 <= i < j < |tanks| ==> tanks[i] != tanks[j] && bullets[i] != bullets[j]
      requires forall i :: 0 <= i < |tanks| ==> tanks[i] !in ungated && bullets[i] !in owners
      modifies this
      ensures Valid() && ungated == old(ungated)
      ensures canFire == old(canFire) - (set i | 0 <= i < |tanks| && chances[i] :: tanks[i])
      ensures forall i :: 0 <= i < |tanks| ==>
        (bullets[i] in owners <==> tanks[i] in old(canFire) && chances[i])
      ensures forall i :: 0 <= i < |tanks| && tanks[i] in old(canFire) && chances[i] ==> owners[bullets[i]] == tanks[i]
      ensures forall b :: b in owners <==> (b in old(owners) ||
        exists i :: 0 <= i < |tanks| && bullets[i] == b && tanks[i] in old(canFire) && chances[i])
      ensures forall b :: b in old(owners) ==> owners[b] == old(owners)[b]
    {
      var k := 0;
      while k < |tanks|
        invariant 0 <= k <= |tanks|
        invariant Valid() && ungated == old(ungated)
        invariant canFire == old(canFire) - (set i | 0 <= i < k && chances[i] :: tanks[i])
        invariant forall i :: 0 <= i < |tanks| ==> bullets[i] !in old(owners)
        invariant forall i :: 0 <= i < |tanks| ==>
          (bullets[i] in owners <==> i < k && tanks[i] in old(canFire) && chances[i])
        invariant forall i :: 0 <= i < k && tanks[i] in old(canFire) && chances[i] ==> owners[bullets[i]] == tanks[i]
        invariant forall b :: b in owners <==> (b in old(owners) ||
          exists i :: 0 <= i < k && bullets[i] == b && tanks[i] in old(canFire) && chances[i])
        invariant forall b :: b in old(owners) ==> owners[b] == old(owners)[b]
      {
        assert tanks[k] in canFire <==> tanks[k] in old(canFire);
        var _ := GatedShoot(tanks[k], chances[k], bullets[k]);
        k := k + 1;
      }
    }

    /** One player tank's turn in `player_shoot_system`. A player fires when
        not turning, when its index has a shoot key and that key is held,
        when no live bullet is its own, and when it has a statistics entry.
        `CanFire` is neither consulted nor changed. */
    method PlayerShoot(tank: Entity, rotating: bool, index: nat, held: set<Key>, playerCount: nat, bullet: Entity)
      returns (fired: bool)
      requires Valid() && tank in ungated && bullet !in owners
      modifies this
      ensures Valid() && ungated == old(ungated) && canFire == old(canFire)
      ensures fired <==> !rotating && index <= 1 && ShootKey(index).value in held &&
                         tank !in old(owners).Values && index < playerCount
      ensures fired ==> owners == old(owners)[bullet := tank]
      ensures !fired ==> owners == old(owners)
    {
      fired := false;
      if rotating {
        return;
      }
      var key := ShootKey(index);
      if key.None? {
        return;
      }
      if key.value !in held {
        return;
      }
      if exists b :: b in owners && owners[b] == tank {
        return;
      }
      if index >= playerCount {
        return;
      }
      owners := owners[bullet := tank];
      fired := true;
    }

    /** `bullet_cleanup_system`: each removed bullet gives up its entry and its
        owner may fire again; a bullet without an entry changes nothing. */
    method Cleanup(removed: seq<Entity>)
      requires Valid()
      modifies this
      ensures Valid() && ungated == old(ungated)
      ensures owners == old(owners) - (set b | b in removed)
      ensures canFire == old(canFire) + (set b | b in removed && b in old(owners) :: old(owners)[b])
    {
      var k := 0;
      while k < |removed|
        invariant 0 <= k <= |removed|
        invariant Valid() && ungated == old(ungated)
        invariant owners == old(owners) - (set b | b in removed[..k])
        invariant canFire == old(canFire) + (set b | b in removed[..k] && b in old(owners) :: old(owners)[b])
      {
        var b := removed[k];
        if b in owners {
          var tank := owners[b];
          owners := owners - {b};
          canFire := canFire + {tank};
        }
        assert removed[..k + 1] == removed[..k] + [b];
        k := k + 1;
      }
      assert removed[..k] == removed;
    }
  }

  // -------------------------------------------------------------------------
  // Bullets against terrain

  datatype TerrainKind = ForestTile | BrickTile | SteelTile

  /** What the terrain system knows about a bullet's owner: a player tank with
      or without a statistics entry, an enemy tank, or neither. */
  datatype OwnerKind = PlayerOwner(stats: Option<PlayerStats>) | EnemyOwner | NoOwner

  function OwnerKindOf(owner: Entity, w: World, players: seq<PlayerStats>): OwnerKind
  {
    if owner in w.playerTanks then
      var index := w.playerTanks[owner];
      PlayerOwner(if index < |players| then Some(players[index]) else None)
    else if owner in w.enemyTanks then EnemyOwner
    else NoOwner
  }

  /** Which of the terrain piece and the bullet a touch destroys. */
  datatype Removal = Removal(terrain: bool, bullet: bool)

  function TerrainRemoval(kind: TerrainKind, owner: OwnerKind): (r: Removal)
    // a brick is always destroyed together with the bullet
    ensures kind == BrickTile ==> r == Removal(true, true)
    // steel falls only to a player bullet with the penetrate effect
    ensures kind == SteelTile ==> (r.terrain <==> owner.PlayerOwner? && owner.stats.Some? && owner.stats.value.penetrate)
    // steel stops enemy bullets and the bullets of players with an entry
    ensures kind == SteelTile ==> (r.bullet <==> owner.EnemyOwner? || (owner.PlayerOwner? && owner.stats.Some?))
    // a forest burns only under a fire-shell player bullet, which flies on
    ensures kind == ForestTile ==> !r.bullet
    ensures kind == ForestTile ==> (r.terrain <==> owner.PlayerOwner? && owner.stats.Some? && owner.stats.value.fireShell)
  {
    match kind
    case ForestTile =>
      Removal(match owner
              case PlayerOwner(Some(s)) => s.fireShell
              case _ => false,
              false)
    case BrickTile => Removal(true, true)
    case SteelTile =>
      match owner
      case PlayerOwner(Some(s)) => Removal(s.penetrate, true)
      case PlayerOwner(None) => Removal(false, false)
      case EnemyOwner => Removal(false, true)
      case NoOwner => Removal(false, false)
  }

  /** A bullet with the tank that fired it. */
  datatype BulletRec = BulletRec(id: Entity, owner: Entity)

  /** The queries of the terrain system; `near(bullet, piece)` stands for the
      distance test against half the piece's width. */
  datatype Scene = Scene(world: World, players: seq<PlayerStats>, near: (Entity, Entity) -> bool)

  predicate PieceDestroyedBy(kind: TerrainKind, piece: Entity, b: BulletRec, sc: Scene)
  {
    sc.near(b.id, piece) && TerrainRemoval(kind, OwnerKindOf(b.owner, sc.world, sc.players)).terrain
  }

  predicate BulletStoppedBy(kind: TerrainKind, piece: Entity, b: BulletRec, sc: Scene)
  {
    sc.near(b.id, piece) && TerrainRemoval(kind, OwnerKindOf(b.owner, sc.world, sc.players)).bullet
  }

  predicate DestroyedByAny(kind: TerrainKind, piece: Entity, bs: seq<BulletRec>, sc: Scene)
  {
    exists b :: b in bs && PieceDestroyedBy(kind, piece, b, sc)
  }

  lemma DestroyedByAnyAppend(kind: TerrainKind, piece: Entity, bs: seq<BulletRec>, b: BulletRec, sc: Scene)
    ensures DestroyedByAny(kind, piece, bs + [b], sc) <==> DestroyedByAny(kind, piece, bs, sc) || PieceDestroyedBy(kind, piece, b, sc)
  {
    if DestroyedByAny(kind, piece, bs + [b], sc) {
      var c :| c in bs + [b] && PieceDestroyedBy(kind, piece, c, sc);
      if c != b {
        assert c in bs;
      }
    }
    if PieceDestroyedBy(kind, piece, b, sc) {
      assert b in bs + [b];
    }
    if DestroyedByAny(kind, piece, bs, sc) {
      var c :| c in bs && PieceDestroyedBy(kind, piece, c, sc);
      assert c in bs + [b];
    }
  }

  /** One of the three nested loops: every (piece, bullet) pair that touches
      adds the piece and/or the bullet to the despawn lists. */
  method ScanTerrain(kind: TerrainKind, pieces: seq<Entity>, bullets: seq<BulletRec>, sc: Scene)
    returns (piecesOut: seq<Entity>, bulletsOut: seq<Entity>)
    ensures forall p :: p in piecesOut <==> p in pieces && exists b :: b in bullets && PieceDestroyedBy(kind, p, b, sc)
    ensures forall e :: e in bulletsOut <==>
      exists b :: b in bullets && b.id == e && exists p :: p in pieces && BulletStoppedBy(kind, p, b, sc)
  {
    piecesOut, bulletsOut := [], [];
    var i := 0;
    while i < |pieces|
      invariant 0 <= i <= |pieces|
      invariant forall p :: p in piecesOut <==> p in pieces[..i] && exists b :: b in bullets && PieceDestroyedBy(kind, p, b, sc)
      invariant forall e :: e in bulletsOut <==>
        exists b :: b in bullets && b.id == e && exists p :: p in pieces[..i] && BulletStoppedBy(kind, p, b, sc)
    {
      var piece := pieces[i];
      var j := 0;
      while j < |bullets|
        invariant 0 <= j <= |bullets|
        invariant forall p :: p in piecesOut <==>
          (p in pieces[..i] && exists b :: b in bullets && PieceDestroyedBy(kind, p, b, sc)) ||
          (p == piece && DestroyedByAny(kind, p, bullets[..j], sc))
        invariant forall e :: e in bulletsOut <==>
          exists b :: b in bullets && b.id == e &&
            ((exists p :: p in pieces[..i] && BulletStoppedBy(kind, p, b, sc)) ||
             (b in bullets[..j] && BulletStoppedBy(kind, piece, b, sc)))
      {
        var b := bullets[j];
        assert bullets[..j + 1] == bullets[..j] + [b];
        DestroyedByAnyAppend(kind, piece, bullets[..j], b, sc);
        var removal := TerrainRemoval(kind, OwnerKindOf(b.owner, sc.world, sc.players));
        if sc.near(b.id, piece) {
          if removal.terrain {
            piecesOut := piecesOut + [piece];
          }
          if removal.bullet {
            bulletsOut := bulletsOut + [b.id];
          }
        }
        j := j + 1;
      }
      assert bullets[..j] == bullets;
      assert DestroyedByAny(kind, piece, bullets, sc) <==> exists b :: b in bullets && PieceDestroyedBy(kind, piece, b, sc);
      assert pieces[..i + 1] == pieces[..i] + [piece];
      i := i + 1;
    }
    assert pieces[..i] == pieces;
  }

  /** `bullet_terrain_collision_system`: forests, then bricks, then steel. */
  method TerrainCollisions(forests: seq<Entity>, bricks: seq<Entity>, steels: seq<Entity>,
                           bullets: seq<BulletRec>, sc: Scene)
    returns (forestsOut: seq<Entity>, bricksOut: seq<Entity>, steelsOut: seq<Entity>, bulletsOut: seq<Entity>)
    ensures forall p :: p in forestsOut <==> p in forests && exists b :: b in bullets && PieceDestroyedBy(ForestTile, p, b, sc)
    ensures forall p :: p in bricksOut <==> p in bricks && exists b :: b in bullets && sc.near(b.id, p)
    ensures forall p :: p in steelsOut <==> p in steels && exists b :: b in bullets && PieceDestroyedBy(SteelTile, p, b, sc)
    ensures forall e :: e in bulletsOut <==>
      exists b :: b in bullets && b.id == e &&
        ((exists p :: p in bricks && sc.near(b.id, p)) || (exists p :: p in steels && BulletStoppedBy(SteelTile, p, b, sc)))
  {
    var forestBullets, brickBullets, steelBullets;
    forestsOut, forestBullets := ScanTerrain(ForestTile, forests, bullets, sc);
    bricksOut, brickBullets := ScanTerrain(BrickTile, bricks, bullets, sc);
    steelsOut, steelBullets := ScanTerrain(SteelTile, steels, bullets, sc);
    bulletsOut := forestBullets + brickBullets + steelBullets;
  }

  // -------------------------------------------------------------------------
  // Bullets against tanks

  /** The effects that absorb an enemy hit. */
  function EffectCount(s: PlayerStats): nat
  {
    (if s.fireShell then 1 else 0) + (if s.trackChain then 1 else 0) + (if s.penetrate then 1 else 0)
  }

  datatype HitResult = HitResult(stats: PlayerStats, destroyed: bool)

  /** An enemy hit without shields: one life point lost, never below zero, and
      the tank destroyed when the life bar is empty. */
  function PlainHit(s: PlayerStats): (r: HitResult)
    ensures s.lifeRedBar > 0 ==> r.stats.lifeRedBar + 1 == s.lifeRedBar
    ensures s.lifeRedBar == 0 ==> r.stats.lifeRedBar == 0
    ensures r.destroyed <==> r.stats.lifeRedBar == 0
    ensures r.stats == s.(lifeRedBar := r.stats.lifeRedBar)
  {
    var life := if s.lifeRedBar > 0 then s.lifeRedBar - 1 else s.lifeRedBar;
    HitResult(s.(lifeRedBar := life), life == 0)
  }

  /** An enemy hit in src/bullet.rs: an effect, if any, absorbs it (fire shell
      first, then track chain, then penetrate); otherwise it is a plain hit. */
  function ShieldedHit(s: PlayerStats): (r: HitResult)
    ensures EffectCount(s) > 0 ==>
      !r.destroyed && r.stats.lifeRedBar == s.lifeRedBar && EffectCount(r.stats) + 1 == EffectCount(s)
    ensures s.fireShell ==> r.stats == s.(fireShell := false)
    ensures !s.fireShell && s.trackChain ==> r.stats == s.(trackChain := false)
    ensures !s.fireShell && !s.trackChain && s.penetrate ==> r.stats == s.(penetrate := false)
    ensures EffectCount(s) == 0 ==> r == PlainHit(s)
  {
    if s.fireShell || s.trackChain || s.penetrate then
      if s.fireShell then HitResult(s.(fireShell := false), false)
      else if s.trackChain then HitResult(s.(trackChain := false), false)
      else HitResult(s.(penetrate := false), false)
    else
      PlainHit(s)
  }

  /** n successive hits under one of the two rules. */
  function Hits(s: PlayerStats, n: nat, shields: bool): HitResult
  {
    if n == 0 then HitResult(s, s.lifeRedBar == 0)
    else
      var prev := Hits(s, n - 1, shields).stats;
      HitRule(prev, shields)
  }

  /** Without shields the life bar after n hits is life - n, floored at zero,
      and nothing else changes. */
  lemma {:induction false} PlainHitsLife(s: PlayerStats, n: nat)
    ensures Hits(s, n, false).stats == s.(lifeRedBar := if n <= s.lifeRedBar then s.lifeRedBar - n else 0)
  {
    if n > 0 {
      PlainHitsLife(s, n - 1);
    }
  }

  /** With shields every effect absorbs one hit first: after n hits the life
      bar has lost n minus the effects, floored at zero. */
  lemma {:induction false} ShieldedHitsLife(s: PlayerStats, n: nat)
    ensures var lost := if n <= EffectCount(s) then 0 else n - EffectCount(s);
      Hits(s, n, true).stats.lifeRedBar == if lost <= s.lifeRedBar then s.lifeRedBar - lost else 0
    ensures n >= EffectCount(s) ==> EffectCount(Hits(s, n, true).stats) == 0
    ensures n < EffectCount(s) ==> EffectCount(Hits(s, n, true).stats) == EffectCount(s) - n
  {
    if n > 0 {
      ShieldedHitsLife(s, n - 1);
    }
  }

  /** A fresh player (three life points, no effects) survives two enemy hits
      and is destroyed by the third, under either rule. */
  lemma FreshPlayerDiesOnThirdHit(name: string, shields: bool)
    ensures !Hits(InitialStats(name), 2, shields).destroyed
    ensures Hits(InitialStats(name), 3, shields).destroyed
  {
    var s := InitialStats(name);
    if shields {
      ShieldedHitsLife(s, 2);
      ShieldedHitsLife(s, 3);
    } else {
      PlainHitsLife(s, 2);
      PlainHitsLife(s, 3);
    }
  }

  datatype KillResult = KillResult(count: EnemyCount, respawn: bool)

  /** The counters after a player kills an enemy: one live enemy fewer, and a
      new birth while fewer than `maxCount` were started. `None` is the
      arithmetic underflow of an unsigned count that is already zero, which
      aborts the game. */
  function KillEnemy(c: EnemyCount): (r: Option<KillResult>)
    ensures r.None? <==> c.currentEnemies == 0
    ensures r.Some? ==> r.value.count.currentEnemies + 1 == c.currentEnemies && r.value.count.maxCount == c.maxCount
    ensures r.Some? ==> (r.value.respawn <==> c.totalSpawned < c.maxCount)
    ensures r.Some? ==> r.value.count.totalSpawned == c.totalSpawned + (if r.value.respawn then 1 else 0)
  {
    if c.currentEnemies == 0 then None
    else
      var c1 := c.(currentEnemies := c.currentEnemies - 1);
      if c1.totalSpawned < c1.maxCount then Some(KillResult(c1.(totalSpawned := c1.totalSpawned + 1), true))
      else Some(KillResult(c1, false))
  }

  /** A kill never lets more enemies be started than the stage allows. */
  lemma KillKeepsCountValid(c: EnemyCount)
    requires EnemyCountValid(c) && c.currentEnemies > 0
    ensures EnemyCountValid(KillEnemy(c).value.count)
  {
  }

  /** The hit rule for a player tank: src/bullet.rs lets effects absorb it
      (`shields`), src/main.rs does not. */
  function HitRule(s: PlayerStats, shields: bool): (r: HitResult)
    ensures !shields || EffectCount(s) == 0 ==> r == PlainHit(s)
    ensures shields && EffectCount(s) > 0 ==> !r.destroyed && r.stats.lifeRedBar == s.lifeRedBar
    ensures r.stats.score == s.score
  {
    if shields then ShieldedHit(s) else PlainHit(s)
  }

  /** Everything the collision handler changes, as one value: the enemy
      counters, the players' statistics, the entities it despawns, the player
      indices whose avatar it marks dead, the birth animations and game-over
      timers it starts, and whether an unsigned underflow aborted the game. */
  datatype Tally = Tally(count: EnemyCount, players: seq<PlayerStats>, despawned: set<Entity>,
                         deadAvatars: set<nat>, births: nat, gameOverTimers: nat, crashed: bool)

  /** A bullet meets a tank of the other side, so the bullet goes. */
  predicate Stops(e1: Entity, e2: Entity, w: World)
  {
    var pair := FindBulletAndTank(e1, e2, w);
    pair.Some? && ShouldBulletDestroy(w.bullets[pair.value.0], pair.value.1, w)
  }

  /** A player's bullet meets an enemy tank. */
  predicate IsKill(e1: Entity, e2: Entity, w: World)
  {
    var pair := FindBulletAndTank(e1, e2, w);
    pair.Some? && w.bullets[pair.value.0] in w.playerTanks && pair.value.1 in w.enemyTanks
  }

  /** An enemy's bullet meets a player tank. */
  predicate IsPlayerHit(e1: Entity, e2: Entity, w: World)
  {
    var pair := FindBulletAndTank(e1, e2, w);
    pair.Some? && w.bullets[pair.value.0] in w.enemyTanks && w.bullets[pair.value.0] !in w.playerTanks &&
    pair.value.1 in w.playerTanks
  }

  /** One `CollisionEvent::Started(e1, e2)` as src/main.rs:1276-1368 and
      src/bullet.rs:384-523 handle it. */
  function CollideRule(t: Tally, e1: Entity, e2: Entity, w: World, shields: bool): (r: Tally)
    requires !t.crashed
    // anything but a bullet meeting a tank of the other side changes nothing
    ensures !Stops(e1, e2, w) ==> r == t
    ensures r.count.maxCount == t.count.maxCount && |r.players| == |t.players| && t.despawned <= r.despawned
    ensures EnemyCountValid(t.count) ==> EnemyCountValid(r.count)
    ensures forall j :: 0 <= j < |t.players| ==> r.players[j].score >= t.players[j].score
    // only a kill with no live enemy on the books aborts, and it changes nothing else
    ensures r.crashed <==> IsKill(e1, e2, w) && t.count.currentEnemies == 0
    ensures r.crashed ==> r == t.(crashed := true)
    // otherwise the bullet goes whenever it stops
    ensures Stops(e1, e2, w) && !r.crashed ==> FindBulletAndTank(e1, e2, w).value.0 in r.despawned
    // a kill: one live enemy fewer, a birth while fewer than the maximum were
    // started, 100 points to the shooter, enemy tank and bullet despawned
    ensures IsKill(e1, e2, w) && t.count.currentEnemies > 0 ==>
      var (bullet, tank) := FindBulletAndTank(e1, e2, w).value;
      var shooter := w.playerTanks[w.bullets[bullet]];
      r.count.currentEnemies + 1 == t.count.currentEnemies &&
      (r.births == t.births + 1 <==> t.count.totalSpawned < t.count.maxCount) && r.births <= t.births + 1 &&
      r.count.totalSpawned == t.count.totalSpawned + (r.births - t.births) &&
      r.despawned == t.despawned + {tank, bullet} &&
      (forall j :: 0 <= j < |t.players| ==>
         r.players[j] == if j == shooter then t.players[j].(score := t.players[j].score + 100) else t.players[j]) &&
      r.deadAvatars == t.deadAvatars && r.gameOverTimers == t.gameOverTimers
    // a hit on a player: the hit rule on that player's statistics; at zero
    // life the tank goes and the avatar is marked dead, and without shields a
    // game-over timer starts
    ensures IsPlayerHit(e1, e2, w) ==>
      var (bullet, tank) := FindBulletAndTank(e1, e2, w).value;
      var index := w.playerTanks[tank];
      r.count == t.count && r.births == t.births && !r.crashed &&
      if index < |t.players| then
        var h := HitRule(t.players[index], shields);
        r.players == t.players[index := h.stats] &&
        r.despawned == t.despawned + {bullet} + (if h.destroyed then {tank} else {}) &&
        r.deadAvatars == t.deadAvatars + (if h.destroyed then {index} else {}) &&
        r.gameOverTimers == t.gameOverTimers + (if h.destroyed && !shields then 1 else 0)
      else
        r == t.(despawned := t.despawned + {bullet})
  {
    var pair := FindBulletAndTank(e1, e2, w);
    if pair.None? then t
    else
      var (bullet, tank) := pair.value;
      var owner := w.bullets[bullet];
      if !ShouldBulletDestroy(owner, tank, w) then t
      else if owner in w.playerTanks && tank in w.enemyTanks then
        match KillEnemy(t.count)
        case None => t.(crashed := true)
        case Some(k) =>
          var index := w.playerTanks[owner];
          var players := if index < |t.players|
            then t.players[index := t.players[index].(score := t.players[index].score + 100)]
            else t.players;
          t.(count := k.count, players := players, despawned := t.despawned + {tank, bullet},
             births := t.births + (if k.respawn then 1 else 0))
      else if owner !in w.playerTanks && tank in w.playerTanks then
        var index := w.playerTanks[tank];
        if index < |t.players| then
          var h := HitRule(t.players[index], shields);
          t.(players := t.players[index := h.stats],
             despawned := t.despawned + {bullet} + (if h.destroyed then {tank} else {}),
             deadAvatars := t.deadAvatars + (if h.destroyed then {index} else {}),
             gameOverTimers := t.gameOverTimers + (if h.destroyed && !shields then 1 else 0))
        else t.(despawned := t.despawned + {bullet})
      else t.(despawned := t.despawned + {bullet})
  }

  /** A frame's events handled in order, until one aborts the game. */
  function CollideAllRule(t: Tally, events: seq<(Entity, Entity)>, w: World, shields: bool): Tally
    decreases |events|
  {
    if events == [] || t.crashed then t
    else CollideAllRule(CollideRule(t, events[0].0, events[0].1, w, shields), events[1..], w, shields)
  }

  /** The kills among a frame's events, up to an abort. */
  function KillsIn(t: Tally, events: seq<(Entity, Entity)>, w: World, shields: bool): nat
    decreases |events|
  {
    if events == [] || t.crashed then 0
    else
      var t1 := CollideRule(t, events[0].0, events[0].1, w, shields);
      (if IsKill(events[0].0, events[0].1, w) && !t1.crashed then 1 else 0) + KillsIn(t1, events[1..], w, shields)
  }

  /** Over a frame: the live count drops by exactly the kills unless the game
      aborted, every birth started is counted as spawned, no more than the
      maximum are ever started, and nothing is undone. */
  lemma {:induction false} CollideAllTally(t: Tally, events: seq<(Entity, Entity)>, w: World, shields: bool)
    ensures var r := CollideAllRule(t, events, w, shields);
      r.count.maxCount == t.count.maxCount &&
      (EnemyCountValid(t.count) ==> EnemyCountValid(r.count)) &&
      (!r.crashed ==> r.count.currentEnemies + KillsIn(t, events, w, shields) == t.count.currentEnemies) &&
      r.births >= t.births && r.count.totalSpawned == t.count.totalSpawned + (r.births - t.births) &&
      |r.players| == |t.players| && t.despawned <= r.despawned &&
      (forall j :: 0 <= j < |t.players| ==> r.players[j].score >= t.players[j].score)
    decreases |events|
  {
    if events != [] && !t.crashed {
      var t1 := CollideRule(t, events[0].0, events[0].1, w, shields);
      CollideAllTally(t1, events[1..], w, shields);
    }
  }

  /** The state `bullet_tank_collision_system` (and its twin in src/main.rs)
      mutates. `shields` selects the src/bullet.rs rule for hits on players;
      without it a player tank destroyed also starts a game-over timer, as in
      src/main.rs. */
  class Battle {
    var count: EnemyCount
    var players: seq<PlayerStats>
    var despawned: set<Entity>
    var deadAvatars: set<nat>
    var births: nat
    var gameOverTimers: nat
    var crashed: bool
    const shields: bool

    ghost predicate Valid()
      reads this
    {
      EnemyCountValid(count)
    }

    function Snapshot(): Tally
      reads this
    {
      Tally(count, players, despawned, deadAvatars, births, gameOverTimers, crashed)
    }

    constructor (c: EnemyCount, ps: seq<PlayerStats>, shieldRule: bool)
      requires EnemyCountValid(c)
      ensures Valid() && count == c && players == ps && shields == shieldRule
      ensures despawned == {} && deadAvatars == {} && births == 0 && gameOverTimers == 0 && !crashed
    {
      count, players, shields := c, ps, shieldRule;
      despawned, deadAvatars := {}, {};
      births, gameOverTimers, crashed := 0, 0, false;
    }

    /** One collision event between `e1` and `e2`. Returns whether it was a
        player bullet killing an enemy. */
    method Collide(e1: Entity, e2: Entity, w: World) returns (killed: bool)
      requires Valid() && !crashed
      modifies this
      ensures Valid()
      ensures killed <==> IsKill(e1, e2, w)
      ensures Snapshot() == CollideRule(old(Snapshot()), e1, e2, w, shields)
    {
      killed := false;
      var pair := FindBulletAndTank(e1, e2, w);
      if pair.None? {
        return;
      }
      var (bullet, tank) := pair.value;
      var owner := w.bullets[bullet];
      if !ShouldBulletDestroy(owner, tank, w) {
        return;
      }
      var isPlayerBullet := owner in w.playerTanks;
      if isPlayerBullet && tank in w.enemyTanks {
        killed := true;
        var k := KillEnemy(count);
        if k.None? {
          crashed := true;
          return;
        }
        despawned := despawned + {tank};
        var index := w.playerTanks[owner];
        if index < |players| {
          players := players[index := players[index].(score := players[index].score + 100)];
        }
        count := k.value.count;
        if k.value.respawn {
          births := births + 1;
        }
      } else if !isPlayerBullet && tank in w.playerTanks {
        var index := w.playerTanks[tank];
        if index < |players| {
          var r := HitRule(players[index], shields);
          players := players[index := r.stats];
          if r.destroyed {
            despawned := despawned + {tank};
            deadAvatars := deadAvatars + {index};
            if !shields {
              gameOverTimers := gameOverTimers + 1;
            }
          }
        }
      }
      despawned := despawned + {bullet};
    }

    /** The collision events of one frame, in order, until one aborts the game.
        `kills` counts the enemy kills applied. */
    method CollideAll(events: seq<(Entity, Entity)>, w: World) returns (kills: nat)
      requires Valid() && !crashed
      modifies this
      ensures Valid()
      ensures Snapshot() == CollideAllRule(old(Snapshot()), events, w, shields)
      ensures kills == KillsIn(old(Snapshot()), events, w, shields)
    {
      kills := 0;
      var k := 0;
      while k < |events| && !crashed
        invariant 0 <= k <= |events|
        invariant Valid()
        invariant CollideAllRule(Snapshot(), events[k..], w, shields) == CollideAllRule(old(Snapshot()), events, w, shields)
        invariant kills + KillsIn(Snapshot(), events[k..], w, shields) == KillsIn(old(Snapshot()), events, w, shields)
      {
        assert events[k..][1..] == events[k + 1..];
        var killed := Collide(events[k].0, events[k].1, w);
        if killed && !crashed {
          kills := kills + 1;
        }
        k := k + 1;
      }
    }
  }
}
