/** The game-wide resources and their default values (src/resources.rs).
    The mutable ones (`CanFire`, `BulletOwners`, `EnemyCount`, `StageLevel`,
    `PlayerInfo`) become fields of the classes that update them; this module
    gives their value types and initial contents. */
module Resources {

  /** Entity identifiers; Bevy hands out a fresh one for every spawn. */
  type Entity = nat

  datatype GameMode = OnePlayer | TwoPlayers

  /** The default game mode, `#[default] OnePlayer`. */
  const DEFAULT_GAME_MODE: GameMode := OnePlayer

  /** Menu entries: 0 = "1 Player", 1 = "2 Player", 2 = "EXIT". */
  const MENU_ENTRIES: nat := 3

  /** `CurrentMenuSelection::default()`: the first entry. */
  const DEFAULT_MENU_INDEX: nat := 0

  datatype EnemyCount = EnemyCount(totalSpawned: nat, maxCount: nat, currentEnemies: nat)

  const DEFAULT_MAX_ENEMIES: nat := 20

  /** `EnemyCount::default()`. */
  const DEFAULT_ENEMY_COUNT: EnemyCount := EnemyCount(0, DEFAULT_MAX_ENEMIES, 0)

  /** `StageLevel::default()`: the first stage. */
  const DEFAULT_STAGE_LEVEL: nat := 1

  /** One player's statistics; the source's `usize` counters are `nat` here. */
  datatype PlayerStats = PlayerStats(
    name: string,
    speed: nat,
    fireSpeed: nat,
    protection: nat,
    shells: nat,
    penetrate: bool,
    trackChain: bool,
    airCushion: bool,
    fireShell: bool,
    lifeRedBar: nat,
    energyBlueBar: nat,
    score: nat)

  /** The statistics a player starts a game with (src/main.rs:718-731 and
      773-802 build these two records). */
  function InitialStats(name: string): (s: PlayerStats)
    ensures s.name == name && s.score == 0
    ensures s.speed == s.fireSpeed == s.protection == 40
    ensures !s.penetrate && !s.trackChain && !s.airCushion && !s.fireShell
    ensures s.lifeRedBar == 3 && s.energyBlueBar == 100 && s.shells == 1
  {
    PlayerStats(name, 40, 40, 40, 1, false, false, false, false, 3, 100, 0)
  }

  const PLAYER1_NAME: string := "Li Yun Long"
  const PLAYER2_NAME: string := "Chu Yun Fei"

  /** An enemy count is consistent when no more tanks were started than the
      stage allows. */
  predicate EnemyCountValid(c: EnemyCount)
  {
    c.totalSpawned <= c.maxCount
  }

  /** The defaults are consistent: nothing spawned, twenty allowed, none alive,
      and the menu selection names one of the three entries. */
  lemma DefaultsConsistent()
    ensures EnemyCountValid(DEFAULT_ENEMY_COUNT)
    ensures DEFAULT_ENEMY_COUNT.totalSpawned == 0 && DEFAULT_ENEMY_COUNT.currentEnemies == 0
    ensures DEFAULT_ENEMY_COUNT.maxCount == 20
    ensures DEFAULT_MENU_INDEX < MENU_ENTRIES
    ensures DEFAULT_STAGE_LEVEL == 1
  {
  }
}
