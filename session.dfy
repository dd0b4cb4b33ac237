/** The flow of a game session in src/main.rs: the start-screen, pause and
    game-over menus, the state hooks that run on every state change, the
    enemy wave of a stage (births, kills, completion) and the player
    power-ups.

    Systems ask for a state change with `NextState::set`; the last request of
    a frame wins and is applied at the start of the next frame, where the
    `OnExit` hook of the old state and then the `OnEnter` hook of the new one
    run. `std::process::exit` ends the process: it becomes the `exited` flag,
    after which nothing runs. */
module Session {

  import opened Wrappers
  import opened Resources
  import opened Constants
  import opened Keys
  import Bullets

  // -------------------------------------------------------------------------
  // Menus

  /** W on the start screen: up one entry, from the top to the bottom. */
  function StartMenuUp(i: nat): (j: nat)
    ensures i < MENU_ENTRIES ==> j < MENU_ENTRIES
    ensures i == 0 ==> j == 2
  {
    if i > 0 then i - 1 else 2
  }

  /** W on the game-over screen, written the other way round. */
  function GameOverMenuUp(i: nat): (j: nat)
    ensures j == StartMenuUp(i)
  {
    if i == 0 then 2 else i - 1
  }

  /** S on either screen: down one entry, from the bottom to the top. */
  function MenuDown(i: nat): (j: nat)
    ensures j < MENU_ENTRIES
    ensures i == 2 ==> j == 0
  {
    (i + 1) % 3
  }

  /** On the three entries, W and S undo each other. */
  lemma MenuMovesInverse(i: nat)
    requires i < MENU_ENTRIES
    ensures MenuDown(StartMenuUp(i)) == i && StartMenuUp(MenuDown(i)) == i
  {
  }

  /** W is handled before S in one frame. */
  function MenuAfterKeys(i: nat, justPressed: set<Key>): (j: nat)
    ensures i < MENU_ENTRIES ==> j < MENU_ENTRIES
    ensures i < MENU_ENTRIES && KeyW in justPressed && KeyS in justPressed ==> j == i
    ensures KeyW !in justPressed && KeyS !in justPressed ==> j == i
  {
    var afterW := if KeyW in justPressed then StartMenuUp(i) else i;
    if KeyS in justPressed then MenuDown(afterW) else afterW
  }

  /** What Space does on a menu entry. */
  datatype Confirm = Enter(state: GameState) | Quit | Ignore

  /** Start screen: "1 Player" and "2 Players" fade out to the first stage,
      "Exit" quits. */
  function StartConfirm(i: nat): (c: Confirm)
    ensures c.Ignore? <==> i >= MENU_ENTRIES
    ensures c == Quit <==> i == 2
    ensures c.Enter? ==> c.state == FadingOut
  {
    match i
    case 0 => Enter(FadingOut)
    case 1 => Enter(FadingOut)
    case 2 => Quit
    case _ => Ignore
  }

  /** The mode the start screen picks with its first two entries. */
  function StartMode(i: nat): (m: GameMode)
    ensures m == TwoPlayers <==> i == 1
  {
    if i == 1 then TwoPlayers else OnePlayer
  }

  /** Game-over screen: "Restart" plays again, "Back to Menu" returns to the
      start screen, "Exit" quits. */
  function GameOverConfirm(i: nat): (c: Confirm)
    ensures c.Ignore? <==> i >= MENU_ENTRIES
    ensures c == Quit <==> i == 2
    ensures c == Enter(Playing) <==> i == 0
    ensures c == Enter(StartScreen) <==> i == 1
  {
    match i
    case 0 => Enter(Playing)
    case 1 => Enter(StartScreen)
    case 2 => Quit
    case _ => Ignore
  }

  // -------------------------------------------------------------------------
  // The enemy wave of a stage

  /** `EnemyCount` together with the entities it is meant to count: `pending`
      birth animations that have not yet reached their spawn frame and `live`
      enemy tanks. */
  datatype Wave = Wave(count: EnemyCount, pending: nat, live: nat)

  /** The counters agree with the field: `current_enemies` is the number of
      live enemy tanks, and every enemy started is pending, live or killed. */
  predicate Consistent(w: Wave)
  {
    w.count.currentEnemies == w.live &&
    w.pending + w.live <= w.count.totalSpawned <= w.count.maxCount
  }

  /** The enemies killed so far in the stage. */
  function Kills(w: Wave): nat
    requires Consistent(w)
  {
    w.count.totalSpawned - w.pending - w.live
  }

  /** No enemy started, none on the field. */
  function EmptyWave(maxCount: nat): (w: Wave)
    ensures Consistent(w) && w.count.maxCount == maxCount
    ensures w.pending == 0 && w.live == 0 && w.count.totalSpawned == 0
  {
    Wave(EnemyCount(0, maxCount, 0), 0, 0)
  }

  /** `spawn_game_entities`: three birth animations are added to whatever is
      on the field, and the counters are set to three started, none live. */
  function SpawnWave(w: Wave): (r: Wave)
    ensures r.count.maxCount == w.count.maxCount && r.pending == w.pending + 3 && r.live == w.live
    ensures r.count.totalSpawned == 3 && r.count.currentEnemies == 0
    ensures w.pending == 0 && w.live == 0 && 3 <= w.count.maxCount ==> Consistent(r)
    ensures w.live > 0 ==> !Consistent(r)
  {
    Wave(EnemyCount(3, w.count.maxCount, 0), w.pending + 3, w.live)
  }

  /** A birth animation reaching its spawn frame puts an enemy tank on the
      field and counts it as live. */
  function HatchWave(w: Wave): (r: Wave)
    requires w.pending > 0
    ensures r.pending + 1 == w.pending && r.live == w.live + 1
    ensures Consistent(w) ==> Consistent(r) && Kills(r) == Kills(w)
  {
    Wave(w.count.(currentEnemies := w.count.currentEnemies + 1), w.pending - 1, w.live + 1)
  }

  /** A player bullet destroying a live enemy tank: the counters follow
      `Bullets.KillEnemy`, and a respawn adds one birth animation. `None` is
      the abort on a zero `current_enemies`. */
  function KillWave(w: Wave): (r: Option<Wave>)
    requires w.live > 0
    ensures r.None? <==> w.count.currentEnemies == 0
    ensures Consistent(w) ==> r.Some? && Consistent(r.value) && Kills(r.value) == Kills(w) + 1
    ensures r.Some? ==> r.value.live + 1 == w.live && r.value.count.maxCount == w.count.maxCount
  {
    match Bullets.KillEnemy(w.count)
    case None => None
    case Some(k) => Some(Wave(k.count, w.pending + (if k.respawn then 1 else 0), w.live - 1))
  }

  /** `check_stage_complete` as written: everything started and no enemy
      counted live. Birth animations still due to hatch are not looked at. */
  predicate StageCompleteAsWritten(c: EnemyCount)
  {
    c.totalSpawned >= c.maxCount && c.currentEnemies == 0
  }

  /** The completion test the stage needs: also no birth animation pending. */
  predicate StageComplete(w: Wave)
  {
    StageCompleteAsWritten(w.count) && w.pending == 0
  }

  /** A stage completes exactly when all of its enemies have been killed. */
  lemma StageCompleteIffAllKilled(w: Wave)
    requires Consistent(w)
    ensures StageComplete(w) <==> Kills(w) == w.count.maxCount
  {
  }

  /** As written, killing the last live enemy while the final respawn is
      still in its birth animation ends the stage after 19 of its 20 kills. */
  lemma StageEndsBeforeLastEnemy()
    ensures var w := Wave(EnemyCount(19, DEFAULT_MAX_ENEMIES, 1), 0, 1);
      Consistent(w) && KillWave(w).Some? &&
      var after := KillWave(w).value;
      Consistent(after) && StageCompleteAsWritten(after.count) &&
      !StageComplete(after) && Kills(after) == 19 && after.pending == 1
  {
    var w := Wave(EnemyCount(19, DEFAULT_MAX_ENEMIES, 1), 0, 1);
    assert Bullets.KillEnemy(w.count).value.respawn;
  }

  /** `update_enemy_count_display`: `max_count - total_spawned` plus the enemy
      tanks on the field. `None` is the unsigned underflow when more were
      started than allowed. */
  function RemainingShown(c: EnemyCount, enemyTanks: nat): (r: Option<nat>)
    ensures r.None? <==> c.totalSpawned > c.maxCount
    ensures r.Some? ==> r.value + c.totalSpawned == c.maxCount + enemyTanks
  {
    if c.totalSpawned > c.maxCount then None
    else Some(c.maxCount - c.totalSpawned + enemyTanks)
  }

  /** The counter shows the enemies still to kill less those pending in a
      birth animation. */
  lemma RemainingShownCountsDown(w: Wave)
    requires Consistent(w)
    ensures RemainingShown(w.count, w.live) == Some(w.count.maxCount - Kills(w) - w.pending)
  {
  }

  // -------------------------------------------------------------------------
  // Players

  /** The statistics `spawn_game_entities` pushes for the game mode. */
  function NewPlayers(mode: GameMode): (ps: seq<PlayerStats>)
    ensures |ps| == if mode == OnePlayer then 1 else 2
    ensures ps[0] == InitialStats(PLAYER1_NAME)
    ensures mode == TwoPlayers ==> ps[1] == InitialStats(PLAYER2_NAME)
  {
    match mode
    case OnePlayer => [InitialStats(PLAYER1_NAME)]
    case TwoPlayers => [InitialStats(PLAYER1_NAME), InitialStats(PLAYER2_NAME)]
  }

  /** A power-up adds 20 to the speed while it is below 100. */
  function SpeedBoost(speed: nat): (r: nat)
    ensures speed < 100 ==> r == speed + 20
    ensures speed >= 100 ==> r == speed
  {
    if speed < 100 then speed + 20 else speed
  }

  /** Speeds the game can reach: multiples of 20 up to 100. */
  predicate SpeedValid(speed: nat)
  {
    speed % 20 == 0 && speed <= 100
  }

  predicate SpeedsValid(ps: seq<PlayerStats>)
  {
    forall i :: 0 <= i < |ps| ==> SpeedValid(ps[i].speed)
  }

  /** Freshly pushed players start at a valid speed. */
  lemma NewPlayersSpeedsValid(ps: seq<PlayerStats>, mode: GameMode)
    requires SpeedsValid(ps)
    ensures SpeedsValid(ps + NewPlayers(mode))
  {
    var all := ps + NewPlayers(mode);
    forall i | 0 <= i < |all|
      ensures SpeedValid(all[i].speed)
    {
      if i >= |ps| {
        assert all[i] == NewPlayers(mode)[i - |ps|];
      }
    }
  }

  function BoostedTimes(speed: nat, n: nat): nat
  {
    if n == 0 then speed else SpeedBoost(BoostedTimes(speed, n - 1))
  }

  /** From the initial 40, n power-ups give min(40 + 20 n, 100): the speed
      caps at 100 after three of them, which the speed text shows as MAX. */
  lemma {:induction false} BoostedSpeed(n: nat)
    ensures BoostedTimes(InitialStats(PLAYER1_NAME).speed, n) == if n >= 3 then 100 else 40 + 20 * n
    ensures SpeedValid(BoostedTimes(InitialStats(PLAYER1_NAME).speed, n))
  {
    if n > 0 {
      BoostedSpeed(n - 1);
    }
  }

  // -------------------------------------------------------------------------
  // State hooks

  /** Stage level, wave and player statistics: what the hooks change. */
  datatype Progress = Progress(stage: nat, wave: Wave, players: seq<PlayerStats>)

  /** `cleanup_playing_entities`: everything on the field goes, the player
      list is cleared and the stage goes back to 1. */
  function CleanupPlaying(p: Progress): (r: Progress)
    ensures r.stage == DEFAULT_STAGE_LEVEL && r.players == []
    ensures Consistent(r.wave) && r.wave.pending == 0 && r.wave.live == 0 && r.wave.count.totalSpawned == 0
    ensures r.wave.count.maxCount == p.wave.count.maxCount
  {
    Progress(1, EmptyWave(p.wave.count.maxCount), [])
  }

  /** `reset_for_next_stage`: everything on the field goes; the stage level
      and the player list stay. */
  function ResetForNextStage(p: Progress): (r: Progress)
    ensures r.stage == p.stage && r.players == p.players
    ensures Consistent(r.wave) && r.wave.pending == 0 && r.wave.live == 0 && r.wave.count.totalSpawned == 0
    ensures r.wave.count.maxCount == p.wave.count.maxCount
  {
    p.(wave := EmptyWave(p.wave.count.maxCount))
  }

  /** `spawn_game_entities`: new players are appended to the list, which it
      never clears, and the wave starts over. */
  function SpawnGameEntities(p: Progress, mode: GameMode): (r: Progress)
    ensures r.stage == p.stage && r.players == p.players + NewPlayers(mode)
    ensures r.wave == SpawnWave(p.wave)
  {
    Progress(p.stage, SpawnWave(p.wave), p.players + NewPlayers(mode))
  }

  function OnExit(from: GameState, p: Progress): Progress
  {
    if from == GameOver then CleanupPlaying(p) else p
  }

  /** The `OnEnter` hooks as registered: entering Playing always spawns. */
  function OnEnterAsWritten(to: GameState, p: Progress, mode: GameMode): Progress
  {
    match to
    case StartScreen => CleanupPlaying(p)
    case StageIntro => ResetForNextStage(p)
    case Playing => SpawnGameEntities(p, mode)
    case _ => p
  }

  /** The `OnEnter` hooks with resuming from the pause menu leaving the game
      as it was. */
  function OnEnter(from: GameState, to: GameState, p: Progress, mode: GameMode): Progress
  {
    if from == Paused && to == Playing then p else OnEnterAsWritten(to, p, mode)
  }

  function TransitionAsWritten(from: GameState, to: GameState, p: Progress, mode: GameMode): Progress
  {
    OnEnterAsWritten(to, OnExit(from, p), mode)
  }

  function Transition(from: GameState, to: GameState, p: Progress, mode: GameMode): Progress
  {
    OnEnter(from, to, OnExit(from, p), mode)
  }

  /** The state changes some system can request. */
  predicate Allowed(from: GameState, to: GameState)
  {
    match from
    case StartScreen => to == FadingOut
    case FadingOut => to == StageIntro
    case StageIntro => to == Playing
    case Playing => to == Paused || to == GameOver || to == StageIntro
    case Paused => to == Playing || to == StartScreen
    case GameOver => to == Playing || to == StartScreen
  }

  /** The states in which no stage is on the field. */
  predicate OffField(state: GameState)
  {
    state == StartScreen || state == FadingOut || state == StageIntro
  }

  /** What holds of the progress in each state: the wave is consistent, and
      outside play (before the first frame of a stage) the field is empty. */
  predicate Settled(state: GameState, p: Progress)
  {
    Consistent(p.wave) && p.wave.count.maxCount == DEFAULT_MAX_ENEMIES && p.stage >= 1 &&
    (OffField(state) ==>
       p.wave.pending == 0 && p.wave.live == 0 && p.wave.count.totalSpawned == 0)
  }

  /** Every state change a system can request keeps the wave consistent. */
  lemma TransitionKeepsSettled(from: GameState, to: GameState, p: Progress, mode: GameMode)
    requires Allowed(from, to) && Settled(from, p)
    ensures Settled(to, Transition(from, to, p, mode))
  {
    var q := OnExit(from, p);
    if to == Playing && from != Paused {
      assert q.wave.pending == 0 && q.wave.live == 0;
    }
  }

  /** As written, resuming from the pause menu runs `spawn_game_entities`
      again: with two enemies on the field `current_enemies` drops to 0, and
      the next kill of one of them underflows it. */
  lemma ResumeThenKillAborts()
    ensures var p := Progress(1, Wave(EnemyCount(5, DEFAULT_MAX_ENEMIES, 2), 0, 2), []);
      Settled(Paused, p) && Allowed(Paused, Playing) &&
      var after := TransitionAsWritten(Paused, Playing, p, OnePlayer);
      !Consistent(after.wave) && after.wave.live == 2 && KillWave(after.wave).None?
  {
  }

  /** With the pause menu resuming the game as it was, no kill ever finds
      `current_enemies` at zero. */
  lemma ResumeKeepsGame(p: Progress, mode: GameMode)
    requires Settled(Paused, p)
    ensures Transition(Paused, Playing, p, mode) == p
    ensures p.wave.live > 0 ==> KillWave(p.wave).Some?
  {
  }

  /** The number of true entries. */
  function CountTrue(bs: seq<bool>): (n: nat)
    ensures n <= |bs|
    ensures n == 0 <==> forall i :: 0 <= i < |bs| ==> !bs[i]
  {
    if bs == [] then 0 else CountTrue(bs[..|bs| - 1]) + (if bs[|bs| - 1] then 1 else 0)
  }

  // -------------------------------------------------------------------------
  // The session

  class Game {
    var state: GameState
    /** The pending `NextState` request. */
    var next: Option<GameState>
    var mode: GameMode
    /** `CurrentMenuSelection`. */
    var selected: nat
    var exited: bool
    var progress: Progress

    ghost predicate Valid()
      reads this
    {
      selected < MENU_ENTRIES && Settled(state, progress) && SpeedsValid(progress.players) &&
      (next.Some? ==> Allowed(state, next.value))
    }

    /** The resources' defaults on the start screen. */
    constructor ()
      ensures Valid() && state == DEFAULT_GAME_STATE && next == None && mode == DEFAULT_GAME_MODE
      ensures selected == DEFAULT_MENU_INDEX && !exited
      ensures progress == Progress(DEFAULT_STAGE_LEVEL, EmptyWave(DEFAULT_MAX_ENEMIES), [])
    {
      state, next, mode := StartScreen, None, OnePlayer;
      selected, exited := 0, false;
      progress := Progress(1, EmptyWave(DEFAULT_MAX_ENEMIES), []);
    }

    /** `handle_start_screen_input`: Escape quits at once; W and S move the
        selection; Space confirms the entry then selected. */
    method StartScreenInput(justPressed: set<Key>)
      requires Valid() && !exited && state == StartScreen
      modifies this
      ensures Valid() && state == old(state) && progress == old(progress)
      ensures Escape in justPressed ==>
        exited && selected == old(selected) && next == old(next) && mode == old(mode)
      ensures Escape !in justPressed ==>
        var i := MenuAfterKeys(old(selected), justPressed);
        var c := if Space in justPressed then StartConfirm(i) else Ignore;
        selected == i &&
        (exited <==> c == Quit) &&
        (c.Enter? ==> next == Some(FadingOut) && mode == StartMode(i)) &&
        (!c.Enter? ==> next == old(next) && mode == old(mode))
    {
      if Escape in justPressed {
        exited := true;
        return;
      }
      if KeyW in justPressed {
        selected := StartMenuUp(selected);
      }
      if KeyS in justPressed {
        selected := MenuDown(selected);
      }
      if Space in justPressed {
        match selected
        case 0 =>
          mode := OnePlayer;
          next := Some(FadingOut);
        case 1 =>
          mode := TwoPlayers;
          next := Some(FadingOut);
        case 2 =>
          exited := true;
        case _ =>
      }
    }

    /** `handle_game_over_input`: W and S move the selection; Space confirms
        the entry then selected. */
    method GameOverInput(justPressed: set<Key>)
      requires Valid() && !exited && state == GameOver
      modifies this
      ensures Valid() && state == old(state) && progress == old(progress) && mode == old(mode)
      ensures var i := MenuAfterKeys(old(selected), justPressed);
        var c := if Space in justPressed then GameOverConfirm(i) else Ignore;
        selected == i &&
        (exited <==> c == Quit) &&
        (c.Enter? ==> next == Some(c.state)) &&
        (!c.Enter? ==> next == old(next))
    {
      if KeyW in justPressed {
        selected := GameOverMenuUp(selected);
      }
      if KeyS in justPressed {
        selected := MenuDown(selected);
      }
      if Space in justPressed {
        match selected
        case 0 =>
          next := Some(Playing);
        case 1 =>
          next := Some(StartScreen);
        case 2 =>
          exited := true;
        case _ =>
      }
    }

    /** `handle_game_input`: Space pauses, Escape quits. */
    method GameInput(justPressed: set<Key>)
      requires Valid() && !exited && state == Playing
      modifies this
      ensures Valid() && state == old(state) && progress == old(progress)
      ensures selected == old(selected) && mode == old(mode)
      ensures next == if Space in justPressed then Some(Paused) else old(next)
      ensures exited <==> Escape in justPressed
    {
      if Space in justPressed {
        next := Some(Paused);
      }
      if Escape in justPressed {
        exited := true;
      }
    }

    /** `handle_pause_input`: Space resumes, B goes back to the start screen
        and wins over Space, Escape quits. */
    method PauseInput(justPressed: set<Key>)
      requires Valid() && !exited && state == Paused
      modifies this
      ensures Valid() && state == old(state) && progress == old(progress)
      ensures selected == old(selected) && mode == old(mode)
      ensures next == if KeyB in justPressed then Some(StartScreen)
                      else if Space in justPressed then Some(Playing)
                      else old(next)
      ensures exited <==> Escape in justPressed
    {
      if Space in justPressed {
        next := Some(Playing);
      }
      if KeyB in justPressed {
        next := Some(StartScreen);
      }
      if Escape in justPressed {
        exited := true;
      }
    }

    /** `fade_out_screen` once the fade has reached zero. */
    method FadeOutFinished()
      requires Valid() && !exited && state == FadingOut
      modifies this
      ensures Valid() && next == Some(StageIntro)
      ensures state == old(state) && progress == old(progress) && selected == old(selected) && mode == old(mode)
      ensures exited == old(exited)
    {
      next := Some(StageIntro);
    }

    /** `handle_stage_intro_timer` once every phase of the intro is over. */
    method StageIntroFinished()
      requires Valid() && !exited && state == StageIntro
      modifies this
      ensures Valid() && next == Some(Playing)
      ensures state == old(state) && progress == old(progress) && selected == old(selected) && mode == old(mode)
      ensures exited == old(exited)
    {
      next := Some(Playing);
    }

    /** The state transition at the start of a frame: the requested state is
        entered after the old state's exit hook and the new state's enter
        hook have run. */
    method ApplyTransition()
      requires Valid() && !exited
      modifies this
      ensures Valid() && next == None && selected == old(selected) && mode == old(mode) && !exited
      ensures old(next).None? ==> state == old(state) && progress == old(progress)
      ensures old(next).Some? ==>
        state == old(next).value && progress == Transition(old(state), state, old(progress), mode)
    {
      if next.Some? {
        var from := state;
        TransitionKeepsSettled(from, next.value, progress, mode);
        NewPlayersSpeedsValid(OnExit(from, progress).players, mode);
        progress := Transition(from, next.value, progress, mode);
        state := next.value;
        next := None;
      }
    }

    /** A birth animation reaching its spawn frame (`animate_enemy_born_animation`). */
    method Hatch()
      requires Valid() && !exited && state == Playing && progress.wave.pending > 0
      modifies this
      ensures Valid() && state == old(state) && next == old(next)
      ensures progress == old(progress).(wave := HatchWave(old(progress.wave)))
      ensures Kills(progress.wave) == Kills(old(progress.wave))
      ensures selected == old(selected) && mode == old(mode) && exited == old(exited)
    {
      progress := progress.(wave := HatchWave(progress.wave));
    }

    /** The wave counters of a player bullet destroying an enemy tank
        (`handle_bullet_collisions`); the score is kept by `Bullets.Battle`. */
    method EnemyKilled()
      requires Valid() && !exited && state == Playing && progress.wave.live > 0
      modifies this
      ensures Valid() && state == old(state) && next == old(next)
      ensures progress == old(progress).(wave := KillWave(old(progress.wave)).value)
      ensures Kills(progress.wave) == Kills(old(progress.wave)) + 1
      ensures selected == old(selected) && mode == old(mode) && exited == old(exited)
    {
      var r := KillWave(progress.wave);
      progress := progress.(wave := r.value);
    }

    /** `check_stage_complete`, with the birth animations looked at: the
        stage goes up by one and the intro of the next stage is requested. */
    method CheckStageComplete() returns (completed: bool)
      requires Valid() && !exited && state == Playing
      modifies this
      ensures Valid() && state == old(state)
      ensures completed <==> Kills(old(progress.wave)) == DEFAULT_MAX_ENEMIES
      ensures completed ==> next == Some(StageIntro) && progress == old(progress).(stage := old(progress.stage) + 1)
      ensures !completed ==> next == old(next) && progress == old(progress)
      ensures selected == old(selected) && mode == old(mode) && exited == old(exited)
    {
      StageCompleteIffAllKilled(progress.wave);
      completed := StageComplete(progress.wave);
      if completed {
        progress := progress.(stage := progress.stage + 1);
        next := Some(StageIntro);
      }
    }

    /** `handle_powerup_collision` for one player tank: when it touched a
        power-up, the speed of its statistics entry, if any, is boosted. */
    method PowerUp(index: nat, touched: bool)
      requires Valid() && !exited && state == Playing
      modifies this
      ensures Valid() && state == old(state) && next == old(next)
      ensures progress.stage == old(progress.stage) && progress.wave == old(progress.wave)
      ensures progress.players ==
        if touched && index < |old(progress.players)| then
          var s := old(progress.players)[index];
          old(progress.players)[index := s.(speed := SpeedBoost(s.speed))]
        else old(progress.players)
      ensures selected == old(selected) && mode == old(mode) && exited == old(exited)
    {
      if touched && index < |progress.players| {
        var s := progress.players[index];
        progress := progress.(players := progress.players[index := s.(speed := SpeedBoost(s.speed))]);
      }
    }

    /** `handle_game_over_delay` over the game-over timers of one frame, each
        given as whether it has finished. Every finished timer goes; with no
        player tank left a finished timer requests the game-over screen.
        Returns the number of timers despawned. */
    method GameOverDelay(finished: seq<bool>, noPlayerTanks: bool) returns (despawned: nat)
      requires Valid() && !exited && state == Playing
      modifies this
      ensures Valid() && state == old(state) && progress == old(progress)
      ensures despawned == CountTrue(finished)
      ensures next == if despawned > 0 && noPlayerTanks then Some(GameOver) else old(next)
      ensures selected == old(selected) && mode == old(mode) && exited == old(exited)
    {
      despawned := 0;
      var k := 0;
      while k < |finished|
        invariant 0 <= k <= |finished|
        invariant Valid() && state == old(state) && progress == old(progress)
        invariant selected == old(selected) && mode == old(mode) && exited == old(exited)
        invariant despawned == CountTrue(finished[..k])
        invariant next == if despawned > 0 && noPlayerTanks then Some(GameOver) else old(next)
      {
        assert finished[..k + 1][..k] == finished[..k];
        if finished[k] {
          despawned := despawned + 1;
          if noPlayerTanks {
            next := Some(GameOver);
          }
        }
        k := k + 1;
      }
      assert finished[..k] == finished;
    }
  }
}
