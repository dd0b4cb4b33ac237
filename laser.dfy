/** The charged laser (src/laser.rs): a player holds the laser key for four
    seconds to fire a laser that empties the energy bar. Moving, shooting or
    releasing the key cancels the charge.

    Time is counted in whole milliseconds. Progress bars and charge sounds
    are entities; spawning one takes the next unused entity number, and the
    despawns of a frame act on what the queries saw at the start of that
    frame. */
module Laser {

  import opened Wrappers
  import opened Resources
  import opened Constants
  import opened Keys

  /** `Timer::from_seconds(4.0, TimerMode::Once)`. */
  const CHARGE_MILLIS: nat := 4000

  /** The least energy that lets a charge begin. */
  const MIN_CHARGE_ENERGY: nat := 3

  /** The two laser textures; `None` is the `unreachable!` arm of an enemy owner. */
  datatype LaserColour = Blue | Red

  function LaserTexture(owner: TankType): (c: Option<LaserColour>)
    ensures c.None? <==> owner == Enemy
    ensures owner == Player1 ==> c == Some(Blue)
    ensures owner == Player2 ==> c == Some(Red)
  {
    match owner
    case Player1 => Some(Blue)
    case Player2 => Some(Red)
    case Enemy => None
  }

  /** The laser key: L for the first player, Numpad 3 for the second, none
      for an enemy (which skips the system). */
  function LaserKey(t: TankType): (k: Option<Key>)
    ensures k.None? <==> t == Enemy
  {
    match t
    case Player1 => Some(KeyL)
    case Player2 => Some(Numpad3)
    case Enemy => None
  }

  /** Keys that interrupt a charge: the player's movement keys and shoot key. */
  function InterruptKeys(t: TankType): (ks: set<Key>)
    ensures t == Player1 ==> KeyJ in ks && KeyL !in ks
    ensures t != Player1 ==> Numpad1 in ks && Numpad3 !in ks
  {
    if t == Player1 then {KeyW, KeyS, KeyA, KeyD, KeyJ}
    else {ArrowUp, ArrowDown, ArrowLeft, ArrowRight, Numpad1}
  }

  predicate Interrupted(t: TankType, held: set<Key>)
  {
    exists k :: k in InterruptKeys(t) && k in held
  }

  /** A `LaserCharge` component: the milliseconds charged so far. */
  datatype Charge = Charge(elapsed: nat, tankType: TankType)

  datatype Tick = Tick(charge: Charge, justFinished: bool)

  /** `Timer::tick` on a once-timer: the elapsed time grows by the frame's
      delta and stops at the duration; the tick that reaches the duration is
      the one that just finished. */
  function TickCharge(c: Charge, delta: nat): (r: Tick)
    requires c.elapsed <= CHARGE_MILLIS
    ensures r.charge.tankType == c.tankType
    ensures r.charge.elapsed <= CHARGE_MILLIS
    ensures r.charge.elapsed == CHARGE_MILLIS || r.charge.elapsed == c.elapsed + delta
    ensures r.charge.elapsed >= c.elapsed
    ensures r.justFinished <==> c.elapsed < CHARGE_MILLIS <= c.elapsed + delta
  {
    var e := if c.elapsed + delta >= CHARGE_MILLIS then CHARGE_MILLIS else c.elapsed + delta;
    Tick(Charge(e, c.tankType), c.elapsed < CHARGE_MILLIS && e == CHARGE_MILLIS)
  }

  /** The elapsed time after n ticks of `delta` each, starting from zero. */
  function ChargedAfter(t: TankType, delta: nat, n: nat): (c: Charge)
    ensures c.elapsed <= CHARGE_MILLIS
  {
    if n == 0 then Charge(0, t) else TickCharge(ChargedAfter(t, delta, n - 1), delta).charge
  }

  /** Held for n frames of `delta` milliseconds, the charge has min(n * delta,
      4000) milliseconds, and the n-th tick is the finishing one exactly when
      (n - 1) * delta < 4000 <= n * delta: with 16 ms frames the laser fires on
      frame 250. */
  lemma {:induction false} ChargeProgress(t: TankType, delta: nat, n: nat)
    ensures ChargedAfter(t, delta, n).elapsed == if n * delta >= CHARGE_MILLIS then CHARGE_MILLIS else n * delta
    ensures n > 0 ==> (TickCharge(ChargedAfter(t, delta, n - 1), delta).justFinished <==>
                       (n - 1) * delta < CHARGE_MILLIS <= n * delta)
  {
    if n > 0 {
      ChargeProgress(t, delta, n - 1);
      assert n * delta == (n - 1) * delta + delta;
    }
  }

  /** One player tank as the system's query yields it. */
  datatype LaserTank = LaserTank(entity: Entity, tankType: TankType, rotating: bool)

  /** How one tank's turn ended. */
  datatype StepResult = Skipped | Interrupt | Started | Charging | Fired | Released

  /** Everything `player_laser_system` changes, as one value:
      `LaserCharge` components by tank entity, progress bars with the tank
      entity each belongs to, charge-sound entities, player statistics by tank
      type, the owner of every laser fired in firing order, and the next
      unused entity number. */
  datatype LaserState = LaserState(charges: map<Entity, Charge>, bars: map<Entity, Entity>, sounds: set<Entity>,
                                   players: map<TankType, PlayerStats>, lasers: seq<TankType>, nextEntity: Entity)

  /** Only players charge and fire, a running charge has not finished yet,
      and every bar and sound was spawned before `nextEntity`. */
  predicate ValidState(s: LaserState)
  {
    (forall e :: e in s.charges ==> s.charges[e].tankType != Enemy && s.charges[e].elapsed < CHARGE_MILLIS) &&
    (forall i :: 0 <= i < |s.lasers| ==> s.lasers[i] != Enemy) &&
    (forall b :: b in s.bars ==> b < s.nextEntity) &&
    (forall e :: e in s.sounds ==> e < s.nextEntity)
  }

  /** The tank has a charge of its own type running. */
  predicate HasCharge(s: LaserState, t: LaserTank)
  {
    t.entity in s.charges && s.charges[t.entity].tankType == t.tankType
  }

  /** A player tank that is not turning holds its laser key and no key that
      interrupts a charge. */
  predicate Holding(t: LaserTank, held: set<Key>)
  {
    !t.rotating && t.tankType != Enemy && LaserKey(t.tankType).value in held && !Interrupted(t.tankType, held)
  }

  /** Ends a charge: the component goes, every progress bar of this tank goes,
      and every charge sound the frame started with stops. */
  function EndChargeRule(s: LaserState, entity: Entity, soundsAtStart: set<Entity>): (r: LaserState)
    ensures ValidState(s) ==> ValidState(r)
    ensures r.charges == s.charges - {entity} && entity !in r.charges
    ensures forall b :: b in r.bars <==> b in s.bars && s.bars[b] != entity
    ensures forall b :: b in r.bars ==> r.bars[b] == s.bars[b]
    ensures r.sounds == s.sounds - soundsAtStart
    ensures r.players == s.players && r.lasers == s.lasers && r.nextEntity == s.nextEntity
  {
    s.(charges := s.charges - {entity},
       bars := map b | b in s.bars && s.bars[b] != entity :: s.bars[b],
       sounds := s.sounds - soundsAtStart)
  }

  datatype StepOutcome = StepOutcome(result: StepResult, state: LaserState)

  /** One tank's turn in `player_laser_system` (src/laser.rs:89-269). */
  function StepRule(s: LaserState, t: LaserTank, held: set<Key>, delta: nat, soundsAtStart: set<Entity>): (o: StepOutcome)
    requires ValidState(s)
    ensures ValidState(o.state)
    // a turning tank, an enemy, or a player neither charging nor able to start is left alone
    ensures o.result == Skipped <==>
      t.rotating || t.tankType == Enemy ||
      (!HasCharge(s, t) &&
       !(LaserKey(t.tankType).value in held && t.tankType in s.players &&
         s.players[t.tankType].energyBlueBar >= MIN_CHARGE_ENERGY))
    ensures o.result == Skipped ==> o.state == s
    // a movement or shoot key ends a running charge
    ensures o.result == Interrupt <==>
      !t.rotating && t.tankType != Enemy && Interrupted(t.tankType, held) && HasCharge(s, t)
    // a charge starts only with the key held, none running and enough energy
    ensures o.result == Started <==>
      !t.rotating && t.tankType != Enemy && LaserKey(t.tankType).value in held && !HasCharge(s, t) &&
      t.tankType in s.players && s.players[t.tankType].energyBlueBar >= MIN_CHARGE_ENERGY
    ensures o.result == Started ==>
      o.state.charges == s.charges[t.entity := Charge(0, t.tankType)] &&
      o.state.sounds == s.sounds + {s.nextEntity} && o.state.bars == s.bars[s.nextEntity + 1 := t.entity] &&
      o.state.nextEntity == s.nextEntity + 2 && o.state.players == s.players && o.state.lasers == s.lasers
    // a held charge ticks, and fires on the tick that just finished the timer
    ensures Holding(t, held) && HasCharge(s, t) ==>
      o.result == if TickCharge(s.charges[t.entity], delta).justFinished then Fired else Charging
    ensures o.result == Charging ==>
      Holding(t, held) && HasCharge(s, t) &&
      var tick := TickCharge(s.charges[t.entity], delta);
      o.state == s.(charges := s.charges[t.entity := tick.charge])
    // releasing the key before the charge completes cancels it
    ensures o.result == Released <==>
      !t.rotating && t.tankType != Enemy && !Interrupted(t.tankType, held) &&
      LaserKey(t.tankType).value !in held && HasCharge(s, t)
    // every ending of a charge removes it together with its bars and the frame's sounds
    ensures o.result in {Interrupt, Released} ==> o.state == EndChargeRule(s, t.entity, soundsAtStart)
    // the finishing tick empties the energy bar and fires, if the player has statistics
    ensures o.result == Fired ==>
      Holding(t, held) && HasCharge(s, t) &&
      var s1 := if t.tankType in s.players
        then s.(players := s.players[t.tankType := s.players[t.tankType].(energyBlueBar := 0)],
                lasers := s.lasers + [t.tankType])
        else s;
      o.state == EndChargeRule(s1, t.entity, soundsAtStart)
  {
    if t.rotating || t.tankType == Enemy then StepOutcome(Skipped, s)
    else
      var key := LaserKey(t.tankType).value;
      var hasCharge := HasCharge(s, t);
      if Interrupted(t.tankType, held) && hasCharge then
        StepOutcome(Interrupt, EndChargeRule(s, t.entity, soundsAtStart))
      else if key in held then
        if !hasCharge then
          if t.tankType !in s.players || s.players[t.tankType].energyBlueBar < MIN_CHARGE_ENERGY then
            StepOutcome(Skipped, s)
          else
            StepOutcome(Started, s.(charges := s.charges[t.entity := Charge(0, t.tankType)],
                                    sounds := s.sounds + {s.nextEntity},
                                    bars := s.bars[s.nextEntity + 1 := t.entity],
                                    nextEntity := s.nextEntity + 2))
        else
          var tick := TickCharge(s.charges[t.entity], delta);
          if tick.justFinished then
            var s1 := if t.tankType in s.players
              then s.(players := s.players[t.tankType := s.players[t.tankType].(energyBlueBar := 0)],
                      lasers := s.lasers + [t.tankType])
              else s;
            StepOutcome(Fired, EndChargeRule(s1, t.entity, soundsAtStart))
          else
            StepOutcome(Charging, s.(charges := s.charges[t.entity := tick.charge]))
      else if hasCharge then
        StepOutcome(Released, EndChargeRule(s, t.entity, soundsAtStart))
      else
        StepOutcome(Skipped, s)
  }

  /** One frame: every tank's turn in query order, with the sounds the frame
      started with. */
  function FrameRule(s: LaserState, tanks: seq<LaserTank>, held: set<Key>, delta: nat, soundsAtStart: set<Entity>): (r: LaserState)
    requires ValidState(s)
    ensures ValidState(r)
    decreases |tanks|
  {
    if tanks == [] then s
    else FrameRule(StepRule(s, tanks[0], held, delta, soundsAtStart).state, tanks[1..], held, delta, soundsAtStart)
  }

  /** Over a frame lasers are only appended, each owned by a player tank of
      the frame, and no energy bar grows. */
  lemma {:induction false} FrameAppendsLasers(s: LaserState, tanks: seq<LaserTank>, held: set<Key>, delta: nat,
                                              soundsAtStart: set<Entity>)
    requires ValidState(s)
    ensures var r := FrameRule(s, tanks, held, delta, soundsAtStart);
      |r.lasers| >= |s.lasers| && r.lasers[..|s.lasers|] == s.lasers &&
      (forall i :: |s.lasers| <= i < |r.lasers| ==> exists k :: 0 <= k < |tanks| && tanks[k].tankType == r.lasers[i]) &&
      r.players.Keys == s.players.Keys &&
      (forall p :: p in s.players ==> r.players[p].energyBlueBar <= s.players[p].energyBlueBar)
    decreases |tanks|
  {
    if tanks != [] {
      var s1 := StepRule(s, tanks[0], held, delta, soundsAtStart).state;
      FrameAppendsLasers(s1, tanks[1..], held, delta, soundsAtStart);
      var r := FrameRule(s, tanks, held, delta, soundsAtStart);
      assert r == FrameRule(s1, tanks[1..], held, delta, soundsAtStart);
      assert |s1.lasers| <= |s.lasers| + 1 && s1.lasers[..|s.lasers|] == s.lasers;
      assert |s1.lasers| == |s.lasers| + 1 ==> s1.lasers[|s.lasers|] == tanks[0].tankType;
      forall i | |s.lasers| <= i < |r.lasers|
        ensures exists k :: 0 <= k < |tanks| && tanks[k].tankType == r.lasers[i]
      {
        if i < |s1.lasers| {
          assert r.lasers[i] == s1.lasers[i] == tanks[0].tankType;
        } else {
          var k :| 0 <= k < |tanks[1..]| && tanks[1..][k].tankType == r.lasers[i];
          assert tanks[k + 1].tankType == r.lasers[i];
        }
      }
    }
  }

  /** The same tank's turn repeated for n frames, each frame stopping the
      sounds it started with. */
  function HoldFrames(s: LaserState, t: LaserTank, held: set<Key>, delta: nat, n: nat): (r: LaserState)
    requires ValidState(s)
    ensures ValidState(r)
  {
    if n == 0 then s
    else
      var p := HoldFrames(s, t, held, delta, n - 1);
      StepRule(p, t, held, delta, p.sounds).state
  }

  /** Holding the laser key from a fresh charge: while less than four seconds
      have passed the charge holds n frames' worth of milliseconds and nothing
      else changes; on the frame that reaches four seconds the laser fires,
      the energy bar empties and the charge is gone. */
  lemma {:induction false} HeldChargeFires(s: LaserState, t: LaserTank, held: set<Key>, delta: nat, n: nat)
    requires ValidState(s) && Holding(t, held) && HasCharge(s, t) && s.charges[t.entity].elapsed == 0
    ensures n * delta < CHARGE_MILLIS ==>
      var p := HoldFrames(s, t, held, delta, n);
      HasCharge(p, t) && p.charges[t.entity].elapsed == n * delta && p.players == s.players && p.lasers == s.lasers
    ensures 0 < n && (n - 1) * delta < CHARGE_MILLIS <= n * delta ==>
      var p := HoldFrames(s, t, held, delta, n - 1);
      var o := StepRule(p, t, held, delta, p.sounds);
      o.result == Fired && t.entity !in o.state.charges &&
      (t.tankType in s.players ==>
         o.state.lasers == s.lasers + [t.tankType] && t.tankType in o.state.players &&
         o.state.players[t.tankType].energyBlueBar == 0)
  {
    if n > 0 {
      HeldChargeFires(s, t, held, delta, n - 1);
      assert (n - 1) * delta + delta == n * delta;
    }
  }

  class LaserSystem {
    var charges: map<Entity, Charge>
    var bars: map<Entity, Entity>
    var sounds: set<Entity>
    var players: map<TankType, PlayerStats>
    var lasers: seq<TankType>
    var nextEntity: Entity

    function Snapshot(): LaserState
      reads this
    {
      LaserState(charges, bars, sounds, players, lasers, nextEntity)
    }

    ghost predicate Valid()
      reads this
    {
      ValidState(Snapshot())
    }

    constructor (ps: map<TankType, PlayerStats>, firstFree: Entity)
      ensures Valid() && players == ps && nextEntity == firstFree
      ensures charges == map[] && bars == map[] && sounds == {} && lasers == []
    {
      charges, bars, sounds, players, lasers := map[], map[], {}, ps, [];
      nextEntity := firstFree;
    }

    method EndCharge(entity: Entity, soundsAtStart: set<Entity>)
      requires Valid()
      modifies this
      ensures Valid()
      ensures Snapshot() == EndChargeRule(old(Snapshot()), entity, soundsAtStart)
    {
      charges := charges - {entity};
      bars := map b | b in bars && bars[b] != entity :: bars[b];
      sounds := sounds - soundsAtStart;
    }

    /** One tank's turn in `player_laser_system`. */
    method Step(t: LaserTank, held: set<Key>, delta: nat, soundsAtStart: set<Entity>) returns (result: StepResult)
      requires Valid()
      modifies this
      ensures Valid()
      ensures StepOutcome(result, Snapshot()) == StepRule(old(Snapshot()), t, held, delta, soundsAtStart)
    {
      result := Skipped;
      if t.rotating {
        return;
      }
      var key := LaserKey(t.tankType);
      if key.None? {
        return;
      }
      var hasCharge := t.entity in charges && charges[t.entity].tankType == t.tankType;
      var interrupted := exists k :: k in InterruptKeys(t.tankType) && k in held;
      if interrupted && hasCharge {
        EndCharge(t.entity, soundsAtStart);
        return Interrupt;
      }
      if key.value in held {
        if !hasCharge {
          if t.tankType !in players {
            return;
          }
          if players[t.tankType].energyBlueBar < MIN_CHARGE_ENERGY {
            return;
          }
          charges := charges[t.entity := Charge(0, t.tankType)];
          sounds := sounds + {nextEntity};
          bars := bars[nextEntity + 1 := t.entity];
          nextEntity := nextEntity + 2;
          return Started;
        } else {
          var tick := TickCharge(charges[t.entity], delta);
          if tick.justFinished {
            if t.tankType in players {
              players := players[t.tankType := players[t.tankType].(energyBlueBar := 0)];
              var colour := LaserTexture(t.tankType);
              assert colour.Some?;
              lasers := lasers + [t.tankType];
            }
            EndCharge(t.entity, soundsAtStart);
            return Fired;
          }
          charges := charges[t.entity := tick.charge];
          return Charging;
        }
      } else if hasCharge {
        EndCharge(t.entity, soundsAtStart);
        return Released;
      }
    }

    /** One frame of `player_laser_system`: the query yields each player tank
        once. */
    method Frame(tanks: seq<LaserTank>, held: set<Key>, delta: nat)
      requires Valid()
      requires forall i, j :: 0 <= i < j < |tanks| ==> tanks[i].entity != tanks[j].entity
      modifies this
      ensures Valid()
      ensures Snapshot() == FrameRule(old(Snapshot()), tanks, held, delta, old(sounds))
    {
      var soundsAtStart := sounds;
      var k := 0;
      while k < |tanks|
        invariant 0 <= k <= |tanks|
        invariant Valid()
        invariant FrameRule(Snapshot(), tanks[k..], held, delta, soundsAtStart) ==
                  FrameRule(old(Snapshot()), tanks, held, delta, soundsAtStart)
      {
        assert tanks[k..][1..] == tanks[k + 1..];
        var _ := Step(tanks[k], held, delta, soundsAtStart);
        k := k + 1;
      }
    }
  }
}
