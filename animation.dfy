/** Frame stepping of the sprite animations in src/main.rs. Every animated
    sprite carries `AnimationIndices { first, last }` and advances one frame
    each time its timer just finished; the timer itself is outside the model,
    so each function here is one such step. */
module Animation {

  import opened Constants

  predicate InRange(ind: AnimationIndices, frame: nat)
  {
    ind.first <= frame <= ind.last
  }

  /** The number of frames of a looping animation. */
  function Period(ind: AnimationIndices): nat
    requires ind.first <= ind.last
  {
    ind.last - ind.first + 1
  }

  /** A looping step (start screen, power-ups, enemy and player tanks, the
      commander): after the last frame comes the first, otherwise the next. */
  function NextLoopFrame(ind: AnimationIndices, current: nat): nat
  {
    if current == ind.last then ind.first else current + 1
  }

  /** A looping animation never leaves its frame range. */
  lemma LoopFrameInRange(ind: AnimationIndices, current: nat)
    requires InRange(ind, current)
    ensures InRange(ind, NextLoopFrame(ind, current))
  {
  }

  /** n looping steps from `start`. */
  function LoopAfter(ind: AnimationIndices, start: nat, n: nat): nat
  {
    if n == 0 then start else NextLoopFrame(ind, LoopAfter(ind, start, n - 1))
  }

  /** After n steps the frame is the start shifted by n, modulo the period. */
  lemma {:induction false} LoopAfterIsModular(ind: AnimationIndices, start: nat, n: nat)
    requires InRange(ind, start)
    ensures LoopAfter(ind, start, n) == ind.first + (start - ind.first + n) % Period(ind)
  {
    var p := Period(ind);
    if n == 0 {
      DivModUnique(start - ind.first, p, 0, start - ind.first);
    } else {
      LoopAfterIsModular(ind, start, n - 1);
      var a := start - ind.first + n - 1;
      var m := a % p;
      assert LoopAfter(ind, start, n - 1) == ind.first + m;
      ModSucc(a, p);
      if m == p - 1 {
        assert LoopAfter(ind, start, n) == ind.first;
      } else {
        assert LoopAfter(ind, start, n) == ind.first + m + 1;
      }
    }
  }

  lemma ModSucc(a: nat, p: nat)
    requires p > 0
    ensures (a % p == p - 1) ==> (a + 1) % p == 0
    ensures (a % p < p - 1) ==> (a + 1) % p == a % p + 1
  {
    var q, r := a / p, a % p;
    assert a == q * p + r;
    if r == p - 1 {
      assert (q + 1) * p == q * p + p;
      DivModUnique(a + 1, p, q + 1, 0);
    } else {
      DivModUnique(a + 1, p, q, r + 1);
    }
  }

  /** Every frame of a looping animation comes back after exactly one period,
      and not sooner. */
  lemma LoopPeriod(ind: AnimationIndices, start: nat, n: nat)
    requires InRange(ind, start) && 0 < n
    ensures LoopAfter(ind, start, n) == start <==> n % Period(ind) == 0
  {
    var p := Period(ind);
    LoopAfterIsModular(ind, start, n);
    var s := start - ind.first;
    assert s < p;
    ModShift(s, n, p);
  }

  lemma ModShift(s: nat, n: nat, p: nat)
    requires s < p
    ensures (s + n) % p == s <==> n % p == 0
  {
    var q, r := n / p, n % p;
    assert n == q * p + r;
    assert s + n == q * p + (s + r);
    if s + r < p {
      assert (s + n) % p == s + r by { DivModUnique(s + n, p, q, s + r); }
    } else {
      assert s + n == (q + 1) * p + (s + r - p);
      assert (s + n) % p == s + r - p by { DivModUnique(s + n, p, q + 1, s + r - p); }
    }
  }

  lemma DivModUnique(a: nat, p: nat, q: nat, r: nat)
    requires r < p && a == q * p + r
    ensures a % p == r
  {
    var q', r' := a / p, a % p;
    assert a == q' * p + r';
    if q' < q {
      assert q * p >= (q' + 1) * p by { MulMono(q' + 1, q, p); }
    } else if q' > q {
      assert q' * p >= (q + 1) * p by { MulMono(q + 1, q', p); }
    }
  }

  lemma MulMono(a: nat, b: nat, p: nat)
    requires a <= b
    ensures a * p <= b * p
  {
  }

  /** The player tank's texture: the last frame while standing, a looping
      step when moving and the timer just finished, unchanged otherwise. */
  function PlayerTankFrame(ind: AnimationIndices, index: nat, moving: bool, justFinished: bool): (next: nat)
    ensures InRange(ind, index) ==> InRange(ind, next)
    ensures !moving ==> next == ind.last
    ensures moving && !justFinished ==> next == index
    ensures moving && justFinished ==> next == NextLoopFrame(ind, index)
  {
    if !moving then ind.last
    else if justFinished then NextLoopFrame(ind, index)
    else index
  }

  /** A one-shot step (explosions): past the last frame the entity goes,
      otherwise the next frame is shown. */
  datatype OneShot = Despawn | Advance(next: nat)

  function OneShotStep(ind: AnimationIndices, current: nat): (r: OneShot)
    ensures r.Despawn? <==> current >= ind.last
    ensures r.Advance? ==> r.next == current + 1 && r.next <= ind.last
  {
    if current >= ind.last then Despawn else Advance(current + 1)
  }

  /** The number of steps a one-shot animation shows before it goes. */
  function OneShotLength(ind: AnimationIndices, current: nat): nat
    decreases ind.last - current
  {
    match OneShotStep(ind, current)
    case Despawn => 0
    case Advance(next) => 1 + OneShotLength(ind, next)
  }

  /** Started on its first frame, a one-shot animation shows every later frame
      once and then despawns. */
  lemma {:induction false} OneShotShowsEveryFrame(ind: AnimationIndices, current: nat)
    requires current <= ind.last
    ensures OneShotLength(ind, current) == ind.last - current
    decreases ind.last - current
  {
    if current < ind.last {
      OneShotShowsEveryFrame(ind, current + 1);
    }
  }

  /** The frame at which a birth animation puts its tank on the field:
      half-way through, `first + (last - first + 1) / 2`. */
  function SpawnFrame(ind: AnimationIndices): (f: nat)
    requires ind.first <= ind.last
    ensures ind.first < ind.last ==> ind.first < f <= ind.last
  {
    ind.first + (ind.last - ind.first + 1) / 2
  }

  /** One step of the enemy birth animation. */
  datatype BornAction = BornDespawn | BornAdvance(next: nat, spawnTank: bool)

  function BornStep(ind: AnimationIndices, current: nat): (r: BornAction)
    requires ind.first <= ind.last
    ensures r.BornDespawn? <==> current >= ind.last
    ensures r.BornAdvance? ==> r.next == current + 1 && (r.spawnTank <==> r.next == SpawnFrame(ind))
  {
    if current >= ind.last then BornDespawn
    else
      var next := current + 1;
      BornAdvance(next, next == SpawnFrame(ind))
  }

  /** The tanks a birth animation spawns from `current` until it despawns. */
  function SpawnsFrom(ind: AnimationIndices, current: nat): nat
    requires ind.first <= ind.last
    decreases ind.last - current
  {
    match BornStep(ind, current)
    case BornDespawn => 0
    case BornAdvance(next, spawn) => (if spawn then 1 else 0) + SpawnsFrom(ind, next)
  }

  /** A birth animation that has not reached its spawn frame yet spawns
      exactly one tank before it goes, and none after it. */
  lemma {:induction false} BornSpawnsExactlyOnce(ind: AnimationIndices, current: nat)
    requires ind.first < ind.last
    ensures current < SpawnFrame(ind) ==> SpawnsFrom(ind, current) == 1
    ensures current >= SpawnFrame(ind) ==> SpawnsFrom(ind, current) == 0
    decreases ind.last - current
  {
    if current < ind.last {
      BornSpawnsExactlyOnce(ind, current + 1);
    }
  }

  /** The birth animation of the game: frames 0 to 12 of a 4 by 4 atlas. */
  const ENEMY_BORN_INDICES: AnimationIndices := AnimationIndices(0, 12)

  /** Its tank appears on frame 6, and started on frame 0 it spawns one tank. */
  lemma EnemyBornSpawnsOnFrameSix()
    ensures SpawnFrame(ENEMY_BORN_INDICES) == 6
    ensures SpawnsFrom(ENEMY_BORN_INDICES, 0) == 1
  {
    BornSpawnsExactlyOnce(ENEMY_BORN_INDICES, 0);
  }
}
