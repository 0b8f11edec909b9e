/**
 * Power-ups (spaceio/utils/powerups.ts): the weighted draw of a power-up's
 * kind, the effect of collecting one, the expiry of the player's timers and
 * the magnet's pull.
 */
module PowerUps {
  import opened Numerics
  import opened Types
  import opened Constants
  import opened Physics
  import opened SpaceObjects
  import opened Players

  /** The rarities of the kinds in ks, summed left to right as Array.reduce does. */
  function RaritySum(ks: seq<PowerUpKind>): (s: real)
    ensures 0.0 <= s
    ensures ks != [] ==> 0.0 < s
  {
    if ks == [] then 0.0 else RaritySum(ks[..|ks| - 1]) + PowerUpType(ks[|ks| - 1]).rarity
  }

  /** The total weight of the draw: the rarities of all five kinds. */
  function TotalRarity(): (t: real)
    ensures t == 1.0
  {
    assert RaritySum([Speed]) == 0.3 by {
      assert [Speed][..0] == [];
    }
    assert RaritySum([Speed, Shield]) == 0.55 by {
      assert [Speed, Shield][..1] == [Speed];
    }
    assert RaritySum([Speed, Shield, Size]) == 0.75 by {
      assert [Speed, Shield, Size][..2] == [Speed, Shield];
    }
    assert RaritySum([Speed, Shield, Size, Mass]) == 0.9 by {
      assert [Speed, Shield, Size, Mass][..3] == [Speed, Shield, Size];
    }
    assert POWER_UP_KINDS[..4] == [Speed, Shield, Size, Mass];
    RaritySum(POWER_UP_KINDS)
  }

  /** The rarities of the first i + 1 kinds of ks in scan order. */
  function Cumulative(ks: seq<PowerUpKind>, i: nat): (s: real)
    requires i < |ks|
    ensures 0.0 < s
  {
    RaritySum(ks[..i + 1])
  }

  /** Each kind's rarity extends the running sum by one step. */
  lemma CumulativeStep(ks: seq<PowerUpKind>, i: nat)
    requires i < |ks|
    ensures Cumulative(ks, i) == RaritySum(ks[..i]) + PowerUpType(ks[i]).rarity
  {
    assert ks[..i + 1][..i] == ks[..i];
  }

  /** The i-th kind is where the scan stops for the weight budget: the first whose cumulative rarity reaches it. */
  ghost predicate FirstReaching(ks: seq<PowerUpKind>, i: nat, budget: real)
  {
    && i < |ks|
    && Cumulative(ks, i) >= budget
    && forall j :: 0 <= j < i ==> Cumulative(ks, j) < budget
  }

  /** The kind the scan over ks picks from index i on, given that no earlier kind reached the budget; "speed" when none does. */
  function ScanFrom(ks: seq<PowerUpKind>, i: nat, budget: real): PowerUpKind
    requires i <= |ks|
    decreases |ks| - i
  {
    if i == |ks| then Speed
    else if Cumulative(ks, i) >= budget then ks[i]
    else ScanFrom(ks, i + 1, budget)
  }

  /** The kind createPowerUp draws for the weight budget Math.random() * total weight. */
  function WeightedKind(budget: real): PowerUpKind
  {
    ScanFrom(POWER_UP_KINDS, 0, budget)
  }

  lemma {:induction false} ScanFromFinds(ks: seq<PowerUpKind>, i: nat, budget: real)
    requires i <= |ks|
    requires forall j :: 0 <= j < i ==> Cumulative(ks, j) < budget
    ensures (exists j :: i <= j < |ks| && Cumulative(ks, j) >= budget) ==>
      exists j: nat :: FirstReaching(ks, j, budget) && ScanFrom(ks, i, budget) == ks[j]
    ensures (forall j :: i <= j < |ks| ==> Cumulative(ks, j) < budget) ==> ScanFrom(ks, i, budget) == Speed
    decreases |ks| - i
  {
    if i < |ks| {
      if Cumulative(ks, i) >= budget {
        assert FirstReaching(ks, i, budget);
      } else {
        ScanFromFinds(ks, i + 1, budget);
      }
    }
  }

  /**
   * The draw picks the i-th kind exactly when that kind is the first whose
   * cumulative rarity reaches the budget, except that "speed" is also the
   * fallback when no kind reaches it.
   */
  lemma {:induction false} WeightedKindIsFirst(budget: real, i: nat)
    requires 0 < i < |POWER_UP_KINDS|
    ensures WeightedKind(budget) == POWER_UP_KINDS[i] <==> FirstReaching(POWER_UP_KINDS, i, budget)
    ensures WeightedKind(budget) == Speed <==>
      FirstReaching(POWER_UP_KINDS, 0, budget) || forall j :: 0 <= j < |POWER_UP_KINDS| ==> Cumulative(POWER_UP_KINDS, j) < budget
  {
    ScanFromFinds(POWER_UP_KINDS, 0, budget);
    if FirstReaching(POWER_UP_KINDS, i, budget) {
      assert Cumulative(POWER_UP_KINDS, i) >= budget;
    }
  }

  /** A draw of 0 always gives "speed". */
  lemma ZeroDrawIsSpeed()
    ensures WeightedKind(0.0 * TotalRarity()) == Speed
  {
    assert Cumulative(POWER_UP_KINDS, 0) >= 0.0;
  }

  /** For a draw in [0, 1) some kind reaches the budget, so the "speed" fallback is never what decides. */
  lemma {:induction false} DrawBelowOneFinds(r: real)
    requires 0.0 <= r < 1.0
    ensures exists j: nat :: FirstReaching(POWER_UP_KINDS, j, r * TotalRarity()) && WeightedKind(r * TotalRarity()) == POWER_UP_KINDS[j]
  {
    var last := |POWER_UP_KINDS| - 1;
    assert POWER_UP_KINDS[..last + 1] == POWER_UP_KINDS;
    assert Cumulative(POWER_UP_KINDS, last) == TotalRarity();
    ScanFromFinds(POWER_UP_KINDS, 0, r * TotalRarity());
  }

  /** The scan of createPowerUp over the kinds ks: subtract each kind's rarity from the budget until it is used up. */
  method ScanKinds(ks: seq<PowerUpKind>, budget: real) returns (selected: PowerUpKind)
    ensures selected == ScanFrom(ks, 0, budget)
  {
    var random := budget;
    selected := Speed;
    var i := 0;
    while i < |ks|
      invariant 0 <= i <= |ks|
      invariant random == budget - RaritySum(ks[..i])
      invariant ScanFrom(ks, i, budget) == ScanFrom(ks, 0, budget)
      invariant selected == Speed
    {
      CumulativeStep(ks, i);
      random := random - PowerUpType(ks[i]).rarity;
      if random <= 0.0 {
        selected := ks[i];
        return;
      }
      i := i + 1;
    }
  }

  /** createPowerUp's draw: the budget is Math.random() times the total rarity, scanned over the five kinds in order. */
  method ChooseKind(r: real) returns (selected: PowerUpKind)
    ensures selected == WeightedKind(r * TotalRarity())
  {
    selected := ScanKinds(POWER_UP_KINDS, r * TotalRarity());
  }

  class PowerUp {
    /** The Math.random() draw the id string is formatted from. */
    const id: real
    var x: real
    var y: real
    const kind: PowerUpKind
    const size: real
    var rotation: real
    var pulsePhase: real
    const duration: int
    const color: string
    const effect: real
    const rarity: real

    /**
     * createPowerUp at (x, y), given its three Math.random() draws in order:
     * the weighted kind, the id and the pulse phase.
     */
    constructor (x: real, y: real, rKind: real, rId: real, rPulse: real)
      requires 0.0 <= rPulse < 1.0
      ensures kind == WeightedKind(rKind * TotalRarity())
      ensures this.x == x && this.y == y && id == rId
      ensures size == PowerUpType(kind).size && color == PowerUpType(kind).color
      ensures effect == PowerUpType(kind).effect && rarity == PowerUpType(kind).rarity
      ensures duration == PowerUpDuration(kind)
      ensures rotation == 0.0 && pulsePhase == RandomAngle(rPulse)
    {
      var selected := ChooseKind(rKind);
      var config := PowerUpType(selected);
      this.id := rId;
      this.x := x;
      this.y := y;
      this.kind := selected;
      this.size := config.size;
      this.rotation := 0.0;
      this.pulsePhase := RandomAngle(rPulse);
      this.duration := PowerUpDuration(selected);
      this.color := config.color;
      this.effect := config.effect;
      this.rarity := config.rarity;
    }
  }

  /** The player timer a kind sets; "mass" has none. */
  function TimerOf(k: PowerUpKind): (t: Option<TimerKey>)
    ensures t.None? <==> k == Mass
  {
    match k
    case Speed => Some(SpeedBoostTimer)
    case Shield => Some(ShieldTimer)
    case Size => Some(SizeMultiplierTimer)
    case Mass => None
    case Magnet => Some(MagnetTimer)
  }

  /**
   * applyPowerUpEffect: a timed kind sets its own timer to now + duration,
   * overwriting what was there, and touches nothing else; "mass" adds its
   * effect to the mass and recomputes the size from it, without the x1.3 of
   * the size power-up, leaving every timer as it was.
   */
  method ApplyPowerUpEffect(m: Math, player: Player, powerUp: PowerUp, now: int)
    requires Lawful(m)
    modifies player`powerUps, player`mass, player`size
    ensures TimerOf(powerUp.kind).Some? ==>
      && player.powerUps == old(player.powerUps).Set(TimerOf(powerUp.kind).value, now + powerUp.duration)
      && player.mass == old(player.mass) && player.size == old(player.size)
    ensures powerUp.kind == Mass ==>
      && player.mass == old(player.mass) + powerUp.effect
      && player.size == BaseSize(m, player.mass)
      && player.powerUps == old(player.powerUps)
  {
    match powerUp.kind
    case Speed =>
      player.powerUps := player.powerUps.(speedBoost := now + powerUp.duration);
    case Shield =>
      player.powerUps := player.powerUps.(shield := now + powerUp.duration);
    case Size =>
      player.powerUps := player.powerUps.(sizeMultiplier := now + powerUp.duration);
    case Mass =>
      player.mass := player.mass + powerUp.effect;
      player.size := BaseSize(m, player.mass);
    case Magnet =>
      player.powerUps := player.powerUps.(magnet := now + powerUp.duration);
  }

  /** Object.keys(player.powerUps), in the order createPlayer lists them. */
  const TIMER_KEYS: seq<TimerKey> := [ShieldTimer, SpeedBoostTimer, SizeMultiplierTimer, MagnetTimer]

  /** One timer after updatePowerUps at time now: strictly below now, it is cleared. */
  function Expire(t: int, now: int): (r: int)
    ensures r == 0 || now <= r
    ensures r != t <==> t < now && t != 0
  {
    if t < now then 0 else t
  }

  /** The timers after updatePowerUps at time now. */
  function ExpiredTimers(t: Timers, now: int): (r: Timers)
    ensures forall k :: r.Get(k) == Expire(t.Get(k), now)
  {
    Timers(Expire(t.shield, now), Expire(t.speedBoost, now), Expire(t.sizeMultiplier, now), Expire(t.magnet, now))
  }

  /** Timers that agree on every key are equal. */
  lemma TimersExtensional(a: Timers, b: Timers)
    requires forall k :: a.Get(k) == b.Get(k)
    ensures a == b
  {
    assert a.Get(ShieldTimer) == b.Get(ShieldTimer);
    assert a.Get(SpeedBoostTimer) == b.Get(SpeedBoostTimer);
    assert a.Get(SizeMultiplierTimer) == b.Get(SizeMultiplierTimer);
    assert a.Get(MagnetTimer) == b.Get(MagnetTimer);
  }

  /** updatePowerUps: every timer strictly below now is reset to 0. */
  method UpdatePowerUps(player: Player, now: int)
    modifies player`powerUps
    ensures player.powerUps == ExpiredTimers(old(player.powerUps), now)
  {
    for i := 0 to |TIMER_KEYS|
      invariant forall k :: player.powerUps.Get(k) ==
                             if k in TIMER_KEYS[..i] then Expire(old(player.powerUps).Get(k), now) else old(player.powerUps).Get(k)
    {
      var key := TIMER_KEYS[i];
      assert TIMER_KEYS[..i + 1] == TIMER_KEYS[..i] + [key];
      if player.powerUps.Get(key) < now {
        player.powerUps := player.powerUps.Set(key, 0);
      }
    }
    assert TIMER_KEYS[..|TIMER_KEYS|] == TIMER_KEYS;
    assert forall k :: k in TIMER_KEYS;
    TimersExtensional(player.powerUps, ExpiredTimers(old(player.powerUps), now));
  }

  /** After updatePowerUps at now, every timer is inactive or still running at now. */
  lemma ExpiredSettled(t: Timers, now: int, k: TimerKey)
    ensures ExpiredTimers(t, now).Get(k) == 0 || now <= ExpiredTimers(t, now).Get(k)
  {
  }

  /** A second updatePowerUps at the same time changes nothing. */
  lemma {:induction false} ExpiredIdempotent(t: Timers, now: int)
    ensures ExpiredTimers(ExpiredTimers(t, now), now) == ExpiredTimers(t, now)
  {
    TimersExtensional(ExpiredTimers(ExpiredTimers(t, now), now), ExpiredTimers(t, now));
  }

  /** Distinct kinds set distinct timers. */
  lemma TimerOfInjective(a: PowerUpKind, b: PowerUpKind)
    requires TimerOf(a).Some? && TimerOf(a) == TimerOf(b)
    ensures a == b
  {
  }

  /** The strength of the magnet on objects; power-ups are pulled twice as hard. */
  const MAGNET_STRENGTH: real := 0.3

  /**
   * The magnet's pull on something at offset (dx, dy) from it (player minus
   * target): nothing unless 0 < distance < range; otherwise strength /
   * (distance * 0.1) along the unit offset, that is towards the player and
   * stronger the closer the target.
   */
  function MagnetPull(m: Math, dx: real, dy: real, range: real, strength: real): (f: (real, real))
    requires Lawful(m)
    ensures !(0.0 < Norm2(dx, dy) && 0.0 < range && Norm2(dx, dy) < range * range) ==> f == (0.0, 0.0)
    ensures f.0 * dy == f.1 * dx
    ensures 0.0 <= strength ==> 0.0 <= f.0 * dx && 0.0 <= f.1 * dy
    ensures 0.0 < Norm2(dx, dy) && 0.0 < range && Norm2(dx, dy) < range * range ==>
      (f.0 * f.0 + f.1 * f.1) * Norm2(dx, dy) == 100.0 * strength * strength
  {
    var d2 := Norm2(dx, dy);
    var distance := m.sqrt(d2);
    assert RootAt(m, d2);
    InMagnetRange(m, d2, range);
    if distance < range && distance > 0.0 then
      PullAlong(dx, dy, distance, strength)
    else
      (0.0, 0.0)
  }

  /** strength / (distance * 0.1) along the unit offset (dx, dy) / distance. */
  function PullAlong(dx: real, dy: real, distance: real, strength: real): (f: (real, real))
    requires 0.0 < distance && distance * distance == Norm2(dx, dy)
    ensures f.0 * dy == f.1 * dx
    ensures 0.0 <= strength ==> 0.0 <= f.0 * dx && 0.0 <= f.1 * dy
    ensures (f.0 * f.0 + f.1 * f.1) * Norm2(dx, dy) == 100.0 * strength * strength
  {
    var force := strength / (distance * 0.1);
    MagnetArithmetic(dx, dy, distance, strength);
    (dx / distance * force, dy / distance * force)
  }

  /** The magnet's guard: 0 < sqrt(d2) < range exactly when 0 < d2 < range^2 for a positive range. */
  lemma InMagnetRange(m: Math, d2: real, range: real)
    requires Lawful(m) && 0.0 <= d2
    ensures (m.sqrt(d2) < range && m.sqrt(d2) > 0.0) <==> (0.0 < d2 && 0.0 < range && d2 < range * range)
  {
    SqrtLess(m, d2, range);
    SqrtUnique(m, 0.0, 0.0);
    assert RootAt(m, d2);
  }

  /** The arithmetic behind PullAlong's contract. */
  lemma {:induction false} MagnetArithmetic(dx: real, dy: real, distance: real, strength: real)
    requires 0.0 < distance && distance * distance == Norm2(dx, dy)
    ensures var force := strength / (distance * 0.1);
      var f0, f1 := dx / distance * force, dy / distance * force;
      && f0 * dy == f1 * dx
      && (0.0 <= strength ==> 0.0 <= f0 * dx && 0.0 <= f1 * dy)
      && (f0 * f0 + f1 * f1) * Norm2(dx, dy) == 100.0 * strength * strength
  {
    var force := strength / (distance * 0.1);
    var c := force / distance;
    DivThenScale(dx, distance, force);
    DivThenScale(dy, distance, force);
    assert dx * c * dy == dy * c * dx;
    if 0.0 <= strength {
      ScaleToLength(dx, dy, distance, force);
    }
    MagnitudeTimesDistance(dx, dy, distance, strength, c);
  }

  lemma MagnitudeTimesDistance(dx: real, dy: real, distance: real, strength: real, c: real)
    requires 0.0 < distance && distance * distance == dx * dx + dy * dy
    requires c == strength / (distance * 0.1) / distance
    ensures ((dx * c) * (dx * c) + (dy * c) * (dy * c)) * (dx * dx + dy * dy) == 100.0 * strength * strength
  {
    var d2 := dx * dx + dy * dy;
    assert (dx * c) * (dx * c) + (dy * c) * (dy * c) == (c * c) * d2;
    assert c * distance * distance == 10.0 * strength;
    calc {
      (c * c) * d2 * d2;
      (c * distance * distance) * (c * distance * distance);
      (10.0 * strength) * (10.0 * strength);
    }
  }

  /** The magnet's pull on an object: only objects smaller than 0.8 of the player are pulled, within three player sizes. */
  function ObjectPull(m: Math, px: real, py: real, psize: real, ox: real, oy: real, osize: real): (f: (real, real))
    requires Lawful(m)
    ensures osize >= psize * 0.8 ==> f == (0.0, 0.0)
    ensures osize < psize * 0.8 ==> f == MagnetPull(m, px - ox, py - oy, psize * 3.0, MAGNET_STRENGTH)
  {
    if osize < psize * 0.8 then MagnetPull(m, px - ox, py - oy, psize * 3.0, MAGNET_STRENGTH) else (0.0, 0.0)
  }

  /** The magnet's pull on a power-up: twice the strength, within three player sizes. */
  function PowerUpPull(m: Math, px: real, py: real, psize: real, ux: real, uy: real): (f: (real, real))
    requires Lawful(m)
    ensures f == MagnetPull(m, px - ux, py - uy, psize * 3.0, MAGNET_STRENGTH * 2.0)
  {
    MagnetPull(m, px - ux, py - uy, psize * 3.0, MAGNET_STRENGTH * 2.0)
  }

  /**
   * applyMagnetEffect: while the magnet runs, every object gets ObjectPull
   * added to its velocity and every power-up gets MagnetPull (at twice the
   * strength) added to its position; with the magnet off nothing changes.
   */
  method ApplyMagnetEffect(m: Math, player: Player, objects: seq<SpaceObject>, powerUps: seq<PowerUp>)
    requires Lawful(m)
    requires forall i, j :: 0 <= i < j < |objects| ==> objects[i] != objects[j]
    requires forall i, j :: 0 <= i < j < |powerUps| ==> powerUps[i] != powerUps[j]
    modifies objects`vx, objects`vy, powerUps`x, powerUps`y
    ensures player.powerUps.magnet <= 0 ==>
      && (forall i :: 0 <= i < |objects| ==> objects[i].vx == old(objects[i].vx) && objects[i].vy == old(objects[i].vy))
      && (forall i :: 0 <= i < |powerUps| ==> powerUps[i].x == old(powerUps[i].x) && powerUps[i].y == old(powerUps[i].y))
    ensures player.powerUps.magnet > 0 ==>
      forall i :: 0 <= i < |objects| ==>
        var f := ObjectPull(m, player.x, player.y, player.size, objects[i].x, objects[i].y, objects[i].size);
        objects[i].vx == old(objects[i].vx) + f.0 && objects[i].vy == old(objects[i].vy) + f.1
    ensures player.powerUps.magnet > 0 ==>
      forall i :: 0 <= i < |powerUps| ==>
        var f := PowerUpPull(m, player.x, player.y, player.size, old(powerUps[i].x), old(powerUps[i].y));
        powerUps[i].x == old(powerUps[i].x) + f.0 && powerUps[i].y == old(powerUps[i].y) + f.1
  {
    if player.powerUps.magnet <= 0 {
      return;
    }
    PullObjects(m, player, objects);
    PullPowerUps(m, player, powerUps);
  }

  /** The first loop of applyMagnetEffect: small objects in range are accelerated towards the player. */
  method PullObjects(m: Math, player: Player, objects: seq<SpaceObject>)
    requires Lawful(m)
    requires forall i, j :: 0 <= i < j < |objects| ==> objects[i] != objects[j]
    modifies objects`vx, objects`vy
    ensures forall i :: 0 <= i < |objects| ==>
      var f := ObjectPull(m, player.x, player.y, player.size, objects[i].x, objects[i].y, objects[i].size);
      objects[i].vx == old(objects[i].vx) + f.0 && objects[i].vy == old(objects[i].vy) + f.1
  {
    for i := 0 to |objects|
      invariant forall j :: 0 <= j < i ==>
        var f := ObjectPull(m, player.x, player.y, player.size, objects[j].x, objects[j].y, objects[j].size);
        objects[j].vx == old(objects[j].vx) + f.0 && objects[j].vy == old(objects[j].vy) + f.1
      invariant forall j :: i <= j < |objects| ==> objects[j].vx == old(objects[j].vx) && objects[j].vy == old(objects[j].vy)
    {
      PullObject(m, player, objects[i]);
    }
  }

  /** The first callback of applyMagnetEffect, for one object. */
  method PullObject(m: Math, player: Player, obj: SpaceObject)
    requires Lawful(m)
    modifies obj`vx, obj`vy
    ensures var f := ObjectPull(m, player.x, player.y, player.size, obj.x, obj.y, obj.size);
      obj.vx == old(obj.vx) + f.0 && obj.vy == old(obj.vy) + f.1
  {
    var magnetRange := player.size * 3.0;
    var magnetStrength := MAGNET_STRENGTH;
    if obj.size < player.size * 0.8 {
      var dx := player.x - obj.x;
      var dy := player.y - obj.y;
      var distance := m.sqrt(Norm2(dx, dy));
      if distance < magnetRange && distance > 0.0 {
        var force := magnetStrength / (distance * 0.1);
        obj.vx := obj.vx + dx / distance * force;
        obj.vy := obj.vy + dy / distance * force;
      }
    }
  }

  /** The second loop of applyMagnetEffect: power-ups in range are moved towards the player. */
  method PullPowerUps(m: Math, player: Player, powerUps: seq<PowerUp>)
    requires Lawful(m)
    requires forall i, j :: 0 <= i < j < |powerUps| ==> powerUps[i] != powerUps[j]
    modifies powerUps`x, powerUps`y
    ensures forall i :: 0 <= i < |powerUps| ==>
      var f := PowerUpPull(m, player.x, player.y, player.size, old(powerUps[i].x), old(powerUps[i].y));
      powerUps[i].x == old(powerUps[i].x) + f.0 && powerUps[i].y == old(powerUps[i].y) + f.1
  {
    for i := 0 to |powerUps|
      invariant forall j :: 0 <= j < i ==>
        var f := PowerUpPull(m, player.x, player.y, player.size, old(powerUps[j].x), old(powerUps[j].y));
        powerUps[j].x == old(powerUps[j].x) + f.0 && powerUps[j].y == old(powerUps[j].y) + f.1
      invariant forall j :: i <= j < |powerUps| ==> powerUps[j].x == old(powerUps[j].x) && powerUps[j].y == old(powerUps[j].y)
    {
      PullPowerUp(m, player, powerUps[i]);
    }
  }

  /** The second callback of applyMagnetEffect, for one power-up. */
  method PullPowerUp(m: Math, player: Player, powerUp: PowerUp)
    requires Lawful(m)
    modifies powerUp`x, powerUp`y
    ensures var f := PowerUpPull(m, player.x, player.y, player.size, old(powerUp.x), old(powerUp.y));
      powerUp.x == old(powerUp.x) + f.0 && powerUp.y == old(powerUp.y) + f.1
  {
    var magnetRange := player.size * 3.0;
    var magnetStrength := MAGNET_STRENGTH;
    var dx := player.x - powerUp.x;
    var dy := player.y - powerUp.y;
    var distance := m.sqrt(Norm2(dx, dy));
    if distance < magnetRange && distance > 0.0 {
      var force := magnetStrength * 2.0 / (distance * 0.1);
      powerUp.x := powerUp.x + dx / distance * force;
      powerUp.y := powerUp.y + dy / distance * force;
    }
  }
}
