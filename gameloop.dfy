/**
 * The simulation part of one frame of gameLoop (spaceio/hooks/useGameLoop.ts):
 * camera, grid rebuild, power-up spawn and collection, the object pass with
 * gravity, absorption, replacement and death, and the particle step.
 */
module GameLoop {
  import opened Numerics
  import opened Types
  import opened Constants
  import opened RandomSource
  import opened Physics
  import opened SpaceObjects
  import opened Players
  import opened PowerUps
  import opened Performance
  import opened SpatialGrids
  import opened Leaderboards
  import opened Cameras
  import opened ObjectMotion

  /** The cell size of the loop's grid: new SpatialGrid() takes the default, 200. */
  const GRID_CELL: real := 200.0

  /** The integer minimum, for counts. */
  function MinNat(a: nat, b: nat): (r: nat)
    ensures r <= a && r <= b && (r == a || r == b)
  {
    if a <= b then a else b
  }

  /** A particle as a burst leaves it: at (x, y), of the given colour and size, with full life and decay 0.02. */
  predicate Sprayed(p: ParticleState, x: real, y: real, color: string, size: real)
  {
    p.x == x && p.y == y && p.color == color && p.size == size && p.life == 1.0 && p.decay == 0.02
  }

  /**
   * count particle requests at (x, y), as the loop makes them for a
   * collection, an absorption and a death: each draws an angle and a speed
   * (Math.random() * spread + base) and asks the pool for a particle moving
   * that way. The pool grants requests until MAX_PARTICLES are live.
   */
  method Burst(m: Math, pool: ParticlePool, rng: Random, count: nat, x: real, y: real,
               spread: real, base: real, color: string, size: real)
    requires pool.Valid() && rng.Valid()
    modifies pool`activeCount, pool.particles[..], rng`drawn
    ensures pool.Valid()
    ensures pool.activeCount == MinNat(MAX_PARTICLES, old(pool.activeCount) + count)
    ensures pool.Live()[..old(pool.activeCount)] == old(pool.Live())
    ensures forall k :: old(pool.activeCount) <= k < pool.activeCount ==> Sprayed(pool.Live()[k], x, y, color, size)
    ensures rng.drawn == old(rng.drawn) + 2 * count
  {
    ghost var before := pool.Live();
    for j := 0 to count
      invariant pool.Valid()
      invariant pool.activeCount == MinNat(MAX_PARTICLES, |before| + j)
      invariant pool.Live()[..|before|] == before
      invariant forall k :: |before| <= k < pool.activeCount ==> Sprayed(pool.Live()[k], x, y, color, size)
      invariant rng.drawn == old(rng.drawn) + 2 * j
    {
      var a := rng.Next();
      var s := rng.Next();
      var angle := a * PI * 2.0;
      var speed := s * spread + base;
      Request(pool, x, y, m.cos(angle) * speed, m.sin(angle) * speed, color, size);
    }
  }

  /** One request of a burst: the pool grows by the particle or, when full, stays as it was. */
  method Request(pool: ParticlePool, x: real, y: real, vx: real, vy: real, color: string, size: real)
    requires pool.Valid()
    modifies pool`activeCount, pool.particles[..]
    ensures pool.Valid()
    ensures pool.activeCount == MinNat(MAX_PARTICLES, old(pool.activeCount) + 1)
    ensures pool.activeCount == old(pool.activeCount) ==> pool.Live() == old(pool.Live())
    ensures pool.activeCount != old(pool.activeCount) ==> pool.Live() == old(pool.Live()) + [Emitted(x, y, vx, vy, color, size)]
  {
    var ok := pool.Acquire(x, y, vx, vy, color, size);
  }

  /** The number of rounds of `for (let j = 0; j < Math.min(12, obj.size); j++)`. */
  function ParticleCount(size: real): (n: nat)
    ensures n <= 12
    ensures Min(12.0, size) <= n as real
    ensures n == 0 || (n - 1) as real < Min(12.0, size)
  {
    if size <= 0.0 then 0 else Ceil(Min(12.0, size))
  }

  /** The size range the loop draws a replacement of each kind from. */
  predicate SizeInRange(kind: ObjectKind, size: real)
  {
    match kind
    case SmallAsteroid => 3.0 <= size < 11.0
    case Enemy => 20.0 <= size < 80.0
    case Asteroid => 15.0 <= size < 55.0
  }

  /**
   * The size of a replacement, from one draw r of Math.random(): 3 + 8r for
   * a small asteroid, 20 + 60r for an enemy and 15 + 40r otherwise.
   */
  function SizeFor(kind: ObjectKind, r: real): (size: real)
    ensures 0.0 <= r < 1.0 ==> SizeInRange(kind, size)
  {
    match kind
    case SmallAsteroid => 3.0 + r * 8.0
    case Enemy => 20.0 + r * 60.0
    case Asteroid => 15.0 + r * 40.0
  }

  /**
   * createSpaceObject with its six draws of Math.random(), in the order the
   * object literal makes them: id, vx, vy, rotation, rotationSpeed, pulsePhase.
   */
  method NewObject(rng: Random, x: real, y: real, size: real, kind: ObjectKind) returns (o: SpaceObject)
    requires rng.Valid()
    modifies rng`drawn
    ensures fresh(o)
    ensures o.x == x && o.y == y && o.size == size && o.kind == kind
    ensures o.mass == MassOfSize(size) && o.color == ObjectColor(kind, size)
    ensures rng.drawn == old(rng.drawn) + 6
  {
    var rId := rng.Next();
    var rVx := rng.Next();
    var rVy := rng.Next();
    var rRotation := rng.Next();
    var rSpin := rng.Next();
    var rPulse := rng.Next();
    o := new SpaceObject(x, y, size, kind, rId, rVx, rVy, rRotation, rSpin, rPulse);
  }

  /** createPowerUp with its three draws: the weighted type, the id and the pulse phase. */
  method NewPowerUp(rng: Random, x: real, y: real) returns (p: PowerUp)
    requires rng.Valid()
    modifies rng`drawn
    ensures fresh(p)
    ensures p.x == x && p.y == y && p.rotation == 0.0
    ensures p.kind == WeightedKind(rng.draw(old(rng.drawn)) * TotalRarity())
    ensures rng.drawn == old(rng.drawn) + 3
  {
    var rKind := rng.Next();
    var rId := rng.Next();
    var rPulse := rng.Next();
    p := new PowerUp(x, y, rKind, rId, rPulse);
  }

  /** The kinds of a list of objects, in order. */
  function Kinds(objs: seq<SpaceObject>): (ks: seq<ObjectKind>)
    ensures |ks| == |objs| && forall k :: 0 <= k < |objs| ==> ks[k] == objs[k].kind
  {
    seq(|objs|, k requires 0 <= k < |objs| => objs[k].kind)
  }

  /** How many of the entries from index i on a pass removed; gone[k] says whether entry k was removed. */
  function CountFrom(gone: seq<bool>, i: int): (n: nat)
    requires 0 <= i <= |gone|
    ensures n <= |gone| - i
    decreases |gone| - i
  {
    if i == |gone| then 0 else (if gone[i] then 1 else 0) + CountFrom(gone, i + 1)
  }

  /** How many entries a pass removed. */
  function Count(gone: seq<bool>): (n: nat)
    ensures n <= |gone|
  {
    CountFrom(gone, 0)
  }

  /** The entries from index i on that a pass keeps, in their old order. */
  function KeptFrom<T>(s: seq<T>, gone: seq<bool>, i: int): (r: seq<T>)
    requires |gone| == |s| && 0 <= i <= |s|
    ensures |r| + CountFrom(gone, i) == |s| - i
    decreases |s| - i
  {
    if i == |s| then [] else (if gone[i] then [] else [s[i]]) + KeptFrom(s, gone, i + 1)
  }

  /** The entries a pass keeps, in their old order. */
  function Kept<T>(s: seq<T>, gone: seq<bool>): (r: seq<T>)
    requires |gone| == |s|
    ensures |r| + Count(gone) == |s|
  {
    KeptFrom(s, gone, 0)
  }

  /** The entries from index i on that a reverse pass removes, in the order it removes them (back to front). */
  function GoneFrom<T>(s: seq<T>, gone: seq<bool>, i: int): (r: seq<T>)
    requires |gone| == |s| && 0 <= i <= |s|
    ensures |r| == CountFrom(gone, i)
    decreases |s| - i
  {
    if i == |s| then [] else GoneFrom(s, gone, i + 1) + (if gone[i] then [s[i]] else [])
  }

  /** The entries a reverse pass removes, in the order it removes them. */
  function Gone<T>(s: seq<T>, gone: seq<bool>): (r: seq<T>)
    requires |gone| == |s|
    ensures |r| == Count(gone)
  {
    GoneFrom(s, gone, 0)
  }

  /** What a pass keeps and what it removes from index i on make up s[i..]. */
  lemma {:induction false} KeptAndGoneFrom<T>(s: seq<T>, gone: seq<bool>, i: int)
    requires |gone| == |s| && 0 <= i <= |s|
    ensures multiset(KeptFrom(s, gone, i)) + multiset(GoneFrom(s, gone, i)) == multiset(s[i..])
    decreases |s| - i
  {
    if i < |s| {
      KeptAndGoneFrom(s, gone, i + 1);
      assert s[i..] == [s[i]] + s[i + 1..];
    }
  }

  /** What a pass keeps and what it removes make up what it started with. */
  lemma KeptAndGone<T>(s: seq<T>, gone: seq<bool>)
    requires |gone| == |s|
    ensures multiset(Kept(s, gone)) + multiset(Gone(s, gone)) == multiset(s)
  {
    KeptAndGoneFrom(s, gone, 0);
    assert s[0..] == s;
  }

  /** A pass keeps from index i on only entries that stand at index i or later. */
  lemma {:induction false} KeptFromWithin<T>(s: seq<T>, gone: seq<bool>, i: int)
    requires |gone| == |s| && 0 <= i <= |s|
    ensures forall x :: x in KeptFrom(s, gone, i) ==> x in s[i..]
    decreases |s| - i
  {
    if i < |s| {
      KeptFromWithin(s, gone, i + 1);
      assert s[i..] == [s[i]] + s[i + 1..];
    }
  }

  /** A pass over a list without repeats keeps a list without repeats, from every index on. */
  lemma {:induction false} KeptFromNoRepeats<T>(s: seq<T>, gone: seq<bool>, i: int)
    requires |gone| == |s| && 0 <= i <= |s| && NoRepeats(s)
    ensures NoRepeats(KeptFrom(s, gone, i))
    decreases |s| - i
  {
    if i < |s| {
      KeptFromNoRepeats(s, gone, i + 1);
      KeptFromWithin(s, gone, i + 1);
      var rest := KeptFrom(s, gone, i + 1);
      assert s[i] !in s[i + 1..] by {
        forall k | i + 1 <= k < |s| ensures s[k] != s[i] {
          assert s[i] != s[k];
        }
      }
      var r := (if gone[i] then [] else [s[i]]) + rest;
      forall a, b | 0 <= a < b < |r| ensures r[a] != r[b] {
        if !gone[i] && a == 0 {
          assert r[b] == rest[b - 1];
          assert r[b] in rest;
        }
      }
    }
  }

  /** A pass that removes entries from a list without repeats leaves one without repeats. */
  lemma KeptNoRepeats<T>(s: seq<T>, gone: seq<bool>)
    requires |gone| == |s| && NoRepeats(s)
    ensures NoRepeats(Kept(s, gone))
  {
    KeptFromNoRepeats(s, gone, 0);
  }

  /** What a pass keeps and removes from index i on depends only on the verdicts from i on. */
  lemma {:induction false} KeptFromAgree<T>(s: seq<T>, gone: seq<bool>, other: seq<bool>, i: int)
    requires |gone| == |s| && |other| == |s| && 0 <= i <= |s|
    requires forall k :: i <= k < |s| ==> gone[k] == other[k]
    ensures KeptFrom(s, gone, i) == KeptFrom(s, other, i)
    ensures GoneFrom(s, gone, i) == GoneFrom(s, other, i)
    ensures CountFrom(gone, i) == CountFrom(other, i)
    decreases |s| - i
  {
    if i < |s| {
      KeptFromAgree(s, gone, other, i + 1);
    }
  }

  /** One more visit of a reverse pass, at the entry just before those already visited. */
  lemma KeptStep<T>(s: seq<T>, gone: seq<bool>, i: int, removed: bool)
    requires |gone| == |s| && 0 < i <= |s|
    ensures var g := gone[i - 1 := removed];
      && KeptFrom(s, g, i - 1) == (if removed then [] else [s[i - 1]]) + KeptFrom(s, gone, i)
      && GoneFrom(s, g, i - 1) == GoneFrom(s, gone, i) + (if removed then [s[i - 1]] else [])
      && CountFrom(g, i - 1) == (if removed then 1 else 0) + CountFrom(gone, i)
  {
    KeptFromAgree(s, gone[i - 1 := removed], gone, i);
  }

  /** The operands of one collision test: the player's centre and size, then the other body's. */
  datatype Probe = Probe(px: real, py: real, psize: real, x: real, y: real, size: real)

  /** The outcome of checkCollision(player, body) on a probe. */
  predicate Hit(m: Math, p: Probe)
    requires Lawful(m)
  {
    CheckCollision(m, p.px, p.py, p.psize, p.x, p.y, p.size)
  }

  /**
   * What the power-up loop remembers of the state it started from: the list,
   * the player's position and size, each power-up's position, rotation and
   * pulse phase, the particle count and live particles, the stats and the
   * number of draws made.
   */
  datatype PassStart = PassStart(
    ups: seq<PowerUp>, px: real, py: real, psize: real, rots: seq<real>, pulses: seq<real>,
    a0: int, s0: GameStats, d0: nat, live0: seq<ParticleState>,
    pos: map<PowerUp, int>, slots: seq<Particle>, slotPos: map<Particle, int>)

  /** pos sends each element of s to its index, which witnesses that s has no repeats. */
  ghost predicate Indexed<T>(s: seq<T>, pos: map<T, int>)
  {
    forall k :: 0 <= k < |s| ==> s[k] in pos && pos[s[k]] == k
  }

  /** The index of every element of a sequence without repeats. */
  ghost function Positions<T>(s: seq<T>): (pos: map<T, int>)
    requires NoRepeats(s)
    ensures Indexed(s, pos)
    ensures forall x :: x in pos ==> 0 <= pos[x] < |s| && s[pos[x]] == x
  {
    map k | 0 <= k < |s| :: s[k] := k
  }

  lemma IndexedNoRepeats<T>(s: seq<T>, pos: map<T, int>)
    requires Indexed(s, pos)
    ensures NoRepeats(s)
  {
    forall a, b | 0 <= a < b < |s| ensures s[a] != s[b] {
      assert pos[s[a]] == a && pos[s[b]] == b;
    }
  }

  /** Dropping entries from a list without repeats, as witnessed by pos, leaves a list without repeats, as witnessed by r. */
  lemma IndexedKept<T>(s: seq<T>, pos: map<T, int>, gone: seq<bool>) returns (r: map<T, int>)
    requires |gone| == |s| && Indexed(s, pos)
    ensures Indexed(Kept(s, gone), r)
  {
    IndexedNoRepeats(s, pos);
    KeptNoRepeats(s, gone);
    r := Positions(Kept(s, gone));
  }

  /** A pool of the right shape whose slots are told apart by pos is valid. */
  lemma IndexedPool(pool: ParticlePool, slots: seq<Particle>, pos: map<Particle, int>)
    requires pool.Shape() && pool.particles[..] == slots && Indexed(slots, pos)
    requires forall k :: 0 <= k < |slots| ==> slots[k] in pool.slots
    ensures pool.Valid()
  {
    IndexedNoRepeats(slots, pos);
    NoRepeatsIff(slots);
  }

  /** Removing s[i - 1] from s[..i] + rest leaves s[..i - 1] + rest; keeping it leaves the list as it was. */
  lemma Splice<T>(s: seq<T>, i: int, rest: seq<T>)
    requires 0 < i <= |s|
    ensures var l := s[..i] + rest; l[..i - 1] + l[i..] == s[..i - 1] + rest && l == s[..i - 1] + ([s[i - 1]] + rest)
  {
    var l := s[..i] + rest;
    assert l[..i - 1] == s[..i - 1] && l[i..] == rest;
    assert s[..i] == s[..i - 1] + [s[i - 1]];
  }


  /**
   * What a round of the object loop does with its object: nothing more when
   * it misses the player; otherwise the player absorbs it (canEat), bounces
   * it off a running shield, or dies.
   */
  datatype Fate = Drifted | Eaten | Shielded | Died
  {
    /** Whether the object is spliced out and a replacement appended. */
    predicate Replaced()
    {
      this == Eaten || this == Shielded
    }
  }

  /** The branch the loop takes on the collision test p, with shielded saying whether the shield timer runs. */
  function FateOf(m: Math, p: Probe, shielded: bool): Fate
    requires Lawful(m)
  {
    if !Hit(m, p) then Drifted
    else if p.psize > p.size * 1.1 then Eaten
    else if shielded then Shielded
    else Died
  }

  /**
   * The four fates: an object that misses the player drifts on; one that
   * touches it is absorbed when the player is more than 1.1 times its size,
   * bounced off a running shield otherwise, and kills the player when there
   * is no shield.
   */
  lemma FateOfCases(m: Math, p: Probe, shielded: bool)
    requires Lawful(m)
    ensures FateOf(m, p, shielded) == Drifted <==> !Hit(m, p)
    ensures FateOf(m, p, shielded) == Eaten <==> Hit(m, p) && p.psize > p.size * 1.1
    ensures FateOf(m, p, shielded) == Shielded <==> Hit(m, p) && p.psize <= p.size * 1.1 && shielded
    ensures FateOf(m, p, shielded) == Died <==> Hit(m, p) && p.psize <= p.size * 1.1 && !shielded
  {
  }

  /** The number of AI rows of a leaderboard: each takes one draw of Math.random() in an update. */
  function AiRows(es: seq<LeaderboardEntry>): (n: nat)
    ensures n <= |es|
  {
    if es == [] then 0 else AiRows(es[..|es| - 1]) + (if es[|es| - 1].isPlayer then 0 else 1)
  }

  /**
   * The draws of updateLeaderboard's map, in board order: one for each AI
   * row, none for the player's (whose slot holds 0).
   */
  method GrowthDraws(rng: Random, board: seq<LeaderboardEntry>) returns (rs: seq<real>)
    requires rng.Valid()
    modifies rng`drawn
    ensures |rs| == |board| && forall k :: 0 <= k < |rs| ==> 0.0 <= rs[k] < 1.0
    ensures rng.drawn == old(rng.drawn) + AiRows(board)
  {
    rs := [];
    for k := 0 to |board|
      invariant |rs| == k && forall j :: 0 <= j < k ==> 0.0 <= rs[j] < 1.0
      invariant rng.drawn == old(rng.drawn) + AiRows(board[..k])
    {
      assert board[..k + 1][..k] == board[..k];
      if board[k].isPlayer {
        rs := rs + [0.0];
      } else {
        var r := rng.Next();
        rs := rs + [r];
      }
    }
    assert board[..|board|] == board;
  }

  /** The particles of a round: a burst for an object taken out, the death burst, or none. */
  function Sparks(f: Fate, size: real): nat
  {
    if f.Replaced() then ParticleCount(size) else if f == Died then 30 else 0
  }

  /** The total mass of the entries from index i on that eaten marks. */
  function GainFrom(objs: seq<SpaceObject>, eaten: seq<bool>, i: int): real
    requires |eaten| == |objs| && 0 <= i <= |objs|
    decreases |objs| - i
  {
    if i == |objs| then 0.0 else (if eaten[i] then objs[i].mass else 0.0) + GainFrom(objs, eaten, i + 1)
  }

  /** GainFrom depends only on the marks from i on. */
  lemma {:induction false} GainFromAgree(objs: seq<SpaceObject>, eaten: seq<bool>, other: seq<bool>, i: int)
    requires |eaten| == |objs| && |other| == |objs| && 0 <= i <= |objs|
    requires forall k :: i <= k < |objs| ==> eaten[k] == other[k]
    ensures GainFrom(objs, eaten, i) == GainFrom(objs, other, i)
    decreases |objs| - i
  {
    if i < |objs| {
      GainFromAgree(objs, eaten, other, i + 1);
    }
  }

  /** The fields of an object that the object loop changes. */
  datatype ObjState = ObjState(x: real, y: real, vx: real, vy: real, rotation: real, pulsePhase: real)

  /** The moving fields of o. */
  ghost function StateOf(o: SpaceObject): (w: ObjState)
    reads o
    ensures w.x == o.x && w.y == o.y && w.vx == o.vx && w.vy == o.vy && w.rotation == o.rotation && w.pulsePhase == o.pulsePhase
  {
    ObjState(o.x, o.y, o.vx, o.vy, o.rotation, o.pulsePhase)
  }

  /** Where updateSpaceObject takes an object of the given size from w: one step, then the bounce on each axis. */
  function Landing(w: ObjState, size: real): (real, real)
  {
    (BounceAxis(w.x + w.vx, w.vx, size).0, BounceAxis(w.y + w.vy, w.vy, size).0)
  }

  /** The velocity updateSpaceObject leaves an object of the given size with from w: reversed and damped on an axis where it bounced. */
  function Rebound(w: ObjState, size: real): (real, real)
  {
    (BounceAxis(w.x + w.vx, w.vx, size).1, BounceAxis(w.y + w.vy, w.vy, size).1)
  }

  /**
   * o has made the move of updateSpaceObject from w to the centre land, the
   * spin and the pulse advancing, and gravity has left it the velocity v.
   */
  ghost predicate Moved(o: SpaceObject, w: ObjState, land: (real, real), v: (real, real))
    reads o
  {
    (o.x, o.y) == land && (o.vx, o.vy) == v && o.rotation == w.rotation + o.rotationSpeed && o.pulsePhase == w.pulsePhase + 0.03
  }

  /**
   * The objects from index from on have made their move from was to lands
   * and have the velocities vels, the others are as was records them.
   */
  ghost predicate MovedFrom(objs: seq<SpaceObject>, was: seq<ObjState>, lands: seq<(real, real)>, vels: seq<(real, real)>, from: int)
    reads objs
  {
    |was| == |objs| == |lands| == |vels| && forall k :: 0 <= k < |objs| ==> if k < from then StateOf(objs[k]) == was[k] else Moved(objs[k], was[k], lands[k], vels[k])
  }

  /**
   * What the object loop remembers of the state it started from: the list
   * with each entry's index, moving fields and Landing, the grid's cells and
   * the centre of each object filed there that is not on the list, the
   * player's position, size and mass, whether its shield ran and whether its
   * size power-up ran, the stats and the two flags.
   */
  datatype ObjStart = ObjStart(
    objs: seq<SpaceObject>, pos: map<SpaceObject, int>, was: seq<ObjState>, lands: seq<(real, real)>,
    cells: map<Cell, seq<SpaceObject>>, spots: map<SpaceObject, (real, real)>,
    px: real, py: real, psize: real, pmass: real, shielded: bool, magnified: bool,
    s0: GameStats, running0: bool, over0: bool)

  /**
   * Well-formedness of the snapshot st taken when the object loop starts.
   * It mentions only st, so no round can falsify it:
   * - st.pos maps each object to its index, so no object is listed twice;
   * - every object's mass is at least 0;
   * - st.lands[k] is where updateSpaceObject takes object k from its
   *   starting state st.was[k].
   */
  ghost predicate Sound(st: ObjStart)
  {
    && Indexed(st.objs, st.pos) && |st.was| == |st.lands| == |st.objs|
    && (forall k :: 0 <= k < |st.objs| ==> 0.0 <= st.objs[k].mass)
    && forall k :: 0 <= k < |st.objs| ==> st.lands[k] == Landing(st.was[k], st.objs[k].size)
  }

  /** The object at index i - 1 of st is the object of no other index and is not filed as a spot. */
  lemma Apart(st: ObjStart, i: int)
    requires Sound(st) && Charted(st) && 0 < i <= |st.objs|
    ensures forall k :: 0 <= k < |st.objs| && k != i - 1 ==> st.objs[k] != st.objs[i - 1]
    ensures st.objs[i - 1] !in st.spots
  {
    forall k | 0 <= k < |st.objs| && k != i - 1 ensures st.objs[k] != st.objs[i - 1] {
      assert st.pos[st.objs[k]] == k;
    }
    assert st.pos[st.objs[i - 1]] == i - 1;
  }

  /** Every object filed in some cell of a grid. */
  ghost function Inhabitants(cells: map<Cell, seq<SpaceObject>>): (os: set<SpaceObject>)
    ensures forall c, q :: q in CellAt(cells, c) ==> q in os
  {
    set c, q | c in cells && q in cells[c] :: q
  }

  /**
   * The grid of the snapshot st is charted: st.pos sends each of its keys to
   * the index that holds it, and every object filed in st.cells is on the
   * list or has its centre in st.spots, which holds no object of the list.
   */
  ghost predicate Charted(st: ObjStart)
  {
    && (forall q :: q in st.pos ==> 0 <= st.pos[q] < |st.objs| && st.objs[st.pos[q]] == q)
    && (forall q :: q in st.spots ==> q !in st.pos)
    && (forall c, q :: q in CellAt(st.cells, c) ==> q in st.pos || q in st.spots)
  }

  /** The objects filed off the list stand where st.spots records them. */
  ghost predicate Still(st: ObjStart)
    reads st.spots.Keys
  {
    forall q :: q in st.spots ==> (q.x, q.y) == st.spots[q]
  }

  /**
   * Where object q of the grid stands during the round at index k of the
   * loop started from st, the rounds running from the last index down: an
   * object of the list at index j has made its move when k <= j and stands
   * where it started otherwise; an object off the list stands at its spot.
   */
  ghost function SpotAt(st: ObjStart, k: int, q: SpaceObject): (real, real)
  {
    if q in st.pos && 0 <= st.pos[q] < |st.was| && st.pos[q] < |st.lands| then
      var j := st.pos[q];
      if k <= j then st.lands[j] else (st.was[j].x, st.was[j].y)
    else if q in st.spots then st.spots[q]
    else (0.0, 0.0)
  }

  /** The bodies the gravity loop of the round at index k reads from the objects near, as they stand in that round. */
  ghost function BodiesAt(st: ObjStart, k: int, near: seq<SpaceObject>): (bs: seq<Body>)
    ensures |bs| == |near|
    ensures forall j :: 0 <= j < |near| ==>
      bs[j] == Body(near[j].id, SpotAt(st, k, near[j]).0, SpotAt(st, k, near[j]).1, near[j].size, near[j].mass)
  {
    seq(|near|, j requires 0 <= j < |near| => Body(near[j].id, SpotAt(st, k, near[j]).0, SpotAt(st, k, near[j]).1, near[j].size, near[j].mass))
  }

  /** What getNearby(obj.x, obj.y, 200) returns in the round at index k: the cells around the object's centre after its move. */
  ghost function NearbyAt(st: ObjStart, k: int): seq<SpaceObject>
    requires 0 <= k < |st.lands|
  {
    Nearby(st.cells, Floor(st.lands[k].0 / GRID_CELL), Floor(st.lands[k].1 / GRID_CELL), Ceil(200.0 / GRID_CELL))
  }

  /**
   * The velocity the round at index k leaves its object with, for a player
   * of size psize and mass pmass: the Rebound of its move, then the pull of
   * each nearby body in grid order, then the player's pull.
   */
  ghost function Pulled(m: Math, st: ObjStart, k: int, psize: real, pmass: real): (real, real)
    requires Lawful(m) && 0 <= k < |st.objs| && k < |st.was| && k < |st.lands|
  {
    var o, land := st.objs[k], st.lands[k];
    var felt := NearbyPull(m, o.id, land.0, land.1, o.size, o.mass, Rebound(st.was[k], o.size), BodiesAt(st, k, NearbyAt(st, k)));
    PlayerPull(m, land.0, land.1, o.size, o.mass, felt, st.px, st.py, psize, pmass)
  }

  /** The size growPlayer gives a player of the given mass: the base size, enlarged by 1.3 while the size power-up runs. */
  function GrownSize(m: Math, mass: real, magnified: bool): real
    requires Lawful(m)
  {
    if magnified then BaseSize(m, mass) * 1.3 else BaseSize(m, mass)
  }

  /**
   * The list of the object loop with the rounds at indices i .. |st.objs| - 1
   * done: the untouched front, rest from the visited tail and the
   * replacements added, which are new, of a kind's size and of mass at least 0.
   */
  ghost predicate Listed(st: ObjStart, i: int, objects: seq<SpaceObject>, rest: seq<SpaceObject>, added: seq<SpaceObject>, addedPos: map<SpaceObject, int>)
  {
    && 0 <= i <= |st.objs| && Indexed(added, addedPos) && objects == st.objs[..i] + rest + added
    && (forall j :: 0 <= j < |added| ==> added[j] !in st.pos && SizeInRange(added[j].kind, added[j].size) && 0.0 <= added[j].mass)
  }

  /** The list after the round at index i - 1: the object kept, or spliced out with o appended in its place. */
  lemma ListedStep(st: ObjStart, i: int, objects: seq<SpaceObject>, rest: seq<SpaceObject>, added: seq<SpaceObject>,
                   addedPos: map<SpaceObject, int>, replaced: bool, o: SpaceObject)
    requires 0 < i && Listed(st, i, objects, rest, added, addedPos)
    requires replaced ==> o !in st.pos && o !in added && SizeInRange(o.kind, o.size) && 0.0 <= o.mass
    ensures replaced ==> Listed(st, i - 1, objects[..i - 1] + objects[i..] + [o], rest, added + [o], addedPos[o := |added|])
    ensures !replaced ==> Listed(st, i - 1, objects, [st.objs[i - 1]] + rest, added, addedPos)
  {
    Splice(st.objs, i, rest + added);
    assert objects == st.objs[..i] + (rest + added);
    assert st.objs[..i - 1] + ([st.objs[i - 1]] + rest) + added == st.objs[..i - 1] + ([st.objs[i - 1]] + rest + added);
    if replaced {
      assert st.objs[..i - 1] + rest + (added + [o]) == st.objs[..i - 1] + (rest + added) + [o];
    }
  }

  /**
   * probes[k] records the collision test of round k, for the rounds from i
   * on: the player's centre as the loop found it, and the object's size and
   * centre after its move; the first round saw the player's starting size.
   */
  ghost predicate Probed(st: ObjStart, i: int, probes: seq<Probe>)
  {
    && |probes| == |st.objs| == |st.was| == |st.lands|
    && (0 <= i < |st.objs| ==> probes[|st.objs| - 1].psize == st.psize)
    && forall k :: 0 <= i <= k < |st.objs| ==>
         && probes[k].px == st.px && probes[k].py == st.py && probes[k].size == st.objs[k].size
         && (probes[k].x, probes[k].y) == st.lands[k]
  }

  /** Probed after one more round, at index i - 1, whose test saw probe. */
  lemma ProbedStep(st: ObjStart, i: int, probes: seq<Probe>, probe: Probe)
    requires 0 < i <= |st.objs| && Probed(st, i, probes)
    requires probe.px == st.px && probe.py == st.py && probe.size == st.objs[i - 1].size && (probe.x, probe.y) == st.lands[i - 1]
    requires i == |st.objs| ==> probe.psize == st.psize
    ensures Probed(st, i - 1, probes[i - 1 := probe])
  {
  }

  /** The kinds of a concatenation are the kinds of its parts, in order. */
  lemma KindsJoin(a: seq<SpaceObject>, b: seq<SpaceObject>)
    ensures Kinds(a + b) == Kinds(a) + Kinds(b)
  {
    assert forall k :: 0 <= k < |a + b| ==> Kinds(a + b)[k] == (Kinds(a) + Kinds(b))[k];
  }

  /** What a pass keeps and what it removes from index i on have, kind for kind, the kinds of s[i..]. */
  lemma {:induction false} KindsKeptAndGoneFrom(s: seq<SpaceObject>, gone: seq<bool>, i: int)
    requires |gone| == |s| && 0 <= i <= |s|
    ensures multiset(Kinds(KeptFrom(s, gone, i))) + multiset(Kinds(GoneFrom(s, gone, i))) == multiset(Kinds(s[i..]))
    decreases |s| - i
  {
    if i < |s| {
      KindsKeptAndGoneFrom(s, gone, i + 1);
      assert s[i..] == [s[i]] + s[i + 1..];
      var mine := if gone[i] then [] else [s[i]];
      var out := if gone[i] then [s[i]] else [];
      KindsJoin(mine, KeptFrom(s, gone, i + 1));
      KindsJoin(GoneFrom(s, gone, i + 1), out);
      KindsJoin([s[i]], s[i + 1..]);
    }
  }

  /** GainFrom after one more round at index i - 1, which absorbed its object when e. */
  lemma GainStep(objs: seq<SpaceObject>, eaten: seq<bool>, i: int, e: bool)
    requires |eaten| == |objs| && 0 < i <= |objs|
    ensures GainFrom(objs, eaten[i - 1 := e], i - 1) == (if e then objs[i - 1].mass else 0.0) + GainFrom(objs, eaten, i)
  {
    GainFromAgree(objs, eaten[i - 1 := e], eaten, i);
  }

  /** A round of fate f left its object out (gone), absorbed it (eaten) and ended the game exactly when ended. */
  predicate Settled(f: Fate, gone: bool, eaten: bool, ended: bool)
  {
    gone == f.Replaced() && eaten == (f == Eaten) && (f == Died <==> ended)
  }

  /**
   * What the object loop has done so far, carried from round to round.
   * - rest: the visited objects still in the list, in order;
   * - added: the replacements pushed at the end; addedPos: their indices;
   * - probes[k]: the positions and sizes the collision test of round k saw;
   * - eats: the number of absorptions; gained: the mass they brought;
   * - gone[k]: round k spliced its object out; eaten[k]: round k absorbed it;
   * - vels[k]: the velocity round k left its object with.
   */
  datatype Tally = Tally(rest: seq<SpaceObject>, added: seq<SpaceObject>, addedPos: map<SpaceObject, int>, probes: seq<Probe>,
                         eats: nat, gained: real, gone: seq<bool>, eaten: seq<bool>, vels: seq<(real, real)>)

  /** The tally t after the round at index i - 1, of fate f on probe, o being the replacement when there is one. */
  ghost function After(st: ObjStart, i: int, t: Tally, f: Fate, probe: Probe, o: SpaceObject): Tally
    requires 0 < i <= |st.objs| && i <= |t.probes| && i <= |t.gone| && i <= |t.eaten|
  {
    var r, e := f.Replaced(), f == Eaten;
    Tally(if r then t.rest else [st.objs[i - 1]] + t.rest, if r then t.added + [o] else t.added,
          if r then t.addedPos[o := |t.added|] else t.addedPos, t.probes[i - 1 := probe],
          t.eats + (if e then 1 else 0), t.gained + (if e then st.objs[i - 1].mass else 0.0),
          t.gone[i - 1 := r], t.eaten[i - 1 := e], t.vels)
  }

  /** The player's mass once the rounds from index j on have run: its mass at the start and the mass they absorbed. */
  ghost function MassAfter(st: ObjStart, j: int, t: Tally): real
    requires 0 <= j <= |st.objs| && |t.eaten| == |st.objs|
  {
    st.pmass + GainFrom(st.objs, t.eaten, j)
  }

  /**
   * The player's size once the rounds from index j on have run: its size at
   * the start before any round, the size growPlayer gave it after a round
   * that absorbed, and otherwise the size the collision test of round j saw.
   */
  ghost function SizeAfter(m: Math, st: ObjStart, j: int, t: Tally): real
    requires Lawful(m) && 0 <= j <= |st.objs| && |t.probes| == |st.objs| && |t.eaten| == |st.objs|
  {
    if j == |st.objs| then st.psize
    else if t.eaten[j] then GrownSize(m, MassAfter(st, j, t), st.magnified)
    else t.probes[j].psize
  }

  /**
   * What the rounds at indices i .. |st.objs| - 1 of the object loop started
   * from st decided: each round's fate on its collision test, the game
   * ended at most by the round at i (died), the objects kept, the
   * replacements, of the kinds of those spliced out and in that order, the
   * absorptions and the mass they brought, the player's size each test saw
   * (unchanged from the round before unless that round absorbed) and the
   * velocity each round left its object with, under the player's size and
   * mass of that round.
   */
  ghost predicate Decided(m: Math, st: ObjStart, i: int, died: bool, t: Tally)
    requires Lawful(m)
  {
    && 0 <= i <= |st.objs| && |t.probes| == |st.objs| && |t.gone| == |st.objs| && |t.eaten| == |st.objs|
    && |t.vels| == |st.objs| == |st.was| == |st.lands|
    && (forall k :: i <= k < |st.objs| ==> Settled(FateOf(m, t.probes[k], st.shielded), t.gone[k], t.eaten[k], died && k == i))
    && t.rest == KeptFrom(st.objs, t.gone, i) && t.eats == CountFrom(t.eaten, i) && t.gained == GainFrom(st.objs, t.eaten, i)
    && Kinds(t.added) == Kinds(GoneFrom(st.objs, t.gone, i))
    && Paced(m, st, i, t)
  }

  /**
   * The player's size and the velocities of the rounds at indices
   * i .. |st.objs| - 1: the test of round k - 1 saw the size the rounds from
   * k on left, and the round left its object the velocity Pulled gives for
   * that size and the mass the rounds from k on left.
   */
  ghost predicate Paced(m: Math, st: ObjStart, i: int, t: Tally)
    requires Lawful(m)
  {
    Sized(m, st, i, t) && Sped(m, st, i, t)
  }

  /** The test of each round k - 1 from i on saw the player's size the rounds from k on left. */
  ghost predicate Sized(m: Math, st: ObjStart, i: int, t: Tally)
    requires Lawful(m)
  {
    && 0 <= i <= |st.objs| && |t.probes| == |t.eaten| == |st.objs|
    && forall k :: i < k <= |st.objs| ==> t.probes[k - 1].psize == SizeAfter(m, st, k, t)
  }

  /** Each round k - 1 from i on left its object the velocity Pulled gives for the size its test saw and the mass the rounds from k on left. */
  ghost predicate Sped(m: Math, st: ObjStart, i: int, t: Tally)
    requires Lawful(m)
  {
    && 0 <= i <= |st.objs| && |t.probes| == |t.eaten| == |t.vels| == |st.objs| == |st.was| == |st.lands|
    && forall k :: i < k <= |st.objs| ==> t.vels[k - 1] == PullAt(m, st, k, t)
  }

  /** The velocity Pulled gives the round at index k - 1 for the size its test in t saw and the mass the rounds from k on left. */
  ghost function PullAt(m: Math, st: ObjStart, k: int, t: Tally): (real, real)
    requires Lawful(m) && 0 < k <= |st.objs| == |st.was| == |st.lands| == |t.probes| == |t.eaten|
  {
    Pulled(m, st, k - 1, t.probes[k - 1].psize, MassAfter(st, k, t))
  }

  /** Paced after one more round, at index i - 1, which left its object with velocity v and whose test saw probe. */
  lemma PacedStep(m: Math, st: ObjStart, i: int, t: Tally, t': Tally, v: (real, real), probe: Probe)
    requires Lawful(m) && 0 < i && Paced(m, st, i, t)
    requires probe.psize == SizeAfter(m, st, i, t) && v == Pulled(m, st, i - 1, probe.psize, MassAfter(st, i, t))
    requires |t'.eaten| == |st.objs| && t'.probes == t.probes[i - 1 := probe] && t'.vels == t.vels[i - 1 := v]
    requires forall k :: i <= k < |st.objs| ==> t'.eaten[k] == t.eaten[k]
    ensures Paced(m, st, i - 1, t')
  {
    SizeAfterAgree(m, st, i, t, t');
    SizedStep(m, st, i, t, t', probe);
    SpedStep(m, st, i, t, t', v, probe);
  }

  /** Sized after one more round, at index i - 1, whose test saw probe. */
  lemma SizedStep(m: Math, st: ObjStart, i: int, t: Tally, t': Tally, probe: Probe)
    requires Lawful(m) && 0 < i && Sized(m, st, i, t) && probe.psize == SizeAfter(m, st, i, t)
    requires |t'.eaten| == |st.objs| && t'.probes == t.probes[i - 1 := probe]
    requires forall j :: i <= j <= |st.objs| ==> SizeAfter(m, st, j, t) == SizeAfter(m, st, j, t')
    ensures Sized(m, st, i - 1, t')
  {
  }

  /** Sped after one more round, at index i - 1, which left its object with velocity v and whose test saw probe. */
  lemma SpedStep(m: Math, st: ObjStart, i: int, t: Tally, t': Tally, v: (real, real), probe: Probe)
    requires Lawful(m) && 0 < i && Sped(m, st, i, t) && v == Pulled(m, st, i - 1, probe.psize, MassAfter(st, i, t))
    requires |t'.eaten| == |st.objs| && t'.probes == t.probes[i - 1 := probe] && t'.vels == t.vels[i - 1 := v]
    requires forall j :: i <= j <= |st.objs| ==> MassAfter(st, j, t) == MassAfter(st, j, t')
    ensures Sped(m, st, i - 1, t')
  {
    forall k | i - 1 < k <= |st.objs|
      ensures t'.vels[k - 1] == PullAt(m, st, k, t')
    {
      if k > i {
        assert t'.vels[k - 1] == t.vels[k - 1] && t'.probes[k - 1] == t.probes[k - 1];
        assert PullAt(m, st, k, t') == PullAt(m, st, k, t);
      }
    }
  }

  /** SizeAfter from index i on reads only the marks and probes from i on. */
  lemma SizeAfterAgree(m: Math, st: ObjStart, i: int, t: Tally, t': Tally)
    requires Lawful(m) && 0 <= i <= |st.objs| && |t.probes| == |t.eaten| == |t'.probes| == |t'.eaten| == |st.objs|
    requires forall k :: i <= k < |st.objs| ==> t.probes[k] == t'.probes[k] && t.eaten[k] == t'.eaten[k]
    ensures forall j :: i <= j <= |st.objs| ==> SizeAfter(m, st, j, t) == SizeAfter(m, st, j, t')
    ensures forall j :: i <= j <= |st.objs| ==> MassAfter(st, j, t) == MassAfter(st, j, t')
  {
    forall j | i <= j <= |st.objs|
      ensures MassAfter(st, j, t) == MassAfter(st, j, t')
    {
      GainFromAgree(st.objs, t.eaten, t'.eaten, j);
    }
  }

  /**
   * Decided after one more round, at index i - 1, which left its object with
   * velocity v and met fate f on probe, o being the replacement when there
   * is one.
   */
  lemma DecidedStep(m: Math, st: ObjStart, i: int, t: Tally, v: (real, real), f: Fate, probe: Probe, o: SpaceObject)
    requires Lawful(m) && 0 < i && Decided(m, st, i, false, t)
    requires f == FateOf(m, probe, st.shielded) && (f.Replaced() ==> o.kind == st.objs[i - 1].kind)
    requires probe.psize == SizeAfter(m, st, i, t)
    requires v == Pulled(m, st, i - 1, probe.psize, MassAfter(st, i, t))
    ensures Decided(m, st, i - 1, f == Died, After(st, i, t.(vels := t.vels[i - 1 := v]), f, probe, o))
  {
    var r, e := f.Replaced(), f == Eaten;
    var t' := After(st, i, t.(vels := t.vels[i - 1 := v]), f, probe, o);
    KeptStep(st.objs, t.gone, i, r);
    KeptStep(st.objs, t.eaten, i, e);
    GainStep(st.objs, t.eaten, i, e);
    assert t'.rest == KeptFrom(st.objs, t'.gone, i - 1) && t'.eats == CountFrom(t'.eaten, i - 1);
    assert t'.gained == GainFrom(st.objs, t'.eaten, i - 1);
    if r {
      KindsJoin(t.added, [o]);
      KindsJoin(GoneFrom(st.objs, t.gone, i), [st.objs[i - 1]]);
    }
    assert Kinds(t'.added) == Kinds(GoneFrom(st.objs, t'.gone, i - 1));
    assert forall k :: i - 1 <= k < |st.objs| ==> Settled(FateOf(m, t'.probes[k], st.shielded), t'.gone[k], t'.eaten[k], f == Died && k == i - 1);
    PacedStep(m, st, i, t, t', v, probe);
  }

  /** No element of a repeats within a, none within b, and none of a in b: a + b has no repeats. */
  lemma NoRepeatsJoin<T>(a: seq<T>, b: seq<T>)
    requires NoRepeats(a) && NoRepeats(b) && forall x :: x in a ==> x !in b
    ensures NoRepeats(a + b)
  {
    var s := a + b;
    forall x, y | 0 <= x < y < |s| ensures s[x] != s[y] {
      if x < |a| && |a| <= y {
        assert s[x] in a && s[y] == b[y - |a|];
      }
    }
  }

  /**
   * The list an object pass leaves when it stopped at index i: the untouched
   * front, what it kept from index i on, and the new replacements. It has no
   * repeats when the list it started from had none (as pos witnesses) and
   * the replacements are new and distinct (as addedPos witnesses).
   */
  lemma PassListNoRepeats(objs: seq<SpaceObject>, pos: map<SpaceObject, int>, gone: seq<bool>, i: int,
                          added: seq<SpaceObject>, addedPos: map<SpaceObject, int>)
    requires Indexed(objs, pos) && |gone| == |objs| && 0 <= i <= |objs| && Indexed(added, addedPos)
    requires forall j :: 0 <= j < |added| ==> added[j] !in pos
    ensures NoRepeats(objs[..i] + KeptFrom(objs, gone, i) + added)
  {
    IndexedNoRepeats(objs, pos);
    IndexedNoRepeats(added, addedPos);
    KeptFromNoRepeats(objs, gone, i);
    KeptFromWithin(objs, gone, i);
    var front, back := objs[..i], KeptFrom(objs, gone, i);
    forall x | x in front ensures x !in back {
      var a :| 0 <= a < i && objs[a] == x;
      forall b | i <= b < |objs| ensures objs[b] != x {
        assert pos[objs[a]] == a && pos[objs[b]] == b;
      }
      assert x !in objs[i..];
    }
    NoRepeatsJoin(front, back);
    forall x | x in front + back ensures x !in added {
      var a :| 0 <= a < |objs| && objs[a] == x by {
        if x in front {
        } else {
          assert x in objs[i..];
        }
      }
      assert x in pos;
    }
    NoRepeatsJoin(front + back, added);
  }

  /**
   * The kinds of that list are, kind for kind, those of the list the pass
   * started from, when the replacements have the kinds of the objects the
   * pass spliced out.
   */
  lemma PassKinds(objs: seq<SpaceObject>, gone: seq<bool>, i: int, added: seq<SpaceObject>)
    requires |gone| == |objs| && 0 <= i <= |objs| && Kinds(added) == Kinds(GoneFrom(objs, gone, i))
    ensures multiset(Kinds(objs[..i] + KeptFrom(objs, gone, i) + added)) == multiset(Kinds(objs))
  {
    var front, back := objs[..i], KeptFrom(objs, gone, i);
    KindsJoin(front + back, added);
    KindsJoin(front, back);
    KindsKeptAndGoneFrom(objs, gone, i);
    assert objs == front + objs[i..];
    KindsJoin(front, objs[i..]);
  }

  /** The world one frame of the game works on: the refs of the page and of the loop's hook. */
  class World {
    const player: Player
    var objects: seq<SpaceObject>
    var powerUps: seq<PowerUp>
    /** The hook's particle pool, kept across games. */
    const pool: ParticlePool
    /** The hook's spatial grid, rebuilt every frame. */
    const grid: SpatialGrid
    /** Math.random(). */
    const rng: Random
    /** window.gameCamera: absent until the first frame stores it. */
    var camera: Option<Camera>
    /** The index of each power-up in powerUps, witnessing that the list has no repeats. */
    ghost var powerUpIndex: map<PowerUp, int>
    var stats: GameStats
    var board: seq<LeaderboardEntry>
    /** The hook's running flag. */
    var running: bool
    var gameOver: bool

    ghost predicate Valid()
      reads this, pool, pool.particles, grid
    {
      && pool.Valid() && grid.Valid() && grid.cellSize == GRID_CELL && rng.Valid()
      && NoRepeats(objects) && Indexed(powerUps, powerUpIndex)
      && (forall k :: 0 <= k < |objects| ==> 0.0 <= objects[k].mass)
      && (camera.Some? ==> 0.0 <= camera.value.shake)
    }

    /**
     * The state when the page mounts: the hook's fresh pool and grid, its
     * loop not running, the page's initial stats and empty lists. The page
     * holds no player until initGame; the model starts from createPlayer's.
     */
    constructor (draw: nat -> real, spot: (nat, real, real, real) -> (real, real))
      requires forall k :: 0.0 <= draw(k) < 1.0
      requires forall k, cx, cy, d :: 0.0 <= d <= 300.0 ==> FarFrom(spot(k, cx, cy, d), cx, cy, d)
      ensures Valid() && fresh(pool) && fresh(pool.particles) && fresh(grid) && fresh(rng) && fresh(player)
      ensures pool.activeCount == 0 && grid.log == [] && rng.drawn == 0 && rng.spotted == 0
      ensures objects == [] && powerUps == [] && board == [] && camera == None
      ensures stats == GameStats(100.0, 0, 1, 0) && !running && !gameOver
    {
      player := new Player();
      objects := [];
      powerUps := [];
      pool := new ParticlePool();
      grid := new SpatialGrid(GRID_CELL);
      rng := new Random(draw, spot);
      camera := None;
      powerUpIndex := map[];
      stats := GameStats(100.0, 0, 1, 0);
      board := [];
      running := false;
      gameOver := false;
    }

    /** objectsRef.current.push(o): a new object joins the end of the list. */
    method AddObject(o: SpaceObject)
      requires Valid() && o !in objects && 0.0 <= o.mass
      modifies this`objects
      ensures Valid() && objects == old(objects) + [o]
    {
      objects := objects + [o];
    }

    /**
     * The camera a frame starts from: window.gameCamera, or when none is
     * stored yet a still, unzoomed camera with the player at the canvas
     * centre; either way its zoom becomes the guarded zoom for the player's
     * size.
     */
    method TakeCamera(canvasWidth: real, canvasHeight: real)
      requires Valid()
      modifies this`camera
      ensures Valid()
      ensures camera == Some(
        (if old(camera).Some? then old(camera).value else DefaultCamera(player.x, player.y, canvasWidth, canvasHeight))
          .(zoom := GuardedZoom(player.size)))
      ensures 0.0 < camera.value.zoom && camera.value.zoom == CalculateCameraZoom(player.size)
    {
      var c := if camera.Some? then camera.value else DefaultCamera(player.x, player.y, canvasWidth, canvasHeight);
      camera := Some(c.(zoom := GuardedZoom(player.size)));
    }

    /**
     * The camera steps after updatePlayer: ease 8% of the way to the target
     * that centres the player on the zoomed canvas, then, while the shake is
     * positive, a jolt from two draws of Math.random() and a decay of the
     * shake by 0.9.
     */
    method EaseCamera(canvasWidth: real, canvasHeight: real)
      requires Valid() && camera.Some? && 0.0 < camera.value.zoom
      modifies this`camera, rng`drawn
      ensures Valid() && camera.Some? && camera.value.zoom == old(camera.value.zoom)
      ensures var c := old(camera.value);
        var e := Eased(c, Target(player.x, player.y, canvasWidth, canvasHeight, c.zoom).0,
                          Target(player.x, player.y, canvasWidth, canvasHeight, c.zoom).1);
        && rng.drawn == old(rng.drawn) + (if 0.0 < c.shake then 2 else 0)
        && camera.value == Shaken(e, rng.draw(old(rng.drawn)), rng.draw(old(rng.drawn) + 1))
      ensures 0.0 <= camera.value.shake <= old(camera.value.shake)
    {
      var t := Target(player.x, player.y, canvasWidth, canvasHeight, camera.value.zoom);
      var c := Eased(camera.value, t.0, t.1);
      EasedCloses(camera.value, t.0, t.1);
      if c.shake > 0.0 {
        var r1 := rng.Next();
        var r2 := rng.Next();
        ShakeDecays(c, r1, r2);
        c := Shaken(c, r1, r2);
      }
      camera := Some(c);
    }

    /** spatialGrid.clear() and then one insert per object, in list order. */
    method RebuildGrid()
      requires Valid()
      modifies grid`grid, grid`log
      ensures Valid()
      ensures |grid.log| == |objects|
      ensures forall k :: 0 <= k < |objects| ==> grid.log[k] == Filing(objects[k], objects[k].x, objects[k].y)
    {
      grid.Clear();
      for k := 0 to |objects|
        invariant grid.Valid() && |grid.log| == k
        invariant forall j :: 0 <= j < k ==> grid.log[j] == Filing(objects[j], objects[j].x, objects[j].y)
      {
        grid.Insert(objects[k]);
      }
    }

    /**
     * The spawn step: with probability POWER_UP_SPAWN_RATE one power-up is
     * appended, at a point of the world at least 200 from the player.
     */
    method SpawnPowerUp() returns (spawned: bool)
      requires Valid()
      modifies this`powerUps, this`powerUpIndex, rng`drawn, rng`spotted
      ensures Valid()
      ensures spawned <==> rng.draw(old(rng.drawn)) < POWER_UP_SPAWN_RATE
      ensures |powerUps| == |old(powerUps)| + (if spawned then 1 else 0)
      ensures powerUps[..|old(powerUps)|] == old(powerUps)
      ensures spawned ==> var p := powerUps[|powerUps| - 1];
        fresh(p) && FarFrom((p.x, p.y), player.x, player.y, 200.0) && p.rotation == 0.0
      ensures powerUpIndex == if spawned then old(powerUpIndex)[powerUps[|powerUps| - 1] := |old(powerUps)|] else old(powerUpIndex)
    {
      var r := rng.Next();
      spawned := r < POWER_UP_SPAWN_RATE;
      if spawned {
        var x, y := rng.PointAway(player.x, player.y, 200.0);
        var p := NewPowerUp(rng, x, y);
        powerUps := powerUps + [p];
        powerUpIndex := powerUpIndex[p := |old(powerUps)|];
        assert powerUps[..|old(powerUps)|] == old(powerUps);
      }
    }

    /**
     * One round of the power-up loop at index i: the power-up turns by 0.05
     * and pulses by 0.1 first; if it then touches the player, its effect is
     * applied, it is spliced out, powerUpsCollected rises by one and 8
     * particle requests of its colour are made at its position.
     */
    method VisitPowerUp(m: Math, now: int, i: nat, p: PowerUp, ghost live0: seq<ParticleState>) returns (collected: bool, ghost probe: Probe)
      requires Lawful(m) && pool.Valid() && rng.Valid() && i < |powerUps| && powerUps[i] == p
      requires pool.Keeps(live0)
      modifies this`powerUps, this`stats, p`rotation, p`pulsePhase
      modifies player`powerUps, player`mass, player`size, pool`activeCount, pool.particles[..], rng`drawn
      ensures pool.Valid() && pool.Keeps(live0)
      ensures
        && p.rotation == old(p.rotation) + 0.05 && p.pulsePhase == old(p.pulsePhase) + 0.1
        && probe == Probe(player.x, player.y, old(player.size), p.x, p.y, p.size) && collected == Hit(m, probe)
      ensures collected ==>
        && powerUps == old(powerUps[..i] + powerUps[i + 1..])
        && stats == old(stats).(powerUpsCollected := old(stats.powerUpsCollected) + 1)
        && pool.activeCount == MinNat(MAX_PARTICLES, old(pool.activeCount) + 8)
        && rng.drawn == old(rng.drawn) + 16
      ensures collected ==>
        forall k :: old(pool.activeCount) <= k < pool.activeCount ==> Sprayed(pool.Live()[k], p.x, p.y, p.color, 3.0)
      ensures !collected ==>
        && powerUps == old(powerUps) && stats == old(stats)
        && pool.activeCount == old(pool.activeCount) && pool.Live() == old(pool.Live())
        && rng.drawn == old(rng.drawn)
        && player.size == old(player.size) && player.mass == old(player.mass) && player.powerUps == old(player.powerUps)
    {
      p.rotation := p.rotation + 0.05;
      p.pulsePhase := p.pulsePhase + 0.1;
      probe := Probe(player.x, player.y, player.size, p.x, p.y, p.size);
      collected := CheckCollision(m, player.x, player.y, player.size, p.x, p.y, p.size);
      if collected {
        Collect(m, now, i, p, live0);
      }
    }

    /**
     * A power-up touching the player: its effect is applied, it is spliced
     * out, powerUpsCollected rises by one and 8 particle requests of its
     * colour are made at its position.
     */
    method Collect(m: Math, now: int, i: nat, p: PowerUp, ghost live0: seq<ParticleState>)
      requires Lawful(m) && pool.Valid() && rng.Valid() && i < |powerUps| && powerUps[i] == p
      requires pool.Keeps(live0)
      modifies this`powerUps, this`stats
      modifies player`powerUps, player`mass, player`size, pool`activeCount, pool.particles[..], rng`drawn
      ensures pool.Valid() && pool.Keeps(live0)
      ensures
        && powerUps == old(powerUps[..i] + powerUps[i + 1..])
        && stats == old(stats).(powerUpsCollected := old(stats.powerUpsCollected) + 1)
        && pool.activeCount == MinNat(MAX_PARTICLES, old(pool.activeCount) + 8)
        && rng.drawn == old(rng.drawn) + 16
      ensures forall k :: old(pool.activeCount) <= k < pool.activeCount ==> Sprayed(pool.Live()[k], p.x, p.y, p.color, 3.0)
    {
      ApplyPowerUpEffect(m, player, p, now);
      powerUps := powerUps[..i] + powerUps[i + 1..];
      stats := stats.(powerUpsCollected := stats.powerUpsCollected + 1);
      ghost var before := pool.Live();
      pool.KeepsLive(live0);
      Burst(m, pool, rng, 8, p.x, p.y, 6.0, 2.0, p.color, 3.0);
      assert pool.Live()[..|live0|] == pool.Live()[..|before|][..|live0|];
      pool.KeepsLive(live0);
    }

    /** What the power-up loop has done once n power-ups are collected, counted from the values a0, s0 and d0 it started from. */
    ghost predicate Tallied(a0: int, s0: GameStats, d0: nat, n: nat)
      reads this, pool, rng
    {
      && 0 <= a0
      && stats == s0.(powerUpsCollected := s0.powerUpsCollected + n)
      && pool.activeCount == MinNat(MAX_PARTICLES, a0 + 8 * n)
      && rng.drawn == d0 + 16 * n
    }

    /**
     * The power-up loop with the rounds at indices i .. |st.ups| - 1 done, st
     * being the state it started from: the list holds the untouched front and
     * the kept part of the visited tail, every visited power-up has turned and
     * pulsed once, probes[k] records the collision test of round k, and the
     * counters have risen by the number collected.
     */
    ghost predicate PowerUpPassAt(st: PassStart, i: int, n: nat, rest: seq<PowerUp>, probes: seq<Probe>)
      reads this, player, st.ups, pool, pool.particles, pool.particles[..], rng
    {
      && 0 <= i <= |st.ups| && |probes| == |st.ups|
      && |st.rots| == |st.ups| && |st.pulses| == |st.ups|
      && Indexed(st.ups, st.pos) && Indexed(st.slots, st.slotPos)
      && (forall k :: 0 <= k < |st.slots| ==> st.slots[k] in pool.slots)
      && powerUps == st.ups[..i] + rest
      && pool.Shape() && pool.particles[..] == st.slots && Tallied(st.a0, st.s0, st.d0, n)
      && |st.live0| == st.a0 && pool.Keeps(st.live0)
      && player.x == st.px && player.y == st.py
      && (i == |st.ups| ==> player.size == st.psize)
      && (i < |st.ups| ==> probes[|st.ups| - 1].psize == st.psize)
      && (forall k :: 0 <= k < |st.ups| ==>
           && st.ups[k].rotation == st.rots[k] + (if k < i then 0.0 else 0.05)
           && st.ups[k].pulsePhase == st.pulses[k] + (if k < i then 0.0 else 0.1))
      && (forall k :: i <= k < |st.ups| ==>
           && probes[k].px == st.px && probes[k].py == st.py
           && probes[k].x == st.ups[k].x && probes[k].y == st.ups[k].y && probes[k].size == st.ups[k].size)
    }

    /** One round of the power-up loop, at index i - 1: it takes the loop from PowerUpPassAt at i to PowerUpPassAt at i - 1. */
    method CollectStep(m: Math, now: int, ghost st: PassStart, i: int, ghost n: nat, ghost rest: seq<PowerUp>, ghost probes: seq<Probe>)
        returns (collected: bool, ghost probe: Probe)
      requires Lawful(m) && rng.Valid() && 0 < i && PowerUpPassAt(st, i, n, rest, probes)
      modifies this`powerUps, this`stats, st.pos.Keys`rotation, st.pos.Keys`pulsePhase
      modifies player`powerUps, player`mass, player`size, pool`activeCount, pool.particles[..], rng`drawn
      ensures PowerUpPassAt(st, i - 1, n + (if collected then 1 else 0), (if collected then [] else [st.ups[i - 1]]) + rest, probes[i - 1 := probe])
      ensures collected == Hit(m, probe)
    {
      ghost var P0 := st.ups;
      assert powerUps[i - 1] == P0[i - 1];
      var p := powerUps[i - 1];
      IndexedPool(pool, st.slots, st.slotPos);
      Splice(P0, i, rest);
      collected, probe := VisitPowerUp(m, now, i - 1, p, st.live0);
    }

    /** PowerUpPassAt, together with what the rounds from i on decided: taken[k] is the outcome of the test on probes[k]. */
    ghost predicate RoundsAt(m: Math, st: PassStart, i: int, n: nat, rest: seq<PowerUp>, probes: seq<Probe>, taken: seq<bool>)
      requires Lawful(m)
      reads this, player, st.ups, pool, pool.particles, pool.particles[..], rng
    {
      && PowerUpPassAt(st, i, n, rest, probes) && |taken| == |st.ups|
      && (forall k :: i <= k < |st.ups| ==> taken[k] == Hit(m, probes[k]))
      && n == CountFrom(taken, i) && rest == KeptFrom(st.ups, taken, i)
    }

    /** Before the first round nothing is decided yet. */
    lemma RoundsStart(m: Math, st: PassStart, probes: seq<Probe>, taken: seq<bool>)
      requires Lawful(m) && PowerUpPassAt(st, |st.ups|, 0, [], probes) && |taken| == |st.ups|
      ensures RoundsAt(m, st, |st.ups|, 0, [], probes, taken)
    {
    }

    /** After the last round every power-up is decided: what RoundsAt at 0 says about the whole pass. */
    lemma RoundsDone(m: Math, st: PassStart, n: nat, rest: seq<PowerUp>, probes: seq<Probe>, taken: seq<bool>)
      requires Lawful(m) && RoundsAt(m, st, 0, n, rest, probes, taken)
      ensures |taken| == |st.ups| == |probes| && forall k :: 0 <= k < |taken| ==> taken[k] == Hit(m, probes[k])
      ensures powerUps == Kept(st.ups, taken) && pool.Valid()
      ensures stats == st.s0.(powerUpsCollected := st.s0.powerUpsCollected + Count(taken))
      ensures pool.activeCount == MinNat(MAX_PARTICLES, st.a0 + 8 * Count(taken)) && rng.drawn == st.d0 + 16 * Count(taken)
      ensures forall k :: 0 <= k < |st.live0| ==> pool.particles[k].State() == st.live0[k]
      ensures forall k :: 0 <= k < |st.ups| ==>
        && st.ups[k].rotation == st.rots[k] + 0.05 && st.ups[k].pulsePhase == st.pulses[k] + 0.1
        && probes[k].px == st.px && probes[k].py == st.py
        && probes[k].x == st.ups[k].x && probes[k].y == st.ups[k].y && probes[k].size == st.ups[k].size
      ensures |st.ups| > 0 ==> probes[|st.ups| - 1].psize == st.psize
    {
      assert st.ups[..0] == [];
      IndexedPool(pool, st.slots, st.slotPos);
    }

    /** One round of the power-up loop with its bookkeeping: RoundsAt at i becomes RoundsAt at i - 1. */
    method Round(m: Math, now: int, ghost st: PassStart, i: int, ghost n: nat, ghost rest: seq<PowerUp>, ghost probes: seq<Probe>, ghost taken: seq<bool>)
        returns (ghost n': nat, ghost rest': seq<PowerUp>, ghost probes': seq<Probe>, ghost taken': seq<bool>)
      requires Lawful(m) && rng.Valid() && 0 < i && RoundsAt(m, st, i, n, rest, probes, taken)
      modifies this`powerUps, this`stats, st.pos.Keys`rotation, st.pos.Keys`pulsePhase
      modifies player`powerUps, player`mass, player`size, pool`activeCount, pool.particles[..], rng`drawn
      ensures RoundsAt(m, st, i - 1, n', rest', probes', taken')
    {
      var collected, probe := CollectStep(m, now, st, i, n, rest, probes);
      KeptStep(st.ups, taken, i, collected);
      n', rest' := n + (if collected then 1 else 0), (if collected then [] else [st.ups[i - 1]]) + rest;
      taken', probes' := taken[i - 1 := collected], probes[i - 1 := probe];
    }

    /** The rounds of the power-up loop, from the last index down to 0, against the state st it started from. */
    method PowerUpRounds(m: Math, now: int, ghost st: PassStart, ghost probes0: seq<Probe>) returns (ghost taken: seq<bool>, ghost probes: seq<Probe>)
      requires Lawful(m) && rng.Valid() && PowerUpPassAt(st, |st.ups|, 0, [], probes0)
      modifies this`powerUps, this`stats, st.pos.Keys`rotation, st.pos.Keys`pulsePhase
      modifies player`powerUps, player`mass, player`size, pool`activeCount, pool.particles[..], rng`drawn
      ensures |taken| == |st.ups| == |probes| && forall k :: 0 <= k < |taken| ==> taken[k] == Hit(m, probes[k])
      ensures powerUps == Kept(st.ups, taken) && pool.Valid()
      ensures stats == st.s0.(powerUpsCollected := st.s0.powerUpsCollected + Count(taken))
      ensures pool.activeCount == MinNat(MAX_PARTICLES, st.a0 + 8 * Count(taken)) && rng.drawn == st.d0 + 16 * Count(taken)
      ensures forall k :: 0 <= k < |st.live0| ==> pool.particles[k].State() == st.live0[k]
      ensures forall k :: 0 <= k < |st.ups| ==>
        && st.ups[k].rotation == st.rots[k] + 0.05 && st.ups[k].pulsePhase == st.pulses[k] + 0.1
        && probes[k].px == st.px && probes[k].py == st.py
        && probes[k].x == st.ups[k].x && probes[k].y == st.ups[k].y && probes[k].size == st.ups[k].size
      ensures |st.ups| > 0 ==> probes[|st.ups| - 1].psize == st.psize
    {
      ghost var taken0 := seq(|st.ups|, k => false);
      RoundsStart(m, st, probes0, taken0);
      ghost var n, rest;
      n, rest, probes, taken := RoundsLoop(m, now, st, probes0, taken0);
      RoundsDone(m, st, n, rest, probes, taken);
    }

    /** The state the power-up loop starts from, with the loop's invariant holding before its first round. */
    lemma PassSnapshot() returns (st: PassStart, probes0: seq<Probe>)
      requires Valid()
      ensures PowerUpPassAt(st, |st.ups|, 0, [], probes0)
      ensures st.ups == powerUps && st.px == player.x && st.py == player.y && st.psize == player.size
      ensures forall k :: 0 <= k < |st.ups| ==> st.rots[k] == st.ups[k].rotation && st.pulses[k] == st.ups[k].pulsePhase
      ensures st.pos == powerUpIndex
      ensures st.a0 == pool.activeCount && st.s0 == stats && st.d0 == rng.drawn
      ensures forall k :: 0 <= k < |st.live0| ==> st.live0[k] == pool.particles[k].State()
    {
      var P0 := powerUps;
      pool.KeepsLive(pool.Live());
      NoRepeatsIff(pool.particles[..]);
      st := PassStart(P0, player.x, player.y, player.size,
        seq(|P0|, k requires 0 <= k < |P0| reads P0 => P0[k].rotation),
        seq(|P0|, k requires 0 <= k < |P0| reads P0 => P0[k].pulsePhase),
        pool.activeCount, stats, rng.drawn, pool.Live(),
        powerUpIndex, pool.particles[..], Positions(pool.particles[..]));
      probes0 := seq(|P0|, k => Probe(0.0, 0.0, 0.0, 0.0, 0.0, 0.0));
      assert P0[..|P0|] == P0;
    }

    /** The loop itself: the rounds from the last index down to 0. */
    method RoundsLoop(m: Math, now: int, ghost st: PassStart, ghost probes0: seq<Probe>, ghost taken0: seq<bool>)
        returns (ghost n: nat, ghost rest: seq<PowerUp>, ghost probes: seq<Probe>, ghost taken: seq<bool>)
      requires Lawful(m) && rng.Valid() && RoundsAt(m, st, |st.ups|, 0, [], probes0, taken0)
      modifies this`powerUps, this`stats, st.pos.Keys`rotation, st.pos.Keys`pulsePhase
      modifies player`powerUps, player`mass, player`size, pool`activeCount, pool.particles[..], rng`drawn
      ensures RoundsAt(m, st, 0, n, rest, probes, taken)
    {
      n, rest, probes, taken := 0, [], probes0, taken0;
      var i := |powerUps|;
      while i > 0
        invariant RoundsAt(m, st, i, n, rest, probes, taken)
      {
        n, rest, probes, taken := Round(m, now, st, i, n, rest, probes, taken);
        i := i - 1;
      }
    }

    method PowerUpPass(m: Math, now: int) returns (ghost taken: seq<bool>, ghost probes: seq<Probe>)
      requires Valid() && Lawful(m)
      modifies this`powerUps, this`powerUpIndex, this`stats, powerUpIndex.Keys`rotation, powerUpIndex.Keys`pulsePhase
      modifies player`powerUps, player`mass, player`size, pool`activeCount, pool.particles[..], rng`drawn
      ensures Valid()
      ensures |taken| == |old(powerUps)| == |probes| && forall k :: 0 <= k < |taken| ==> taken[k] == Hit(m, probes[k])
      ensures powerUps == Kept(old(powerUps), taken)
      ensures stats == old(stats).(powerUpsCollected := old(stats.powerUpsCollected) + Count(taken))
      ensures forall k :: 0 <= k < |taken| ==>
        var p := old(powerUps)[k];
        && p.rotation == old(p.rotation) + 0.05 && p.pulsePhase == old(p.pulsePhase) + 0.1
        && probes[k].px == old(player.x) && probes[k].py == old(player.y)
        && probes[k].x == old(p.x) && probes[k].y == old(p.y) && probes[k].size == p.size
      ensures |taken| > 0 ==> probes[|taken| - 1].psize == old(player.size)
      ensures pool.activeCount == MinNat(MAX_PARTICLES, old(pool.activeCount) + 8 * Count(taken))
      ensures forall k :: 0 <= k < old(pool.activeCount) ==> pool.particles[k].State() == old(pool.particles[k].State())
      ensures rng.drawn == old(rng.drawn) + 16 * Count(taken)
    {
      ghost var st, probes0 := PassSnapshot();
      taken, probes := PowerUpRounds(m, now, st, probes0);
      powerUpIndex := IndexedKept(st.ups, st.pos, taken);
    }

    /**
     * The absorption branch: the player grows by the object's mass, takes 2%
     * of its momentum, the stats take the new mass and one more absorption,
     * the leaderboard is updated with the new mass (rs being its draws) and
     * gives the rank, and the camera shakes by min(8, mass / 100).
     */
    method Eat(m: Math, obj: SpaceObject) returns (ghost rs: seq<real>)
      requires Lawful(m) && rng.Valid() && camera.Some?
      modifies player`mass, player`size, player`vx, player`vy, this`stats, this`board, this`camera, rng`drawn
      ensures player.mass == old(player.mass) + obj.mass
      ensures player.size == (if player.powerUps.sizeMultiplier > 0 then BaseSize(m, player.mass) * 1.3 else BaseSize(m, player.mass))
      ensures player.vx == old(player.vx) + obj.vx * 0.02 && player.vy == old(player.vy) + obj.vy * 0.02
      ensures |rs| == |old(board)| && (forall k :: 0 <= k < |rs| ==> 0.0 <= rs[k] < 1.0)
      ensures (board, stats.rank) == UpdateLeaderboard(old(board), player.mass, rs)
      ensures stats == GameStats(player.mass, old(stats.absorbed) + 1, stats.rank, old(stats.powerUpsCollected))
      ensures camera == Some(old(camera.value).(shake := Min(8.0, obj.mass / 100.0)))
      ensures rng.drawn == old(rng.drawn) + AiRows(old(board))
    {
      var gain := obj.mass;
      player.Grow(m, gain);
      player.vx := player.vx + obj.vx * 0.02;
      player.vy := player.vy + obj.vy * 0.02;
      stats := GameStats(player.mass, stats.absorbed + 1, stats.rank, stats.powerUpsCollected);
      var draws := GrowthDraws(rng, board);
      var update := UpdateLeaderboard(board, player.mass, draws);
      board := update.0;
      stats := stats.(rank := update.1);
      camera := Some(camera.value.(shake := Min(8.0, gain / 100.0)));
      rs := draws;
    }

    /**
     * The common end of absorption and the shield: a burst of
     * min(12, size) particles at the object (its colour when eaten, cyan
     * otherwise), the object spliced out at i, and a fresh object of its
     * kind, sized from one draw, appended at least 300 from the player.
     */
    method Replace(m: Math, i: nat, obj: SpaceObject, eaten: bool, ghost live0: seq<ParticleState>) returns (ghost o: SpaceObject)
      requires Lawful(m) && pool.Valid() && rng.Valid() && pool.Keeps(live0) && i < |objects| && objects[i] == obj
      modifies this`objects, pool`activeCount, pool.particles[..], rng`drawn, rng`spotted
      ensures pool.Valid() && pool.Keeps(live0)
      ensures pool.activeCount == MinNat(MAX_PARTICLES, old(pool.activeCount) + ParticleCount(obj.size))
      ensures forall k :: old(pool.activeCount) <= k < pool.activeCount ==>
        Sprayed(pool.Live()[k], obj.x, obj.y, if eaten then obj.color else "#00ffff", 3.0)
      ensures fresh(o) && objects == old(objects[..i] + objects[i + 1..]) + [o]
      ensures o.kind == obj.kind && SizeInRange(o.kind, o.size) && FarFrom((o.x, o.y), player.x, player.y, 300.0) && 0.0 <= o.mass
      ensures rng.drawn == old(rng.drawn) + 2 * ParticleCount(obj.size) + 7 && rng.spotted == old(rng.spotted) + 1
    {
      pool.KeepsLive(live0);
      Burst(m, pool, rng, ParticleCount(obj.size), obj.x, obj.y, 6.0, 2.0, if eaten then obj.color else "#00ffff", 3.0);
      pool.KeepsLive(live0);
      o := Respawn(i, obj);
    }

    /** The splice at i and the replacement of obj's kind, at a spot at least 300 from the player. */
    method Respawn(i: nat, obj: SpaceObject) returns (o: SpaceObject)
      requires rng.Valid() && i < |objects|
      modifies this`objects, rng`drawn, rng`spotted
      ensures fresh(o) && objects == old(objects[..i] + objects[i + 1..]) + [o]
      ensures o.kind == obj.kind && SizeInRange(o.kind, o.size) && FarFrom((o.x, o.y), player.x, player.y, 300.0) && 0.0 <= o.mass
      ensures rng.drawn == old(rng.drawn) + 7 && rng.spotted == old(rng.spotted) + 1
    {
      objects := objects[..i] + objects[i + 1..];
      var x, y := rng.PointAway(player.x, player.y, 300.0);
      var r := rng.Next();
      o := NewObject(rng, x, y, SizeFor(obj.kind, r), obj.kind);
      objects := objects + [o];
    }

    /**
     * The death branch: 30 red particles at the player, a shake of 25, the
     * running flag cleared and the game over.
     */
    method Die(m: Math, ghost live0: seq<ParticleState>)
      requires Lawful(m) && pool.Valid() && rng.Valid() && pool.Keeps(live0) && camera.Some?
      modifies pool`activeCount, pool.particles[..], rng`drawn, this`camera, this`running, this`gameOver
      ensures pool.Valid() && pool.Keeps(live0)
      ensures pool.activeCount == MinNat(MAX_PARTICLES, old(pool.activeCount) + 30)
      ensures forall k :: old(pool.activeCount) <= k < pool.activeCount ==> Sprayed(pool.Live()[k], player.x, player.y, "#ff4444", 4.0)
      ensures camera == Some(old(camera.value).(shake := 25.0)) && !running && gameOver
      ensures rng.drawn == old(rng.drawn) + 60
    {
      pool.KeepsLive(live0);
      Burst(m, pool, rng, 30, player.x, player.y, 15.0, 5.0, "#ff4444", 4.0);
      pool.KeepsLive(live0);
      camera := Some(camera.value.(shake := 25.0));
      running := false;
      gameOver := true;
    }

    /** The absorption branch in full: Eat, then the burst in the object's colour and its replacement. */
    method Absorb(m: Math, i: nat, obj: SpaceObject, ghost live0: seq<ParticleState>) returns (ghost o: SpaceObject)
      requires Lawful(m) && pool.Valid() && rng.Valid() && pool.Keeps(live0) && camera.Some? && i < |objects| && objects[i] == obj
      modifies this`objects, this`stats, this`board, this`camera
      modifies player`mass, player`size, player`vx, player`vy, pool`activeCount, pool.particles[..], rng`drawn, rng`spotted
      ensures pool.Valid() && pool.Keeps(live0)
      ensures pool.activeCount == MinNat(MAX_PARTICLES, old(pool.activeCount) + ParticleCount(obj.size))
      ensures fresh(o) && objects == old(objects[..i] + objects[i + 1..]) + [o]
      ensures o.kind == obj.kind && SizeInRange(o.kind, o.size) && FarFrom((o.x, o.y), player.x, player.y, 300.0) && 0.0 <= o.mass
      ensures player.mass == old(player.mass) + obj.mass && stats.mass == player.mass
      ensures player.size == GrownSize(m, player.mass, player.powerUps.sizeMultiplier > 0)
      ensures stats.absorbed == old(stats.absorbed) + 1 && stats.powerUpsCollected == old(stats.powerUpsCollected)
      ensures camera == Some(old(camera.value).(shake := Min(8.0, obj.mass / 100.0)))
    {
      ghost var rs := Eat(m, obj);
      o := Replace(m, i, obj, true, live0);
    }

    /**
     * The second half of a round of the object loop, for obj at index i once
     * it has moved: the collision test against the player, then absorption,
     * the shield or death. probe is the test's operands, o the replacement.
     */
    method Resolve(m: Math, i: nat, obj: SpaceObject, ghost live0: seq<ParticleState>) returns (fate: Fate, ghost probe: Probe, ghost o: SpaceObject)
      requires Lawful(m) && pool.Valid() && rng.Valid() && pool.Keeps(live0) && camera.Some? && i < |objects| && objects[i] == obj
      modifies this`objects, this`stats, this`board, this`camera, this`running, this`gameOver
      modifies player`mass, player`size, player`vx, player`vy, pool`activeCount, pool.particles[..], rng`drawn, rng`spotted
      ensures pool.Valid() && pool.Keeps(live0) && camera.Some?
      ensures probe == Probe(player.x, player.y, old(player.size), obj.x, obj.y, obj.size)
      ensures fate == FateOf(m, probe, player.powerUps.shield > 0)
      ensures pool.activeCount == MinNat(MAX_PARTICLES, old(pool.activeCount) + Sparks(fate, obj.size))
      ensures fate.Replaced() ==>
        && fresh(o) && objects == old(objects[..i] + objects[i + 1..]) + [o]
        && o.kind == obj.kind && SizeInRange(o.kind, o.size) && FarFrom((o.x, o.y), player.x, player.y, 300.0) && 0.0 <= o.mass
      ensures !fate.Replaced() ==> objects == old(objects)
      ensures fate == Eaten ==>
        && player.mass == old(player.mass) + obj.mass && player.size == GrownSize(m, player.mass, player.powerUps.sizeMultiplier > 0)
        && stats.absorbed == old(stats.absorbed) + 1 && stats.powerUpsCollected == old(stats.powerUpsCollected)
        && camera.value.shake == Min(8.0, obj.mass / 100.0)
      ensures fate != Eaten ==> player.mass == old(player.mass) && player.size == old(player.size) && stats == old(stats) && board == old(board)
      ensures fate == Died ==> camera.value.shake == 25.0 && !running && gameOver
      ensures fate != Died ==> running == old(running) && gameOver == old(gameOver)
      ensures fate == Drifted || fate == Shielded ==> camera == old(camera)
    {
      probe := Probe(player.x, player.y, player.size, obj.x, obj.y, obj.size);
      o := obj;
      if !CheckCollision(m, player.x, player.y, player.size, obj.x, obj.y, obj.size) {
        fate := Drifted;
      } else if player.size > obj.size * 1.1 {
        fate := Eaten;
        o := Absorb(m, i, obj, live0);
      } else if player.powerUps.shield > 0 {
        fate := Shielded;
        o := Replace(m, i, obj, false, live0);
      } else {
        fate := Died;
        Die(m, live0);
      }
    }

    /**
     * The player, stats, camera and flags part-way through the object loop
     * that started from st, after eats absorptions that brought gained mass:
     * - the pool keeps its shape and the camera exists with shake >= 0;
     * - the mass is the starting mass plus gained, absorbed has risen by eats
     *   and powerUpsCollected is unchanged;
     * - before the first round the player's size is the starting size;
     * - the running and game-over flags change only when died, that is when
     *   the round at index i killed the player.
     */
    ghost predicate Scene(st: ObjStart, i: int, died: bool, eats: nat, gained: real)
      reads this, player, pool
    {
      && pool.Shape() && camera.Some? && 0.0 <= camera.value.shake
      && player.mass == st.pmass + gained
      && stats.absorbed == st.s0.absorbed + eats && stats.powerUpsCollected == st.s0.powerUpsCollected
      && (i == |st.objs| ==> player.size == st.psize)
      && (died ==> i < |st.objs| && !running && gameOver)
      && (!died ==> running == st.running0 && gameOver == st.over0)
    }

    /**
     * The object loop with the rounds at indices i .. |st.objs| - 1 done, st
     * being the state it started from, and the objects from index moved on
     * having made their move (moved is i, or i - 1 halfway through the round
     * at i - 1).
     */
    ghost predicate ObjectPassAt(st: ObjStart, i: int, moved: int, died: bool, t: Tally)
      reads this, player, st.objs, st.spots.Keys, pool
    {
      && i - 1 <= moved <= i && 0 <= moved
      && Listed(st, i, objects, t.rest, t.added, t.addedPos) && Probed(st, i, t.probes)
      && Scene(st, i, died, t.eats, t.gained) && MovedFrom(st.objs, st.was, st.lands, t.vels, moved) && Still(st)
    }

    /**
     * The first half of the round at index i - 1: the object, which still
     * stands there, moves and feels the gravity of the bodies near it and of
     * the player, which leaves it the velocity v that Pulled gives for the
     * player's current size and mass; no other object and nothing else
     * changes.
     */
    method MoveStep(m: Math, ghost st: ObjStart, i: int, ghost vels: seq<(real, real)>) returns (ghost v: (real, real))
      requires Lawful(m) && Sound(st) && Charted(st) && 0 < i <= |st.objs| && i - 1 < |objects| && objects[i - 1] == st.objs[i - 1]
      requires grid.Valid() && grid.cellSize == GRID_CELL && grid.grid == st.cells && player.x == st.px && player.y == st.py
      requires MovedFrom(st.objs, st.was, st.lands, vels, i) && Still(st)
      modifies st.objs[i - 1]
      ensures MovedFrom(st.objs, st.was, st.lands, vels[i - 1 := v], i - 1) && Still(st)
      ensures v == Pulled(m, st, i - 1, player.size, player.mass)
    {
      var obj := objects[i - 1];
      UpdateAt(st, i, obj, vels);
      v := AttractAt(m, st, i, obj, vels[i - 1 := Rebound(st.was[i - 1], obj.size)]);
      assert vels[i - 1 := Rebound(st.was[i - 1], obj.size)][i - 1 := v] == vels[i - 1 := v];
    }

    /**
     * The first step of the round at index i - 1: updateSpaceObject takes
     * obj, the object at that index, to st.lands[i - 1] with the Rebound
     * velocity; no other object moves.
     */
    method UpdateAt(ghost st: ObjStart, i: int, obj: SpaceObject, ghost vels: seq<(real, real)>)
      requires Sound(st) && Charted(st) && 0 < i <= |st.objs| && obj == st.objs[i - 1]
      requires MovedFrom(st.objs, st.was, st.lands, vels, i) && Still(st)
      modifies obj
      ensures MovedFrom(st.objs, st.was, st.lands, vels[i - 1 := Rebound(st.was[i - 1], obj.size)], i - 1) && Still(st)
    {
      ghost var w := StateOf(obj);
      obj.Update();
      assert (obj.x, obj.y) == Landing(w, obj.size) == st.lands[i - 1];
      assert (obj.vx, obj.vy) == Rebound(st.was[i - 1], obj.size);
      Apart(st, i);
      assert Moved(obj, st.was[i - 1], st.lands[i - 1], Rebound(st.was[i - 1], obj.size));
    }

    /**
     * The second step of the round at index i - 1: the gravity of the
     * bodies near obj, the object at that index, and of the player leaves
     * it the velocity v that Pulled gives; no other object moves.
     */
    method AttractAt(m: Math, ghost st: ObjStart, i: int, obj: SpaceObject, ghost vels: seq<(real, real)>)
        returns (ghost v: (real, real))
      requires Lawful(m) && Sound(st) && Charted(st) && 0 < i <= |st.objs| && obj == st.objs[i - 1]
      requires grid.Valid() && grid.cellSize == GRID_CELL && grid.grid == st.cells && player.x == st.px && player.y == st.py
      requires MovedFrom(st.objs, st.was, st.lands, vels, i - 1) && Still(st) && vels[i - 1] == Rebound(st.was[i - 1], obj.size)
      modifies obj`vx, obj`vy
      ensures MovedFrom(st.objs, st.was, st.lands, vels[i - 1 := v], i - 1) && Still(st)
      ensures v == Pulled(m, st, i - 1, player.size, player.mass)
    {
      v := GravityAt(m, st, i, obj, vels);
      Apart(st, i);
      assert Moved(obj, st.was[i - 1], st.lands[i - 1], v);
    }

    /**
     * The gravity pass of the round at index i - 1 on obj, the object at
     * that index: it leaves obj the velocity v that Pulled gives.
     */
    method GravityAt(m: Math, ghost st: ObjStart, i: int, obj: SpaceObject, ghost vels: seq<(real, real)>)
        returns (ghost v: (real, real))
      requires Lawful(m) && Charted(st) && 0 < i <= |st.objs| && obj == st.objs[i - 1]
      requires grid.Valid() && grid.cellSize == GRID_CELL && grid.grid == st.cells && player.x == st.px && player.y == st.py
      requires MovedFrom(st.objs, st.was, st.lands, vels, i - 1) && Still(st) && vels[i - 1] == Rebound(st.was[i - 1], obj.size)
      modifies obj`vx, obj`vy
      ensures (obj.vx, obj.vy) == v == Pulled(m, st, i - 1, player.size, player.mass)
    {
      assert Moved(obj, st.was[i - 1], st.lands[i - 1], vels[i - 1]);
      SeenBodies(st, i - 1, vels, NearbyAt(st, i - 1));
      var nearby := Attract(m, grid, player, obj);
      BodiesKept(nearby);
      v := (obj.vx, obj.vy);
    }

    /**
     * During the round at index k, once its object has moved, every object of
     * the grid stands where SpotAt puts it, so the bodies the gravity loop
     * reads from the grid's objects near are BodiesAt.
     */
    lemma SeenBodies(st: ObjStart, k: int, vels: seq<(real, real)>, near: seq<SpaceObject>)
      requires Charted(st) && 0 <= k < |st.objs| && MovedFrom(st.objs, st.was, st.lands, vels, k) && Still(st)
      requires near == Nearby(st.cells, Floor(st.lands[k].0 / GRID_CELL), Floor(st.lands[k].1 / GRID_CELL), Ceil(200.0 / GRID_CELL))
      ensures Bodies(near) == BodiesAt(st, k, near)
    {
      var cx, cy, r := Floor(st.lands[k].0 / GRID_CELL), Floor(st.lands[k].1 / GRID_CELL), Ceil(200.0 / GRID_CELL);
      forall j | 0 <= j < |near| ensures BodyOf(near[j]) == BodiesAt(st, k, near)[j] {
        var q := near[j];
        NearbyMembers(st.cells, cx, cy, r, q);
        var a, b :| cx - r <= a <= cx + r && cy - r <= b <= cy + r && InCell(st.cells, a, b, q);
        assert q in CellAt(st.cells, (a, b));
        if q in st.pos {
          var p := st.pos[q];
          assert st.objs[p] == q;
          if p < k {
            assert StateOf(st.objs[p]) == st.was[p];
          } else {
            assert Moved(st.objs[p], st.was[p], st.lands[p], vels[p]);
          }
        }
      }
    }

    /**
     * Resolve for the object at index i - 1 of the list the loop started
     * from, which still stands there: the collision test, its branch, and the
     * world state it leaves behind.
     */
    method ResolveAt(m: Math, ghost st: ObjStart, i: int, ghost eats: nat, ghost gained: real)
        returns (fate: Fate, ghost probe: Probe, ghost o: SpaceObject)
      requires Lawful(m) && 0 < i <= |st.objs| && i - 1 < |objects| && objects[i - 1] == st.objs[i - 1]
      requires Scene(st, i, false, eats, gained)
      requires Fixed(st) == true && Steady(st)
      modifies this`objects, this`stats, this`board, this`camera, this`running, this`gameOver
      modifies player`mass, player`size, player`vx, player`vy, pool`activeCount, pool.particles[..], rng`drawn, rng`spotted
      ensures fate == FateOf(m, probe, st.shielded) && Steady(st)
      ensures var obj := st.objs[i - 1];
        && probe.px == st.px && probe.py == st.py && probe.x == obj.x && probe.y == obj.y && probe.size == obj.size
        && probe.psize == old(player.size) && (i == |st.objs| ==> probe.psize == st.psize)
      ensures player.size == if fate == Eaten then GrownSize(m, player.mass, st.magnified) else old(player.size)
      ensures var e := fate == Eaten;
        Scene(st, i - 1, fate == Died, eats + (if e then 1 else 0), gained + (if e then st.objs[i - 1].mass else 0.0))
      ensures fate.Replaced() ==>
        && fresh(o) && objects == old(objects[..i - 1] + objects[i..]) + [o]
        && o.kind == st.objs[i - 1].kind && SizeInRange(o.kind, o.size) && 0.0 <= o.mass
      ensures !fate.Replaced() ==> objects == old(objects)
    {
      var obj := objects[i - 1];
      fate, probe, o := Resolve(m, i - 1, obj, []);
    }

    /** The second half of the round at index i - 1: the collision test and its branch. */
    method ResolveStep(m: Math, ghost st: ObjStart, i: int, ghost t: Tally) returns (fate: Fate, ghost probe: Probe, ghost o: SpaceObject)
      requires Lawful(m) && 0 < i && ObjectPassAt(st, i, i - 1, false, t)
      requires |t.gone| == |t.eaten| == |st.objs|
      requires Fixed(st) == true && Steady(st)
      modifies this`objects, this`stats, this`board, this`camera, this`running, this`gameOver
      modifies player`mass, player`size, player`vx, player`vy, pool`activeCount, pool.particles[..], rng`drawn, rng`spotted
      ensures fate == FateOf(m, probe, st.shielded) && Steady(st)
      ensures fate.Replaced() ==> o.kind == st.objs[i - 1].kind
      ensures probe.psize == old(player.size)
      ensures player.size == if fate == Eaten then GrownSize(m, player.mass, st.magnified) else old(player.size)
      ensures ObjectPassAt(st, i - 1, i - 1, fate == Died, After(st, i, t, fate, probe, o))
    {
      ghost var L0 := objects;
      Splice(st.objs, i, t.rest + t.added);
      fate, probe, o := ResolveAt(m, st, i, t.eats, t.gained);
      assert (probe.x, probe.y) == st.lands[i - 1];
      ResolvedPass(st, i, t, fate, probe, o, L0);
    }

    /**
     * What ResolveAt leaves, from the list L0 the round at index i - 1 found,
     * is the object loop one round further on: the object kept, or spliced
     * out with o appended, the probe recorded, and every object where the
     * round found it.
     */
    lemma ResolvedPass(st: ObjStart, i: int, t: Tally, fate: Fate, probe: Probe, o: SpaceObject, L0: seq<SpaceObject>)
      requires 0 < i && Listed(st, i, L0, t.rest, t.added, t.addedPos) == true && Probed(st, i, t.probes) == true
      requires |t.gone| == |t.eaten| == |st.objs|
      requires fate.Replaced() ==> o !in st.pos && o !in t.added && SizeInRange(o.kind, o.size) && 0.0 <= o.mass
      requires fate.Replaced() ==> objects == L0[..i - 1] + L0[i..] + [o]
      requires !fate.Replaced() ==> objects == L0
      requires probe.px == st.px && probe.py == st.py && probe.size == st.objs[i - 1].size && (probe.x, probe.y) == st.lands[i - 1]
      requires i == |st.objs| ==> probe.psize == st.psize
      requires var e := fate == Eaten;
        Scene(st, i - 1, fate == Died, t.eats + (if e then 1 else 0), t.gained + (if e then st.objs[i - 1].mass else 0.0)) == true
      requires MovedFrom(st.objs, st.was, st.lands, t.vels, i - 1) == true && Still(st) == true
      ensures ObjectPassAt(st, i - 1, i - 1, fate == Died, After(st, i, t, fate, probe, o))
    {
      ListedStep(st, i, L0, t.rest, t.added, t.addedPos, fate.Replaced(), o);
      ProbedStep(st, i, t.probes, probe);
    }

    /**
     * Facts that hold throughout the object loop because no round writes
     * what they read: the snapshot st is Sound, the random source is
     * well-formed and the grid's cell size is 200.
     */
    ghost predicate Fixed(st: ObjStart)
    {
      Sound(st) && rng.Valid() && grid.cellSize == GRID_CELL
    }

    /**
     * Facts about state the rounds may write, which each round re-establishes:
     * - the player's centre, shield and size power-up are as at the start,
     *   because a round changes only the player's mass, size and velocity;
     * - the grid's buckets are still well-formed and still the snapshot's;
     * - the pool's slots are still distinct particles of its own;
     * - the power-up list is still indexed without repeats.
     */
    ghost predicate Steady(st: ObjStart)
      reads this, player, grid, pool.particles
    {
      && player.x == st.px && player.y == st.py && (player.powerUps.shield > 0) == st.shielded
      && (player.powerUps.sizeMultiplier > 0) == st.magnified
      && grid.Valid() && grid.grid == st.cells && pool.Distinct() && pool.Housed() && Indexed(powerUps, powerUpIndex)
    }

    /** ObjectPassAt between rounds, together with what the rounds from i on decided and the player's size they left. */
    ghost predicate ObjRoundsAt(m: Math, st: ObjStart, i: int, died: bool, t: Tally)
      requires Lawful(m)
      reads this, player, st.objs, st.spots.Keys, pool
    {
      ObjectPassAt(st, i, i, died, t) && Decided(m, st, i, died, t) && player.size == SizeAfter(m, st, i, t)
    }

    /**
     * The object loop's invariant between rounds: ObjRoundsAt, with the state
     * the rounds may write still Steady. It is stated at depth 2, which
     * BetweenIs unfolds; where the invariant is only passed along, the
     * verifier then does not unfold it.
     */
    ghost predicate Between(m: Math, st: ObjStart, i: int, died: bool, t: Tally, depth: nat)
      requires Lawful(m)
      reads this, player, st.objs, st.spots.Keys, pool, grid, pool.particles
      decreases depth
    {
      if depth == 0 then ObjRoundsAt(m, st, i, died, t) && Steady(st) else Between(m, st, i, died, t, depth - 1)
    }

    /** Between at depth 2 is ObjRoundsAt with Steady. */
    lemma BetweenIs(m: Math, st: ObjStart, i: int, died: bool, t: Tally)
      requires Lawful(m)
      ensures Between(m, st, i, died, t, 2) <==> ObjRoundsAt(m, st, i, died, t) && Steady(st)
    {
      assert Between(m, st, i, died, t, 2) == Between(m, st, i, died, t, 1) == Between(m, st, i, died, t, 0);
    }

    /**
     * The part of the invariant at index i that the move of the object at
     * index i - 1 cannot disturb: the list, the probes, the scene, what the
     * rounds decided, the player's size and the Steady and Fixed state.
     * Stated at depth 2, like Between; ParkedIs unfolds it.
     */
    ghost predicate Parked(m: Math, st: ObjStart, i: int, t: Tally, depth: nat)
      requires Lawful(m)
      reads this, player, pool, grid, pool.particles, rng
      decreases depth
    {
      if depth == 0 then
        && Listed(st, i, objects, t.rest, t.added, t.addedPos) && Probed(st, i, t.probes) && Scene(st, i, false, t.eats, t.gained)
        && Decided(m, st, i, false, t) && player.size == SizeAfter(m, st, i, t) && Steady(st) && Fixed(st)
      else Parked(m, st, i, t, depth - 1)
    }

    /** Parked at depth 2 is its conjuncts. */
    lemma ParkedIs(m: Math, st: ObjStart, i: int, t: Tally)
      requires Lawful(m)
      ensures Parked(m, st, i, t, 2) <==>
        && Listed(st, i, objects, t.rest, t.added, t.addedPos) && Probed(st, i, t.probes) && Scene(st, i, false, t.eats, t.gained)
        && Decided(m, st, i, false, t) && player.size == SizeAfter(m, st, i, t) && Steady(st) && Fixed(st)
    {
      assert Parked(m, st, i, t, 2) == Parked(m, st, i, t, 1) == Parked(m, st, i, t, 0);
    }

    /**
     * The round at index i - 1 halfway, after its move: t1 records the
     * velocity v the move left, which Pulled gives for the size and mass the
     * rounds from i on left the player; the objects from index i - 1 on have
     * moved and the rest of the invariant is Parked. Stated at depth 2, like
     * Between; MidwayIs unfolds it.
     */
    ghost predicate Midway(m: Math, st: ObjStart, i: int, t: Tally, v: (real, real), t1: Tally, depth: nat)
      requires Lawful(m)
      reads this, player, st.objs, st.spots.Keys, pool, grid, pool.particles, rng
      decreases depth
    {
      if depth == 0 then
        && 0 < i <= |st.objs| == |st.was| == |st.lands| && |t.eaten| == |t.vels| == |st.objs|
        && t1 == t.(vels := t.vels[i - 1 := v]) && Parked(m, st, i, t, 2)
        && MovedFrom(st.objs, st.was, st.lands, t1.vels, i - 1) && Still(st)
        && v == Pulled(m, st, i - 1, player.size, MassAfter(st, i, t))
      else Midway(m, st, i, t, v, t1, depth - 1)
    }

    /** Midway at depth 2 is its conjuncts. */
    lemma MidwayIs(m: Math, st: ObjStart, i: int, t: Tally, v: (real, real), t1: Tally)
      requires Lawful(m)
      ensures Midway(m, st, i, t, v, t1, 2) <==>
        && 0 < i <= |st.objs| == |st.was| == |st.lands| && |t.eaten| == |t.vels| == |st.objs|
        && t1 == t.(vels := t.vels[i - 1 := v]) && Parked(m, st, i, t, 2)
        && MovedFrom(st.objs, st.was, st.lands, t1.vels, i - 1) && Still(st)
        && v == Pulled(m, st, i - 1, player.size, MassAfter(st, i, t))
    {
      assert Midway(m, st, i, t, v, t1, 2) == Midway(m, st, i, t, v, t1, 1) == Midway(m, st, i, t, v, t1, 0);
    }

    /** One round of the object loop, at index i - 1: the move, then the collision and its branch. */
    method ObjectRound(m: Math, ghost st: ObjStart, i: int, ghost t: Tally) returns (died: bool, ghost t': Tally)
      requires Lawful(m) && 0 < i <= |st.objs| && Between(m, st, i, false, t, 2) == true && Fixed(st) == true && Charted(st)
      modifies this`objects, this`stats, this`board, this`camera, this`running, this`gameOver, st.objs
      modifies player`mass, player`size, player`vx, player`vy, pool`activeCount, pool.particles[..], rng`drawn, rng`spotted
      ensures Between(m, st, i - 1, died, t', 2) == true
    {
      ghost var v, t1 := MoveAt(m, st, i, t);
      died, t' := SettleAt(m, st, i, t, v, t1);
    }

    /**
     * ResolveStep for the round at index i - 1 once MoveAt has left its
     * object the velocity v: the round's fate, what it decided, and the
     * player's size it leaves.
     */
    method SettleAt(m: Math, ghost st: ObjStart, i: int, ghost t: Tally, ghost v: (real, real), ghost t1: Tally)
        returns (died: bool, ghost t': Tally)
      requires Lawful(m) && Midway(m, st, i, t, v, t1, 2) == true
      modifies this`objects, this`stats, this`board, this`camera, this`running, this`gameOver
      modifies player`mass, player`size, player`vx, player`vy, pool`activeCount, pool.particles[..], rng`drawn, rng`spotted
      ensures Between(m, st, i - 1, died, t', 2) == true
    {
      MidwayIs(m, st, i, t, v, t1);
      ParkedIs(m, st, i, t);
      var fate, probe, o := ResolveStep(m, st, i, t1);
      DecidedStep(m, st, i, t, v, fate, probe, o);
      RoundClosed(m, st, i, t, v, fate, probe, o);
      died, t' := fate == Died, After(st, i, t1, fate, probe, o);
    }

    /**
     * The end of the round at index i - 1: what ResolveStep leaves, with the
     * velocity v that MoveAt left, is the loop's invariant one index lower.
     */
    lemma RoundClosed(m: Math, st: ObjStart, i: int, t: Tally, v: (real, real), fate: Fate, probe: Probe, o: SpaceObject)
      requires Lawful(m) && 0 < i <= |st.objs| && |t.probes| == |t.gone| == |t.eaten| == |t.vels| == |st.objs| && Steady(st)
      requires probe.psize == SizeAfter(m, st, i, t)
      requires Decided(m, st, i - 1, fate == Died, After(st, i, t.(vels := t.vels[i - 1 := v]), fate, probe, o))
      requires player.size == if fate == Eaten then GrownSize(m, player.mass, st.magnified) else probe.psize
      requires ObjectPassAt(st, i - 1, i - 1, fate == Died, After(st, i, t.(vels := t.vels[i - 1 := v]), fate, probe, o))
      ensures Between(m, st, i - 1, fate == Died, After(st, i, t.(vels := t.vels[i - 1 := v]), fate, probe, o), 2) == true
    {
      var t' := After(st, i, t.(vels := t.vels[i - 1 := v]), fate, probe, o);
      assert player.size == SizeAfter(m, st, i - 1, t') by {
        assert t'.eaten[i - 1] == (fate == Eaten) && t'.probes[i - 1] == probe;
        assert player.mass == MassAfter(st, i - 1, t');
      }
      BetweenIs(m, st, i - 1, fate == Died, t');
    }

    /**
     * MoveStep for the round at index i - 1 between rounds: the tally t1
     * records the velocity v it left, which Pulled gives for the size and
     * mass the rounds from i on left the player.
     */
    method MoveAt(m: Math, ghost st: ObjStart, i: int, ghost t: Tally) returns (ghost v: (real, real), ghost t1: Tally)
      requires Lawful(m) && 0 < i <= |st.objs| && Between(m, st, i, false, t, 2) == true && Fixed(st) == true && Charted(st)
      modifies st.objs[i - 1]
      ensures Midway(m, st, i, t, v, t1, 2) == true
    {
      BetweenIs(m, st, i, false, t);
      ParkedIs(m, st, i, t);
      assert player.size == SizeAfter(m, st, i, t) && player.mass == MassAfter(st, i, t);
      Splice(st.objs, i, t.rest + t.added);
      v := MoveStep(m, st, i, t.vels);
      t1 := t.(vels := t.vels[i - 1 := v]);
      MidwayIs(m, st, i, t, v, t1);
    }

    /** The loop itself: the rounds from the last index down, until index 0 or the round that ends the game. */
    method ObjectRounds(m: Math, ghost st: ObjStart, ghost t0: Tally) returns (died: bool, ghost stop: int, ghost t: Tally)
      requires Lawful(m) && |objects| == |st.objs| && Between(m, st, |st.objs|, false, t0, 2) == true && Fixed(st) == true && Charted(st)
      modifies this`objects, this`stats, this`board, this`camera, this`running, this`gameOver, st.objs
      modifies player`mass, player`size, player`vx, player`vy, pool`activeCount, pool.particles[..], rng`drawn, rng`spotted
      ensures Between(m, st, stop, died, t, 2) == true && (died || stop == 0)
    {
      died, t := false, t0;
      var i: nat := |objects|;
      while i > 0 && !died
        invariant i <= |st.objs| && Between(m, st, i, died, t, 2) == true
        decreases i
      {
        died, t := ObjectRound(m, st, i, t);
        i := i - 1;
      }
      stop := i;
    }

    /**
     * The world as the object loop finds it: the list and its index, each
     * object's moving fields and where its move will take it, the grid's
     * cells and the centre of each object filed there off the list, the
     * player's centre, size and mass, whether the shield and the size
     * power-up run, the stats and the two flags.
     */
    ghost function Start(): ObjStart
      requires NoRepeats(objects)
      reads this, player, objects, grid, Inhabitants(grid.grid)
    {
      var O := objects;
      var was := seq(|O|, k requires 0 <= k < |O| reads O => StateOf(O[k]));
      var lands := seq(|O|, k requires 0 <= k < |O| => Landing(was[k], O[k].size));
      var spots := map q | q in Inhabitants(grid.grid) && q !in O :: (q.x, q.y);
      ObjStart(O, Positions(O), was, lands, grid.grid, spots, player.x, player.y, player.size, player.mass,
               player.powerUps.shield > 0, player.powerUps.sizeMultiplier > 0, stats, running, gameOver)
    }

    /** The state the object loop starts from, with the loop's invariant holding before its first round. */
    lemma ObjSnapshot(m: Math) returns (st: ObjStart, t0: Tally)
      requires Lawful(m) && Valid() && camera.Some?
      ensures st == Start() && ObjRoundsAt(m, st, |st.objs|, false, t0) && Fixed(st) && Charted(st) && Steady(st)
    {
      st := Start();
      var O := objects;
      var none := seq(|O|, k => false);
      t0 := Tally([], [], map[], seq(|O|, k => Probe(0.0, 0.0, 0.0, 0.0, 0.0, 0.0)), 0, 0.0, none, none, seq(|O|, k => (0.0, 0.0)));
      assert O[..|O|] == O;
      forall c, q | q in CellAt(st.cells, c) ensures q in st.pos || q in st.spots {
        if q in O {
          var k :| 0 <= k < |O| && O[k] == q;
          assert st.pos[O[k]] == k;
        }
      }
    }

    /**
     * The list the object loop leaves when it stops at index stop, at 0 or at
     * the round that ended the game: the list it started from with its front
     * untouched, the objects it kept from stop on and the replacements, of
     * the kinds of the objects spliced out, so the same kinds as before; the
     * player's mass and the stats grown by the absorptions.
     */
    lemma ObjListDone(m: Math, st: ObjStart, stop: int, died: bool, t: Tally)
      requires Lawful(m) && Sound(st) && ObjRoundsAt(m, st, stop, died, t) == true && (died || stop == 0)
      ensures 0 <= stop <= |st.objs| && (died ==> stop < |st.objs|)
      ensures objects == st.objs[..stop] + KeptFrom(st.objs, t.gone, stop) + t.added
      ensures NoRepeats(objects) && forall k :: 0 <= k < |objects| ==> 0.0 <= objects[k].mass
      ensures multiset(Kinds(objects)) == multiset(Kinds(st.objs))
      ensures Kinds(t.added) == Kinds(GoneFrom(st.objs, t.gone, stop))
      ensures forall j :: 0 <= j < |t.added| ==> SizeInRange(t.added[j].kind, t.added[j].size)
      ensures player.mass == st.pmass + GainFrom(st.objs, t.eaten, stop)
      ensures stats.absorbed == st.s0.absorbed + CountFrom(t.eaten, stop) && stats.powerUpsCollected == st.s0.powerUpsCollected
      ensures pool.Shape() && camera.Some? && 0.0 <= camera.value.shake
      ensures died ==> !running && gameOver
      ensures !died ==> running == st.running0 && gameOver == st.over0
    {
      PassListNoRepeats(st.objs, st.pos, t.gone, stop, t.added, t.addedPos);
      PassKinds(st.objs, t.gone, stop, t.added);
      KeptFromWithin(st.objs, t.gone, stop);
      forall k | 0 <= k < |objects| ensures 0.0 <= objects[k].mass {
        var x := objects[k];
        if k < |st.objs[..stop] + t.rest| {
          assert x in st.objs by {
            if k < stop {
              assert x == st.objs[k];
            } else {
              assert x in t.rest && x in st.objs[stop..];
            }
          }
        } else {
          assert x == t.added[k - |st.objs[..stop] + t.rest|];
        }
      }
    }

    /**
     * The rounds the object loop ran, from the last index down to stop: each
     * object moved and met the collision test recorded in t.probes, whose
     * fate decided what t.gone and t.eaten say; the objects before stop kept
     * their state.
     */
    lemma ObjRoundsDone(m: Math, st: ObjStart, stop: int, died: bool, t: Tally)
      requires Lawful(m) && Sound(st) && ObjRoundsAt(m, st, stop, died, t) == true
      ensures 0 <= stop <= |st.objs| == |t.probes| == |t.gone| == |t.eaten| == |st.was|
      ensures forall k :: stop <= k < |st.objs| ==>
        Settled(FateOf(m, t.probes[k], st.shielded), t.gone[k], t.eaten[k], died && k == stop)
      ensures forall k :: stop <= k < |st.objs| ==>
        var land := Landing(st.was[k], st.objs[k].size);
        && t.probes[k].px == st.px && t.probes[k].py == st.py && t.probes[k].size == st.objs[k].size
        && (t.probes[k].x, t.probes[k].y) == land && Moved(st.objs[k], st.was[k], land, t.vels[k])
      ensures stop < |st.objs| ==> t.probes[|st.objs| - 1].psize == st.psize
      ensures forall k :: stop < k <= |st.objs| ==> t.probes[k - 1].psize == SizeAfter(m, st, k, t)
      ensures forall k :: stop < k <= |st.objs| ==> t.vels[k - 1] == Pulled(m, st, k - 1, t.probes[k - 1].psize, MassAfter(st, k, t))
      ensures forall k :: 0 <= k < stop ==> StateOf(st.objs[k]) == st.was[k]
      ensures player.size == SizeAfter(m, st, stop, t)
    {
      forall k | stop < k <= |st.objs|
        ensures t.vels[k - 1] == Pulled(m, st, k - 1, t.probes[k - 1].psize, MassAfter(st, k, t))
      {
        assert t.vels[k - 1] == PullAt(m, st, k, t);
      }
    }

    /**
     * The rounds of the object loop when it stops at index stop, at 0 or at
     * the round that ended the game (died), from the world st: each round
     * from the last index down to stop moved its object as Moved says, left
     * it the velocity Pulled gives for the player's size and mass in that
     * round, and ran the collision test on it and the player (t.probes), the
     * first with the player's size at the start and each later one with the
     * size the round before left (SizeAfter), and settled the fate FateOf
     * gives as Settled says; the objects before stop have not moved.
     */
    ghost predicate RoundsOutcome(m: Math, st: ObjStart, stop: int, died: bool, t: Tally)
      requires Lawful(m)
      reads st.objs
    {
      && 0 <= stop <= |st.objs| == |t.probes| == |t.gone| == |t.eaten| == |t.vels| == |st.was| == |st.lands|
      && (died || stop == 0) && (died ==> stop < |st.objs|)
      && (forall k :: stop <= k < |st.objs| ==>
           Settled(FateOf(m, t.probes[k], st.shielded), t.gone[k], t.eaten[k], died && k == stop))
      && (forall k :: stop <= k < |st.objs| ==>
           var land := Landing(st.was[k], st.objs[k].size);
           && t.probes[k].px == st.px && t.probes[k].py == st.py && t.probes[k].size == st.objs[k].size
           && (t.probes[k].x, t.probes[k].y) == land && Moved(st.objs[k], st.was[k], land, t.vels[k]))
      && (stop < |st.objs| ==> t.probes[|st.objs| - 1].psize == st.psize)
      && (forall k :: stop < k <= |st.objs| ==> t.probes[k - 1].psize == SizeAfter(m, st, k, t))
      && (forall k :: stop < k <= |st.objs| ==> t.vels[k - 1] == Pulled(m, st, k - 1, t.probes[k - 1].psize, MassAfter(st, k, t)))
      && (forall k :: 0 <= k < stop ==> StateOf(st.objs[k]) == st.was[k])
    }

    /**
     * The world the object loop leaves when it stops at index stop, after
     * the rounds RoundsOutcome describes: the list it started from with its
     * front kept, the objects kept from stop on and the replacements, of the
     * kinds of the objects spliced out, so the same kinds as before; the
     * player's mass and the absorbed count grown by the absorptions; the
     * game over exactly when a round ended it.
     */
    ghost predicate ListOutcome(st: ObjStart, stop: int, died: bool, t: Tally)
      reads this, player
    {
      && 0 <= stop <= |st.objs| == |t.gone| == |t.eaten|
      && objects == st.objs[..stop] + KeptFrom(st.objs, t.gone, stop) + t.added
      && Kinds(t.added) == Kinds(GoneFrom(st.objs, t.gone, stop))
      && (forall j :: 0 <= j < |t.added| ==> SizeInRange(t.added[j].kind, t.added[j].size))
      && multiset(Kinds(objects)) == multiset(Kinds(st.objs))
      && player.mass == st.pmass + GainFrom(st.objs, t.eaten, stop)
      && stats.absorbed == st.s0.absorbed + CountFrom(t.eaten, stop) && stats.powerUpsCollected == st.s0.powerUpsCollected
      && (died ==> !running && gameOver)
      && (!died ==> running == st.running0 && gameOver == st.over0)
    }

    /** The loop's invariant at the index it stopped at gives RoundsOutcome and ListOutcome, and what the world's Valid needs of the list. */
    lemma ObjPassDone(m: Math, st: ObjStart, stop: int, died: bool, t: Tally)
      requires Lawful(m) && Sound(st) && ObjRoundsAt(m, st, stop, died, t) == true && (died || stop == 0)
      ensures RoundsOutcome(m, st, stop, died, t) && ListOutcome(st, stop, died, t)
      ensures player.size == SizeAfter(m, st, stop, t)
      ensures NoRepeats(objects) && (forall k :: 0 <= k < |objects| ==> 0.0 <= objects[k].mass)
      ensures pool.Shape() && camera.Some? && 0.0 <= camera.value.shake
    {
      ObjListDone(m, st, stop, died, t);
      ObjRoundsDone(m, st, stop, died, t);
    }

    /**
     * The object loop of gameLoop: from the last index down, each object
     * moves, then meets the player, until index 0 or the round that ends the
     * game. st records the state the loop started from (the list, each
     * object's moving fields, the grid, the player's centre, size and mass,
     * its shield and its size power-up); t records each visited round's
     * collision test (probes), whether it spliced its object out (gone),
     * whether the player absorbed it (eaten) and the velocity it left its
     * object with (vels); stop is the index the loop stopped at. The player
     * ends with the size the last round left it.
     */
    method ObjectPass(m: Math) returns (died: bool, ghost st: ObjStart, ghost stop: int, ghost t: Tally)
      requires Lawful(m) && Valid() && camera.Some?
      modifies this`objects, this`stats, this`board, this`camera, this`running, this`gameOver, objects
      modifies player`mass, player`size, player`vx, player`vy, pool`activeCount, pool.particles[..], rng`drawn, rng`spotted
      ensures Valid() && camera.Some?
      ensures st == old(Start())
      ensures RoundsOutcome(m, st, stop, died, t) == true && ListOutcome(st, stop, died, t) == true
      ensures player.size == SizeAfter(m, st, stop, t)
      ensures died ==> !running && gameOver
      ensures !died ==> running == old(running) && gameOver == old(gameOver)
    {
      ghost var t0;
      st, t0 := ObjSnapshot(m);
      BetweenIs(m, st, |st.objs|, false, t0);
      died, stop, t := ObjectRounds(m, st, t0);
      BetweenIs(m, st, stop, died, t);
      ObjPassDone(m, st, stop, died, t);
    }

    /** updateParticlePool on the hook's pool. */
    method StepPool()
      requires Valid()
      modifies pool`activeCount, pool.particles, pool.slots
      ensures Valid() && pool.Live() == Survivors(old(pool.Live())) && unchanged(this)
    {
      pool.Step();
    }

    /**
     * The steps of a frame before the player moves: expired power-ups are
     * cleared and the magnet pulls objects and power-ups.
     */
    method UpdateActors(m: Math, now: int)
      requires Lawful(m) && Valid()
      modifies player`powerUps, objects`vx, objects`vy, powerUps`x, powerUps`y
      ensures Valid()
      ensures player.powerUps == ExpiredTimers(old(player.powerUps), now)
      ensures player.powerUps.magnet <= 0 ==>
        && (forall i :: 0 <= i < |objects| ==> objects[i].vx == old(objects[i].vx) && objects[i].vy == old(objects[i].vy))
        && (forall i :: 0 <= i < |powerUps| ==> powerUps[i].x == old(powerUps[i].x) && powerUps[i].y == old(powerUps[i].y))
      ensures player.powerUps.magnet > 0 ==>
        forall i :: 0 <= i < |objects| ==>
          var f := ObjectPull(m, player.x, player.y, player.size, objects[i].x, objects[i].y, objects[i].size);
          objects[i].vx == old(objects[i].vx) + f.0 && objects[i].vy == old(objects[i].vy) + f.1
      ensures player.powerUps.magnet > 0 ==>
        forall i :: 0 <= i < |powerUps| ==>
          var f := PowerUpPull(m, player.x, player.y, player.size, old(powerUps[i].x), old(powerUps[i].y));
          powerUps[i].x == old(powerUps[i].x) + f.0 && powerUps[i].y == old(powerUps[i].y) + f.1
    {
      UpdatePowerUps(player, now);
      IndexedNoRepeats(powerUps, powerUpIndex);
      ApplyMagnetEffect(m, player, objects, powerUps);
    }

    /**
     * The steps of a frame before the two passes: the camera is taken and
     * zoomed, UpdateActors runs and the player moves, then the
     * camera eases and shakes, the grid is rebuilt and a power-up may spawn.
     */
    method Prelude(m: Math, now: int, mouseX: real, mouseY: real, canvasWidth: real, canvasHeight: real)
      requires Lawful(m) && Valid()
      modifies this`camera, this`powerUps, this`powerUpIndex, player, objects, powerUps
      modifies grid`grid, grid`log, rng`drawn, rng`spotted
      ensures Valid() && camera.Some?
      ensures forall p :: p in powerUpIndex ==> p in old(powerUpIndex) || fresh(p)
    {
      TakeCamera(canvasWidth, canvasHeight);
      UpdateActors(m, now);
      ghost var steered, capped;
      steered, capped := player.Update(m, mouseX, mouseY, now);
      assert camera.Some? && 0.0 < camera.value.zoom;
      EaseCamera(canvasWidth, canvasHeight);
      RebuildGrid();
      var spawned := SpawnPowerUp();
    }

    /**
     * The object pass and the particle step, which a death in the object
     * pass skips by returning from the frame. afterPass holds the live
     * particles as the object pass leaves them.
     */
    method ObjectsThenParticles(m: Math) returns (died: bool, ghost afterPass: seq<ParticleState>)
      requires Lawful(m) && Valid() && camera.Some?
      modifies this`objects, this`stats, this`board, this`camera, this`running, this`gameOver, objects
      modifies player`mass, player`size, player`vx, player`vy, pool`activeCount, pool.particles, pool.slots, rng`drawn, rng`spotted
      ensures Valid() && camera.Some?
      ensures died ==> !running && gameOver
      ensures !died ==> running == old(running) && gameOver == old(gameOver)
      ensures died ==> pool.Live() == afterPass
      ensures !died ==> pool.Live() == Survivors(afterPass)
    {
      ghost var st, stop, t;
      died, st, stop, t := ObjectPass(m);
      afterPass := pool.Live();
      if !died {
        StepPool();
      }
    }

    /**
     * The simulation part of one frame of gameLoop: the running flag is set,
     * then Prelude, the power-up pass and ObjectsThenParticles.
     * The frame ends with the game over exactly when the object pass ended
     * it, and the particle pool is stepped exactly when it did not.
     */
    method Frame(m: Math, now: int, mouseX: real, mouseY: real, canvasWidth: real, canvasHeight: real)
      returns (died: bool, ghost afterPass: seq<ParticleState>)
      requires Lawful(m) && Valid()
      modifies this, player, objects, powerUps, powerUpIndex.Keys, pool, pool.particles, pool.slots, grid, rng
      ensures Valid() && camera.Some?
      ensures died <==> !running
      ensures died ==> gameOver
      ensures !died ==> gameOver == old(gameOver)
      ensures died ==> pool.Live() == afterPass
      ensures !died ==> pool.Live() == Survivors(afterPass)
    {
      running := true;
      Prelude(m, now, mouseX, mouseY, canvasWidth, canvasHeight);
      ghost var taken, probes := PowerUpPass(m, now);
      assert running && gameOver == old(gameOver);
      died, afterPass := ObjectsThenParticles(m);
    }
  }
}
