/**
 * The game page's setup of a round (spaceio/app/page.tsx): initGame, which
 * puts a fresh player among 130 new objects and seeds the leaderboard, and
 * restartGame, which clears the game-over state first.
 */
module Page {
  import opened Numerics
  import opened Types
  import opened Constants
  import opened RandomSource
  import opened Physics
  import opened SpaceObjects
  import opened Players
  import opened Performance
  import opened Leaderboards
  import opened GameLoop

  /** How many objects of each kind initGame creates: 80 small asteroids, 30 asteroids and 20 enemies. */
  function InitialCount(kind: ObjectKind): (n: nat)
    ensures 20 <= n <= 80
  {
    match kind
    case SmallAsteroid => 80
    case Asteroid => 30
    case Enemy => 20
  }

  /** How far from the player initGame places each kind: 150, 200 and 250. */
  function InitialDistance(kind: ObjectKind): (d: real)
    ensures 150.0 <= d <= 250.0
  {
    match kind
    case SmallAsteroid => 150.0
    case Asteroid => 200.0
    case Enemy => 250.0
  }

  /** An object as initGame leaves it: of the kind, a size in the kind's range, far enough from (cx, cy). */
  ghost predicate Placed(o: SpaceObject, kind: ObjectKind, cx: real, cy: real)
    reads o
  {
    && o.kind == kind && SizeInRange(kind, o.size) && o.mass == MassOfSize(o.size)
    && FarFrom((o.x, o.y), cx, cy, InitialDistance(kind))
  }

  /**
   * The objects of a new round around (cx, cy): 80 small asteroids, then 30
   * asteroids, then 20 enemies, each placed as its loop places it.
   */
  ghost predicate Populated(objs: seq<SpaceObject>, cx: real, cy: real)
    reads objs
  {
    && |objs| == 130
    && (forall k :: 0 <= k < 80 ==> Placed(objs[k], SmallAsteroid, cx, cy))
    && (forall k :: 80 <= k < 110 ==> Placed(objs[k], Asteroid, cx, cy))
    && (forall k :: 110 <= k < 130 ==> Placed(objs[k], Enemy, cx, cy))
  }

  /**
   * One of initGame's three spawn loops: InitialCount(kind) rounds, each
   * taking a point InitialDistance(kind) away from the player, one draw for
   * the size and createSpaceObject's six, and pushing the new object.
   */
  method Scatter(w: World, kind: ObjectKind) returns (made: seq<SpaceObject>)
    requires w.Valid()
    modifies w`objects, w.rng`drawn, w.rng`spotted
    ensures w.Valid() && w.objects == old(w.objects) + made && |made| == InitialCount(kind)
    ensures forall k :: 0 <= k < |made| ==> fresh(made[k]) && Placed(made[k], kind, w.player.x, w.player.y)
    ensures w.rng.drawn == old(w.rng.drawn) + 7 * InitialCount(kind)
    ensures w.rng.spotted == old(w.rng.spotted) + InitialCount(kind)
  {
    made := [];
    for i := 0 to InitialCount(kind)
      invariant w.Valid() && w.objects == old(w.objects) + made && |made| == i
      invariant forall k :: 0 <= k < i ==> fresh(made[k]) && Placed(made[k], kind, w.player.x, w.player.y)
      invariant w.rng.drawn == old(w.rng.drawn) + 7 * i && w.rng.spotted == old(w.rng.spotted) + i
    {
      var x, y := w.rng.PointAway(w.player.x, w.player.y, InitialDistance(kind));
      var r := w.rng.Next();
      var size := SizeFor(kind, r);
      var o := NewObject(w.rng, x, y, size, kind);
      w.AddObject(o);
      made := made + [o];
    }
  }

  /** The draws of Math.random() initGame makes before the leaderboard's: seven per object. */
  const SPAWN_DRAWS: nat := 7 * 130

  /**
   * initGame up to the leaderboard: the player becomes createPlayer's, the
   * object and power-up lists empty, then the three spawn loops place 80
   * small asteroids, 30 asteroids and 20 enemies around the player.
   */
  method Populate(w: World)
    requires w.Valid()
    modifies w`objects, w`powerUps, w`powerUpIndex, w.player, w.rng`drawn, w.rng`spotted
    ensures w.Valid() && w.player.Created() && w.player.InWorld()
    ensures w.powerUps == [] && forall k :: 0 <= k < |w.objects| ==> fresh(w.objects[k])
    ensures Populated(w.objects, w.player.x, w.player.y)
    ensures w.rng.drawn == old(w.rng.drawn) + SPAWN_DRAWS && w.rng.spotted == old(w.rng.spotted) + 130
  {
    w.player.Reset();
    w.objects := [];
    w.powerUps := [];
    w.powerUpIndex := map[];
    var small := Scatter(w, SmallAsteroid);
    var large := Scatter(w, Asteroid);
    var enemies := Scatter(w, Enemy);
    assert w.objects == small + large + enemies;
  }

  /**
   * initGame's last two steps: the stats reset, then initializeLeaderboard
   * with its nine draws of Math.random(), rs, one per AI.
   */
  method ResetScores(w: World) returns (rs: seq<real>)
    requires w.Valid()
    modifies w`stats, w`board, w.rng`drawn
    ensures w.Valid() && w.stats == GameStats(100.0, 0, 1, 0)
    ensures rs == w.rng.Upcoming(old(w.rng.drawn), 9) && w.board == SortByMass(Seeded(AI_NAMES, rs))
    ensures w.rng.drawn == old(w.rng.drawn) + 9
  {
    w.stats := GameStats(100.0, 0, 1, 0);
    rs := w.rng.Take(9);
    w.board := InitializeLeaderboard(rs);
  }

  /**
   * The world as initGame leaves it, when Math.random() had been called
   * drawn0 times and the spawn loops had run spotted0 times before: a valid
   * world with createPlayer's player among the 130 new objects, no power-ups,
   * the stats reset, and the leaderboard seeded with rs, the nine draws
   * after the 910 the spawn loops take.
   */
  ghost predicate NewRound(w: World, drawn0: nat, spotted0: nat, rs: seq<real>)
    reads w, w.player, w.objects, w.pool, w.pool.particles, w.grid, w.rng
  {
    && w.Valid() && w.player.Created() && w.player.InWorld()
    && Populated(w.objects, w.player.x, w.player.y)
    && w.powerUps == [] && w.stats == GameStats(100.0, 0, 1, 0)
    && rs == w.rng.Upcoming(drawn0 + SPAWN_DRAWS, 9) && w.board == SortByMass(Seeded(AI_NAMES, rs))
    && w.rng.drawn == drawn0 + SPAWN_DRAWS + 9 && w.rng.spotted == spotted0 + 130
  }

  /**
   * initGame on the world: the player becomes createPlayer's, the object and
   * power-up lists empty, the three spawn loops fill the objects around the
   * player, the stats reset and the leaderboard is seeded with the next nine
   * draws, rs. The camera and the particle pool keep their state.
   */
  method InitGame(w: World) returns (rs: seq<real>)
    requires w.Valid()
    modifies w`objects, w`powerUps, w`powerUpIndex, w`stats, w`board, w.player, w.rng`drawn, w.rng`spotted
    ensures NewRound(w, old(w.rng.drawn), old(w.rng.spotted), rs)
    ensures forall k :: 0 <= k < |w.objects| ==> fresh(w.objects[k])
  {
    Populate(w);
    rs := ResetScores(w);
  }

  /** restartGame: the game-over flag clears, the stats reset and initGame runs, drawing rs for the board. */
  method RestartGame(w: World) returns (rs: seq<real>)
    requires w.Valid()
    modifies w`gameOver, w`objects, w`powerUps, w`powerUpIndex, w`stats, w`board, w.player, w.rng`drawn, w.rng`spotted
    ensures !w.gameOver && NewRound(w, old(w.rng.drawn), old(w.rng.spotted), rs)
    ensures forall k :: 0 <= k < |w.objects| ==> fresh(w.objects[k])
  {
    w.gameOver := false;
    w.stats := GameStats(100.0, 0, 1, 0);
    rs := InitGame(w);
  }

  /**
   * No object initGame places touches the new player: each kind's distance
   * exceeds the collision reach of a start-size player and the kind's
   * largest object.
   */
  lemma PlacedClear(m: Math, kind: ObjectKind, size: real, x: real, y: real)
    requires Lawful(m) && SizeInRange(kind, size)
    requires FarFrom((x, y), WORLD_SIZE / 2.0, WORLD_SIZE / 2.0, InitialDistance(kind))
    ensures !CheckCollision(m, WORLD_SIZE / 2.0, WORLD_SIZE / 2.0, PLAYER_START_SIZE, x, y, size)
  {
    var reach := (PLAYER_START_SIZE + size) * 0.8;
    var d := InitialDistance(kind);
    CollisionIff(m, WORLD_SIZE / 2.0, WORLD_SIZE / 2.0, PLAYER_START_SIZE, x, y, size);
    SquareLessIff(reach, d);
  }

  /** A new round starts with no object in collision with the player. */
  lemma InitialClear(m: Math, objs: seq<SpaceObject>, p: Player)
    requires Lawful(m) && p.Created() && Populated(objs, p.x, p.y)
    ensures forall k :: 0 <= k < 130 ==> !CheckCollision(m, p.x, p.y, p.size, objs[k].x, objs[k].y, objs[k].size)
  {
    forall k | 0 <= k < 130
      ensures !CheckCollision(m, p.x, p.y, p.size, objs[k].x, objs[k].y, objs[k].size)
    {
      var o := objs[k];
      PlacedClear(m, o.kind, o.size, o.x, o.y);
    }
  }
}
