# spaceio simulation core in Dafny

A model of the per-frame simulation of spaceio, a canvas arcade game in
which the player's ship eats smaller asteroids and enemies, collects timed
power-ups and dies on contact with anything it cannot eat. The model has
these parts:

- **Particle pool** (`Performance.ParticlePool`). A fixed array of 300
  particle objects with an `activeCount` cursor. Acquisition either fills
  exactly one slot or is refused. The step ages every live particle and
  compacts the survivors to the front.
  - The compaction as the game writes it copies references, which makes two
    slots share one particle, which the next step then ages once per slot.
    Both are recorded under Findings.
  - The game world runs on the corrected compaction, which swaps instead.
- **Spatial grid** (`SpatialGrids.SpatialGrid`). Buckets keyed by
  `(floor(x/cell), floor(y/cell))`, with a neighbourhood query.
- **Power-ups** (`PowerUps`). The weighted draw of a power-up's kind, the
  effect of collecting one, the expiry of the player's four timers and the
  magnet's pull.
- **Kinematics** (`Physics`, `Players`, `SpaceObjects`, `Cameras`). Speed,
  gravity, the velocity cap, the collision test, the camera zoom and
  easing, the player's steering, bounce and trail, and the objects' motion.
- **One frame of the game loop** (`GameLoop.World`). In the game's order:
  1. take and zoom the camera;
  2. expire the power-up timers and apply the magnet;
  3. move the player, then ease and shake the camera;
  4. rebuild the grid and possibly spawn a power-up;
  5. run the reverse power-up pass, which collects and splices;
  6. run the reverse object pass, with gravity, absorption, the shield,
     replacement and death;
  7. step the particle pool, unless the player died.
- **The page** (`Leaderboards`, `Page`). The leaderboard's creation and
  update (a stable sort by mass, and the player's rank), and `initGame` /
  `restartGame`, which place 130 objects around a fresh player.

Numbers are Dafny `real`s. `Math.sqrt`, `Math.log`, `Math.sin` and
`Math.cos` are fields of a `Math` record passed as a parameter. The
predicate `Lawful` states only the laws the proofs use: an exact
non-negative root, a monotone log, and sine and cosine in [-1, 1].
`Math.random()` is a stream of draws in [0, 1) held by
`RandomSource.Random`. `Date.now()` is an integer parameter `now`.

## Model

| member | source | states |
|---|---|---|
| Performance.Emitted | spaceio/utils/performance.ts:39-46 | an acquired particle has the given position, velocity, colour and size, life 1 and decay 0.02 |
| Performance.Aged | spaceio/utils/performance.ts:59-63 | a step moves a particle by its velocity, damps the velocity by 0.98 and lowers life by decay; decay, size and colour are kept |
| Performance.Survivors | spaceio/utils/performance.ts:52-75 | the live particles after a step are no more than before, and every one has life > 0 |
| Performance.SurvivorsAppend | spaceio/utils/performance.ts:55-71 | stepping a + b is stepping a then b, so survivors keep their relative order |
| Performance.SurvivorsMembers | spaceio/utils/performance.ts:66-71 | a state is among the survivors iff it is the aged copy of some particle whose aged life is > 0 |
| Performance.SurvivorsLength | spaceio/utils/performance.ts:70-74 | the new activeCount is the number of previously live particles whose decremented life is > 0 |
| Performance.SurvivorsExtremes | spaceio/utils/performance.ts:55-74 | when all survive the count is kept; when none survives the pool empties |
| Performance.SurvivorsOfPair | spaceio/utils/performance.ts:66-70 | of two particles where only the second survives, the survivors are the second's aged copy |
| Performance.Particle.constructor | spaceio/utils/performance.ts:9-18 | an idle slot: position and velocity 0, life 0, decay 0.02, size 1, colour #ffffff |
| Performance.Particle.Age | spaceio/utils/performance.ts:59-63 | the in-place update of one particle gives exactly Aged of its old state |
| Performance.ParticlePool.constructor | spaceio/utils/performance.ts:5-25 | 300 slots, pairwise distinct particles, activeCount 0, every slot idle with life 0 |
| Performance.ParticlePool.Acquire | spaceio/utils/performance.ts:27-50 | returns false with nothing changed iff activeCount >= 200; otherwise writes only the particle at slot old activeCount, with Emitted's values, and increments activeCount; with distinct slots the live list grows by exactly that particle |
| Performance.ParticlePool.AgeSlot | spaceio/utils/performance.ts:56-66 | ages the particle at slot i, and reports whether it survives, exactly when Survives holds of its old state |
| Performance.ParticlePool.SwapVisit | spaceio/utils/performance.ts:55-71 | one visit of the corrected compaction keeps the loop invariant: survivors so far in order at the front, untouched slots from i on, no particle in two slots |
| Performance.ParticlePool.CompactBySwap | spaceio/utils/performance.ts:53-72 | the corrected compaction loop leaves the survivors, aged and in order, in the first writeIndex slots, with every particle still in exactly one slot |
| Performance.ParticlePool.CompactionReady | spaceio/utils/performance.ts:53-55 | a valid pool enters the compaction with at most 200 live particles, all distinct and none aged yet |
| Performance.ParticlePool.SwapCompactionDone | spaceio/utils/performance.ts:74 | once activeCount takes the write index, the pool is valid and its live states are the survivors |
| Performance.ParticlePool.Step | spaceio/utils/performance.ts:52-75 | updateParticlePool with a swap: the pool stays valid and its live states are Survivors of the old live states |
| Performance.CopyRun | spaceio/utils/performance.ts:55-72 | the loop as written, followed on references: no more references kept than visited, each one of the visited, and the state of every particle not visited unchanged |
| Performance.CopyingStep | spaceio/utils/performance.ts:56-71 | one more visit keeps the loop's invariant: the particle at slot i is aged in its current state and, when it survives, its reference is written to slot writeIndex, which then moves on |
| Performance.CopyKeepsOwn | spaceio/utils/performance.ts:55-72 | every slot the copying loop leaves holds a reference that some slot held before it |
| Performance.CopyRunDistinct | spaceio/utils/performance.ts:55-72 | when no two visited slots share a particle, the references kept have exactly the aged survivors' states, in order, and each particle is aged once |
| Performance.CopyRunAgesEach | spaceio/utils/performance.ts:59-63 | when no two visited slots share a particle, each one ends in its once-aged state |
| Performance.CopyRunOfPair | spaceio/utils/performance.ts:55-72 | of two distinct particles where only the second survives, the loop keeps the second alone |
| Performance.CopyRunTwice | spaceio/utils/performance.ts:55-72 | a particle held by two slots, which survives one ageing but not two, is aged twice: the first visit keeps it and the second drops it |
| Performance.ParticlePool.AgeShared | spaceio/utils/performance.ts:56-71 | the body at slot i with shared slots allowed: the particle is aged from its current state, every slot holding it sees that state, and a survivor's reference is also written to writeIndex |
| Performance.ParticlePool.CopyVisit | spaceio/utils/performance.ts:56-71 | one visit of the compaction as written, on any pool: the array and the particles' states stay as CopyRun of the slots visited so far gives them |
| Performance.ParticlePool.CompactByCopy | spaceio/utils/performance.ts:53-74 | the loop as written and the count it sets: activeCount becomes the number of references CopyRun keeps, the slots below it hold them, the slots above keep theirs, and each particle is in CopyRun's state |
| Performance.ParticlePool.CopyCompactionDone | spaceio/utils/performance.ts:74 | after the copying compaction the pool keeps its shape, every slot holds an old reference and, when no two slots shared a particle, the live states are the survivors |
| Performance.ParticlePool.StepAsWritten | spaceio/utils/performance.ts:52-75 | updateParticlePool as written on any pool of the right shape, shared slots included: the live slots are CopyRun's references, the slots above keep theirs, every particle is in CopyRun's state, and when no two slots shared a particle the live states are Survivors of the old ones |
| Performance.ParticlePool.EmitAfterStepAsWritten | spaceio/utils/performance.ts:27-75 | with two live particles of which only the second survives, a step followed by an emission leaves slots 0 and 1 sharing one particle that shows the new emission twice |
| Performance.ParticlePool.StepAsWrittenAgesTwice | spaceio/utils/performance.ts:55-74 | on a pool whose two live slots share one particle with decay < life <= 2·decay, the step ages it twice: activeCount becomes 1 and the one live slot holds a particle whose life is spent |
| Performance.ParticlePool.EmitAfterStep | spaceio/utils/performance.ts:27-75 | with the corrected step, the next emission succeeds iff fewer than 200 survived, and the live list is then the survivors followed by the new particle |
| Performance.ViewportInWorld | spaceio/utils/performance.ts:77-97 | for a positive zoom, isInViewport holds iff the point lies in the camera's view widened by size world units plus 50 pixels on each side |
| Performance.LargerStaysInViewport | spaceio/utils/performance.ts:87-96 | for a zoom >= 0, a larger size never makes a visible object invisible |
| SpatialGrids.BucketMembers | spaceio/utils/performance.ts:113-122 | a bucket holds exactly the objects inserted at a position whose floored cell is that bucket's |
| SpatialGrids.StripMembers | spaceio/utils/performance.ts:131-137 | the inner loop collects exactly the objects of the cells in its dy range |
| SpatialGrids.BlockMembers | spaceio/utils/performance.ts:130-138 | the nested loops collect exactly the objects of the cells in the dx and dy ranges |
| SpatialGrids.NearbyMembers | spaceio/utils/performance.ts:124-141 | getNearby's result holds exactly the objects of cells within the cell radius of the centre cell on both axes |
| SpatialGrids.CloseCells | spaceio/utils/performance.ts:126-128 | two points within d on an axis lie in cells within ceil(d / cellSize) of each other |
| SpatialGrids.NearbyFiled | spaceio/utils/performance.ts:124-141 | an object is returned iff it was filed in a cell within the cell radius, so every filing within radius on both axes is returned |
| SpatialGrids.SpatialGrid.constructor | spaceio/utils/performance.ts:104-107 | a new grid has the given cell size and no cells |
| SpatialGrids.SpatialGrid.Clear | spaceio/utils/performance.ts:109-111 | after clear no cell holds anything, so no query returns anything |
| SpatialGrids.SpatialGrid.Insert | spaceio/utils/performance.ts:113-122 | appends the object to the end of the bucket of its current cell and changes no other bucket |
| SpatialGrids.SpatialGrid.ScanWindow | spaceio/utils/performance.ts:130-138 | the two loops over dx and dy collect the cells of the window in loop order |
| SpatialGrids.SpatialGrid.GetNearby | spaceio/utils/performance.ts:124-141 | the result is exactly the objects inserted since the last clear whose cell is within ceil(radius / cellSize) of the query cell on both axes, hence a superset of the objects within radius on both axes |
| Numerics.Floor | spaceio/utils/performance.ts:114-115 | Math.floor: the integer r with r <= x < r + 1 |
| Numerics.Ceil | spaceio/utils/performance.ts:126 | Math.ceil: the integer r with r - 1 < x <= r |
| PowerUps.TotalRarity | spaceio/utils/powerups.ts:8 | the total weight of the five kinds is 1 |
| PowerUps.ScanFromFinds | spaceio/utils/powerups.ts:11-18 | the scan stops at the first kind whose cumulative rarity reaches the budget, and yields speed when none does |
| PowerUps.WeightedKindIsFirst | spaceio/utils/powerups.ts:8-18 | the drawn kind is the i-th kind iff it is the first, in the order speed, shield, size, mass, magnet, whose cumulative rarity reaches the budget; it is speed iff speed reaches it first or no kind does |
| PowerUps.ZeroDrawIsSpeed | spaceio/utils/powerups.ts:9-18 | a draw of 0 yields speed |
| PowerUps.DrawBelowOneFinds | spaceio/utils/powerups.ts:9-18 | for a draw in [0, 1) some kind reaches the budget, and the drawn kind is the first that does |
| PowerUps.ScanKinds | spaceio/utils/powerups.ts:11-18 | the loop that subtracts each rarity from the budget returns the kind the scan specification picks |
| PowerUps.ChooseKind | spaceio/utils/powerups.ts:5-18 | createPowerUp's draw returns WeightedKind of the draw times the total rarity |
| PowerUps.PowerUp.constructor | spaceio/utils/powerups.ts:4-35 | the drawn kind's size, colour, effect and rarity from POWER_UP_TYPES, its duration from POWER_UP_DURATION, rotation 0, at the given x, y |
| PowerUps.TimerOf | spaceio/utils/powerups.ts:40-57 | every kind except mass sets a timer |
| PowerUps.TimerOfInjective | spaceio/utils/powerups.ts:40-57 | distinct kinds set distinct timers |
| PowerUps.ApplyPowerUpEffect | spaceio/utils/powerups.ts:37-58 | speed, shield, size and magnet overwrite exactly their own timer with now + duration, and leave mass and size alone; mass adds effect to the mass and sets size to 2·sqrt(mass/π), without the 1.3 factor, and leaves every timer alone |
| PowerUps.Expire | spaceio/utils/powerups.ts:64-66 | a timer afterwards is 0 or >= now, and it changes iff it was non-zero and below now |
| PowerUps.ExpiredTimers | spaceio/utils/powerups.ts:63-67 | every one of the four timers is expired in this way |
| PowerUps.UpdatePowerUps | spaceio/utils/powerups.ts:60-68 | the player's timers become ExpiredTimers of the old ones: exactly the timers below now are zeroed |
| PowerUps.ExpiredSettled | spaceio/utils/powerups.ts:63-67 | after the update every timer is 0 or >= now |
| PowerUps.ExpiredIdempotent | spaceio/utils/powerups.ts:60-68 | a second update with the same now changes nothing |
| PowerUps.InMagnetRange | spaceio/utils/powerups.ts:84 | 0 < sqrt(d²) < range iff 0 < d² < range² for a positive range |
| PowerUps.PullAlong | spaceio/utils/powerups.ts:85-87 | the pull points along the offset towards the player and has squared length × squared distance = 100·strength² |
| PowerUps.MagnetPull | spaceio/utils/powerups.ts:80-87 | nothing at distance 0 or outside the range; inside it, a pull towards the player along the offset, of magnitude strength / (0.1·distance) |
| PowerUps.ObjectPull | spaceio/utils/powerups.ts:78-89 | objects of size >= 0.8 × the player's are never pulled; smaller ones get MagnetPull within 3 player sizes at strength 0.3 |
| PowerUps.PowerUpPull | spaceio/utils/powerups.ts:93-102 | power-ups get MagnetPull within 3 player sizes at twice the strength |
| PowerUps.PullObject | spaceio/utils/powerups.ts:79-89 | one object's velocity grows by its ObjectPull, and its position is unchanged |
| PowerUps.PullObjects | spaceio/utils/powerups.ts:78-90 | every object's velocity grows by its ObjectPull |
| PowerUps.PullPowerUp | spaceio/utils/powerups.ts:94-102 | one power-up's position moves by its PowerUpPull |
| PowerUps.PullPowerUps | spaceio/utils/powerups.ts:93-103 | every power-up's position moves by its PowerUpPull |
| PowerUps.ApplyMagnetEffect | spaceio/utils/powerups.ts:71-104 | with magnet <= 0 nothing changes; otherwise each object's velocity grows by its ObjectPull and each power-up's position moves by its PowerUpPull |
| Physics.BaseSpeed | spaceio/utils/physics.ts:5-9 | the unboosted speed is at least 4 × 0.18 |
| Physics.CalculateSpeed | spaceio/utils/physics.ts:3-18 | the speed lies between 4 × 0.18 and MAX_SPEED 5 |
| Physics.SpeedBoostNeverSlower | spaceio/utils/physics.ts:12-15 | for the same mass the boosted speed is >= the unboosted speed |
| Physics.SpeedNonIncreasingInMass | spaceio/utils/physics.ts:5-9 | with a monotone log, speed does not increase with mass |
| Physics.InGravityRange | spaceio/utils/physics.ts:26-28 | 0 < sqrt(d²) < 200 iff 0 < d² < 200² |
| Physics.GravityPull | spaceio/utils/physics.ts:24-35 | nothing at distance 0 or >= 200; otherwise a pull along the offset towards obj2, each component at most 0.25·mass2 / 100² because the divisor is at least 100 |
| Physics.ApplyGravity | spaceio/utils/physics.ts:20-36 | only obj1's vx and vy change, and they change by GravityPull |
| Physics.LimitVelocity | spaceio/utils/physics.ts:38-47 | the input when its speed is <= maxSpeed, otherwise the same direction at length maxSpeed; the result is always within the cap |
| Physics.SpeedLimitedWithinCap | spaceio/utils/physics.ts:38-47 | any velocity the cap rule allows has squared length <= maxSpeed² |
| Physics.SpeedLimitedUnique | spaceio/utils/physics.ts:38-47 | the cap rule determines the result uniquely |
| Physics.CollisionIff | spaceio/utils/physics.ts:49-57 | two bodies collide iff their squared distance is below (0.8·(size1 + size2))², and coincident centres collide whenever the size sum is > 0 |
| Physics.CollisionSymmetric | spaceio/utils/physics.ts:49-57 | checkCollision(a, b) == checkCollision(b, a) |
| Physics.CalculateCameraZoom | spaceio/utils/physics.ts:59-66 | zoom >= 0.5, <= 1 for size >= 10, and exactly 1 − (s − 10)/200 for 10 <= s <= 110 |
| Physics.ZoomNonIncreasing | spaceio/utils/physics.ts:62 | a larger player is never zoomed in further |
| Players.SteerMeetsSteered | spaceio/classes/Player.ts:26-51 | inside the dead zone of 5 the velocity is only multiplied by 0.92; outside it, an acceleration of speed × 0.15 towards the mouse is added before friction |
| Players.BounceWall | spaceio/classes/Player.ts:68-84 | an in-range axis is unchanged; a low edge clamps to size with a non-negative velocity of 0.4 times the old speed on that axis; a high edge clamps to WORLD_SIZE − size with a non-positive velocity; the coordinate ends in range when 2·size <= WORLD_SIZE, and the speed never grows |
| Players.BounceKeepsSpeedCap | spaceio/classes/Player.ts:68-84 | a bounce on each axis keeps a velocity within a cap it was under |
| Players.LimitThenBounceWithinCap | spaceio/classes/Player.ts:54-84 | after the clamp and the bounce, vx² + vy² <= maxSpeed² |
| Players.TrailCap | spaceio/classes/Player.ts:87 | the trail cap lies in [10, 25], and is floor(size/2) when that lies in [10, 25] |
| Players.PushTrail | spaceio/classes/Player.ts:87-89 | the new point is at index 0 and the old points follow in order; the length grows by at most one, and never goes over the cap when it started within it |
| Players.Glow | spaceio/classes/Player.ts:92-93 | the glow intensity lies in [0.3, 0.9] |
| Players.BaseSize | spaceio/classes/Player.ts:98 | 2·sqrt(mass/π) is the diameter of a disc of area mass |
| Players.BaseSizeMonotone | spaceio/classes/Player.ts:97-98 | more mass never gives a smaller base size |
| Players.Player.MaxSpeed | spaceio/classes/Player.ts:54 | the player's cap is positive and at most MAX_SPEED |
| Players.Player.constructor | spaceio/classes/Player.ts:5-22 | createPlayer: at (2000, 2000), size 25, mass 100, at rest, empty trail, glow 0, all four timers 0, inside the world |
| Players.Player.SteerTowards | spaceio/classes/Player.ts:26-51 | the steering and friction steps meet Steered |
| Players.Player.ClampSpeed | spaceio/classes/Player.ts:54-61 | the cap step meets the limitVelocity rule: unchanged when within maxSpeed, otherwise rescaled to length maxSpeed |
| Players.Player.MoveAndBounce | spaceio/classes/Player.ts:64-84 | each axis moves by its velocity and then bounces per BounceWall |
| Players.Player.Update | spaceio/classes/Player.ts:24-94 | updatePlayer: steer, friction, cap and bounce as above, the player inside the world when 2·size <= WORLD_SIZE, the trail pushed, the glow refreshed, and size, mass and timers unchanged |
| Players.Player.Reset | spaceio/app/page.tsx:98 | the player takes createPlayer's state in place |
| Players.Player.Grow | spaceio/classes/Player.ts:96-104 | mass rises by exactly amount, and size becomes 2·sqrt(mass/π), times 1.3 iff sizeMultiplier > 0 |
| SpaceObjects.ObjectColor | spaceio/classes/SpaceObject.ts:8-14 | enemy #ff4444, small asteroid #66bbff; an asteroid is #44aaff below size 15, #ffaa44 from 15 to below 40, #aa44ff from 40 |
| SpaceObjects.MassOfSize | spaceio/classes/SpaceObject.ts:5 | mass is non-negative, and zero exactly for size 0 |
| SpaceObjects.InitialVelocity | spaceio/classes/SpaceObject.ts:23-24 | for a draw in [0, 1), an initial velocity component lies in [−0.75, 0.75) |
| SpaceObjects.InitialSpin | spaceio/classes/SpaceObject.ts:26 | for a draw in [0, 1), rotationSpeed lies in [−0.025, 0.025) |
| SpaceObjects.RandomAngle | spaceio/classes/SpaceObject.ts:25-27 | for a draw in [0, 1), an angle lies in [0, 2π) |
| SpaceObjects.BounceAxis | spaceio/classes/SpaceObject.ts:38-45 | an in-range axis keeps its position and velocity; an out-of-range axis gets velocity ×(−0.6) and a clamped coordinate; afterwards the coordinate is in range when 2·size <= WORLD_SIZE |
| SpaceObjects.SpaceObject.constructor | spaceio/classes/SpaceObject.ts:4-30 | x, y, size and kind are copied; mass is size²·π; the colour follows the table; vx, vy, rotation, spin and pulse come from the five draws |
| SpaceObjects.SpaceObject.Update | spaceio/classes/SpaceObject.ts:32-46 | position is integrated and then bounced per axis; rotation advances by rotationSpeed and pulsePhase by 0.03 |
| Cameras.GuardedZoom | spaceio/hooks/useGameLoop.ts:74-79 | after the zoom computation and its guard, the zoom is > 0 and equals calculateCameraZoom |
| Cameras.DefaultCamera | spaceio/hooks/useGameLoop.ts:66-71 | the camera built when none is stored centres the player on the canvas, with zoom 1 and shake 0 |
| Cameras.EasedCloses | spaceio/hooks/useGameLoop.ts:95-98 | one ease leaves 92% of the gap to the target on each axis, never overshoots, and keeps shake and zoom |
| Cameras.EasedTimesGap | spaceio/hooks/useGameLoop.ts:95-98 | after k eases towards a fixed target, 0.92^k of the gap remains |
| Cameras.ShakeDecays | spaceio/hooks/useGameLoop.ts:101-105 | the shake never turns negative or grows, a positive shake becomes 0.9 of itself, each jolt is at most shake/(2·zoom), and zoom is kept |
| Cameras.JoltBound | spaceio/hooks/useGameLoop.ts:102-103 | the jolt (r − 0.5)·shake/zoom lies within shake/(2·zoom) either way, for a draw r in [0, 1) |
| RandomSource.Random.Next | spaceio/hooks/useGameLoop.ts:125 | Math.random() returns the next draw of the stream, in [0, 1) |
| RandomSource.Random.Take | spaceio/app/page.tsx:62-69 | n successive calls return the next n draws, in order |
| RandomSource.Random.PointAway | spaceio/hooks/useGameLoop.ts:127-130 | the point a rejection loop accepts lies in the world and at least d from the centre |
| GameLoop.Burst | spaceio/hooks/useGameLoop.ts:152-164 | count requests at (x, y) take two draws each; the pool grows to min(200, old + count), keeps its live prefix, and the new particles are Sprayed with the colour and size |
| GameLoop.Request | spaceio/hooks/useGameLoop.ts:155-163 | one request adds the emitted particle, or leaves the pool as it was when it is full |
| GameLoop.ParticleCount | spaceio/hooks/useGameLoop.ts:260-261 | the number of rounds of j < min(12, size): at most 12, the least natural number >= min(12, size) |
| GameLoop.SizeFor | spaceio/hooks/useGameLoop.ts:284-293 | for a draw in [0, 1), a replacement's size is in [3, 11) for a small asteroid, [20, 80) for an enemy and [15, 55) for an asteroid |
| GameLoop.NewObject | spaceio/classes/SpaceObject.ts:16-29 | createSpaceObject takes six draws and yields a new object with the given position, size and kind, and its mass and colour |
| GameLoop.NewPowerUp | spaceio/utils/powerups.ts:4-35 | createPowerUp takes three draws and yields a new power-up at the given point with rotation 0, of the kind the first draw selects |
| GameLoop.KeptAndGone | spaceio/hooks/useGameLoop.ts:136-166 | what a reverse pass keeps and what it splices out make up, together, the list it started from |
| GameLoop.KeptNoRepeats | spaceio/hooks/useGameLoop.ts:144 | removing entries from a list without repeats leaves one without repeats |
| GameLoop.FateOfCases | spaceio/hooks/useGameLoop.ts:234-317 | an object drifts on iff it misses the player; it is absorbed iff it touches a player more than 1.1 times its size; otherwise it is replaced with cyan sparks iff the shield runs, and it kills the player iff the shield does not |
| GameLoop.GrowthDraws | spaceio/app/page.tsx:78-85 | the leaderboard update takes one draw per AI row and none for the player |
| GameLoop.PassListNoRepeats | spaceio/hooks/useGameLoop.ts:276-293 | the list an object pass leaves, made of the untouched front, the kept tail and the new replacements, has no repeats |
| GameLoop.PassKinds | spaceio/hooks/useGameLoop.ts:276-293 | that list has, kind for kind, the same count of objects as the list the pass started from |
| GameLoop.World.constructor | spaceio/hooks/useGameLoop.ts:26-30 | at mount: a fresh pool with no live particles, an empty grid, no camera, the loop not running, empty lists and the page's initial stats |
| GameLoop.World.AddObject | spaceio/app/page.tsx:124 | a pushed object joins the end of the list |
| GameLoop.World.TakeCamera | spaceio/hooks/useGameLoop.ts:66-79 | the stored camera, or the default one when none is stored, with zoom set to the guarded zoom, which is > 0 |
| GameLoop.World.EaseCamera | spaceio/hooks/useGameLoop.ts:95-105 | the camera eases 8% towards the target centring the player; a positive shake takes two draws, jolts it and decays; zoom is kept and shake never grows |
| GameLoop.World.RebuildGrid | spaceio/hooks/useGameLoop.ts:119-122 | after clear, one filing per object at its current position, in list order |
| GameLoop.World.SpawnPowerUp | spaceio/hooks/useGameLoop.ts:125-133 | spawns iff the first draw is below 0.001; at most one power-up is appended, at a point of the world at least 200 from the player, and the list is otherwise unchanged |
| GameLoop.World.Collect | spaceio/hooks/useGameLoop.ts:142-165 | a touching power-up is spliced out, powerUpsCollected rises by 1, and 8 requests of its colour and size 3 at its position take 16 draws; the particles live before are kept |
| GameLoop.World.VisitPowerUp | spaceio/hooks/useGameLoop.ts:137-166 | one round turns the power-up by 0.05 and pulses it by 0.1; then it is collected iff it touches the player |
| GameLoop.World.CollectStep | spaceio/hooks/useGameLoop.ts:136-166 | one round at index i − 1 carries the pass invariant from i to i − 1, with collected iff the round's collision test hits |
| GameLoop.World.PowerUpPass | spaceio/hooks/useGameLoop.ts:136-211 | the reverse pass removes exactly the power-ups whose test hits and keeps the rest in order, each turned by 0.05 and pulsed by 0.1; collected rises by the number removed; the pool grows by 8 requests per removal; the old live particles are untouched |
| GameLoop.World.Eat | spaceio/hooks/useGameLoop.ts:239-257 | mass rises by the object's mass and size is recomputed; the player takes 2% of its momentum; the stats take the new mass and one more absorption; the leaderboard update gives board and rank; shake becomes min(8, mass/100) |
| GameLoop.World.Respawn | spaceio/hooks/useGameLoop.ts:276-293 | the object is spliced out and one object of its kind, sized in the kind's range, is appended at least 300 from the player |
| GameLoop.World.Replace | spaceio/hooks/useGameLoop.ts:259-295 | min(12, size) requests, then Respawn; the live particles before are kept |
| GameLoop.World.Die | spaceio/hooks/useGameLoop.ts:296-316 | 30 red requests at the player, shake 25, the running flag cleared and the game over |
| GameLoop.World.Absorb | spaceio/hooks/useGameLoop.ts:238-295 | the absorption branch in full: Eat, then the burst in the object's colour and the replacement |
| GameLoop.World.Resolve | spaceio/hooks/useGameLoop.ts:233-318 | the collision test and its branch: the fate is FateOf; only Eaten changes mass, stats and board; only Died ends the game; a shield hit or a miss keeps the camera |
| GameLoop.World.MoveStep | spaceio/hooks/useGameLoop.ts:215-231 | the object at index i − 1 makes its updateSpaceObject move and then feels the gravity of the nearby bodies and of the player, which leaves it exactly the velocity Pulled gives for the player's current size and mass; no other object moves |
| GameLoop.World.UpdateAt | spaceio/hooks/useGameLoop.ts:216 | updateSpaceObject takes the object at index i − 1 to its Landing with its Rebound velocity; no other object moves |
| GameLoop.World.AttractAt | spaceio/hooks/useGameLoop.ts:218-231 | the gravity of the nearby bodies and of the player leaves the object at index i − 1 the velocity Pulled gives; no other object moves |
| GameLoop.World.GravityAt | spaceio/hooks/useGameLoop.ts:218-231 | the gravity pass on the object at index i − 1 leaves it the velocity Pulled gives for the player's current size and mass |
| GameLoop.Apart | spaceio/hooks/useGameLoop.ts:214-215 | the object at index i − 1 is the object of no other index and is not among the objects the grid holds off the list |
| GameLoop.World.SeenBodies | spaceio/hooks/useGameLoop.ts:219-224 | once the object at index k has moved, the bodies the gravity loop reads from the grid's neighbourhood are those BodiesAt gives: moved objects at their new centre, unvisited ones and those the grid holds off the list where they started |
| GameLoop.World.ResolveAt | spaceio/hooks/useGameLoop.ts:233-318 | the collision test of the round at index i − 1 sees the player's centre, its current size and the object's new centre; the fate is FateOf of that test; only Eaten regrows the player; a replacement of the same kind is appended after the splice |
| GameLoop.World.ResolveStep | spaceio/hooks/useGameLoop.ts:233-318 | the second half of the round carries the loop's list and probes one index down, with the fate FateOf of the test and the player's size regrown only on Eaten |
| GameLoop.World.ResolvedPass | spaceio/hooks/useGameLoop.ts:276-293 | the list afterwards is the object kept, or spliced out with its replacement appended, and the round's test is recorded |
| GameLoop.ListedStep | spaceio/hooks/useGameLoop.ts:276-293 | the list after one round: the object kept in the tail, or spliced out with the new object appended to the replacements |
| GameLoop.ProbedStep | spaceio/hooks/useGameLoop.ts:233-234 | the record of the collision tests grows by the round's test, the first of which saw the player's starting size |
| GameLoop.DecidedStep | spaceio/hooks/useGameLoop.ts:214-318 | one more round extends what the rounds decided: its fate from its test, the list, the absorptions and their mass, the size the test saw and the velocity left |
| GameLoop.PacedStep | spaceio/hooks/useGameLoop.ts:214-241 | one more round keeps each test's player size and each object's velocity as SizeAfter and Pulled give them |
| GameLoop.SizedStep | spaceio/hooks/useGameLoop.ts:234-241 | the test of each round sees the size the rounds before it left the player |
| GameLoop.SpedStep | spaceio/hooks/useGameLoop.ts:218-231 | each round leaves its object the velocity Pulled gives for the player's size and mass in that round |
| GameLoop.SizeAfterAgree | spaceio/hooks/useGameLoop.ts:239-241 | the player's size and mass after the rounds from index i on depend only on those rounds' tests and absorptions |
| GameLoop.World.MoveAt | spaceio/hooks/useGameLoop.ts:215-231 | between rounds, the move of the object at index i − 1 leaves the velocity Pulled gives for the size and mass the rounds from i on left the player |
| GameLoop.World.SettleAt | spaceio/hooks/useGameLoop.ts:233-318 | the collision half of the round, after MoveAt, carries the loop invariant one index down |
| GameLoop.World.RoundClosed | spaceio/hooks/useGameLoop.ts:239-241 | after the round the player's size is SizeAfter of the rounds from i − 1 on: regrown by growPlayer after an absorption, otherwise the size the test saw |
| GameLoop.World.ObjectRound | spaceio/hooks/useGameLoop.ts:214-318 | one round of the object loop, the move then the collision, carries the loop invariant from i to i − 1 |
| GameLoop.World.ObjectRounds | spaceio/hooks/useGameLoop.ts:214-318 | the loop runs from the last index down until index 0 or the round that ends the game |
| GameLoop.World.ObjListDone | spaceio/hooks/useGameLoop.ts:214-317 | the list afterwards is the untouched front, the kept tail and the replacements, with no repeats and the same count per kind; the replacements have the kinds of the spliced objects, in order; mass and absorbed grow by the absorptions |
| GameLoop.World.ObjectPass | spaceio/hooks/useGameLoop.ts:213-375 | every visited object moved, with its bounce, kept the velocity Pulled gives for the player's size and mass in its round, and met the collision test at its new position; the first test saw the player's starting size and each later one the size SizeAfter gives; its fate decided whether it was spliced out, absorbed or ended the game; the objects below the stopping index did not move; the player ends with SizeAfter's size; the list, mass and absorbed count are as ObjListDone states; the game is over exactly when a round ended it |
| GameLoop.World.ObjRoundsDone | spaceio/hooks/useGameLoop.ts:214-318 | the rounds from the last index down to stop: each object moved and was tested at its new position with the size SizeAfter gives; its velocity is Pulled's; its fate is settled; the objects before stop kept their state; the player ends with SizeAfter's size |
| GameLoop.World.ObjPassDone | spaceio/hooks/useGameLoop.ts:214-318 | the loop's invariant where it stopped gives RoundsOutcome, ListOutcome and the player's final size, and the list has no repeats and masses at least 0 |
| GameLoop.World.StepPool | spaceio/hooks/useGameLoop.ts:378 | the pool's live states become the survivors, and nothing of the world itself changes |
| GameLoop.World.UpdateActors | spaceio/hooks/useGameLoop.ts:85-89 | the player's timers become ExpiredTimers of the old ones; with the magnet still running afterwards, each object's velocity grows by its ObjectPull and each power-up moves by its PowerUpPull, and otherwise neither moves; the world stays valid |
| GameLoop.World.Prelude | spaceio/hooks/useGameLoop.ts:65-133 | the steps before the passes leave a valid world with a camera, and a power-up list of old or freshly spawned entries |
| GameLoop.World.ObjectsThenParticles | spaceio/hooks/useGameLoop.ts:213-378 | a death leaves the pool as the object pass left it; otherwise the pool is stepped |
| GameLoop.World.Frame | spaceio/hooks/useGameLoop.ts:47-378 | one frame: the running flag ends false exactly when the player died, then the game is over; the particle pool is stepped exactly when the player survived |
| Leaderboards.SortByMassPermutes | spaceio/app/page.tsx:87 | the sort is a permutation of the entries |
| Leaderboards.SortByMassSorted | spaceio/app/page.tsx:87 | the sorted board is non-increasing in mass |
| Leaderboards.SortByMassStable | spaceio/app/page.tsx:87 | entries of equal mass keep their prior order |
| Leaderboards.SortByMassSortedFixed | spaceio/app/page.tsx:87 | a board already heaviest first is left as it is |
| Leaderboards.FindPlayer | spaceio/app/page.tsx:89 | findIndex: the first player row, or −1 when there is none |
| Leaderboards.RefreshAllRows | spaceio/app/page.tsx:78-85 | each entry keeps its id, name and player flag; the player's mass becomes playerMass; each AI mass rises by a value in [0.3, 1.5) |
| Leaderboards.UpdateLeaderboardOrder | spaceio/app/page.tsx:77-92 | the updated board is heaviest first, a permutation of the refreshed entries, and stable |
| Leaderboards.UpdateLeaderboardRank | spaceio/app/page.tsx:89-90 | rank is 1 + the index of the first player row, and lies in [1, length] iff some entry is the player |
| Leaderboards.UpdateLeaderboardPlayerMass | spaceio/app/page.tsx:79-80 | every player row of the updated board shows the new mass |
| Leaderboards.DecimalInjective | spaceio/app/page.tsx:64 | different AI numbers print differently |
| Leaderboards.AiIdsDistinct | spaceio/app/page.tsx:56-64 | AI ids are pairwise distinct and differ from "player" |
| Leaderboards.AiEntryMass | spaceio/app/page.tsx:66 | an AI starts with a whole mass from 500 to 3499 |
| Leaderboards.InitializeLeaderboard | spaceio/app/page.tsx:52-73 | the board is the sort of the player row followed by nine AI rows, AI i named AI_NAMES[i mod 15] |
| Leaderboards.InitialBoardOrder | spaceio/app/page.tsx:52-73 | a fresh board has 10 entries, sorted heaviest first |
| Leaderboards.InitialBoardRows | spaceio/app/page.tsx:55-69 | the player's row and every AI row occur exactly once |
| Leaderboards.InitialBoardMasses | spaceio/app/page.tsx:55-69 | the only player row has mass 100, and every AI row has a mass in [500, 3499] |
| ObjectMotion.UnfeltInert | spaceio/hooks/useGameLoop.ts:220-224 | a body that is the object itself, too small, or out of gravity range pulls nothing |
| ObjectMotion.NearbyPullUnfelt | spaceio/hooks/useGameLoop.ts:219-224 | when no nearby body is felt, the velocity is unchanged |
| ObjectMotion.PlayerPull | spaceio/hooks/useGameLoop.ts:227-231 | the player pulls only when both offsets are < 200 and it is more than half the object's size, by at most 0.25·mass/100² per axis |
| ObjectMotion.PullFromNearby | spaceio/hooks/useGameLoop.ts:220-224 | the forEach applies gravity from each nearby body that Pulls, in order |
| ObjectMotion.PullFromPlayer | spaceio/hooks/useGameLoop.ts:227-231 | the player's applyGravity, under its guard |
| ObjectMotion.Attract | spaceio/hooks/useGameLoop.ts:218-231 | nearby is getNearby(obj.x, obj.y, 200), and the velocity is the nearby pulls followed by the player's |
| ObjectMotion.BodiesKept | spaceio/hooks/useGameLoop.ts:220-231 | the gravity pass, which writes only velocities, leaves the bodies of the nearby objects as they were |
| Page.InitialCount | spaceio/app/page.tsx:116-147 | each kind's loop runs 20 to 80 rounds |
| Page.InitialDistance | spaceio/app/page.tsx:116-147 | each kind keeps 150 to 250 from the player |
| Page.Scatter | spaceio/app/page.tsx:116-147 | one spawn loop appends InitialCount(kind) new objects of the kind, each sized in range and at least InitialDistance(kind) from the player, taking seven draws each |
| Page.Populate | spaceio/app/page.tsx:97-147 | createPlayer's player, no power-ups, and exactly 80 small asteroids (>= 150 away), 30 asteroids (>= 200) and 20 enemies (>= 250), 130 in all |
| Page.ResetScores | spaceio/app/page.tsx:149-150 | the stats reset to mass 100, absorbed 0, rank 1, collected 0, and the board is seeded with the next nine draws |
| Page.InitGame | spaceio/app/page.tsx:97-151 | the world after initGame is a NewRound: a fresh player among the 130 placed objects, no power-ups, the stats reset and a new leaderboard |
| Page.RestartGame | spaceio/app/page.tsx:270-275 | game over cleared, the stats reset and initGame run, giving a NewRound |
| Page.PlacedClear | spaceio/app/page.tsx:116-147 | an object placed by initGame does not touch a start-size player |
| Page.InitialClear | spaceio/app/page.tsx:97-147 | a new round starts with no object in collision with the player |

## Left out

- Drawing. All canvas work, the minimap and the debug overlay are rendering through a foreign API (spaceio/hooks/useGameLoop.ts:81-83, 168-210, 320-374, 380-572).
- Input. Mouse, keyboard and resize listeners are host I/O, including the screen-to-world transform of the mouse (spaceio/hooks/useGameLoop.ts:597-630). The mouse position enters `GameLoop.World.Frame` as the parameters mouseX and mouseY, and the canvas size as canvasWidth and canvasHeight.
- Scheduling. `requestAnimationFrame` (spaceio/hooks/useGameLoop.ts:574-592), `setTimeout(setGameRunning)`, `startGame` and `backToModeSelection` are host scheduling and UI flow.
- UI components. The React components and the page's JSX are presentation only.
- Early returns. The frame's returns when the canvas, its context or the player ref is missing (spaceio/hooks/useGameLoop.ts:50-58) are not modelled. The model always has a player and a canvas size.
- GameLoop.World.Frame, GameLoop.World.StepPool, GameLoop.World.PowerUpPass, GameLoop.World.ObjectPass, GameLoop.Burst and GameLoop.Request run on the corrected, swapping compaction (`Performance.ParticlePool.Step`). `World.Valid` keeps the pool's slots distinct, which the game's own compaction breaks (see Findings). So their promises that the old live particles are untouched hold of the corrected pool, not of the pool as written. The as-written step is modelled separately, on any pool including one whose slots share particles, in `Performance.ParticlePool.StepAsWritten`. Its consequences are exhibited in `Performance.ParticlePool.EmitAfterStepAsWritten` and `Performance.ParticlePool.StepAsWrittenAgesTwice`.
- PowerUps.UpdatePowerUps, PowerUps.ApplyPowerUpEffect and GameLoop.World.PowerUpPass take one `now` for the frame. The game reads `Date.now()` afresh in each call (spaceio/utils/powerups.ts:38, 61), so its timers can differ by the milliseconds between the calls.
- GameLoop.World.Eat applies the `setGameStats` and `setLeaderboard` updaters at once, inside the round. React runs them after the frame (spaceio/hooks/useGameLoop.ts:248-255, spaceio/app/page.tsx:77-92). With a single absorption per update the resulting values are the same.
- GameLoop.World.Prelude states only that the world stays valid with a camera, and that the power-ups are old or new. Its steps are stated one by one in the contracts of GameLoop.World.TakeCamera, GameLoop.World.UpdateActors, Players.Player.Update, GameLoop.World.EaseCamera, GameLoop.World.RebuildGrid and GameLoop.World.SpawnPowerUp. Restating their combination at the frame level was left out to keep the proof within the solver's budget.
- GameLoop.World.Collect, GameLoop.World.VisitPowerUp and GameLoop.World.PowerUpPass do not restate what the power-up does to the player. They call `PowerUps.ApplyPowerUpEffect`, whose contract states it.
- GameLoop.GrowthDraws is taken in the middle of the round, before that round's burst and respawn draws. In the game the leaderboard's `Math.random()` calls happen when React runs the updater, after the frame, so the order of draws in the stream differs.
- RandomSource.Random.PointAway stands for the rejection-sampling loops (spaceio/hooks/useGameLoop.ts:127-130, 279-282; spaceio/app/page.tsx:117-121, 128-132, 139-143). The accepted point comes from a `spot` function, constrained only to lie in [0, WORLD_SIZE) on both axes and at least the loop's distance from the player. The draws the loop spends are not counted in the stream, and the loop's termination is not modelled.
- SpaceObjects.SpaceObject.constructor and PowerUps.PowerUp.constructor keep the raw draw as the id. The game formats it with `toString(36).substr(2, 9)`, so two different draws could in principle give one id string.
- Cameras.GuardedZoom, Physics.CalculateCameraZoom and Physics.CalculateSpeed work over reals, not IEEE-754 doubles. NaN, infinities and rounding are absent, so the zoom guard (spaceio/hooks/useGameLoop.ts:77-79) and the finiteness test (spaceio/utils/physics.ts:65) never fire. The rarity sum is exactly 1.
- Physics.ApplyGravity, Players.Player.Update and PowerUps.ApplyMagnetEffect take `Math.sqrt`, `Math.log`, `Math.sin` and `Math.cos` as a `Math` parameter. Only the laws of `Lawful` are known of them.
- Players.Player.Update takes `now` for `Date.now()` in the glow (spaceio/classes/Player.ts:92), and states only the glow's range [0.3, 0.9] beyond its formula.
- Players.Player.Reset resets the world's player in place. initGame assigns a new object to `playerRef.current` (spaceio/app/page.tsx:98), and nothing else holds the old one.
- Page.InitGame does not model `cameraRef`, `mouseRef` or `particlesRef` (spaceio/app/page.tsx:101-113). The frame reads none of them: it uses `window.gameCamera`, the hook's own mouse ref and the hook's particle pool.
- The burst's angles and speeds are drawn but their trigonometry is not followed. `GameLoop.Burst` states the particles' position, colour, size, life and decay, and that two draws are taken per request.
- Integer counters (`absorbed`, `powerUpsCollected`, `activeCount`, timers) are unbounded integers. The game's values stay far below 2^53, where doubles stop counting exactly.

## Findings

| source | as written | input that shows it | evidently intended | confidence | as-written member | corrected member |
|---|---|---|---|---|---|---|
| spaceio/utils/performance.ts:66-69 | compaction copies the survivor's reference down to writeIndex and leaves it in its old slot too | two live particles of which only the second survives the step: slots 0 and 1 then hold the same particle with activeCount 1, and the next getParticleFromPool (performance.ts:38) writes slot 1, overwriting the survivor, so the pool shows the new particle twice | each slot holds its own particle (swap instead of copy), so after a step the next emission appends after the survivors | not executed | Performance.ParticlePool.EmitAfterStepAsWritten | Performance.ParticlePool.EmitAfterStep |
| spaceio/utils/performance.ts:56-69 | the loop ages the particle of each live slot in place, so a particle two slots share (as the copy above leaves them) is aged once per slot | activeCount 2, particles[0] and particles[1] the same particle, with decay < life <= 2·decay: the first visit ages it and keeps it, the second ages it again and drops it, leaving activeCount 1 and a live slot whose life is spent | each live particle is aged once per step | not executed | Performance.ParticlePool.StepAsWrittenAgesTwice | Performance.ParticlePool.Step |
