/** The level's entity registry: three lists of transform records (enemies, projectiles and
    everything the move pass advances), a counter that hands out IDs, and two spawn timers
    that fire with an accumulator-with-carry loop once per frame.

    Engine services are inputs: a transform is an opaque handle; what Instantiate and the random
    draws give each spawn arrives through an oracle indexed by the spawn's pass number within
    the frame; transform positions arrive as a function of the handle (for targeting) and as the
    array the move job works on. */
module Level {
  import opened Vectors
  import opened Jobs
  import ClosestTarget
  import MoveTransform

  /** A reference to an engine Transform, compared by identity. */
  type Handle = int

  /** TransformInfo: one registry record. */
  datatype TransformInfo = TransformInfo(id: int, transform: Handle, velocity: Vec3, radius: real)

  /** What the engine gives one enemy spawn: the instantiated transform and the drawn velocity. */
  datatype Spawn = Spawn(transform: Handle, velocity: Vec3)

  /** The serialized tuning fields that the bookkeeping reads. */
  datatype Config = Config(projectileRadius: real, projectileSpawnRate: real,
                           enemyRadius: real, enemiesSpawnRate: real)

  /** The values the fields are declared with. */
  const DefaultConfig: Config := Config(0.75, 2.0, 0.75, 5.0)

  // ---------------------------------------------------------------- removal by transform

  /** List.RemoveAll with the predicate "record's transform is `t`": the records of `s` whose
      transform is not `t`, in their order. */
  function RemoveAll(s: seq<TransformInfo>, t: Handle): (r: seq<TransformInfo>)
    ensures |r| <= |s|
  {
    if s == [] then []
    else if s[0].transform == t then RemoveAll(s[1..], t)
    else [s[0]] + RemoveAll(s[1..], t)
  }

  /** `f` lists, in strictly increasing order, the positions in `s` that `r` was taken from. */
  ghost predicate Embeds(f: seq<nat>, r: seq<TransformInfo>, s: seq<TransformInfo>) {
    |f| == |r| &&
    (forall k :: 0 <= k < |f| ==> f[k] < |s| && r[k] == s[f[k]]) &&
    (forall k, l :: 0 <= k < l < |f| ==> f[k] < f[l])
  }

  /** After removal no record has transform `t`, and every other record is still there. */
  lemma {:induction false} RemoveAllMembers(s: seq<TransformInfo>, t: Handle)
    ensures forall x :: x in RemoveAll(s, t) <==> x in s && x.transform != t
  {
    if s != [] {
      RemoveAllMembers(s[1..], t);
      assert s == [s[0]] + s[1..];
    }
  }

  /** Every position in `f` moved one place on. */
  function Shift(f: seq<nat>): seq<nat> {
    seq(|f|, k requires 0 <= k < |f| => f[k] + 1)
  }

  /** An embedding into the tail of `s`, shifted, is an embedding into `s` that avoids
      position 0 and holds position `i` exactly when the original held `i - 1`. */
  lemma ShiftEmbeds(f: seq<nat>, r: seq<TransformInfo>, s: seq<TransformInfo>)
    requires s != [] && Embeds(f, r, s[1..])
    ensures Embeds(Shift(f), r, s) && 0 !in Shift(f)
    ensures forall i :: 1 <= i < |s| ==> (i in Shift(f) <==> i - 1 in f)
  {
    var g := Shift(f);
    forall i | 1 <= i < |s| ensures i in g <==> i - 1 in f {
      if i in g {
        var k :| 0 <= k < |g| && g[k] == i;
        assert f[k] == i - 1;
      }
      if i - 1 in f {
        var k :| 0 <= k < |f| && f[k] == i - 1;
        assert g[k] == i;
      }
    }
  }

  /** Prepending position 0 to an embedding that avoids it embeds one more record. */
  lemma ConsEmbeds(g: seq<nat>, r: seq<TransformInfo>, s: seq<TransformInfo>)
    requires s != [] && Embeds(g, r, s) && 0 !in g
    ensures Embeds([0] + g, [s[0]] + r, s)
    ensures forall i :: 1 <= i < |s| ==> (i in [0] + g <==> i in g)
  {
    var f := [0] + g;
    forall k | 0 < k < |f| ensures 0 < f[k] {
      assert f[k] == g[k - 1] && g[k - 1] in g;
    }
  }

  /** `f` holds exactly the positions of `s` whose record does not have transform `t`. */
  ghost predicate KeptPositions(f: seq<nat>, s: seq<TransformInfo>, t: Handle) {
    forall i :: 0 <= i < |s| ==> (i in f <==> s[i].transform != t)
  }

  /** Shifting the kept positions of the tail gives the kept positions of `s`, apart from 0. */
  lemma ShiftKeptPositions(f: seq<nat>, g: seq<nat>, s: seq<TransformInfo>, t: Handle)
    requires s != [] && KeptPositions(f, s[1..], t)
    requires 0 !in g && forall i :: 1 <= i < |s| ==> (i in g <==> i - 1 in f)
    ensures s[0].transform == t ==> KeptPositions(g, s, t)
    ensures s[0].transform != t ==> KeptPositions([0] + g, s, t)
  {
    forall i | 1 <= i < |s| ensures i in g <==> s[i].transform != t {
      assert s[1..][i - 1] == s[i];
    }
    assert forall i :: 1 <= i < |s| ==> (i in [0] + g <==> i in g);
  }

  /** Removal keeps exactly the records whose transform is not `t`, in their relative order:
      the result is the subsequence of `s` at precisely those positions. */
  lemma {:induction false} RemoveAllKeepsOrder(s: seq<TransformInfo>, t: Handle)
    ensures exists f :: Embeds(f, RemoveAll(s, t), s) && KeptPositions(f, s, t)
  {
    if s == [] {
      var f: seq<nat> := [];
      assert Embeds(f, RemoveAll(s, t), s) && KeptPositions(f, s, t);
    } else {
      RemoveAllKeepsOrder(s[1..], t);
      var rest := RemoveAll(s[1..], t);
      var f' :| Embeds(f', rest, s[1..]) && KeptPositions(f', s[1..], t);
      ShiftEmbeds(f', rest, s);
      var g := Shift(f');
      ShiftKeptPositions(f', g, s, t);
      if s[0].transform == t {
        assert Embeds(g, RemoveAll(s, t), s) && KeptPositions(g, s, t);
      } else {
        ConsEmbeds(g, rest, s);
        assert Embeds([0] + g, RemoveAll(s, t), s) && KeptPositions([0] + g, s, t);
      }
    }
  }

  /** Removing a transform that no record holds changes nothing. */
  lemma {:induction false} RemoveAllAbsent(s: seq<TransformInfo>, t: Handle)
    requires forall x :: x in s ==> x.transform != t
    ensures RemoveAll(s, t) == s
  {
    if s != [] {
      assert s[0] in s;
      RemoveAllAbsent(s[1..], t);
      assert s == [s[0]] + s[1..];
    }
  }

  /** Removing the same transform twice is removing it once. */
  lemma RemoveAllIdempotent(s: seq<TransformInfo>, t: Handle)
    ensures RemoveAll(RemoveAll(s, t), t) == RemoveAll(s, t)
  {
    RemoveAllMembers(s, t);
    RemoveAllAbsent(RemoveAll(s, t), t);
  }

  // ---------------------------------------------------------------- identifiers

  /** No two records of `s` share an ID. */
  ghost predicate DistinctIds(s: seq<TransformInfo>) {
    forall i, j :: 0 <= i < j < |s| ==> s[i].id != s[j].id
  }

  /** Every ID in `s` was handed out before the counter reached `bound`. */
  ghost predicate IdsBelow(s: seq<TransformInfo>, bound: int) {
    forall x :: x in s ==> 0 <= x.id < bound
  }

  /** No record of `a` shares an ID with a record of `b`. */
  ghost predicate DisjointIds(a: seq<TransformInfo>, b: seq<TransformInfo>) {
    forall x, y :: x in a && y in b ==> x.id != y.id
  }

  /** Removal never makes two records share an ID. */
  lemma {:induction false} RemoveAllKeepsDistinct(s: seq<TransformInfo>, t: Handle)
    requires DistinctIds(s)
    ensures DistinctIds(RemoveAll(s, t))
  {
    if s != [] {
      RemoveAllKeepsDistinct(s[1..], t);
      RemoveAllMembers(s[1..], t);
      forall x | x in s[1..] ensures x.id != s[0].id {
        var j :| 0 <= j < |s[1..]| && s[1..][j] == x;
        assert s[j + 1] == x;
      }
    }
  }

  // ---------------------------------------------------------------- spawn timers

  /** How many passes the spawn loop makes when the timer stands at `t` after the frame's
      decrement: none when it is positive, otherwise enough whole steps to make it positive. */
  function SpawnCount(t: real): nat {
    if t > 0.0 then 0 else (-t).Floor + 1
  }

  /** The loop makes the least number of passes `k` with `t + k > 0`: one pass fewer would
      leave the timer at or below zero. */
  lemma SpawnCountIsLeast(t: real)
    ensures t + SpawnCount(t) as real > 0.0
    ensures SpawnCount(t) > 0 ==> t + (SpawnCount(t) - 1) as real <= 0.0
  {
    if t <= 0.0 {
      var f := (-t).Floor;
      assert f as real <= -t < f as real + 1.0;
    }
  }

  /** A timer in (0, 1] that is decremented by a non-negative amount ends the frame in (0, 1]. */
  lemma TimerStaysArmed(timer: real, decrement: real)
    requires 0.0 < timer <= 1.0 && 0.0 <= decrement
    ensures 0.0 < timer - decrement + SpawnCount(timer - decrement) as real <= 1.0
  {
    var t := timer - decrement;
    SpawnCountIsLeast(t);
    if SpawnCount(t) > 0 {
      assert t + (SpawnCount(t) - 1) as real <= 0.0;
    }
  }

  /** The records one frame's enemy loop adds: pass `k` gets ID `firstId + k`. */
  function EnemyEntries(firstId: int, count: nat, radius: real, spawn: nat -> Spawn): seq<TransformInfo> {
    seq(count, k requires 0 <= k => TransformInfo(firstId + k, spawn(k).transform, spawn(k).velocity, radius))
  }

  /** The records one frame's projectile loop adds: all fly with the same velocity. */
  function ProjectileEntries(firstId: int, count: nat, radius: real, transformOf: nat -> Handle,
                             velocity: Vec3): seq<TransformInfo> {
    seq(count, k requires 0 <= k => TransformInfo(firstId + k, transformOf(k), velocity, radius))
  }

  /** One more pass of the enemy loop appends the record with the next ID. */
  lemma EnemyEntriesSnoc(firstId: int, count: nat, radius: real, spawn: nat -> Spawn)
    ensures EnemyEntries(firstId, count + 1, radius, spawn)
            == EnemyEntries(firstId, count, radius, spawn)
               + [TransformInfo(firstId + count, spawn(count).transform, spawn(count).velocity, radius)]
  {
  }

  /** One more pass of the projectile loop appends the record with the next ID. */
  lemma ProjectileEntriesSnoc(firstId: int, count: nat, radius: real, transformOf: nat -> Handle, velocity: Vec3)
    ensures ProjectileEntries(firstId, count + 1, radius, transformOf, velocity)
            == ProjectileEntries(firstId, count, radius, transformOf, velocity)
               + [TransformInfo(firstId + count, transformOf(count), velocity, radius)]
  {
  }

  /** The positions of the records' transforms, slot for slot. */
  function PositionsOf(infos: seq<TransformInfo>, positionOf: Handle -> Vec3): seq<Vec3> {
    seq(|infos|, k requires 0 <= k < |infos| => positionOf(infos[k].transform))
  }

  /** The velocities of the records, slot for slot. */
  function VelocitiesOf(infos: seq<TransformInfo>): seq<Vec3> {
    seq(|infos|, k requires 0 <= k < |infos| => infos[k].velocity)
  }

  // ---------------------------------------------------------------- the registry

  class LevelManager {
    const config: Config
    var projectiles: seq<TransformInfo>
    var enemies: seq<TransformInfo>
    var transformsToMove: seq<TransformInfo>
    var enemiesSpawnTimer: real
    var projectileSpawnTimer: real
    var nextTransformID: int

    /** Every ID held by an enemy or a projectile was handed out by the counter, and no ID is
        held twice. `transformsToMove` is not covered: AddTransformToMove takes any record. */
    ghost predicate Valid()
      reads this
    {
      0 <= nextTransformID &&
      IdsBelow(enemies, nextTransformID) && IdsBelow(projectiles, nextTransformID) &&
      DistinctIds(enemies) && DistinctIds(projectiles) && DisjointIds(enemies, projectiles)
    }

    /** Both timers in (0, 1]: the state every frame starts and ends in. */
    ghost predicate TimersArmed()
      reads this
    {
      0.0 < enemiesSpawnTimer <= 1.0 && 0.0 < projectileSpawnTimer <= 1.0
    }

    /** Empty lists, the counter at 0, and both timers armed at 1.0 as Awake leaves them. */
    constructor (config: Config)
      ensures Valid() && TimersArmed()
      ensures this.config == config
      ensures enemies == [] && projectiles == [] && transformsToMove == []
      ensures enemiesSpawnTimer == 1.0 && projectileSpawnTimer == 1.0 && nextTransformID == 0
    {
      this.config := config;
      projectiles, enemies, transformsToMove := [], [], [];
      nextTransformID := 0;
      enemiesSpawnTimer := 1.0;
      projectileSpawnTimer := 1.0;
    }

    /** AddTransformToMove: appends the record to the move list and touches nothing else. */
    method AddTransformToMove(info: TransformInfo)
      requires Valid()
      modifies this
      ensures Valid()
      ensures transformsToMove == old(transformsToMove) + [info]
      ensures enemies == old(enemies) && projectiles == old(projectiles)
      ensures nextTransformID == old(nextTransformID)
      ensures enemiesSpawnTimer == old(enemiesSpawnTimer) && projectileSpawnTimer == old(projectileSpawnTimer)
    {
      transformsToMove := transformsToMove + [info];
    }

    /** SpawnProjectile: the new record takes the current counter as its ID and goes to the end of
        the projectile list and of the move list. `spawn.velocity` stands for the normalised
        direction times the projectile speed. */
    method SpawnProjectile(spawn: Spawn)
      requires Valid()
      modifies this
      ensures Valid()
      ensures var info := TransformInfo(old(nextTransformID), spawn.transform, spawn.velocity, config.projectileRadius);
              projectiles == old(projectiles) + [info] && transformsToMove == old(transformsToMove) + [info]
      ensures nextTransformID == old(nextTransformID) + 1
      ensures enemies == old(enemies)
      ensures enemiesSpawnTimer == old(enemiesSpawnTimer) && projectileSpawnTimer == old(projectileSpawnTimer)
    {
      var info := TransformInfo(nextTransformID, spawn.transform, spawn.velocity, config.projectileRadius);
      nextTransformID := nextTransformID + 1;
      projectiles := projectiles + [info];
      transformsToMove := transformsToMove + [info];
    }

    /** SpawnEnemy: the new record takes the current counter as its ID and goes to the end of
        the enemy list and of the move list. */
    method SpawnEnemy(spawn: Spawn)
      requires Valid()
      modifies this
      ensures Valid()
      ensures var info := TransformInfo(old(nextTransformID), spawn.transform, spawn.velocity, config.enemyRadius);
              enemies == old(enemies) + [info] && transformsToMove == old(transformsToMove) + [info]
      ensures nextTransformID == old(nextTransformID) + 1
      ensures projectiles == old(projectiles)
      ensures enemiesSpawnTimer == old(enemiesSpawnTimer) && projectileSpawnTimer == old(projectileSpawnTimer)
    {
      var info := TransformInfo(nextTransformID, spawn.transform, spawn.velocity, config.enemyRadius);
      nextTransformID := nextTransformID + 1;
      enemies := enemies + [info];
      transformsToMove := transformsToMove + [info];
    }

    /** DeleteEnemy: every record with this transform leaves the enemy list and the move list;
        the projectile list is untouched. */
    method DeleteEnemy(transform: Handle)
      requires Valid()
      modifies this
      ensures Valid()
      ensures enemies == RemoveAll(old(enemies), transform)
      ensures transformsToMove == RemoveAll(old(transformsToMove), transform)
      ensures projectiles == old(projectiles) && nextTransformID == old(nextTransformID)
      ensures enemiesSpawnTimer == old(enemiesSpawnTimer) && projectileSpawnTimer == old(projectileSpawnTimer)
    {
      RemoveAllMembers(enemies, transform);
      RemoveAllKeepsDistinct(enemies, transform);
      enemies := RemoveAll(enemies, transform);
      transformsToMove := RemoveAll(transformsToMove, transform);
    }

    /** DeleteProjectile: every record with this transform leaves the projectile list and the move
        list; the enemy list is untouched. */
    method DeleteProjectile(transform: Handle)
      requires Valid()
      modifies this
      ensures Valid()
      ensures projectiles == RemoveAll(old(projectiles), transform)
      ensures transformsToMove == RemoveAll(old(transformsToMove), transform)
      ensures enemies == old(enemies) && nextTransformID == old(nextTransformID)
      ensures enemiesSpawnTimer == old(enemiesSpawnTimer) && projectileSpawnTimer == old(projectileSpawnTimer)
    {
      RemoveAllMembers(projectiles, transform);
      RemoveAllKeepsDistinct(projectiles, transform);
      projectiles := RemoveAll(projectiles, transform);
      transformsToMove := RemoveAll(transformsToMove, transform);
    }

    /** FindDirectionToClosestEnemy: gathers the enemies' positions into an array, runs the
        nearest-target job for the one seeker and returns the direction it wrote. */
    method FindDirectionToClosestEnemy(seeker: Vec3, positionOf: Handle -> Vec3) returns (direction: Vec3)
      ensures direction == ClosestTarget.ClosestDirection(seeker, PositionsOf(enemies, positionOf))
    {
      var enemyPositions := new Vec3[|enemies|];
      var i := |enemies| - 1;
      while i >= 0
        invariant -1 <= i < |enemies|
        invariant forall k :: i < k < |enemies| ==> enemyPositions[k] == positionOf(enemies[k].transform)
      {
        enemyPositions[i] := positionOf(enemies[i].transform);
        i := i - 1;
      }
      assert enemyPositions[..] == PositionsOf(enemies, positionOf);
      var seekers := new Vec3[1];
      seekers[0] := seeker;
      var closestDirections := new Vec3[1];
      var closestPositions := new Vec3[1];
      assert IsSchedule([0], 1) by { assert 0 in [0]; }
      ClosestTarget.Run(1, [0], seekers, enemyPositions, closestPositions, closestDirections);
      direction := closestDirections[0];
    }

    /** The enemy half of Update: the timer drops by deltaTime times the rate, then each pass of
        the loop spawns one enemy and adds 1.0, until the timer is positive. */
    method SpawnEnemies(deltaTime: real, spawn: nat -> Spawn)
      requires Valid()
      modifies this
      ensures Valid()
      ensures var count := SpawnCount(old(enemiesSpawnTimer) - deltaTime * config.enemiesSpawnRate);
              var added := EnemyEntries(old(nextTransformID), count, config.enemyRadius, spawn);
              enemies == old(enemies) + added &&
              transformsToMove == old(transformsToMove) + added &&
              nextTransformID == old(nextTransformID) + count &&
              enemiesSpawnTimer == old(enemiesSpawnTimer) - deltaTime * config.enemiesSpawnRate + count as real
      ensures projectiles == old(projectiles) && projectileSpawnTimer == old(projectileSpawnTimer)
      ensures enemiesSpawnTimer > 0.0
    {
      enemiesSpawnTimer := enemiesSpawnTimer - deltaTime * config.enemiesSpawnRate;
      ghost var start := enemiesSpawnTimer;
      ghost var count := SpawnCount(start);
      SpawnCountIsLeast(start);
      var passes: nat := 0;
      while enemiesSpawnTimer <= 0.0
        invariant Valid()
        invariant passes <= count
        invariant enemiesSpawnTimer == start + passes as real
        invariant enemies == old(enemies) + EnemyEntries(old(nextTransformID), passes, config.enemyRadius, spawn)
        invariant transformsToMove == old(transformsToMove) + EnemyEntries(old(nextTransformID), passes, config.enemyRadius, spawn)
        invariant nextTransformID == old(nextTransformID) + passes
        invariant projectiles == old(projectiles) && projectileSpawnTimer == old(projectileSpawnTimer)
        decreases count - passes
      {
        SpawnEnemy(spawn(passes));
        enemiesSpawnTimer := enemiesSpawnTimer + 1.0;
        EnemyEntriesSnoc(old(nextTransformID), passes, config.enemyRadius, spawn);
        passes := passes + 1;
      }
    }

    /** The projectile half of Update: the same timer loop; each pass adds 1.0 first, aims at the
        enemy nearest the origin and spawns one projectile. `aim` stands for normalising the
        direction and scaling it by the projectile speed. */
    method SpawnProjectiles(deltaTime: real, projectileTransform: nat -> Handle, aim: Vec3 -> Vec3,
                            positionOf: Handle -> Vec3)
      requires Valid()
      modifies this
      ensures Valid()
      ensures var count := SpawnCount(old(projectileSpawnTimer) - deltaTime * config.projectileSpawnRate);
              var velocity := aim(ClosestTarget.ClosestDirection(Zero, PositionsOf(old(enemies), positionOf)));
              var added := ProjectileEntries(old(nextTransformID), count, config.projectileRadius,
                                             projectileTransform, velocity);
              projectiles == old(projectiles) + added &&
              transformsToMove == old(transformsToMove) + added &&
              nextTransformID == old(nextTransformID) + count &&
              projectileSpawnTimer == old(projectileSpawnTimer) - deltaTime * config.projectileSpawnRate + count as real
      ensures enemies == old(enemies) && enemiesSpawnTimer == old(enemiesSpawnTimer)
      ensures projectileSpawnTimer > 0.0
    {
      projectileSpawnTimer := projectileSpawnTimer - deltaTime * config.projectileSpawnRate;
      ghost var start := projectileSpawnTimer;
      ghost var count := SpawnCount(start);
      ghost var velocity := aim(ClosestTarget.ClosestDirection(Zero, PositionsOf(enemies, positionOf)));
      SpawnCountIsLeast(start);
      var passes: nat := 0;
      while projectileSpawnTimer <= 0.0
        invariant Valid()
        invariant passes <= count
        invariant projectileSpawnTimer == start + passes as real
        invariant projectiles == old(projectiles)
                    + ProjectileEntries(old(nextTransformID), passes, config.projectileRadius, projectileTransform, velocity)
        invariant transformsToMove == old(transformsToMove)
                    + ProjectileEntries(old(nextTransformID), passes, config.projectileRadius, projectileTransform, velocity)
        invariant nextTransformID == old(nextTransformID) + passes
        invariant enemies == old(enemies) && enemiesSpawnTimer == old(enemiesSpawnTimer)
        decreases count - passes
      {
        projectileSpawnTimer := projectileSpawnTimer + 1.0;
        var direction := FindDirectionToClosestEnemy(Zero, positionOf);
        SpawnProjectile(Spawn(projectileTransform(passes), aim(direction)));
        ProjectileEntriesSnoc(old(nextTransformID), passes, config.projectileRadius, projectileTransform, velocity);
        passes := passes + 1;
      }
    }

    /** MoveTransforms: the descending loops fill a transform array and a velocity array slot for
        slot from the move list; then the move job advances `positions`, which holds the
        positions of those transforms in the same slots. Returns the transform array. */
    method MoveTransforms(deltaTime: real, positions: array<Vec3>) returns (transforms: array<Handle>)
      requires positions.Length == |transformsToMove|
      modifies positions
      ensures fresh(transforms) && transforms.Length == |transformsToMove|
      ensures forall i :: 0 <= i < transforms.Length ==> transforms[i] == transformsToMove[i].transform
      ensures positions[..] == MoveTransform.Advanced(old(positions[..]), VelocitiesOf(transformsToMove), deltaTime)
    {
      var n := |transformsToMove|;
      transforms := new Handle[n];
      var i := n - 1;
      while i >= 0
        invariant -1 <= i < n
        modifies transforms
        invariant forall k :: i < k < n ==> transforms[k] == transformsToMove[k].transform
      {
        transforms[i] := transformsToMove[i].transform;
        i := i - 1;
      }
      var velocities := new Vec3[n];
      i := n - 1;
      while i >= 0
        invariant -1 <= i < n
        modifies velocities
        invariant forall k :: i < k < n ==> velocities[k] == transformsToMove[k].velocity
      {
        velocities[i] := transformsToMove[i].velocity;
        i := i - 1;
      }
      assert velocities[..] == VelocitiesOf(transformsToMove);
      MoveTransform.Run(Ascending(n), positions, velocities, deltaTime);
    }

    /** Update: enemy spawns, then projectile spawns aimed with this frame's enemies, then the
        move pass over every record in the move list (including this frame's spawns). */
    method Update(deltaTime: real, enemySpawn: nat -> Spawn, projectileTransform: nat -> Handle,
                  aim: Vec3 -> Vec3, positionOf: Handle -> Vec3, positions: array<Vec3>)
      requires Valid()
      requires positions.Length == |transformsToMove|
                 + SpawnCount(enemiesSpawnTimer - deltaTime * config.enemiesSpawnRate)
                 + SpawnCount(projectileSpawnTimer - deltaTime * config.projectileSpawnRate)
      modifies this, positions
      ensures Valid()
      ensures var enemyCount := SpawnCount(old(enemiesSpawnTimer) - deltaTime * config.enemiesSpawnRate);
              var newEnemies := EnemyEntries(old(nextTransformID), enemyCount, config.enemyRadius, enemySpawn);
              var projectileCount := SpawnCount(old(projectileSpawnTimer) - deltaTime * config.projectileSpawnRate);
              var velocity := aim(ClosestTarget.ClosestDirection(Zero, PositionsOf(old(enemies) + newEnemies, positionOf)));
              var newProjectiles := ProjectileEntries(old(nextTransformID) + enemyCount, projectileCount,
                                                      config.projectileRadius, projectileTransform, velocity);
              enemies == old(enemies) + newEnemies &&
              projectiles == old(projectiles) + newProjectiles &&
              transformsToMove == old(transformsToMove) + newEnemies + newProjectiles &&
              nextTransformID == old(nextTransformID) + enemyCount + projectileCount &&
              enemiesSpawnTimer == old(enemiesSpawnTimer) - deltaTime * config.enemiesSpawnRate + enemyCount as real &&
              projectileSpawnTimer == old(projectileSpawnTimer) - deltaTime * config.projectileSpawnRate + projectileCount as real
      ensures positions[..] == MoveTransform.Advanced(old(positions[..]), VelocitiesOf(transformsToMove), deltaTime)
      ensures enemiesSpawnTimer > 0.0 && projectileSpawnTimer > 0.0
      ensures (old(TimersArmed()) && 0.0 <= deltaTime * config.enemiesSpawnRate
               && 0.0 <= deltaTime * config.projectileSpawnRate) ==> TimersArmed()
    {
      SpawnEnemies(deltaTime, enemySpawn);
      SpawnProjectiles(deltaTime, projectileTransform, aim, positionOf);
      var _ := MoveTransforms(deltaTime, positions);
      if old(TimersArmed()) && 0.0 <= deltaTime * config.enemiesSpawnRate
         && 0.0 <= deltaTime * config.projectileSpawnRate {
        TimerStaysArmed(old(enemiesSpawnTimer), deltaTime * config.enemiesSpawnRate);
        TimerStaysArmed(old(projectileSpawnTimer), deltaTime * config.projectileSpawnRate);
      }
    }
  }
}
