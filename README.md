# Idle survivor: entity registry, nearest-target job and move job

A model of the logic at the core of a small "idle survivor" game prototype. Enemies spawn
around the centre and walk inward. A turret at the origin fires projectiles at the nearest
enemy. Every frame, two data-parallel jobs do the heavy lifting:

- a **nearest-target job** gives each seeker the closest target position and the direction
  toward it (`FindClosestTargetJob.Execute`);
- a **move job** advances every moving transform by its velocity times the frame time
  (`MoveTransformJob.Execute`).

Around the jobs sits `LevelManager`. It keeps three lists of `TransformInfo` records: enemies,
projectiles, and everything the move pass advances. A counter hands out record IDs. Two spawn
timers fire with an accumulator-with-carry loop.

Files:

- `Vectors.dfy`: 3-vectors over exact reals. They stand for `float3` / `Vector3`.
- `Jobs.dfy`: what the parallel runtime promises about order: each index runs exactly once,
  in an order it picks.
- `ClosestTarget.dfy`: the argmin scan as a recursive specification function, plus its
  properties: membership, minimality, and ties going to the highest index. It also holds the
  scan loop, `Execute(index)`, and the whole job run in an arbitrary order.
- `MoveTransform.dfy`: `Execute(index)` as an in-place array update, and the whole job run in
  an arbitrary order. It also holds the zero-time and composition laws.
- `LevelManager.dfy`: the registry as a class over `seq` fields. It covers `RemoveAll` by
  transform handle, the ID invariant, the spawn-count arithmetic of the timer loops, both spawn
  loops, the targeting helper, the array-building loops of the move pass, and `Update`.

Engine services are inputs of the model:

- A `Transform` is an opaque integer handle.
- What `Instantiate` and the random draws give a spawn arrives through a function indexed by
  the spawn's pass number within the frame.
- The transforms' positions arrive in two forms: as a function of the handle (for targeting),
  and as the array the move job updates.
- `Direction.normalized * _projectileSpeed` is a function parameter, `aim`.

Two facts about the nearest-target job:

- With no targets, the job writes the zero vector as the closest position
  (FindClosestTargetJob.cs:20, 32).
- For targets (1,0,0), (0,5,0) and (0,0,-2) and a seeker at the origin, the squared distances
  are 1, 25 and 4, so the scan keeps (1,0,0) (`ClosestTarget.ThreeTargetsExample`).

## Model

| member | source | states |
|---|---|---|
| `Vectors.ScaleAdditive` | Assets/_IdleSurvivor/Scripts/MoveTransformJob.cs:15-17 | moving a point by `v` for `s`, then for `t`, lands where moving it for `s + t` does |
| `ClosestTarget.ScanIsNearestLast` | Assets/_IdleSurvivor/Scripts/FindClosestTargetJob.cs:22-29 | the descending scan over targets[from..] finds nothing exactly when the range is empty; what it keeps is no farther than any target of the range and strictly nearer than every later one |
| `ClosestTarget.ClosestIffNearestLast` | Assets/_IdleSurvivor/Scripts/FindClosestTargetJob.cs:22-29 | the scan keeps index `j` if and only if `j` is a nearest target and no nearest target has a higher index (the tie-break of the descending scan with strict `<`) |
| `ClosestTarget.ClosestPositionIsNearest` | Assets/_IdleSurvivor/Scripts/FindClosestTargetJob.cs:19-32 | with no targets the written position is the zero vector; otherwise it equals some target, and its squared distance is at most that of every target |
| `ClosestTarget.FindClosest` | Assets/_IdleSurvivor/Scripts/FindClosestTargetJob.cs:18-30 | the loop, with `None` as the float.MaxValue sentinel, returns the specified closest position: zero with no targets, otherwise no farther than any target |
| `ClosestTarget.Execute` | Assets/_IdleSurvivor/Scripts/FindClosestTargetJob.cs:10-34 | slot `index` of the outputs gets the seeker's closest position and the unnormalised difference `closest - seeker`; every other output slot and both input arrays are unchanged |
| `ClosestTarget.Run` | Assets/_IdleSurvivor/Scripts/FindClosestTargetJob.cs:8-16 | whatever order the runtime runs the indices in, every slot below `n` ends with its own seeker's result and the slots above `n` are unchanged |
| `ClosestTarget.ThreeTargetsExample` | Assets/_IdleSurvivor/Scripts/FindClosestTargetJob.cs:22-30 | targets (1,0,0), (0,5,0), (0,0,-2) and a seeker at the origin give (1,0,0) |
| `ClosestTarget.TieExample` | Assets/_IdleSurvivor/Scripts/FindClosestTargetJob.cs:22-29 | of two equally near targets the one at the higher index is kept |
| `MoveTransform.Execute` | Assets/_IdleSurvivor/Scripts/MoveTransformJob.cs:13-18 | the position at `index` becomes the old position plus `velocity[index] * deltaTime`; no other position changes and the velocity array is only read |
| `MoveTransform.Run` | Assets/_IdleSurvivor/Scripts/MoveTransformJob.cs:7-18 | running every index once, in any order, advances every position by its own velocity times `deltaTime` and leaves the velocities alone |
| `MoveTransform.AdvancedByZero` | Assets/_IdleSurvivor/Scripts/MoveTransformJob.cs:16-17 | a pass with zero delta time leaves every position unchanged |
| `MoveTransform.AdvancedTwice` | Assets/_IdleSurvivor/Scripts/MoveTransformJob.cs:16-17 | a pass with `dt1` followed by a pass with `dt2` equals one pass with `dt1 + dt2` |
| `MoveTransform.HalfStepExample` | Assets/_IdleSurvivor/Scripts/MoveTransformJob.cs:15-17 | an entity at the origin with velocity (1,0,0) and delta time 0.5 ends at (0.5,0,0) |
| `Level.RemoveAll` | Assets/_IdleSurvivor/Scripts/LevelManager.cs:201-203 | removal never lengthens a list (its full meaning is in the four lemmas below) |
| `Level.RemoveAllMembers` | Assets/_IdleSurvivor/Scripts/LevelManager.cs:201-203 | a record is in the result if and only if it was in the list and its transform is not the removed one |
| `Level.RemoveAllKeepsOrder` | Assets/_IdleSurvivor/Scripts/LevelManager.cs:211-213 | the result is the subsequence of the list at exactly the positions whose transform differs, in their original order |
| `Level.RemoveAllAbsent` | Assets/_IdleSurvivor/Scripts/LevelManager.cs:201-203 | removing a transform that no record holds leaves the list unchanged |
| `Level.RemoveAllIdempotent` | Assets/_IdleSurvivor/Scripts/LevelManager.cs:211-213 | removing the same transform twice gives the same list as removing it once |
| `Level.RemoveAllKeepsDistinct` | Assets/_IdleSurvivor/Scripts/LevelManager.cs:201 | removal never makes two records share an ID |
| `Level.SpawnCountIsLeast` | Assets/_IdleSurvivor/Scripts/LevelManager.cs:62-68 | the spawn loop makes the least number of passes `k` with `timer + k > 0` |
| `Level.TimerStaysArmed` | Assets/_IdleSurvivor/Scripts/LevelManager.cs:62-74 | a timer in (0, 1] (Awake arms both at 1.0) with a non-negative decrement is back in (0, 1] after its loop |
| `Level.LevelManager.constructor` | Assets/_IdleSurvivor/Scripts/LevelManager.cs:34-57 | empty lists, counter 0, both timers 1.0 as Awake sets them; the ID invariant holds |
| `Level.LevelManager.AddTransformToMove` | Assets/_IdleSurvivor/Scripts/LevelManager.cs:155-158 | exactly one record is appended to the move list; everything else is unchanged |
| `Level.LevelManager.SpawnProjectile` | Assets/_IdleSurvivor/Scripts/LevelManager.cs:160-175 | one record, with the old counter as its ID, is appended to the projectile list and to the move list; the counter goes up by 1; enemies are unchanged; the ID invariant is kept |
| `Level.LevelManager.SpawnEnemy` | Assets/_IdleSurvivor/Scripts/LevelManager.cs:177-196 | one record, with the old counter as its ID, is appended to the enemy list and to the move list; the counter goes up by 1; projectiles are unchanged; the ID invariant is kept |
| `Level.LevelManager.DeleteEnemy` | Assets/_IdleSurvivor/Scripts/LevelManager.cs:198-206 | the enemy list and the move list lose every record with that transform (see the RemoveAll lemmas); projectiles, the counter and the timers are unchanged |
| `Level.LevelManager.DeleteProjectile` | Assets/_IdleSurvivor/Scripts/LevelManager.cs:208-216 | the projectile list and the move list lose every record with that transform; enemies, the counter and the timers are unchanged |
| `Level.LevelManager.FindDirectionToClosestEnemy` | Assets/_IdleSurvivor/Scripts/LevelManager.cs:92-118 | the direction returned is the one-seeker job's output for the enemies' positions gathered in list order: the nearest enemy's position minus the seeker's |
| `Level.LevelManager.SpawnEnemies` | Assets/_IdleSurvivor/Scripts/LevelManager.cs:62-68 | the enemy list and the move list grow by exactly the least `k` spawns that make the timer positive, with consecutive fresh IDs; the timer ends at its decremented value plus `k`; projectiles are unchanged |
| `Level.LevelManager.SpawnProjectiles` | Assets/_IdleSurvivor/Scripts/LevelManager.cs:70-81 | the same for projectiles; every new projectile gets the velocity aimed at the enemy nearest the origin; enemies are unchanged |
| `Level.LevelManager.MoveTransforms` | Assets/_IdleSurvivor/Scripts/LevelManager.cs:120-153 | the descending loops build a transform array as long as the move list, with slot `i` holding record `i`'s transform; the positions advance by the records' velocities slot for slot |
| `Level.LevelManager.Update` | Assets/_IdleSurvivor/Scripts/LevelManager.cs:60-85 | one frame: enemy spawns, then projectile spawns aimed with this frame's enemies, then the move pass; the ID invariant is kept; both timers end positive, and they stay in (0, 1] when the decrements are non-negative |

The ID invariant (`Level.LevelManager.Valid`, LevelManager.cs:40, 168, 188) says that every ID
held by an enemy or a projectile lies in `[0, nextTransformID)`. It also says that no ID is
held twice, within or across the two lists. Every method keeps it, and the counter never goes
down.

## Left out

- Engine calls are not modelled: `Instantiate`, `Destroy` (in `DeleteEnemy`, `DeleteProjectile`
  and `Awake`), `Quaternion.LookRotation`, the `Player.rotation` assignment,
  `Random.onUnitSphere` and `Random.Range`. They are foreign and non-deterministic. The spawned
  transform and the velocity are inputs instead.
- The singleton check in `Awake` is engine lifecycle. Only its timer assignments are modelled.
- `TestCollisions` is not modelled. It only throws, and `Update` does not call it.
- Job scheduling and memory management are not modelled: `Schedule`, `Complete`, and
  allocating and disposing `NativeArray` / `TransformAccessArray`. Each job is a sequential run
  of its `Execute` over indices in an arbitrary order.
- Floating point is not modelled: single-precision rounding, `math.normalize`, and
  `Direction.normalized * _projectileSpeed`. Vectors are exact reals. The written direction is
  the unnormalised `closest - seeker`, and the projectile velocity is `aim(direction)` for a
  given `aim`. As a result, the NaN that normalising a zero vector gives is not modelled. That
  happens when there are no enemies, and also when the nearest enemy sits exactly at the
  seeker.
- `ClosestTarget.FindClosest`: the float.MaxValue start is modelled as "no candidate yet".
  In floats, a target whose squared distance is not below float.MaxValue (overflow to
  infinity) is never chosen. With reals, every target can be.
- `Level.LevelManager.SpawnEnemies`: the timer is a real, so the float rounding of the
  decrement and of each `+= 1.0` is not modelled. In single precision, once the timer is far
  enough below zero (about -2^24 or lower, where floats are at least 2 apart), `+= 1.0f` can
  round back to the same value and then no longer changes it. The `while` loop
  (LevelManager.cs:64) then never ends. The model's termination proof holds only because reals
  are exact.
- `Level.LevelManager.SpawnProjectiles`: the same as `SpawnEnemies`. Its loop
  (LevelManager.cs:72) can hang in the same way.
- `nextTransformID` is an unbounded integer. The C# `int` would wrap after 2^31 spawns.
- The ID invariant does not cover the move list. `AddTransformToMove` is public and accepts
  any record, including one with a reused ID.
- `Level.LevelManager.MoveTransforms`: the positions are one array slot per move-list record.
  If the same transform appears twice in the move list, the engine would move that one object
  twice. The model moves two separate slots.
- `Level.LevelManager.Update`: the positions used for targeting (`positionOf`) and the
  positions array the move pass updates are separate inputs. The model does not require that
  they describe the same scene.
- `_projectileSpeed`, `_speedRange` and `_spawnRadius` are not modelled. They only feed the
  random draws and the normalisation left out above.
