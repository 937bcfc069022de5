/** The position integrator job: each index advances one transform's position by its velocity
    times the frame's delta time. `positions` stands for the positions of the transforms in
    the job's transform access array, slot for slot. */
module MoveTransform {
  import opened Vectors
  import opened Jobs

  /** One position advanced by `velocity` for `deltaTime`. */
  function Moved(position: Vec3, velocity: Vec3, deltaTime: real): Vec3 {
    Add(position, Scale(velocity, deltaTime))
  }

  /** Every position advanced by the velocity in the same slot. */
  function Advanced(positions: seq<Vec3>, velocities: seq<Vec3>, deltaTime: real): seq<Vec3>
    requires |positions| == |velocities|
  {
    seq(|positions|, i requires 0 <= i < |positions| => Moved(positions[i], velocities[i], deltaTime))
  }

  /** Execute(index): only slot `index` of the positions moves, by velocity[index] * deltaTime;
      the velocities are only read. */
  method Execute(index: int, positions: array<Vec3>, velocity: array<Vec3>, deltaTime: real)
    requires 0 <= index < positions.Length && index < velocity.Length
    requires positions != velocity
    modifies positions
    ensures positions[index] == Moved(old(positions[index]), velocity[index], deltaTime)
    ensures forall i :: 0 <= i < positions.Length && i != index ==> positions[i] == old(positions[i])
    ensures velocity[..] == old(velocity[..])
  {
    var currentPosition := positions[index];
    var move := Scale(velocity[index], deltaTime);
    positions[index] := Add(currentPosition, move);
  }

  /** The job run to completion over every transform, one Execute per index in whatever order
      the runtime picks; the outcome does not depend on that order. */
  method Run(order: seq<int>, positions: array<Vec3>, velocity: array<Vec3>, deltaTime: real)
    requires IsSchedule(order, positions.Length)
    requires positions.Length == velocity.Length
    requires positions != velocity
    modifies positions
    ensures positions[..] == Advanced(old(positions[..]), velocity[..], deltaTime)
    ensures velocity[..] == old(velocity[..])
  {
    var k := 0;
    while k < |order|
      invariant 0 <= k <= |order|
      invariant forall i :: 0 <= i < positions.Length ==>
                  positions[i] == if i in order[..k] then Moved(old(positions[i]), velocity[i], deltaTime)
                                  else old(positions[i])
    {
      assert order[k] !in order[..k];
      Execute(order[k], positions, velocity, deltaTime);
      assert order[..k + 1] == order[..k] + [order[k]];
      k := k + 1;
    }
    assert order[..k] == order;
  }

  /** With a zero delta time nothing moves. */
  lemma {:induction false} AdvancedByZero(positions: seq<Vec3>, velocities: seq<Vec3>)
    requires |positions| == |velocities|
    ensures Advanced(positions, velocities, 0.0) == positions
  {
    var r := Advanced(positions, velocities, 0.0);
    forall i | 0 <= i < |positions| ensures r[i] == positions[i] {
      assert Scale(velocities[i], 0.0) == Zero;
    }
  }

  /** Two passes with delta times `dt1` and `dt2` end where one pass with `dt1 + dt2` does. */
  lemma {:induction false} AdvancedTwice(positions: seq<Vec3>, velocities: seq<Vec3>, dt1: real, dt2: real)
    requires |positions| == |velocities|
    ensures Advanced(Advanced(positions, velocities, dt1), velocities, dt2)
            == Advanced(positions, velocities, dt1 + dt2)
  {
    var once := Advanced(positions, velocities, dt1);
    var twice := Advanced(once, velocities, dt2);
    forall i | 0 <= i < |positions|
      ensures twice[i] == Moved(positions[i], velocities[i], dt1 + dt2)
    {
      ScaleAdditive(positions[i], velocities[i], dt1, dt2);
    }
  }

  /** One entity at the origin with velocity (1,0,0) and delta time 0.5 ends at (0.5,0,0). */
  lemma HalfStepExample()
    ensures Advanced([Zero], [Vec3(1.0, 0.0, 0.0)], 0.5) == [Vec3(0.5, 0.0, 0.0)]
  {
  }
}
