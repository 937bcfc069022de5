/** The nearest-target job: for one seeker, a linear scan over the target positions that keeps
    the target with the smallest squared distance. The scan runs from the last target down to
    the first and replaces its candidate only on a strictly smaller distance. */
module ClosestTarget {
  import opened Vectors
  import opened Jobs

  datatype Option<T> = None | Some(value: T)

  /** The candidate the scan holds after visiting targets |targets|-1 down to `from`:
      None while nothing has been visited, otherwise the index of the kept target. */
  function Scan(seeker: Vec3, targets: seq<Vec3>, from: nat): (r: Option<nat>)
    requires from <= |targets|
    ensures r.Some? ==> from <= r.value < |targets|
    decreases |targets| - from
  {
    if from == |targets| then None
    else
      var rest := Scan(seeker, targets, from + 1);
      if rest.None? || DistSq(seeker, targets[from]) < DistSq(seeker, targets[rest.value])
      then Some(from)
      else rest
  }

  /** The index the whole scan settles on. */
  function Closest(seeker: Vec3, targets: seq<Vec3>): Option<nat> {
    Scan(seeker, targets, 0)
  }

  /** The position the job writes: the kept target, or the zero vector when there is none. */
  function ClosestPosition(seeker: Vec3, targets: seq<Vec3>): Vec3 {
    match Closest(seeker, targets)
    case None => Zero
    case Some(j) => targets[j]
  }

  /** The direction the job writes, before normalisation. */
  function ClosestDirection(seeker: Vec3, targets: seq<Vec3>): Vec3 {
    Sub(ClosestPosition(seeker, targets), seeker)
  }

  /** Target `j` is a nearest one among targets[from..], and every later target is strictly farther. */
  ghost predicate NearestLastFrom(seeker: Vec3, targets: seq<Vec3>, from: nat, j: int) {
    from <= j < |targets| &&
    (forall i :: from <= i < |targets| ==> DistSq(seeker, targets[j]) <= DistSq(seeker, targets[i])) &&
    (forall i :: j < i < |targets| ==> DistSq(seeker, targets[j]) < DistSq(seeker, targets[i]))
  }

  /** Target `j` is a nearest target, and of all nearest targets the one with the highest index. */
  ghost predicate NearestLast(seeker: Vec3, targets: seq<Vec3>, j: int) {
    NearestLastFrom(seeker, targets, 0, j)
  }

  /** The scan over targets[from..] finds nothing exactly when that range is empty, and what it
      finds is the nearest target of the range, ties going to the highest index. */
  lemma {:induction false} ScanIsNearestLast(seeker: Vec3, targets: seq<Vec3>, from: nat)
    requires from <= |targets|
    ensures Scan(seeker, targets, from).None? <==> from == |targets|
    ensures Scan(seeker, targets, from).Some? ==>
              NearestLastFrom(seeker, targets, from, Scan(seeker, targets, from).value)
    decreases |targets| - from
  {
    if from < |targets| {
      ScanIsNearestLast(seeker, targets, from + 1);
    }
  }

  /** The scan's result is exactly the nearest target with the highest index: no other index
      has that property, and it is found whenever there is any target. */
  lemma ClosestIffNearestLast(seeker: Vec3, targets: seq<Vec3>, j: int)
    ensures Closest(seeker, targets) == Some(j) <==> NearestLast(seeker, targets, j)
  {
    ScanIsNearestLast(seeker, targets, 0);
  }

  /** What the written position means: the zero vector without targets, otherwise a target
      whose squared distance to the seeker is no larger than any other target's. */
  lemma ClosestPositionIsNearest(seeker: Vec3, targets: seq<Vec3>)
    ensures |targets| == 0 ==> ClosestPosition(seeker, targets) == Zero
    ensures |targets| > 0 ==>
              exists j :: 0 <= j < |targets| && ClosestPosition(seeker, targets) == targets[j]
    ensures forall i :: 0 <= i < |targets| ==>
              DistSq(seeker, ClosestPosition(seeker, targets)) <= DistSq(seeker, targets[i])
  {
    ScanIsNearestLast(seeker, targets, 0);
  }

  /** The descending loop of the job's Execute, for one seeker: `closestDistance` None plays the
      part of the float.MaxValue sentinel, which every real distance undercuts. */
  method FindClosest(seeker: Vec3, targets: array<Vec3>) returns (closest: Vec3)
    ensures closest == ClosestPosition(seeker, targets[..])
    ensures targets.Length == 0 ==> closest == Zero
    ensures forall i :: 0 <= i < targets.Length ==> DistSq(seeker, closest) <= DistSq(seeker, targets[i])
  {
    var closestDistance: Option<real> := None;
    closest := Zero;
    var i := targets.Length - 1;
    while i >= 0
      invariant -1 <= i < targets.Length
      invariant closestDistance.None? <==> Scan(seeker, targets[..], i + 1).None?
      invariant Scan(seeker, targets[..], i + 1).Some? ==>
                  var j := Scan(seeker, targets[..], i + 1).value;
                  closestDistance == Some(DistSq(seeker, targets[j])) && closest == targets[j]
      invariant Scan(seeker, targets[..], i + 1).None? ==> closest == Zero
    {
      var targetDistance := DistSq(seeker, targets[i]);
      if closestDistance.None? || targetDistance < closestDistance.value {
        closestDistance := Some(targetDistance);
        closest := targets[i];
      }
      i := i - 1;
    }
    ClosestPositionIsNearest(seeker, targets[..]);
  }

  /** Execute(index): one seeker's scan, written to slot `index` of both output arrays and
      nowhere else. The outputs are arrays of their own; the inputs are only read. */
  method Execute(index: int, seekers: array<Vec3>, targets: array<Vec3>,
                 closestPositions: array<Vec3>, closestDirections: array<Vec3>)
    requires 0 <= index < seekers.Length
    requires index < closestPositions.Length && index < closestDirections.Length
    requires closestPositions != closestDirections
    requires closestPositions != seekers && closestPositions != targets
    requires closestDirections != seekers && closestDirections != targets
    modifies closestPositions, closestDirections
    ensures closestPositions[index] == ClosestPosition(seekers[index], targets[..])
    ensures closestDirections[index] == ClosestDirection(seekers[index], targets[..])
    ensures forall i :: 0 <= i < closestPositions.Length && i != index ==>
              closestPositions[i] == old(closestPositions[i])
    ensures forall i :: 0 <= i < closestDirections.Length && i != index ==>
              closestDirections[i] == old(closestDirections[i])
    ensures seekers[..] == old(seekers[..]) && targets[..] == old(targets[..])
  {
    var closest := FindClosest(seekers[index], targets);
    closestPositions[index] := closest;
    closestDirections[index] := Sub(closest, seekers[index]);
  }

  /** The job run to completion over its first `n` seekers, one Execute per index in the order
      the runtime picks. Whatever that order, every slot below `n` ends up with its own seeker's
      result and the slots above `n` keep their values. */
  method Run(n: nat, order: seq<int>, seekers: array<Vec3>, targets: array<Vec3>,
             closestPositions: array<Vec3>, closestDirections: array<Vec3>)
    requires IsSchedule(order, n)
    requires n <= seekers.Length && n <= closestPositions.Length && n <= closestDirections.Length
    requires closestPositions != closestDirections
    requires closestPositions != seekers && closestPositions != targets
    requires closestDirections != seekers && closestDirections != targets
    modifies closestPositions, closestDirections
    ensures forall i :: 0 <= i < n ==>
              closestPositions[i] == ClosestPosition(seekers[i], targets[..]) &&
              closestDirections[i] == ClosestDirection(seekers[i], targets[..])
    ensures forall i :: n <= i < closestPositions.Length ==> closestPositions[i] == old(closestPositions[i])
    ensures forall i :: n <= i < closestDirections.Length ==> closestDirections[i] == old(closestDirections[i])
  {
    var k := 0;
    while k < |order|
      invariant 0 <= k <= |order|
      invariant forall i :: 0 <= i < closestPositions.Length ==>
                  closestPositions[i] == if i in order[..k] then ClosestPosition(seekers[i], targets[..])
                                         else old(closestPositions[i])
      invariant forall i :: 0 <= i < closestDirections.Length ==>
                  closestDirections[i] == if i in order[..k] then ClosestDirection(seekers[i], targets[..])
                                          else old(closestDirections[i])
    {
      Execute(order[k], seekers, targets, closestPositions, closestDirections);
      assert order[..k + 1] == order[..k] + [order[k]];
      k := k + 1;
    }
    assert order[..k] == order;
  }

  /** Three targets, seeker at the origin: squared distances 1, 25 and 4, so (1,0,0) is kept. */
  lemma ThreeTargetsExample()
    ensures ClosestPosition(Zero, [Vec3(1.0, 0.0, 0.0), Vec3(0.0, 5.0, 0.0), Vec3(0.0, 0.0, -2.0)])
            == Vec3(1.0, 0.0, 0.0)
  {
    var t := [Vec3(1.0, 0.0, 0.0), Vec3(0.0, 5.0, 0.0), Vec3(0.0, 0.0, -2.0)];
    assert Scan(Zero, t, 3) == None;
    assert Scan(Zero, t, 2) == Some(2);
    assert Scan(Zero, t, 1) == Some(2);
    assert Scan(Zero, t, 0) == Some(0);
  }

  /** Two targets at the same distance: the scan meets index 1 first and keeps it. */
  lemma TieExample()
    ensures Closest(Zero, [Vec3(1.0, 0.0, 0.0), Vec3(-1.0, 0.0, 0.0)]) == Some(1)
  {
    var t := [Vec3(1.0, 0.0, 0.0), Vec3(-1.0, 0.0, 0.0)];
    assert Scan(Zero, t, 2) == None;
    assert Scan(Zero, t, 1) == Some(1);
  }
}
