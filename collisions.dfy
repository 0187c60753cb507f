/** Sphere-overlap collision tests and the rejection sampler that places
    cargo clear of the crane base and of the container. */
module Collisions {
  import opened Geometry

  datatype Option<T> = None | Some(value: T)

  /** Where a cargo object hangs: from the scene, under the claw, or from
      nothing once it has been removed from its parent. */
  datatype Parent = InScene | OnClaw | Detached

  /** A cargo object: local position, bounding-sphere radius, parent. */
  datatype Cargo = Cargo(position: Vec3, radius: real, parent: Parent)

  function Sq(r: real): real { r * r }

  lemma SqNonNegative(r: real)
    ensures Sq(r) >= 0.0
  {
    if r < 0.0 {
      assert Sq(r) == (-r) * (-r);
    }
  }

  function SqDistance(a: Vec3, b: Vec3): real
  {
    Sq(a.x - b.x) + Sq(a.y - b.y) + Sq(a.z - b.z)
  }

  /** Two spheres touch or overlap: squared distance of the centres at most
      the squared sum of the radii (no square root is taken). */
  predicate Colliding(posA: Vec3, posB: Vec3, rA: real, rB: real)
  {
    SqDistance(posA, posB) <= Sq(rA + rB)
  }

  lemma CollidingSymmetric(posA: Vec3, posB: Vec3, rA: real, rB: real)
    ensures Colliding(posA, posB, rA, rB) == Colliding(posB, posA, rB, rA)
  {
    assert Sq(posA.x - posB.x) == Sq(posB.x - posA.x);
    assert Sq(posA.y - posB.y) == Sq(posB.y - posA.y);
    assert Sq(posA.z - posB.z) == Sq(posB.z - posA.z);
    assert Sq(rA + rB) == Sq(rB + rA);
  }

  /** Coinciding centres always collide, whatever the radii (even negative
      ones, as the squared sum is never negative). */
  lemma SameCentreCollides(pos: Vec3, rA: real, rB: real)
    ensures Colliding(pos, pos, rA, rB)
  {
    assert SqDistance(pos, pos) == 0.0;
    SqNonNegative(rA + rB);
  }

  /** checkCollisionsObjects: some object of the list collides with the
      sphere at `pos` of radius `r`. */
  function CollidesWithAny(pos: Vec3, r: real, objects: seq<Cargo>): (b: bool)
    ensures b <==> exists i :: 0 <= i < |objects| && Colliding(pos, objects[i].position, r, objects[i].radius)
  {
    if objects == [] then false
    else
      var rest := CollidesWithAny(pos, r, objects[1..]);
      assert rest <==> exists i :: 1 <= i < |objects| && Colliding(pos, objects[i].position, r, objects[i].radius) by {
        forall i | 1 <= i < |objects| ensures objects[i] == objects[1..][i - 1] { }
      }
      Colliding(pos, objects[0].position, r, objects[0].radius) || rest
  }

  /** The claw's reach sphere touches some object at its world position. */
  ghost predicate ClawColliding(clawWorld: Vec3, worlds: seq<Vec3>, objects: seq<Cargo>)
    requires |worlds| == |objects|
  {
    exists i :: 0 <= i < |objects| && Colliding(clawWorld, worlds[i], ClawCollisionR, objects[i].radius)
  }

  /** The local offset at which a grabbed object hangs under the claw. */
  const HeldOffset: Vec3 := Vec3(0.0, -2.5, 0.0)

  /** The held object's centre is 2.5 from the claw's: 6.25 squared. */
  lemma HeldOffsetSqDistance()
    ensures SqDistance(Zero, HeldOffset) == 6.25
  {
  }

  /** An object held at HeldOffset keeps that distance from the claw in any
      orientation, which is within the claw's reach: it keeps colliding
      every frame. */
  lemma HeldObjectCollides(clawWorld: Vec3, heldWorld: Vec3, r: real)
    requires SqDistance(clawWorld, heldWorld) == SqDistance(Zero, HeldOffset)
    requires r >= 0.0
    ensures Colliding(clawWorld, heldWorld, ClawCollisionR, r)
  {
    HeldOffsetSqDistance();
    ReachCoversOffset(r);
  }

  lemma ReachCoversOffset(r: real)
    requires r >= 0.0
    ensures Sq(ClawCollisionR + r) >= 6.25
  {
    var t := ClawCollisionR + r;
    MonotoneProduct(t, t, 2.5);
    MonotoneProduct(2.5, t, 2.5);
  }

  lemma MonotoneProduct(a: real, b: real, c: real)
    requires a >= 0.0 && b >= c
    ensures a * b >= a * c
  {
  }

  /** An axis-aligned rectangle of the ground plane. */
  datatype Box = Box(minX: real, maxX: real, minZ: real, maxZ: real)

  const ContainerFloorBox: Box := Box(ContainerX - ContainerFloorW / 2.0, ContainerX + ContainerFloorW / 2.0,
                                      ContainerZ - ContainerFloorD / 2.0, ContainerZ + ContainerFloorD / 2.0)
  const CraneBaseBox: Box := Box(-BaseW / 2.0, BaseW / 2.0, -BaseD / 2.0, BaseD / 2.0)

  lemma BoxesAreTheFloorAndTheBase()
    ensures ContainerFloorBox == Box(7.0, 17.0, 12.0, 18.0)
    ensures CraneBaseBox == Box(-3.0, 3.0, -3.0, 3.0)
  {
  }

  /** The square footprint [x-r, x+r] x [z-r, z+r] meets the box (closed
      intervals, as the sampler compares with <= and >=). */
  predicate FootprintOverlaps(x: real, z: real, r: real, b: Box)
  {
    x - r <= b.maxX && x + r >= b.minX && z - r <= b.maxZ && z + r >= b.minZ
  }

  /** The sampler's loop condition: the candidate is rejected. */
  predicate Rejected(x: real, z: real, r: real)
  {
    FootprintOverlaps(x, z, r, ContainerFloorBox) || FootprintOverlaps(x, z, r, CraneBaseBox)
  }

  predicate InBox(px: real, pz: real, b: Box)
  {
    b.minX <= px <= b.maxX && b.minZ <= pz <= b.maxZ
  }

  predicate InFootprint(px: real, pz: real, x: real, z: real, r: real)
  {
    x - r <= px <= x + r && z - r <= pz <= z + r
  }

  /** A footprint that passes the test shares no point with the box. */
  lemma ClearFootprintIsDisjoint(x: real, z: real, r: real, b: Box, px: real, pz: real)
    requires !FootprintOverlaps(x, z, r, b)
    requires InFootprint(px, pz, x, z, r)
    ensures !InBox(px, pz, b)
  {
  }

  /** A footprint that fails the test does share a point with the box. */
  lemma OverlapSharesPoint(x: real, z: real, r: real, b: Box)
    requires FootprintOverlaps(x, z, r, b)
    requires r >= 0.0 && b.minX <= b.maxX && b.minZ <= b.maxZ
    ensures exists px, pz :: InFootprint(px, pz, x, z, r) && InBox(px, pz, b)
  {
    var px, pz := Max(x - r, b.minX), Max(z - r, b.minZ);
    assert InFootprint(px, pz, x, z, r) && InBox(px, pz, b);
  }

  /** Half the side of the square cargo is sampled in: a bit less than the
      jib's reach, so that objects stay reachable. */
  function SamplingBound(r: real): real
  {
    JibW + CabW / 2.0 - r * 2.0
  }

  /** A random number s in [0, 1) mapped onto [-m, m). */
  function SampleCoordinate(s: real, m: real): real
  {
    s * (m - -m) + -m
  }

  lemma SampleInSquare(s: real, m: real)
    requires 0.0 <= s < 1.0 && m >= 0.0
    ensures -m <= SampleCoordinate(s, m) <= m
  {
    assert s * (2.0 * m) <= 2.0 * m by {
      assert (1.0 - s) * (2.0 * m) >= 0.0;
    }
    assert s * (2.0 * m) >= 0.0;
  }

  predicate UnitSamples(samples: seq<real>)
  {
    forall i :: 0 <= i < |samples| ==> 0.0 <= samples[i] < 1.0
  }

  /** The candidate position drawn from samples i and i + 1. */
  function Candidate(samples: seq<real>, i: nat, y: real, r: real): Vec3
    requires i + 1 < |samples|
  {
    Vec3(SampleCoordinate(samples[i], SamplingBound(r)), y, SampleCoordinate(samples[i + 1], SamplingBound(r)))
  }

  /** Samples i and i + 1 exist and give a rejected candidate. */
  predicate RejectsAt(samples: seq<real>, i: nat, r: real)
  {
    i + 1 < |samples| && Rejected(Candidate(samples, i, 0.0, r).x, Candidate(samples, i, 0.0, r).z, r)
  }

  /** The pair of samples of the t-th attempt made from `from` is rejected. */
  predicate AttemptRejected(samples: seq<real>, from: nat, t: nat, r: real)
  {
    RejectsAt(samples, from + 2 * t, r)
  }

  /** Every attempt started before sample index `to` was rejected. */
  ghost predicate AllRejected(samples: seq<real>, from: nat, to: nat, r: real)
  {
    forall t: nat :: from + 2 * t < to ==> AttemptRejected(samples, from, t, r)
  }

  /** A rejected attempt at `next` extends the run of rejected attempts. */
  lemma RejectedStep(samples: seq<real>, from: nat, next: nat, r: real)
    requires from <= next && (next - from) % 2 == 0
    requires AllRejected(samples, from, next, r) && RejectsAt(samples, next, r)
    ensures AllRejected(samples, from, next + 2, r)
  {
    assert AttemptRejected(samples, from, (next - from) / 2, r);
  }

  /** The candidate's rejection test does not depend on its height. */
  lemma CandidateRejection(samples: seq<real>, i: nat, y: real, r: real)
    requires i + 1 < |samples|
    ensures RejectsAt(samples, i, r) == Rejected(Candidate(samples, i, y, r).x, Candidate(samples, i, y, r).z, r)
    ensures Candidate(samples, i, y, r).y == y
  {
  }

  /** Unit samples place the candidate inside the sampling square. */
  lemma CandidateInSquare(samples: seq<real>, i: nat, y: real, r: real)
    requires i + 1 < |samples| && UnitSamples(samples) && SamplingBound(r) >= 0.0
    ensures -SamplingBound(r) <= Candidate(samples, i, y, r).x <= SamplingBound(r)
    ensures -SamplingBound(r) <= Candidate(samples, i, y, r).z <= SamplingBound(r)
  {
    SampleInSquare(samples[i], SamplingBound(r));
    SampleInSquare(samples[i + 1], SamplingBound(r));
  }

  /** generateRandomPosition: draw (x, z) pairs from `samples`, starting at
      index `from`, until a pair's footprint is clear of the container floor
      and of the crane base; the height `y` is kept. Returns None when the
      samples run out first. The accepted candidate is the first clear one. */
  method GenerateRandomPosition(y: real, r: real, samples: seq<real>, from: nat) returns (pos: Option<Vec3>, next: nat)
    requires from <= |samples|
    ensures from <= next <= |samples| && (next - from) % 2 == 0
    ensures pos.None? ==> |samples| < next + 2 && AllRejected(samples, from, next, r)
    ensures pos.Some? ==> && from + 2 <= next
                          && AllRejected(samples, from, next - 2, r)
                          && pos.value == Candidate(samples, next - 2, y, r)
    ensures pos.Some? ==> pos.value.y == y && !Rejected(pos.value.x, pos.value.z, r)
    ensures pos.Some? && UnitSamples(samples) && SamplingBound(r) >= 0.0 ==>
              && -SamplingBound(r) <= pos.value.x <= SamplingBound(r)
              && -SamplingBound(r) <= pos.value.z <= SamplingBound(r)
  {
    next := from;
    while next + 2 <= |samples|
      invariant from <= next <= |samples| && (next - from) % 2 == 0
      invariant AllRejected(samples, from, next, r)
      decreases |samples| - next
    {
      CandidateRejection(samples, next, y, r);
      if !RejectsAt(samples, next, r) {
        if UnitSamples(samples) && SamplingBound(r) >= 0.0 {
          CandidateInSquare(samples, next, y, r);
        }
        pos, next := Some(Candidate(samples, next, y, r)), next + 2;
        return;
      }
      RejectedStep(samples, from, next, r);
      next := next + 2;
    }
    pos := None;
  }

  /** The sampling square of half side SamplingBound(r). */
  predicate InSamplingSquare(pos: Vec3, r: real)
  {
    -SamplingBound(r) <= pos.x <= SamplingBound(r) && -SamplingBound(r) <= pos.z <= SamplingBound(r)
  }

  /** What createCargo's two loops draw together for one object: the first
      candidate from index `from` on whose footprint is clear and that
      collides with no object already placed, with the index after it; or
      None with the index at which the samples ran out. */
  function FirstClear(y: real, r: real, samples: seq<real>, from: nat, objects: seq<Cargo>): (res: (Option<Vec3>, nat))
    requires from <= |samples|
    ensures from <= res.1 <= |samples|
    ensures res.0.None? ==> |samples| < res.1 + 2
    ensures res.0.Some? ==> && from + 2 <= res.1
                            && res.0.value == Candidate(samples, res.1 - 2, y, r)
                            && res.0.value.y == y
                            && !Rejected(res.0.value.x, res.0.value.z, r)
                            && !CollidesWithAny(res.0.value, r, objects)
    decreases |samples| - from
  {
    if |samples| < from + 2 then (None, from)
    else
      var c := Candidate(samples, from, y, r);
      if !Rejected(c.x, c.z, r) && !CollidesWithAny(c, r, objects) then (Some(c), from + 2)
      else FirstClear(y, r, samples, from + 2, objects)
  }

  /** From unit samples, whatever FirstClear accepts lies in the sampling square. */
  lemma {:induction false} FirstClearInSquare(y: real, r: real, samples: seq<real>, from: nat, objects: seq<Cargo>)
    requires from <= |samples| && UnitSamples(samples) && SamplingBound(r) >= 0.0
    ensures FirstClear(y, r, samples, from, objects).0.Some? ==> InSamplingSquare(FirstClear(y, r, samples, from, objects).0.value, r)
    decreases |samples| - from
  {
    if from + 2 <= |samples| {
      CandidateInSquare(samples, from, y, r);
      FirstClearInSquare(y, r, samples, from + 2, objects);
    }
  }

  /** A run of rejected attempts is skipped by FirstClear. */
  lemma {:induction false} SkipRejected(y: real, r: real, samples: seq<real>, from: nat, stop: nat, objects: seq<Cargo>)
    requires from <= stop <= |samples| && (stop - from) % 2 == 0
    requires AllRejected(samples, from, stop, r)
    ensures FirstClear(y, r, samples, from, objects) == FirstClear(y, r, samples, stop, objects)
    decreases stop - from
  {
    if from < stop {
      assert AttemptRejected(samples, from, 0, r);
      CandidateRejection(samples, from, y, r);
      forall t: nat | from + 2 + 2 * t < stop
        ensures AttemptRejected(samples, from + 2, t, r)
      {
        assert AttemptRejected(samples, from, t + 1, r);
      }
      SkipRejected(y, r, samples, from + 2, stop, objects);
    }
  }

  /** One draw of generateRandomPosition, followed by the collision test,
      is one step of FirstClear: a clear, non-colliding draw is its result,
      a colliding one leaves the rest of the search to the samples after it. */
  lemma DrawIsFirstClearStep(y: real, r: real, samples: seq<real>, from: nat, pos: Option<Vec3>, next: nat, objects: seq<Cargo>)
    requires from <= next <= |samples| && (next - from) % 2 == 0
    requires pos.None? ==> |samples| < next + 2 && AllRejected(samples, from, next, r)
    requires pos.Some? ==> && from + 2 <= next
                           && AllRejected(samples, from, next - 2, r)
                           && pos.value == Candidate(samples, next - 2, y, r)
                           && !Rejected(pos.value.x, pos.value.z, r)
    ensures FirstClear(y, r, samples, from, objects)
         == if pos.None? then (None, next)
            else if CollidesWithAny(pos.value, r, objects) then FirstClear(y, r, samples, next, objects)
            else (pos, next)
  {
    if pos.None? {
      SkipRejected(y, r, samples, from, next, objects);
    } else {
      SkipRejected(y, r, samples, from, next - 2, objects);
    }
  }

  /** The cargo placement guarantee: every object stands in the scene with
      its footprint clear, and no object collides with one placed before it. */
  ghost predicate PlacementValid(objects: seq<Cargo>)
  {
    && (forall i :: 0 <= i < |objects| ==>
          objects[i].parent == InScene && !Rejected(objects[i].position.x, objects[i].position.z, objects[i].radius))
    && (forall i, j :: 0 <= i < j < |objects| ==>
          !Colliding(objects[j].position, objects[i].position, objects[j].radius, objects[i].radius))
  }

  /** Every object whose sampling square is not empty lies inside it. */
  predicate PlacedInSquare(objects: seq<Cargo>)
  {
    forall i :: 0 <= i < |objects| && SamplingBound(objects[i].radius) >= 0.0 ==>
      InSamplingSquare(objects[i].position, objects[i].radius)
  }

  /** Appending an accepted object that collides with none of the earlier
      ones keeps the placement guarantee. */
  lemma PlacementExtends(objects: seq<Cargo>, c: Cargo)
    requires PlacementValid(objects)
    requires c.parent == InScene && !Rejected(c.position.x, c.position.z, c.radius)
    requires !CollidesWithAny(c.position, c.radius, objects)
    ensures PlacementValid(objects + [c])
  {
    var r := objects + [c];
    forall i, j | 0 <= i < j < |r|
      ensures !Colliding(r[j].position, r[i].position, r[j].radius, r[i].radius)
    {
      if j == |objects| {
        assert r[i] == objects[i];
      } else {
        assert r[i] == objects[i] && r[j] == objects[j];
      }
    }
  }
}
