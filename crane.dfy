/** The crane's animated state and the operations that change it in place:
    the transform appliers, the frame update, the grab choreography, the
    key handlers and the cargo placement. */
module CraneScene {
  import opened Geometry
  import opened Flags
  import opened MotionProfiles
  import opened Appliers
  import opened Collisions
  import opened Choreography

  /** The yaw each of the four fingers is built with, around the wrist. */
  function FingerYaw(i: int): real
  {
    if i == 0 then 0.0 else if i == 1 then Pi else if i == 2 then Pi / 2.0 else -Pi / 2.0
  }

  /** The heights the five cargo objects are created at: half the box's
      height, the solids' radii, and the torus knot's radius plus its tube. */
  const CargoHeights: seq<real> := [1.5, 1.5, 2.0, 1.75, 1.8]

  /** createCargo as a function of the radii and the random samples: from
      object k on, each object is placed at the first clear draw among the
      samples the previous object left, and placement stops, unfinished, when
      the samples run out. The result says whether all objects were placed,
      gives the objects, and the index of the first unused sample. */
  function Placement(radii: seq<real>, samples: seq<real>, k: nat, from: nat, placed: seq<Cargo>): (res: (bool, seq<Cargo>, nat))
    requires |radii| == |CargoHeights| && |placed| == k <= |CargoHeights| && from <= |samples|
    ensures from <= res.2 <= |samples|
    ensures res.0 <==> |res.1| == |CargoHeights|
    ensures !res.0 ==> |samples| < res.2 + 2
    ensures k <= |res.1| <= |CargoHeights| && forall i :: 0 <= i < k ==> res.1[i] == placed[i]
    ensures forall i :: k <= i < |res.1| ==>
              res.1[i].radius == radii[i] && res.1[i].position.y == CargoHeights[i] && res.1[i].parent == InScene
    decreases |CargoHeights| - k
  {
    if k == |CargoHeights| then (true, placed, from)
    else
      var draw := FirstClear(CargoHeights[k], radii[k], samples, from, placed);
      if draw.0.None? then (false, placed, draw.1)
      else
        Placement(radii, samples, k + 1, draw.1, placed + [Cargo(draw.0.value, radii[k], InScene)])
  }

  /** What placement guarantees: no object's footprint meets the container
      floor or the crane base, no object collides with one placed before it,
      and, from samples in [0, 1), every object lies in its sampling square. */
  lemma {:induction false} PlacementSound(radii: seq<real>, samples: seq<real>, k: nat, from: nat, placed: seq<Cargo>)
    requires |radii| == |CargoHeights| && |placed| == k <= |CargoHeights| && from <= |samples|
    requires PlacementValid(placed)
    requires UnitSamples(samples) ==> PlacedInSquare(placed)
    ensures PlacementValid(Placement(radii, samples, k, from, placed).1)
    ensures UnitSamples(samples) ==> PlacedInSquare(Placement(radii, samples, k, from, placed).1)
    decreases |CargoHeights| - k
  {
    if k < |CargoHeights| {
      var draw := FirstClear(CargoHeights[k], radii[k], samples, from, placed);
      if draw.0.Some? {
        var c := Cargo(draw.0.value, radii[k], InScene);
        PlacementExtends(placed, c);
        if UnitSamples(samples) {
          if SamplingBound(radii[k]) >= 0.0 {
            FirstClearInSquare(CargoHeights[k], radii[k], samples, from, placed);
          }
          assert PlacedInSquare(placed + [c]) by {
            forall i | 0 <= i < |placed + [c]| && SamplingBound((placed + [c])[i].radius) >= 0.0
              ensures InSamplingSquare((placed + [c])[i].position, (placed + [c])[i].radius)
            {
              if i < |placed| {
                assert (placed + [c])[i] == placed[i];
              }
            }
          }
        }
        PlacementSound(radii, samples, k + 1, draw.1, placed + [c]);
      }
    }
  }

  /** The transforms the appliers write: the top's rotation, the trolley's
      position, the cable's position, scale and length, the claw's position
      and the four fingers' rotations. */
  datatype Pose = Pose(top: Vec3, trolley: Vec3, cablePosition: Vec3, cableScale: Vec3, cableH: real,
                       claw: Vec3, fingers: seq<Vec3>)

  /** Every clamped bound holds (trolley x, cable length and with it claw y,
      finger closing angle; the top's yaw is unbounded), the claw hangs at
      the cable's end, the cable is centred on its length, and each part
      has only moved along its own axis since construction (the fingers all
      share one closing angle). */
  predicate ValidPose(p: Pose)
  {
    && |p.fingers| == 4
    && p.top.x == 0.0 && p.top.z == 0.0
    && DofOf(TrolleyProfile).min <= p.trolley.x <= DofOf(TrolleyProfile).max
    && p.trolley.y == TrolleyH && p.trolley.z == 0.0
    && DofOf(CableProfile).min <= p.cableH <= DofOf(CableProfile).max
    && p.cablePosition == Vec3(0.0, CablePositionY(p.cableH), 0.0)
    && (p.cableScale == One || p.cableScale == CableScale(p.cableH, One))
    && p.claw == Vec3(0.0, ClawYFor(p.cableH), 0.0)
    && (forall j :: 0 <= j < 4 ==> p.fingers[j] == Vec3(0.0, FingerYaw(j), p.fingers[0].z))
    && DofOf(FingerProfile).min <= p.fingers[0].z <= DofOf(FingerProfile).max
  }

  /** The displacement deltaSupplier yields for each part in one frame. */
  datatype Displacements = Displacements(top: Vec3, trolley: Vec3, cable: Vec3, claw: Vec3, fingers: Vec3)

  ghost function FrameDisplacements(f: map<Part, set<Direction>>, timeDelta: real): Displacements
    requires WellFormedFlags(f)
  {
    Displacements(Delta(BagOf(f, Top), TopProfile, timeDelta),
                  Delta(BagOf(f, Trolley), TrolleyProfile, timeDelta),
                  Delta(BagOf(f, Cable), CableProfile, timeDelta),
                  Delta(BagOf(f, Claw), ClawProfile, timeDelta),
                  Delta(BagOf(f, Fingers), FingerProfile, timeDelta))
  }

  /** The appliers of one frame, given each part's displacement: each part
      whose flags exist is moved by its applier. */
  function Advance(p: Pose, f: map<Part, set<Direction>>, d: Displacements): Pose
  {
    var cableH := if Cable in f then ResizedLength(p.cableH, d.cable, DofOf(CableProfile)) else p.cableH;
    Pose(
      if Top in f then Rotate(p.top, d.top, DofOf(TopProfile), DofOf(TopProfile).clamp) else p.top,
      if Trolley in f then Translate(p.trolley, d.trolley, DofOf(TrolleyProfile)) else p.trolley,
      if Cable in f then p.cablePosition.(y := CablePositionY(cableH)) else p.cablePosition,
      if Cable in f then CableScale(cableH, p.cableScale) else p.cableScale,
      cableH,
      if Claw in f then Translate(p.claw, d.claw, DofOf(ClawProfile)) else p.claw,
      if Fingers in f then RotateAll(p.fingers, d.fingers) else p.fingers)
  }

  /** One entry of the update loop: the part's applier, when its flags
      exist, writing only that part's transforms. */
  function AdvancePart(p: Pose, f: map<Part, set<Direction>>, d: Displacements, part: Part): Pose
  {
    if part !in f then p
    else match part
      case Top => p.(top := Rotate(p.top, d.top, DofOf(TopProfile), DofOf(TopProfile).clamp))
      case Trolley => p.(trolley := Translate(p.trolley, d.trolley, DofOf(TrolleyProfile)))
      case Cable =>
        var h := ResizedLength(p.cableH, d.cable, DofOf(CableProfile));
        p.(cableH := h, cablePosition := p.cablePosition.(y := CablePositionY(h)), cableScale := CableScale(h, p.cableScale))
      case Claw => p.(claw := Translate(p.claw, d.claw, DofOf(ClawProfile)))
      case Fingers => p.(fingers := RotateAll(p.fingers, d.fingers))
  }

  /** The pose after the update loop has visited the first n entries of
      CraneDynamicParts. */
  function AdvanceFirst(p: Pose, f: map<Part, set<Direction>>, d: Displacements, n: nat): Pose
    requires n <= |CraneDynamicParts|
  {
    if n == 0 then p else AdvancePart(AdvanceFirst(p, f, d, n - 1), f, d, CraneDynamicParts[n - 1].part)
  }

  /** The parts write disjoint transforms, so visiting them one after the
      other in table order moves each as if all moved at once. */
  lemma {:induction false} SequentialIsAdvance(p: Pose, f: map<Part, set<Direction>>, d: Displacements)
    ensures AdvanceFirst(p, f, d, |CraneDynamicParts|) == Advance(p, f, d)
  {
    assert AdvanceFirst(p, f, d, 0) == p;
    var p1 := AdvanceFirst(p, f, d, 1);
    var p2 := AdvanceFirst(p, f, d, 2);
    var p3 := AdvanceFirst(p, f, d, 3);
    var p4 := AdvanceFirst(p, f, d, 4);
    assert p1 == AdvancePart(p, f, d, Top);
    assert p2 == AdvancePart(p1, f, d, Trolley);
    assert p3 == AdvancePart(p2, f, d, Cable);
    assert p4 == AdvancePart(p3, f, d, Claw);
    assert AdvanceFirst(p, f, d, 5) == AdvancePart(p4, f, d, Fingers);
  }

  /** One pass of the update loop over CraneDynamicParts. */
  ghost function ApplyFrame(p: Pose, f: map<Part, set<Direction>>, timeDelta: real): Pose
    requires WellFormedFlags(f)
  {
    Advance(p, f, FrameDisplacements(f, timeDelta))
  }

  /** Every finger turned by the same displacement, clamped. */
  function RotateAll(fingers: seq<Vec3>, delta: Vec3): (r: seq<Vec3>)
    ensures |r| == |fingers|
    ensures forall j :: 0 <= j < |r| ==> r[j] == Rotate(fingers[j], delta, DofOf(FingerProfile), DofOf(FingerProfile).clamp)
  {
    seq(|fingers|, j requires 0 <= j < |fingers| => Rotate(fingers[j], delta, DofOf(FingerProfile), DofOf(FingerProfile).clamp))
  }

  /** A frame keeps the pose valid, whatever the elapsed time: bounds are
      kept by the clamps, the claw stays at the cable's end, and no part
      leaves its axis. */
  lemma FrameKeepsValid(p: Pose, f: map<Part, set<Direction>>, timeDelta: real)
    requires ValidPose(p) && WellFormedFlags(f)
    ensures ValidPose(ApplyFrame(p, f, timeDelta))
  {
    DisplacementsStayOnAxis(f, timeDelta);
    AdvanceKeepsValid(p, f, FrameDisplacements(f, timeDelta));
  }

  /** Each part's displacement lies along its own axis, and the cable and
      the claw are displaced alike. */
  lemma DisplacementsStayOnAxis(f: map<Part, set<Direction>>, timeDelta: real)
    requires WellFormedFlags(f)
    ensures var d := FrameDisplacements(f, timeDelta);
            && d.top.x == 0.0 && d.top.z == 0.0
            && d.trolley.y == 0.0 && d.trolley.z == 0.0
            && d.cable.x == 0.0 && d.cable.z == 0.0
            && d.claw.x == 0.0 && d.claw.z == 0.0 && d.cable.y == d.claw.y
            && d.fingers.x == 0.0 && d.fingers.y == 0.0
  {
    DeltaStaysOnAxis(f, Top, TopProfile, timeDelta);
    DeltaStaysOnAxis(f, Trolley, TrolleyProfile, timeDelta);
    DeltaStaysOnAxis(f, Cable, CableProfile, timeDelta);
    DeltaStaysOnAxis(f, Claw, ClawProfile, timeDelta);
    DeltaStaysOnAxis(f, Fingers, FingerProfile, timeDelta);
    CableAndClawShareRate();
    SameRateSameDelta(BagOf(f, Cable), CableProfile, ClawProfile, timeDelta);
  }

  /** The appliers keep the pose valid for any displacements that stay on
      each part's axis and move the cable and the claw alike. */
  lemma AdvanceKeepsValid(p: Pose, f: map<Part, set<Direction>>, d: Displacements)
    requires ValidPose(p) && (Cable in f <==> Claw in f)
    requires d.top.x == 0.0 && d.top.z == 0.0
    requires d.trolley.y == 0.0 && d.trolley.z == 0.0
    requires d.claw.x == 0.0 && d.claw.z == 0.0 && d.cable.y == d.claw.y
    requires d.fingers.x == 0.0 && d.fingers.y == 0.0
    ensures ValidPose(Advance(p, f, d))
  {
    var r := Advance(p, f, d);
    if Top in f {
      assert r.top.x == Get(r.top, X) && r.top.z == Get(r.top, Z);
    }
    if Trolley in f {
      assert r.trolley.x == Get(r.trolley, X) && r.trolley.y == Get(r.trolley, Y) && r.trolley.z == Get(r.trolley, Z);
    }
    if Claw in f {
      assert r.claw.x == Get(r.claw, X) && r.claw.z == Get(r.claw, Z);
      assert r.claw.y == Get(r.claw, Y) == Clamp(p.claw.y + d.claw.y, DofOf(ClawProfile).min, DofOf(ClawProfile).max);
      assert p.claw.y + d.claw.y == ClawYFor(p.cableH - d.cable.y);
      ClampMirror(p.cableH - d.cable.y);
    }
    if Fingers in f {
      forall j | 0 <= j < 4
        ensures r.fingers[j] == Vec3(0.0, FingerYaw(j), r.fingers[0].z)
      {
        assert Get(r.fingers[j], X) == r.fingers[j].x && Get(r.fingers[j], Y) == r.fingers[j].y;
        assert r.fingers[j].z == Clamp(p.fingers[j].z + d.fingers.z, DofOf(FingerProfile).min, DofOf(FingerProfile).max);
      }
      assert Get(r.fingers[0], Z) == r.fingers[0].z;
    }
  }

  /** With no part's flags created, a frame moves nothing. */
  lemma FrameAtRest(p: Pose, timeDelta: real)
    ensures WellFormedFlags(map[]) && ApplyFrame(p, map[], timeDelta) == p
  {
  }

  class Crane {
    /** The top group's Euler rotation; it turns about y. */
    var topRotation: Vec3
    /** The trolley group's position under the top; it runs along x. */
    var trolleyPosition: Vec3
    /** The cable mesh's position and scale under the trolley. */
    var cablePosition: Vec3
    var cableScale: Vec3
    /** The cable's length, kept in the scene's geometry table. */
    var cableH: real
    /** The claw group's position under the trolley; it moves along y. */
    var clawPosition: Vec3
    /** The rotations of the four finger groups. */
    const fingers: array<Vec3>
    /** Each part's movement flags; a part absent from the map has none created yet. */
    var flags: map<Part, set<Direction>>
    var clawDecrease: bool
    var clawAnimating: bool
    var objects: seq<Cargo>

    /** The parts' transforms as a value. */
    ghost function CurrentPose(): Pose
      reads this, fingers
    {
      Pose(topRotation, trolleyPosition, cablePosition, cableScale, cableH, clawPosition, fingers[..])
    }

    /** The scene invariant: four fingers, well-formed flags, a valid pose. */
    ghost predicate Valid()
      reads this, fingers
    {
      fingers.Length == 4 && WellFormedFlags(flags) && ValidPose(CurrentPose())
    }

    /** The crane as createCrane builds it. */
    constructor ()
      ensures Valid() && fresh(fingers)
      ensures topRotation == Zero && trolleyPosition == Vec3(JibW - 1.0, TrolleyH, 0.0)
      ensures cableH == CableH0 && clawPosition == Vec3(0.0, -11.5, 0.0)
      ensures cablePosition == Vec3(0.0, -6.0, 0.0) && cableScale == One
      ensures forall i :: 0 <= i < 4 ==> fingers[i] == Vec3(0.0, FingerYaw(i), -Pi / 4.0)
      ensures flags == map[] && !clawDecrease && !clawAnimating && objects == []
    {
      topRotation := Zero;
      trolleyPosition := Vec3(JibW - 1.0, TrolleyH, 0.0);
      cableH := CableH0;
      cablePosition := Vec3(0.0, -(CableH0 + TrolleyH) / 2.0, 0.0);
      cableScale := One;
      clawPosition := Vec3(0.0, -(TrolleyH / 2.0 + CableH0 + ClawWristR), 0.0);
      fingers := new Vec3[4] [Vec3(0.0, 0.0, -Pi / 4.0), Vec3(0.0, Pi, -Pi / 4.0),
                              Vec3(0.0, Pi / 2.0, -Pi / 4.0), Vec3(0.0, -Pi / 2.0, -Pi / 4.0)];
      flags := map[];
      clawDecrease, clawAnimating := false, false;
      objects := [];
    }

    /** rotateDynamicPart, for the top. */
    method RotateDynamicPart(timeDelta: real)
      requires OnOneAxis(FlagSum(BagOf(flags, Top)))
      modifies this`topRotation
      ensures topRotation == Rotate(old(topRotation), Delta(BagOf(flags, Top), TopProfile, timeDelta),
                                    DofOf(TopProfile), DofOf(TopProfile).clamp)
    {
      var props := DofOf(TopProfile);
      var delta := Delta(BagOf(flags, Top), TopProfile, timeDelta);
      topRotation := Rotate(topRotation, delta, props, props.clamp);
    }

    /** translateDynamicPart, for the trolley or the claw. */
    method TranslateDynamicPart(timeDelta: real, part: Part)
      requires part == Trolley || part == Claw
      requires OnOneAxis(FlagSum(BagOf(flags, part)))
      modifies this`trolleyPosition, this`clawPosition
      ensures part == Trolley ==>
                && trolleyPosition == Translate(old(trolleyPosition), Delta(BagOf(flags, Trolley), TrolleyProfile, timeDelta),
                                                DofOf(TrolleyProfile))
                && clawPosition == old(clawPosition)
      ensures part == Claw ==>
                && clawPosition == Translate(old(clawPosition), Delta(BagOf(flags, Claw), ClawProfile, timeDelta),
                                             DofOf(ClawProfile))
                && trolleyPosition == old(trolleyPosition)
    {
      var profile := ProfileOf(part);
      var props := DofOf(profile);
      var delta := Delta(BagOf(flags, part), profile, timeDelta);
      if part == Trolley {
        trolleyPosition := Translate(trolleyPosition, delta, props);
      } else {
        clawPosition := Translate(clawPosition, delta, props);
      }
    }

    /** resizeCable: the new length, clamped, then the cable's position and
        scale re-derived from it. */
    method ResizeCable(timeDelta: real)
      requires OnOneAxis(FlagSum(BagOf(flags, Cable)))
      modifies this`cableH, this`cablePosition, this`cableScale
      ensures cableH == ResizedLength(old(cableH), Delta(BagOf(flags, Cable), CableProfile, timeDelta), DofOf(CableProfile))
      ensures cablePosition == old(cablePosition).(y := CablePositionY(cableH))
      ensures cableScale == CableScale(cableH, old(cableScale))
    {
      var props := DofOf(CableProfile);
      var delta := Delta(BagOf(flags, Cable), CableProfile, timeDelta);
      cableH := ResizedLength(cableH, delta, props);
      cablePosition := cablePosition.(y := CablePositionY(cableH));
      cableScale := CableScale(cableH, cableScale);
    }

    /** rotateDynamicParts: one displacement, applied to every finger. */
    method RotateDynamicParts(timeDelta: real)
      requires OnOneAxis(FlagSum(BagOf(flags, Fingers)))
      modifies fingers
      ensures fingers[..] == RotateAll(old(fingers[..]), Delta(BagOf(flags, Fingers), FingerProfile, timeDelta))
    {
      var delta := Delta(BagOf(flags, Fingers), FingerProfile, timeDelta);
      RotateFingers(delta);
    }

    /** The loop of rotateDynamicParts: rotateGroup on each finger in turn. */
    method RotateFingers(delta: Vec3)
      modifies fingers
      ensures fingers[..] == RotateAll(old(fingers[..]), delta)
    {
      var props := DofOf(FingerProfile);
      ghost var target := RotateAll(fingers[..], delta);
      for i := 0 to fingers.Length
        invariant forall j :: 0 <= j < i ==> fingers[j] == target[j]
        invariant forall j :: i <= j < fingers.Length ==> fingers[j] == old(fingers[j])
      {
        fingers[i] := Rotate(fingers[i], delta, props, props.clamp);
      }
      assert fingers[..] == target;
    }

    /** setAnimation: set one flag of every listed part to `animate`,
        creating the flags of a part that has none. */
    method SetAnimation(parts: seq<Part>, flag: Direction, animate: bool)
      modifies this`flags
      ensures flags == SetFlags(old(flags), parts, flag, animate)
    {
      var i := 0;
      while i < |parts|
        invariant 0 <= i <= |parts|
        invariant flags == SetFlags(old(flags), parts[..i], flag, animate)
      {
        assert parts[..i + 1][..i] == parts[..i];
        flags := flags[parts[i] := Toggle(BagOf(flags, parts[i]), flag, animate)];
        i := i + 1;
      }
      assert parts[..i] == parts;
    }

    /** checkCollisions: whether the claw's reach sphere touches any object,
        given the world positions of the claw and of each object. */
    method CheckCollisions(clawWorld: Vec3, objectWorlds: seq<Vec3>) returns (isColliding: bool)
      requires |objectWorlds| == |objects|
      ensures isColliding == ClawColliding(clawWorld, objectWorlds, objects)
    {
      isColliding := false;
      var i := 0;
      while i < |objects|
        invariant 0 <= i <= |objects|
        invariant isColliding <==> exists j :: 0 <= j < i && Colliding(clawWorld, objectWorlds[j], ClawCollisionR, objects[j].radius)
      {
        if Colliding(clawWorld, objectWorlds[i], ClawCollisionR, objects[i].radius) {
          isColliding := true;
        }
        i := i + 1;
      }
    }

    /** handleCollisions: hold the grabbed object under the claw, then force
        the flags of the current stage. Only the release step clears the
        two latches and detaches the object. */
    method HandleCollisions(angle: real, grabbed: nat)
      requires grabbed < |objects|
      modifies this`flags, this`clawDecrease, this`clawAnimating, this`objects
      ensures var s := StageOf(cableH, old(clawDecrease), trolleyPosition.x, angle);
              && flags == ForcedFlags(old(flags), s)
              && clawDecrease == (s != Raising && s != Releasing)
              && clawAnimating == (s != Releasing && old(clawAnimating))
              && objects == if s == Releasing then Release(Grab(old(objects), grabbed), grabbed) else Grab(old(objects), grabbed)
    {
      objects := Grab(objects, grabbed);
      if cableH != 0.0 && !clawDecrease {
        SetAnimation(CableAndClaw, YPositive, true);
      } else {
        clawDecrease := true;
        SetAnimation(CableAndClaw, YPositive, false);
        if trolleyPosition.x != JibEnd {
          SetAnimation([Trolley], XPositive, true);
        } else {
          SetAnimation([Trolley], XPositive, false);
          if Abs(angle) > FloatComparisonThreshold {
            SetAnimation([Top], YPositive, true);
          } else {
            SetAnimation([Top], YPositive, false);
            if cableH != ReleaseCableLength {
              SetAnimation(CableAndClaw, YNegative, true);
            } else {
              SetAnimation(CableAndClaw, YNegative, false);
              objects := Release(objects, grabbed);
              clawAnimating := false;
              clawDecrease := false;
            }
          }
        }
      }
    }

    /** update: run the grab choreography when the claw touches an object,
        then apply each dynamic part whose flags exist, in table order. */
    method Update(timeDelta: real, clawWorld: Vec3, objectWorlds: seq<Vec3>, angle: real, grabbed: nat)
      requires Valid()
      requires |objectWorlds| == |objects| && (objects != [] ==> grabbed < |objects|)
      modifies this, fingers
      ensures Valid()
      ensures var hit := old(ClawColliding(clawWorld, objectWorlds, objects));
              var s := StageOf(old(cableH), old(clawDecrease), old(trolleyPosition.x), angle);
              && clawAnimating == (old(clawAnimating) || hit)
              && clawDecrease == (if hit then s != Raising else old(clawDecrease))
              && flags == (if hit then ForcedFlags(old(flags), s) else old(flags))
              && objects == (if hit then Grab(old(objects), grabbed) else old(objects))
      ensures CurrentPose() == ApplyFrame(old(CurrentPose()), flags, timeDelta)
    {
      ghost var s := StageOf(cableH, clawDecrease, trolleyPosition.x, angle);
      ghost var f0, o0, cd0 := flags, objects, clawDecrease;
      var hit := CheckCollisions(clawWorld, objectWorlds);
      if hit {
        GrabStep(angle, grabbed);
      }
      ghost var f1, o1, cd1, ca1 := flags, objects, clawDecrease, clawAnimating;
      assert f1 == (if hit then ForcedFlags(f0, s) else f0);
      assert o1 == (if hit then Grab(o0, grabbed) else o0);
      assert cd1 == (if hit then s != Raising else cd0);
      FrameKeepsValid(CurrentPose(), flags, timeDelta);
      AnimateParts(timeDelta);
    }

    /** The branch of update taken on a collision: latch the animation and
        run handleCollisions, which keeps the flags well formed and, the
        release step being out of reach, leaves clawDecrease set unless the
        grab is still raising. */
    method GrabStep(angle: real, grabbed: nat)
      requires Valid() && grabbed < |objects|
      modifies this`flags, this`clawDecrease, this`clawAnimating, this`objects
      ensures Valid()
      ensures var s := StageOf(cableH, old(clawDecrease), trolleyPosition.x, angle);
              && clawAnimating
              && clawDecrease == (s != Raising)
              && flags == ForcedFlags(old(flags), s)
              && objects == Grab(old(objects), grabbed)
    {
      clawAnimating := true;
      HandleCollisions(angle, grabbed);
      ReleaseUnreachable(cableH, old(clawDecrease), trolleyPosition.x, angle);
      ForcedFlagsWellFormed(old(flags), StageOf(cableH, old(clawDecrease), trolleyPosition.x, angle));
    }

    /** The loop of update over CraneDynamicParts: each part whose flags
        exist is handed to its profile's applier. */
    method AnimateParts(timeDelta: real)
      requires fingers.Length == 4 && WellFormedFlags(flags)
      modifies this`topRotation, this`trolleyPosition, this`cablePosition, this`cableScale, this`cableH, this`clawPosition, fingers
      ensures CurrentPose() == ApplyFrame(old(CurrentPose()), flags, timeDelta)
      ensures flags == old(flags) && objects == old(objects)
      ensures clawDecrease == old(clawDecrease) && clawAnimating == old(clawAnimating)
    {
      ghost var p0 := CurrentPose();
      ghost var d := FrameDisplacements(flags, timeDelta);
      var i := 0;
      while i < |CraneDynamicParts|
        invariant 0 <= i <= |CraneDynamicParts|
        invariant CurrentPose() == AdvanceFirst(p0, flags, d, i)
      {
        var dynamicPart := CraneDynamicParts[i];
        if dynamicPart.part in flags {
          ApplyApplier(timeDelta, dynamicPart);
        }
        i := i + 1;
      }
      SequentialIsAdvance(p0, flags, d);
    }

    /** The body of the update loop for a part whose flags exist: the
        applier its profile names. */
    method ApplyApplier(timeDelta: real, dynamicPart: DynamicPart)
      requires dynamicPart in CraneDynamicParts && dynamicPart.part in flags
      requires fingers.Length == 4 && WellFormedFlags(flags)
      modifies this`topRotation, this`trolleyPosition, this`cablePosition, this`cableScale, this`cableH, this`clawPosition, fingers
      ensures CurrentPose() == AdvancePart(old(CurrentPose()), flags, FrameDisplacements(flags, timeDelta), dynamicPart.part)
    {
      ghost var p0 := CurrentPose();
      ghost var d := FrameDisplacements(flags, timeDelta);
      match DofOf(dynamicPart.profile).applier
      case RotateOne =>
        RotateDynamicPart(timeDelta);
        assert dynamicPart.part == Top && d.top == Delta(BagOf(flags, Top), TopProfile, timeDelta);
        assert CurrentPose() == p0.(top := topRotation);
      case TranslateApplier =>
        TranslateDynamicPart(timeDelta, dynamicPart.part);
        assert d.trolley == Delta(BagOf(flags, Trolley), TrolleyProfile, timeDelta);
        assert d.claw == Delta(BagOf(flags, Claw), ClawProfile, timeDelta);
        assert CurrentPose() == p0.(trolley := trolleyPosition, claw := clawPosition);
      case ResizeApplier =>
        ResizeCable(timeDelta);
        assert dynamicPart.part == Cable && d.cable == Delta(BagOf(flags, Cable), CableProfile, timeDelta);
        assert CurrentPose() == p0.(cableH := cableH, cablePosition := cablePosition, cableScale := cableScale);
      case RotateEach =>
        RotateDynamicParts(timeDelta);
        assert dynamicPart.part == Fingers && d.fingers == Delta(BagOf(flags, Fingers), FingerProfile, timeDelta);
        assert CurrentPose() == p0.(fingers := fingers[..]);
    }

    /** A bound key's handler. A transform handler ignores a repeat and
        otherwise sets its flag on each of its parts to !isKeyUp; the camera
        and wireframe handlers change nothing this model holds. */
    method RunHandler(handler: KeyHandler, isKeyUp: bool, repeat: bool)
      modifies this`flags
      ensures handler.TransformParts? && !repeat ==> flags == SetFlags(old(flags), handler.parts, handler.flag, !isKeyUp)
      ensures !handler.TransformParts? || repeat ==> flags == old(flags)
    {
      match handler
      case TransformParts(parts, flag) =>
        if !repeat {
          SetAnimation(parts, flag, !isKeyUp);
        }
      case _ =>
    }

    /** onKeyDown: a bound key runs its handler unless the grab animation
        is running. */
    method OnKeyDown(code: Key, repeat: bool)
      modifies this`flags
      ensures flags == KeyDownFlags(old(flags), code, repeat, clawAnimating)
      ensures WellFormedFlags(old(flags)) ==> WellFormedFlags(flags)
    {
      if KeyHandlerOf(code).Some? && !clawAnimating {
        RunHandler(KeyHandlerOf(code).value, false, repeat);
        if WellFormedFlags(old(flags)) {
          KeyFlagsWellFormed(old(flags), code, false, repeat);
        }
      }
    }

    /** onKeyUp: a bound key runs its handler, animation or not. */
    method OnKeyUp(code: Key, repeat: bool)
      modifies this`flags
      ensures flags == KeyUpFlags(old(flags), code, repeat)
      ensures WellFormedFlags(old(flags)) ==> WellFormedFlags(flags)
    {
      if KeyHandlerOf(code).Some? {
        RunHandler(KeyHandlerOf(code).value, true, repeat);
        if WellFormedFlags(old(flags)) {
          KeyFlagsWellFormed(old(flags), code, true, repeat);
        }
      }
    }

    /** One object's draws in createCargo: generateRandomPosition, repeated
        while the drawn position collides with an object already placed. */
    method DrawClear(y: real, r: real, samples: seq<real>, from: nat) returns (position: Option<Vec3>, next: nat)
      requires from <= |samples|
      ensures (position, next) == FirstClear(y, r, samples, from, objects)
    {
      position, next := GenerateRandomPosition(y, r, samples, from);
      DrawIsFirstClearStep(y, r, samples, from, position, next, objects);
      while position.Some? && CollidesWithAny(position.value, r, objects)
        invariant next <= |samples|
        invariant FirstClear(y, r, samples, from, objects)
               == if position.None? then (None, next)
                  else if CollidesWithAny(position.value, r, objects) then FirstClear(y, r, samples, next, objects)
                  else (position, next)
        decreases |samples| - next, if position.Some? then 1 else 0
      {
        ghost var start := next;
        position, next := GenerateRandomPosition(y, r, samples, next);
        DrawIsFirstClearStep(y, r, samples, start, position, next, objects);
      }
    }

    /** createCargo: place the five objects one after the other, each at
        its height, re-sampling its position until it collides with no
        object placed before it. The random numbers come from `samples`;
        when they run out, placement stops and `placed` is false, and
        `next` is the first sample left unused. */
    method CreateCargo(radii: seq<real>, samples: seq<real>) returns (placed: bool, next: nat)
      requires |radii| == |CargoHeights|
      modifies this`objects
      ensures (placed, objects, next) == Placement(radii, samples, 0, 0, [])
      ensures PlacementValid(objects)
      ensures UnitSamples(samples) ==> PlacedInSquare(objects)
      ensures placed <==> |objects| == |CargoHeights|
      ensures !placed ==> |samples| < next + 2
      ensures forall i :: 0 <= i < |objects| ==> objects[i].radius == radii[i] && objects[i].position.y == CargoHeights[i]
    {
      PlacementSound(radii, samples, 0, 0, []);
      objects := [];
      next := 0;
      var k := 0;
      while k < |CargoHeights|
        invariant 0 <= k <= |CargoHeights| && |objects| == k && next <= |samples|
        invariant Placement(radii, samples, k, next, objects) == Placement(radii, samples, 0, 0, [])
      {
        var position;
        position, next := DrawClear(CargoHeights[k], radii[k], samples, next);
        if position.None? {
          return false, next;
        }
        objects := objects + [Cargo(position.value, radii[k], InScene)];
        k := k + 1;
      }
      placed := true;
    }
  }
}
