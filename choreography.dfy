/** The automatic grab animation, driven by flags it forces each frame, and
    the key bindings that set and clear movement flags by hand. */
module Choreography {
  import opened Geometry
  import opened Flags
  import opened MotionProfiles
  import opened Appliers
  import opened Collisions

  /** The stage handleCollisions is in, read off the state every frame. */
  datatype Stage = Raising | Traversing | Rotating | Lowering | Releasing

  const FloatComparisonThreshold: real := 0.1
  /** The end of the jib, where the trolley stops: also its upper bound. */
  const JibEnd: real := JibW - 1.0
  /** The cable length the release step waits for. */
  const ReleaseCableLength: real := 15.0

  /** The nested conditions of handleCollisions, in source order: raise
      until the cable is wound up (unless already latched), drive the
      trolley out to the jib end, turn the top until it faces the
      container, lower until the cable is 15 long, then release. */
  function StageOf(cableH: real, clawDecrease: bool, trolleyX: real, angle: real): (s: Stage)
    ensures s == Raising <==> cableH != 0.0 && !clawDecrease
    ensures s == Traversing <==> (cableH == 0.0 || clawDecrease) && trolleyX != JibEnd
    ensures s == Rotating <==> (cableH == 0.0 || clawDecrease) && trolleyX == JibEnd && Abs(angle) > FloatComparisonThreshold
    ensures s == Lowering <==>
              (cableH == 0.0 || clawDecrease) && trolleyX == JibEnd && Abs(angle) <= FloatComparisonThreshold && cableH != ReleaseCableLength
    ensures s == Releasing <==>
              (cableH == 0.0 || clawDecrease) && trolleyX == JibEnd && Abs(angle) <= FloatComparisonThreshold && cableH == ReleaseCableLength
  {
    if cableH != 0.0 && !clawDecrease then Raising
    else if trolleyX != JibEnd then Traversing
    else if Abs(angle) > FloatComparisonThreshold then Rotating
    else if cableH != ReleaseCableLength then Lowering
    else Releasing
  }

  /** While the cable stays within its bounds the release step is never
      reached: a grab, once started, never ends. */
  lemma ReleaseUnreachable(cableH: real, clawDecrease: bool, trolleyX: real, angle: real)
    requires DofOf(CableProfile).min <= cableH <= DofOf(CableProfile).max
    ensures StageOf(cableH, clawDecrease, trolleyX, angle) != Releasing
  {
  }

  const CableAndClaw: seq<Part> := [Cable, Claw]

  /** The flags one handleCollisions call leaves, by the setAnimation calls
      of its stage's branch, made in source order. */
  function ForcedFlags(m: map<Part, set<Direction>>, s: Stage): map<Part, set<Direction>>
  {
    if s == Raising then SetFlags(m, CableAndClaw, YPositive, true)
    else
      var lifted := SetFlags(m, CableAndClaw, YPositive, false);
      if s == Traversing then SetFlags(lifted, [Trolley], XPositive, true)
      else
        var arrived := SetFlags(lifted, [Trolley], XPositive, false);
        if s == Rotating then SetFlags(arrived, [Top], YPositive, true)
        else
          var aligned := SetFlags(arrived, [Top], YPositive, false);
          SetFlags(aligned, CableAndClaw, YNegative, s == Lowering)
  }

  /** The parts whose flags the stage's branch writes. */
  function Touched(s: Stage): set<Part>
  {
    match s
    case Raising => {Cable, Claw}
    case Traversing => {Cable, Claw, Trolley}
    case _ => {Cable, Claw, Trolley, Top}
  }

  /** Part by part, what each stage forces: yPositive on the cable and claw
      while raising and off afterwards, yNegative on them only while
      lowering; xPositive on the trolley only while traversing; yPositive
      on the top only while rotating; the fingers are never touched, and
      every flag a stage does not name keeps its value. */
  lemma ForcedFlagsAt(m: map<Part, set<Direction>>, s: Stage, p: Part)
    ensures p in ForcedFlags(m, s) <==> p in m || p in Touched(s)
    ensures p in {Cable, Claw} ==> (BagOf(ForcedFlags(m, s), p) ==
      match s
      case Raising => BagOf(m, p) + {YPositive}
      case Traversing => BagOf(m, p) - {YPositive}
      case Rotating => BagOf(m, p) - {YPositive}
      case Lowering => BagOf(m, p) - {YPositive} + {YNegative}
      case Releasing => BagOf(m, p) - {YPositive} - {YNegative})
    ensures p == Trolley ==> (BagOf(ForcedFlags(m, s), p) ==
      match s
      case Raising => BagOf(m, p)
      case Traversing => BagOf(m, p) + {XPositive}
      case _ => BagOf(m, p) - {XPositive})
    ensures p == Top ==> (BagOf(ForcedFlags(m, s), p) ==
      match s
      case Raising => BagOf(m, p)
      case Traversing => BagOf(m, p)
      case Rotating => BagOf(m, p) + {YPositive}
      case _ => BagOf(m, p) - {YPositive})
    ensures p == Fingers ==> BagOf(ForcedFlags(m, s), p) == BagOf(m, p)
  {
    if s == Raising {
      SetFlagsAt(m, CableAndClaw, YPositive, true, p);
    } else {
      var lifted := SetFlags(m, CableAndClaw, YPositive, false);
      SetFlagsAt(m, CableAndClaw, YPositive, false, p);
      if s == Traversing {
        SetFlagsAt(lifted, [Trolley], XPositive, true, p);
      } else {
        var arrived := SetFlags(lifted, [Trolley], XPositive, false);
        SetFlagsAt(lifted, [Trolley], XPositive, false, p);
        if s == Rotating {
          SetFlagsAt(arrived, [Top], YPositive, true, p);
        } else {
          var aligned := SetFlags(arrived, [Top], YPositive, false);
          SetFlagsAt(arrived, [Top], YPositive, false, p);
          SetFlagsAt(aligned, CableAndClaw, YNegative, s == Lowering, p);
        }
      }
    }
  }

  /** Setting a flag of the parts' own axis, on the cable and the claw
      together or on neither, keeps the flags well formed. */
  lemma SetFlagsWellFormed(m: map<Part, set<Direction>>, parts: seq<Part>, d: Direction, on: bool)
    requires WellFormedFlags(m)
    requires forall p | p in parts :: d.axis == AxisOf(p)
    requires Cable in parts <==> Claw in parts
    ensures WellFormedFlags(SetFlags(m, parts, d, on))
  {
    var r := SetFlags(m, parts, d, on);
    forall p
      ensures BagOf(r, p) <= AxisPair(AxisOf(p))
      ensures OnOneAxis(FlagSum(BagOf(r, p)))
    {
      SetFlagsAt(m, parts, d, on, p);
      WellFormedBag(m, p);
      if p in parts {
        assert d in AxisPair(AxisOf(p));
      }
      AxisBagOnOneAxis(BagOf(r, p), AxisOf(p));
    }
    forall p | p in r
      ensures r[p] <= AxisPair(AxisOf(p))
    {
      assert r[p] == BagOf(r, p);
    }
    SetFlagsAt(m, parts, d, on, Cable);
    SetFlagsAt(m, parts, d, on, Claw);
  }

  /** Every stage keeps the flags well formed. */
  lemma ForcedFlagsWellFormed(m: map<Part, set<Direction>>, s: Stage)
    requires WellFormedFlags(m)
    ensures WellFormedFlags(ForcedFlags(m, s))
  {
    if s == Raising {
      SetFlagsWellFormed(m, CableAndClaw, YPositive, true);
    } else {
      var lifted := SetFlags(m, CableAndClaw, YPositive, false);
      SetFlagsWellFormed(m, CableAndClaw, YPositive, false);
      if s == Traversing {
        SetFlagsWellFormed(lifted, [Trolley], XPositive, true);
      } else {
        var arrived := SetFlags(lifted, [Trolley], XPositive, false);
        SetFlagsWellFormed(lifted, [Trolley], XPositive, false);
        if s == Rotating {
          SetFlagsWellFormed(arrived, [Top], YPositive, true);
        } else {
          var aligned := SetFlags(arrived, [Top], YPositive, false);
          SetFlagsWellFormed(arrived, [Top], YPositive, false);
          SetFlagsWellFormed(aligned, CableAndClaw, YNegative, s == Lowering);
        }
      }
    }
  }

  /** The raising stage shortens a cable that is not yet wound up, unless
      yNegative was already held on it when the grab started. */
  lemma RaisingShortensCable(m: map<Part, set<Direction>>, h: real, timeDelta: real)
    requires WellFormedFlags(m) && YNegative !in BagOf(m, Cable)
    requires 0.0 < h <= CableH0 && timeDelta > 0.0
    ensures OnOneAxis(FlagSum(BagOf(ForcedFlags(m, Raising), Cable)))
    ensures ResizedLength(h, Delta(BagOf(ForcedFlags(m, Raising), Cable), CableProfile, timeDelta), DofOf(CableProfile)) < h
  {
    ForcedFlagsAt(m, Raising, Cable);
    ForcedFlagsWellFormed(m, Raising);
    var bag := BagOf(ForcedFlags(m, Raising), Cable);
    WellFormedBag(ForcedFlags(m, Raising), Cable);
    assert Net(bag, Y) == 1.0;
    RateSweepsRange(CableProfile);
    LiftShortensCable(h, Delta(bag, CableProfile, timeDelta));
  }

  /** The traversing stage moves a trolley short of the jib end outwards,
      unless xNegative was already held on it. */
  lemma TraversingAdvancesTrolley(m: map<Part, set<Direction>>, pos: Vec3, timeDelta: real)
    requires WellFormedFlags(m) && XNegative !in BagOf(m, Trolley)
    requires DofOf(TrolleyProfile).min <= pos.x < JibEnd && timeDelta > 0.0
    ensures OnOneAxis(FlagSum(BagOf(ForcedFlags(m, Traversing), Trolley)))
    ensures pos.x < Translate(pos, Delta(BagOf(ForcedFlags(m, Traversing), Trolley), TrolleyProfile, timeDelta), DofOf(TrolleyProfile)).x
  {
    ForcedFlagsAt(m, Traversing, Trolley);
    ForcedFlagsWellFormed(m, Traversing);
    var bag := BagOf(ForcedFlags(m, Traversing), Trolley);
    WellFormedBag(ForcedFlags(m, Traversing), Trolley);
    assert Net(bag, X) == 1.0;
    RateSweepsRange(TrolleyProfile);
    var r := Translate(pos, Delta(bag, TrolleyProfile, timeDelta), DofOf(TrolleyProfile));
    assert r.x == Get(r, X);
  }

  /** The object held under the claw: reparented to it at the local offset
      (0, -2.5, 0), every frame of the grab. */
  function Grab(objects: seq<Cargo>, i: nat): (r: seq<Cargo>)
    requires i < |objects|
    ensures |r| == |objects| && r[i] == Cargo(HeldOffset, objects[i].radius, OnClaw)
    ensures forall j :: 0 <= j < |r| && j != i ==> r[j] == objects[j]
  {
    objects[i := objects[i].(position := HeldOffset, parent := OnClaw)]
  }

  /** After a grab the object hangs at HeldOffset under the claw. The
      claw's world transform is a rigid motion, so the object's world centre
      keeps that offset's distance from the claw's; given that, the next
      frame's collision test finds the held object again. */
  lemma GrabKeepsColliding(objects: seq<Cargo>, i: nat, clawWorld: Vec3, worlds: seq<Vec3>)
    requires i < |objects| == |worlds| && objects[i].radius >= 0.0
    requires SqDistance(clawWorld, worlds[i]) == SqDistance(Zero, Grab(objects, i)[i].position)
    ensures ClawColliding(clawWorld, worlds, Grab(objects, i))
  {
    HeldObjectCollides(clawWorld, worlds[i], objects[i].radius);
  }

  /** The object removed from its parent on release. */
  function Release(objects: seq<Cargo>, i: nat): (r: seq<Cargo>)
    requires i < |objects|
    ensures |r| == |objects| && r[i].parent == Detached && r[i].position == objects[i].position
    ensures forall j :: 0 <= j < |r| && j != i ==> r[j] == objects[j]
  {
    objects[i := objects[i].(parent := Detached)]
  }

  /** A key code, after numpad digits are read as number-row digits. */
  datatype Key = Digit(n: int) | KeyQ | KeyA | KeyW | KeyS | KeyE | KeyD | KeyR | KeyF | OtherKey

  /** What a bound key does: switch camera, toggle wireframe, or set one
      movement flag on a list of parts. */
  datatype KeyHandler = ChangeCamera(camera: int) | ToggleWireframe | TransformParts(parts: seq<Part>, flag: Direction)

  /** The key bindings; None for a key with no handler. */
  function KeyHandlerOf(k: Key): Option<KeyHandler>
  {
    match k
    case Digit(n) =>
      if 1 <= n <= 6 then Some(ChangeCamera(n))
      else if n == 7 then Some(ToggleWireframe)
      else None
    case KeyQ => Some(TransformParts([Top], YPositive))
    case KeyA => Some(TransformParts([Top], YNegative))
    case KeyW => Some(TransformParts([Trolley], XPositive))
    case KeyS => Some(TransformParts([Trolley], XNegative))
    case KeyE => Some(TransformParts(CableAndClaw, YPositive))
    case KeyD => Some(TransformParts(CableAndClaw, YNegative))
    case KeyR => Some(TransformParts([Fingers], ZPositive))
    case KeyF => Some(TransformParts([Fingers], ZNegative))
    case OtherKey => None
  }

  /** Every binding moves its parts along their own axis, and names the
      cable and the claw together or neither. */
  lemma KeyBindingsStayOnAxis(k: Key)
    ensures KeyHandlerOf(k).Some? && KeyHandlerOf(k).value.TransformParts? ==>
              && (forall p | p in KeyHandlerOf(k).value.parts :: KeyHandlerOf(k).value.flag.axis == AxisOf(p))
              && (Cable in KeyHandlerOf(k).value.parts <==> Claw in KeyHandlerOf(k).value.parts)
  {
  }

  /** A transform handler's effect on the flags: a repeat is ignored, any
      other event sets the flag of every listed part to !isKeyUp. Camera
      and wireframe handlers leave the flags alone. */
  function KeyFlags(m: map<Part, set<Direction>>, k: Key, isKeyUp: bool, repeat: bool): map<Part, set<Direction>>
  {
    match KeyHandlerOf(k)
    case Some(TransformParts(parts, flag)) => if repeat then m else SetFlags(m, parts, flag, !isKeyUp)
    case _ => m
  }

  /** Key-down: ignored entirely while the grab animation runs. */
  function KeyDownFlags(m: map<Part, set<Direction>>, k: Key, repeat: bool, clawAnimating: bool): (r: map<Part, set<Direction>>)
    ensures clawAnimating ==> r == m
  {
    if KeyHandlerOf(k).Some? && !clawAnimating then KeyFlags(m, k, false, repeat) else m
  }

  /** Key-up: honoured even while the grab animation runs. */
  function KeyUpFlags(m: map<Part, set<Direction>>, k: Key, repeat: bool): map<Part, set<Direction>>
  {
    if KeyHandlerOf(k).Some? then KeyFlags(m, k, true, repeat) else m
  }

  /** A key's events keep the flags well formed. */
  lemma KeyFlagsWellFormed(m: map<Part, set<Direction>>, k: Key, isKeyUp: bool, repeat: bool)
    requires WellFormedFlags(m)
    ensures WellFormedFlags(KeyFlags(m, k, isKeyUp, repeat))
  {
    KeyBindingsStayOnAxis(k);
    match KeyHandlerOf(k)
    case Some(TransformParts(parts, flag)) =>
      if !repeat {
        SetFlagsWellFormed(m, parts, flag, !isKeyUp);
      }
    case _ =>
  }

  /** A fresh key-down of a transform key, with no grab running, holds that
      key's flag on each of its parts and changes no other flag; the
      matching key-up clears it again, grab or no grab. */
  lemma KeyDownHoldsKeyUpClears(m: map<Part, set<Direction>>, k: Key, clawAnimating: bool, p: Part)
    requires KeyHandlerOf(k).Some? && KeyHandlerOf(k).value.TransformParts?
    ensures var h := KeyHandlerOf(k).value;
            && (!clawAnimating && p in h.parts ==> BagOf(KeyDownFlags(m, k, false, clawAnimating), p) == BagOf(m, p) + {h.flag})
            && (p !in h.parts ==> BagOf(KeyDownFlags(m, k, false, clawAnimating), p) == BagOf(m, p))
            && (p in h.parts ==> BagOf(KeyUpFlags(m, k, false), p) == BagOf(m, p) - {h.flag})
            && (p !in h.parts ==> BagOf(KeyUpFlags(m, k, false), p) == BagOf(m, p))
  {
    var h := KeyHandlerOf(k).value;
    SetFlagsAt(m, h.parts, h.flag, true, p);
    SetFlagsAt(m, h.parts, h.flag, false, p);
  }

  /** A repeated event never changes a flag. */
  lemma RepeatIgnored(m: map<Part, set<Direction>>, k: Key, clawAnimating: bool)
    ensures KeyDownFlags(m, k, true, clawAnimating) == m
    ensures KeyUpFlags(m, k, true) == m
  {
  }
}
