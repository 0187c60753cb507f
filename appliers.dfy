/** The three transform appliers, as functions from the old transform and
    the frame's displacement to the new transform. */
module Appliers {
  import opened Geometry
  import opened Flags
  import opened MotionProfiles

  /** One coordinate: old value plus displacement, clamped when `clamped`. */
  function Moved(v: real, d: real, clamped: bool, dof: Dof): real
  {
    if clamped then Clamp(v + d, dof.min, dof.max) else v + d
  }

  /** translateDynamicPart: every axis moves by its displacement, and the
      profile's axis is clamped into the profile's bounds. */
  function Translate(pos: Vec3, delta: Vec3, dof: Dof): (r: Vec3)
    ensures dof.min <= dof.max ==> dof.min <= Get(r, dof.axis) <= dof.max
    ensures Get(r, dof.axis) == Clamp(Get(pos, dof.axis) + Get(delta, dof.axis), dof.min, dof.max)
    ensures forall a :: a != dof.axis ==> Get(r, a) == Get(pos, a) + Get(delta, a)
  {
    Vec3(Moved(pos.x, delta.x, dof.axis == X, dof),
         Moved(pos.y, delta.y, dof.axis == Y, dof),
         Moved(pos.z, delta.z, dof.axis == Z, dof))
  }

  /** rotateGroup: every Euler angle turns by its displacement; the profile's
      axis is clamped only when `clamp` is set, and nothing is re-normalized. */
  function Rotate(rot: Vec3, delta: Vec3, dof: Dof, clamp: bool): (r: Vec3)
    ensures clamp && dof.min <= dof.max ==> dof.min <= Get(r, dof.axis) <= dof.max
    ensures clamp ==> Get(r, dof.axis) == Clamp(Get(rot, dof.axis) + Get(delta, dof.axis), dof.min, dof.max)
    ensures !clamp ==> r == Add(rot, delta)
    ensures forall a :: a != dof.axis ==> Get(r, a) == Get(rot, a) + Get(delta, a)
  {
    Vec3(Moved(rot.x, delta.x, dof.axis == X && clamp, dof),
         Moved(rot.y, delta.y, dof.axis == Y && clamp, dof),
         Moved(rot.z, delta.z, dof.axis == Z && clamp, dof))
  }

  /** resizeCable's new cable length: the vertical displacement taken off
      the length (a positive y shortens the cable), clamped into bounds. */
  function ResizedLength(h: real, delta: Vec3, dof: Dof): (r: real)
    ensures dof.min <= dof.max ==> dof.min <= r <= dof.max
  {
    Clamp(h - delta.y, dof.min, dof.max)
  }

  /** The length the cable's scale is taken relative to. */
  const ReferenceCableLength: real := 15.0

  /** The cable's vertical position for a length: centred under the trolley. */
  function CablePositionY(h: real): real
  {
    -(h + TrolleyH) / 2.0
  }

  /** The cable's scale for a length; the z scale is left as it was. */
  function CableScale(h: real, prior: Vec3): Vec3
  {
    Vec3(1.0, h / ReferenceCableLength, prior.z)
  }

  /** The claw's height under the trolley for a given cable length. */
  function ClawYFor(h: real): real
  {
    -(TrolleyH / 2.0 + h + ClawWristR)
  }

  /** With no displacement, a part inside its bounds stays where it is. */
  lemma TranslateAtRest(pos: Vec3, dof: Dof)
    requires dof.min <= Get(pos, dof.axis) <= dof.max
    ensures Translate(pos, Zero, dof) == pos
  {
    var r := Translate(pos, Zero, dof);
    assert Get(r, X) == Get(pos, X) && Get(r, Y) == Get(pos, Y) && Get(r, Z) == Get(pos, Z);
  }

  /** The top's yaw is never clamped: after any frame it is the old yaw plus
      the displacement, even past plus or minus pi. */
  lemma TopYawUnbounded(rot: Vec3, delta: Vec3)
    ensures Rotate(rot, delta, DofOf(TopProfile), DofOf(TopProfile).clamp).y == rot.y + delta.y
  {
  }

  /** Every finger angle stays in [-pi/4, 0] after each frame. */
  lemma FingerAngleBounded(rot: Vec3, delta: Vec3)
    ensures -Pi / 4.0 <= Rotate(rot, delta, DofOf(FingerProfile), DofOf(FingerProfile).clamp).z <= 0.0
  {
    var dof := DofOf(FingerProfile);
    assert Get(Rotate(rot, delta, dof, dof.clamp), Z) == Rotate(rot, delta, dof, dof.clamp).z;
  }

  /** A positive vertical displacement shortens a cable that is not already
      fully wound up. */
  lemma LiftShortensCable(h: real, delta: Vec3)
    requires 0.0 < h <= CableH0 && delta.y > 0.0
    ensures ResizedLength(h, delta, DofOf(CableProfile)) < h
  {
  }

  lemma ClampMirror(t: real)
    ensures Clamp(ClawYFor(t), DofOf(ClawProfile).min, DofOf(ClawProfile).max) == ClawYFor(Clamp(t, 0.0, CableH0))
  {
  }

  /** The cable and the claw receive the same flags and move at the same
      rate, so one frame keeps the claw hanging at the cable's end:
      claw.y == -(trolley.h / 2 + cable.h + wrist radius). */
  lemma CableAndClawStayCoupled(h: real, claw: Vec3, bag: set<Direction>, timeDelta: real)
    requires claw.y == ClawYFor(h)
    requires OnOneAxis(FlagSum(bag))
    ensures Translate(claw, Delta(bag, ClawProfile, timeDelta), DofOf(ClawProfile)).y
         == ClawYFor(ResizedLength(h, Delta(bag, CableProfile, timeDelta), DofOf(CableProfile)))
  {
    CableAndClawShareRate();
    var d := Delta(bag, ClawProfile, timeDelta).y;
    assert Delta(bag, CableProfile, timeDelta).y == d;
    var r := Translate(claw, Delta(bag, ClawProfile, timeDelta), DofOf(ClawProfile));
    assert r.y == Get(r, Y) == Clamp(claw.y + d, DofOf(ClawProfile).min, DofOf(ClawProfile).max);
    assert claw.y + d == ClawYFor(h - d);
    ClampMirror(h - d);
  }

  /** A coordinate after n frames of the same displacement, clamped each frame. */
  function Walk(x: real, d: real, lo: real, hi: real, n: nat): real
  {
    if n == 0 then x else Clamp(Walk(x, d, lo, hi, n - 1) + d, lo, hi)
  }

  /** n displacements of d added up, d + d + ... + d. */
  function Times(n: nat, d: real): real
  {
    if n == 0 then 0.0 else Times(n - 1, d) + d
  }

  lemma {:induction false} TimesIsProduct(n: nat, d: real)
    ensures Times(n, d) == (n as real) * d
  {
    if n > 0 {
      TimesIsProduct(n - 1, d);
      assert (n as real) * d == ((n - 1) as real) * d + d;
    }
  }

  /** Clamping every frame ends where clamping once at the end does: the
      walk stops exactly on the bound it runs into, never past it. */
  lemma {:induction false} WalkIsClampedSum(x: real, d: real, lo: real, hi: real, n: nat)
    requires lo <= x <= hi
    ensures Walk(x, d, lo, hi, n) == Clamp(x + (n as real) * d, lo, hi)
  {
    WalkIsClampedTimes(x, d, lo, hi, n);
    TimesIsProduct(n, d);
  }

  lemma {:induction false} WalkIsClampedTimes(x: real, d: real, lo: real, hi: real, n: nat)
    requires lo <= x <= hi
    ensures Walk(x, d, lo, hi, n) == Clamp(x + Times(n, d), lo, hi)
    ensures d >= 0.0 ==> Times(n, d) >= 0.0
    ensures d < 0.0 ==> Times(n, d) <= 0.0
  {
    if n > 0 {
      WalkIsClampedTimes(x, d, lo, hi, n - 1);
      var s := x + Times(n - 1, d);
      if d >= 0.0 {
        ClampThenStepUp(s, d, lo, hi);
      } else {
        ClampThenStepDown(s, d, lo, hi);
      }
    }
  }

  lemma ClampThenStepUp(s: real, d: real, lo: real, hi: real)
    requires lo <= hi && lo <= s && d >= 0.0
    ensures Clamp(Clamp(s, lo, hi) + d, lo, hi) == Clamp(s + d, lo, hi)
  {
  }

  lemma ClampThenStepDown(s: real, d: real, lo: real, hi: real)
    requires lo <= hi && s <= hi && d < 0.0
    ensures Clamp(Clamp(s, lo, hi) + d, lo, hi) == Clamp(s + d, lo, hi)
  {
  }

  /** n frames of translateDynamicPart with the same displacement. */
  function Translations(pos: Vec3, delta: Vec3, dof: Dof, n: nat): Vec3
  {
    if n == 0 then pos else Translate(Translations(pos, delta, dof, n - 1), delta, dof)
  }

  /** n frames of resizeCable's length update with the same displacement. */
  function Resizes(h: real, delta: Vec3, dof: Dof, n: nat): real
  {
    if n == 0 then h else ResizedLength(Resizes(h, delta, dof, n - 1), delta, dof)
  }

  /** Along the profile's axis, repeated translations are the clamped walk. */
  lemma {:induction false} TranslationsWalk(pos: Vec3, delta: Vec3, dof: Dof, n: nat)
    ensures Get(Translations(pos, delta, dof, n), dof.axis)
         == Walk(Get(pos, dof.axis), Get(delta, dof.axis), dof.min, dof.max, n)
  {
    if n > 0 {
      TranslationsWalk(pos, delta, dof, n - 1);
    }
  }

  /** Repeated resizes are the clamped walk by the negated vertical displacement. */
  lemma {:induction false} ResizesWalk(h: real, delta: Vec3, dof: Dof, n: nat)
    ensures Resizes(h, delta, dof, n) == Walk(h, -delta.y, dof.min, dof.max, n)
  {
    if n > 0 {
      ResizesWalk(h, delta, dof, n - 1);
    }
  }

  /** Held xPositive, the trolley reaches x == 18 exactly, the value the
      traversing stage compares with, once the frames cover the distance. */
  lemma TrolleyReachesJibEnd(pos: Vec3, delta: Vec3, n: nat)
    requires DofOf(TrolleyProfile).min <= pos.x <= DofOf(TrolleyProfile).max
    requires delta.x > 0.0 && (n as real) * delta.x >= JibW - 1.0 - pos.x
    ensures Translations(pos, delta, DofOf(TrolleyProfile), n).x == JibW - 1.0
  {
    var dof := DofOf(TrolleyProfile);
    TranslationsWalk(pos, delta, dof, n);
    WalkIsClampedSum(pos.x, delta.x, dof.min, dof.max, n);
  }

  /** Held yPositive, the cable winds up to length 0 exactly, which ends the
      raising stage, once the frames cover its length. */
  lemma CableReachesZero(h: real, delta: Vec3, n: nat)
    requires 0.0 <= h <= CableH0
    requires delta.y > 0.0 && (n as real) * delta.y >= h
    ensures Resizes(h, delta, DofOf(CableProfile), n) == 0.0
  {
    var dof := DofOf(CableProfile);
    ResizesWalk(h, delta, dof, n);
    WalkIsClampedSum(h, -delta.y, 0.0, CableH0, n);
    assert (n as real) * -delta.y == -((n as real) * delta.y);
  }
}
