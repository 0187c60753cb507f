/** The degree-of-freedom table, the per-millisecond rates derived from it,
    and the per-frame displacement built from a part's movement flags. */
module MotionProfiles {
  import opened Geometry
  import opened Flags

  datatype Part = Top | Trolley | Cable | Claw | Fingers

  datatype Profile = TopProfile | TrolleyProfile | CableProfile | ClawProfile | FingerProfile

  /** Which transform applier a profile is animated by. */
  datatype Applier = RotateOne | RotateEach | TranslateApplier | ResizeApplier

  /** One entry of the table: applier, bounds, controlled axis and whether a
      rotation is clamped (`clamp` absent in the table reads as false). */
  datatype Dof = Dof(applier: Applier, min: real, max: real, axis: Axis, clamp: bool)

  function DofOf(p: Profile): (d: Dof)
    ensures d.min < d.max
  {
    match p
    case TopProfile => Dof(RotateOne, -Pi, Pi, Y, false)
    case TrolleyProfile => Dof(TranslateApplier, CabW / 2.0 + TrolleyW / 2.0, JibW - 1.0, X, false)
    case CableProfile => Dof(ResizeApplier, 0.0, CableH0, Y, false)
    case ClawProfile => Dof(TranslateApplier, -(TrolleyH / 2.0 + CableH0 + ClawWristR), -(TrolleyH / 2.0 + ClawWristR), Y, false)
    case FingerProfile => Dof(RotateEach, -Pi / 4.0, 0.0, Z, true)
  }

  datatype DynamicPart = DynamicPart(part: Part, profile: Profile)

  /** The parts the frame update visits, in order. */
  const CraneDynamicParts: seq<DynamicPart> := [
    DynamicPart(Top, TopProfile),
    DynamicPart(Trolley, TrolleyProfile),
    DynamicPart(Cable, CableProfile),
    DynamicPart(Claw, ClawProfile),
    DynamicPart(Fingers, FingerProfile)
  ]

  function ProfileOf(part: Part): Profile
  {
    match part
    case Top => TopProfile
    case Trolley => TrolleyProfile
    case Cable => CableProfile
    case Claw => ClawProfile
    case Fingers => FingerProfile
  }

  function AxisOf(part: Part): Axis
  {
    DofOf(ProfileOf(part)).axis
  }

  /** Milliseconds a part takes to sweep its whole range. */
  const MovementTime: real := 4000.0

  /** DELTAS[p]: the part's speed per millisecond. */
  function Rate(p: Profile): real
  {
    (DofOf(p).max - DofOf(p).min) / MovementTime
  }

  /** Each rate is positive, and takes exactly MovementTime to cover the range. */
  lemma RateSweepsRange(p: Profile)
    ensures Rate(p) > 0.0
    ensures Rate(p) * MovementTime == DofOf(p).max - DofOf(p).min
  {
  }

  /** The cable and the claw move at the same speed, 10/4000 per millisecond. */
  lemma CableAndClawShareRate()
    ensures Rate(CableProfile) == Rate(ClawProfile) == 10.0 / 4000.0
  {
  }

  /** At most one axis of `v` is nonzero. */
  predicate OnOneAxis(v: Vec3)
  {
    (v.x == 0.0 && v.y == 0.0) || (v.x == 0.0 && v.z == 0.0) || (v.y == 0.0 && v.z == 0.0)
  }

  function Sign(r: real): real
  {
    if r > 0.0 then 1.0 else if r < 0.0 then -1.0 else 0.0
  }

  function SqLength(v: Vec3): real
  {
    v.x * v.x + v.y * v.y + v.z * v.z
  }

  /** The length of a vector along one axis: its one nonzero component's
      absolute value. */
  function AxisLength(v: Vec3): real
  {
    Abs(v.x) + Abs(v.y) + Abs(v.z)
  }

  /** Vector normalization, for a vector along one axis: each component
      divided by the length, the zero vector staying zero (the library
      divides by 1 when the length is 0). Written as the sign of each
      component, which NormalizeDividesByLength shows is that quotient. */
  function Normalize(v: Vec3): Vec3
    requires OnOneAxis(v)
  {
    Vec3(Sign(v.x), Sign(v.y), Sign(v.z))
  }

  /** AxisLength is the Euclidean length of a vector along one axis: its
      square is the squared length. */
  lemma AxisLengthIsLength(v: Vec3)
    requires OnOneAxis(v)
    ensures AxisLength(v) >= 0.0 && AxisLength(v) * AxisLength(v) == SqLength(v)
  {
    if v.x != 0.0 {
      assert AxisLength(v) == Abs(v.x);
      assert Abs(v.x) * Abs(v.x) == v.x * v.x;
    } else if v.y != 0.0 {
      assert AxisLength(v) == Abs(v.y);
      assert Abs(v.y) * Abs(v.y) == v.y * v.y;
    } else {
      assert AxisLength(v) == Abs(v.z);
      assert Abs(v.z) * Abs(v.z) == v.z * v.z;
    }
  }

  /** Normalizing divides each component by the length and yields a unit
      vector; the zero vector stays zero. */
  lemma NormalizeDividesByLength(v: Vec3)
    requires OnOneAxis(v)
    ensures v != Zero ==> Normalize(v) == Vec3(v.x / AxisLength(v), v.y / AxisLength(v), v.z / AxisLength(v))
    ensures v != Zero ==> SqLength(Normalize(v)) == 1.0
    ensures v == Zero ==> Normalize(v) == Zero
  {
    if v.x != 0.0 {
      assert AxisLength(v) == Abs(v.x);
      DivAbsIsSign(v.x);
      assert 0.0 / Abs(v.x) == 0.0;
    } else if v.y != 0.0 {
      assert AxisLength(v) == Abs(v.y);
      DivAbsIsSign(v.y);
      assert 0.0 / Abs(v.y) == 0.0;
    } else if v.z != 0.0 {
      assert AxisLength(v) == Abs(v.z);
      DivAbsIsSign(v.z);
      assert 0.0 / Abs(v.z) == 0.0;
    }
  }

  lemma DivAbsIsSign(r: real)
    ensures r != 0.0 ==> r / Abs(r) == Sign(r)
    ensures r == 0.0 ==> Sign(r) == 0.0
  {
    if r > 0.0 {
      assert r / r == 1.0;
    } else if r < 0.0 {
      assert r / -r == -1.0;
    }
  }

  /** deltaSupplier: the held flags summed, normalized, and scaled by the
      profile's rate times the elapsed milliseconds. */
  function Delta(flags: set<Direction>, p: Profile, timeDelta: real): Vec3
    requires OnOneAxis(FlagSum(flags))
  {
    Scale(Normalize(FlagSum(flags)), Rate(p) * timeDelta)
  }

  /** On every axis the displacement is the net count of held flags of
      that axis times the distance the profile covers in the elapsed time. */
  lemma DeltaIsNetDistance(flags: set<Direction>, p: Profile, timeDelta: real)
    requires OnOneAxis(FlagSum(flags))
    ensures Delta(flags, p, timeDelta).x == Net(flags, X) * (Rate(p) * timeDelta)
    ensures Delta(flags, p, timeDelta).y == Net(flags, Y) * (Rate(p) * timeDelta)
    ensures Delta(flags, p, timeDelta).z == Net(flags, Z) * (Rate(p) * timeDelta)
  {
  }

  /** No held flag, no motion (and no division by a zero length). */
  lemma DeltaNoFlags(p: Profile, timeDelta: real)
    ensures Delta({}, p, timeDelta) == Zero
  {
    ZeroNetIsRest({}, p, timeDelta);
  }

  /** Both flags of one axis held: they cancel. */
  lemma DeltaOpposing(a: Axis, p: Profile, timeDelta: real)
    ensures Delta({Direction(a, true), Direction(a, false)}, p, timeDelta) == Zero
  {
    var both := {Direction(a, true), Direction(a, false)};
    assert Net(both, X) == Net(both, Y) == Net(both, Z) == 0.0;
    ZeroNetIsRest(both, p, timeDelta);
  }

  lemma ZeroNetIsRest(flags: set<Direction>, p: Profile, timeDelta: real)
    requires Net(flags, X) == Net(flags, Y) == Net(flags, Z) == 0.0
    ensures OnOneAxis(FlagSum(flags)) && Delta(flags, p, timeDelta) == Zero
  {
    var k := Rate(p) * timeDelta;
    assert 0.0 * k == 0.0;
  }

  /** One held flag: its unit direction times the rate times the elapsed time. */
  lemma DeltaSingle(d: Direction, p: Profile, timeDelta: real)
    ensures Delta({d}, p, timeDelta) == Scale(Unit(d), Rate(p) * timeDelta)
  {
    assert FlagSum({d}) == Unit(d) by {
      match d.axis
      case X => assert Get(Unit(d), X) == Unit(d).x;
      case Y => assert Get(Unit(d), Y) == Unit(d).y;
      case Z => assert Get(Unit(d), Z) == Unit(d).z;
    }
    DeltaScalesSum({d}, p, timeDelta);
  }

  lemma DeltaScalesSum(flags: set<Direction>, p: Profile, timeDelta: real)
    requires OnOneAxis(FlagSum(flags))
    ensures Delta(flags, p, timeDelta) == Scale(FlagSum(flags), Rate(p) * timeDelta)
  {
  }

  /** Profiles with equal rates displace a bag of flags equally. */
  lemma SameRateSameDelta(flags: set<Direction>, p: Profile, q: Profile, timeDelta: real)
    requires OnOneAxis(FlagSum(flags)) && Rate(p) == Rate(q)
    ensures Delta(flags, p, timeDelta) == Delta(flags, q, timeDelta)
  {
    assert Rate(p) * timeDelta == Rate(q) * timeDelta;
  }

  /** The two flags of one axis. */
  function AxisPair(a: Axis): set<Direction>
  {
    {Direction(a, true), Direction(a, false)}
  }

  /** Flags stay with their part: every bag holds only flags of its part's
      axis (so it sums to a vector along that one axis), and the cable and
      the claw always share one bag's contents. */
  ghost predicate WellFormedFlags(m: map<Part, set<Direction>>)
  {
    && (forall p | p in m :: m[p] <= AxisPair(AxisOf(p)))
    && (forall p :: OnOneAxis(FlagSum(BagOf(m, p))))
    && (Cable in m <==> Claw in m)
    && BagOf(m, Cable) == BagOf(m, Claw)
  }

  /** A bag on one axis sums to a vector on that axis. */
  lemma AxisBagOnOneAxis(bag: set<Direction>, a: Axis)
    requires bag <= AxisPair(a)
    ensures OnOneAxis(FlagSum(bag))
    ensures forall b :: b != a ==> Net(bag, b) == 0.0
  {
    forall b | b != a ensures Net(bag, b) == 0.0 {
      assert Direction(b, true) !in AxisPair(a) && Direction(b, false) !in AxisPair(a);
    }
  }

  lemma WellFormedBag(m: map<Part, set<Direction>>, p: Part)
    requires WellFormedFlags(m)
    ensures BagOf(m, p) <= AxisPair(AxisOf(p))
    ensures forall a :: a != AxisOf(p) ==> Net(BagOf(m, p), a) == 0.0
  {
    AxisBagOnOneAxis(BagOf(m, p), AxisOf(p));
  }

  /** Under well-formed flags a part's displacement is zero off its own
      axis: every part moves only along the axis of its profile. */
  lemma DeltaStaysOnAxis(m: map<Part, set<Direction>>, p: Part, prof: Profile, timeDelta: real)
    requires WellFormedFlags(m) && prof == ProfileOf(p)
    ensures AxisOf(p) != X ==> Delta(BagOf(m, p), prof, timeDelta).x == 0.0
    ensures AxisOf(p) != Y ==> Delta(BagOf(m, p), prof, timeDelta).y == 0.0
    ensures AxisOf(p) != Z ==> Delta(BagOf(m, p), prof, timeDelta).z == 0.0
  {
    WellFormedBag(m, p);
    DeltaOffAxis(BagOf(m, p), prof, timeDelta);
  }

  lemma DeltaOffAxis(bag: set<Direction>, prof: Profile, timeDelta: real)
    requires OnOneAxis(FlagSum(bag))
    ensures Net(bag, X) == 0.0 ==> Delta(bag, prof, timeDelta).x == 0.0
    ensures Net(bag, Y) == 0.0 ==> Delta(bag, prof, timeDelta).y == 0.0
    ensures Net(bag, Z) == 0.0 ==> Delta(bag, prof, timeDelta).z == 0.0
  {
    assert Net(bag, X) == 0.0 ==> Net(bag, X) * (Rate(prof) * timeDelta) == 0.0;
    assert Net(bag, Y) == 0.0 ==> Net(bag, Y) * (Rate(prof) * timeDelta) == 0.0;
    assert Net(bag, Z) == 0.0 ==> Net(bag, Z) * (Rate(prof) * timeDelta) == 0.0;
  }
}
