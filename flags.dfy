/** Movement flags: the six unit directions, the per-part bag of held
    directions, and the vector sum of the directions that are held. */
module Flags {
  import opened Geometry

  datatype Direction = Direction(axis: Axis, positive: bool)

  const XPositive: Direction := Direction(X, true)
  const XNegative: Direction := Direction(X, false)
  const YPositive: Direction := Direction(Y, true)
  const YNegative: Direction := Direction(Y, false)
  const ZPositive: Direction := Direction(Z, true)
  const ZNegative: Direction := Direction(Z, false)

  /** The unit vector a movement flag stands for. */
  function Unit(d: Direction): (u: Vec3)
    ensures Get(u, d.axis) == if d.positive then 1.0 else -1.0
    ensures forall a :: a != d.axis ==> Get(u, a) == 0.0
  {
    var s := if d.positive then 1.0 else -1.0;
    match d.axis
    case X => Vec3(s, 0.0, 0.0)
    case Y => Vec3(0.0, s, 0.0)
    case Z => Vec3(0.0, 0.0, s)
  }

  /** The net count of held directions on one axis: positive minus negative. */
  function Net(flags: set<Direction>, a: Axis): real
  {
    (if Direction(a, true) in flags then 1.0 else 0.0) - (if Direction(a, false) in flags then 1.0 else 0.0)
  }

  /** The sum of the unit vectors of the held directions, axis by axis. */
  function FlagSum(flags: set<Direction>): Vec3
  {
    Vec3(Net(flags, X), Net(flags, Y), Net(flags, Z))
  }

  /** The sum as the source computes it: a left fold that adds the unit
      vector of each held flag, in the order the flags are listed. */
  function Reduce(ds: seq<Direction>): Vec3
  {
    if ds == [] then Zero else Add(Reduce(ds[..|ds| - 1]), Unit(ds[|ds| - 1]))
  }

  predicate Distinct(ds: seq<Direction>)
  {
    forall i, j :: 0 <= i < j < |ds| ==> ds[i] != ds[j]
  }

  lemma FlagSumInsert(s: set<Direction>, d: Direction)
    requires d !in s
    ensures FlagSum(s + {d}) == Add(FlagSum(s), Unit(d))
  {
  }

  /** Whatever order the flags are listed in, the fold yields the per-axis
      net count: opposing flags cancel by summation, not by precedence. */
  lemma {:induction false} ReduceIsFlagSum(ds: seq<Direction>)
    requires Distinct(ds)
    ensures Reduce(ds) == FlagSum(set d | d in ds)
  {
    if ds == [] {
      assert (set d | d in ds) == {};
    } else {
      var init, last := ds[..|ds| - 1], ds[|ds| - 1];
      assert Distinct(init);
      ReduceIsFlagSum(init);
      assert (set d | d in ds) == (set d | d in init) + {last};
      assert last !in (set d | d in init);
      FlagSumInsert((set d | d in init), last);
    }
  }

  /** A part's bag of flags; a part whose bag was never created holds none. */
  function BagOf<K>(m: map<K, set<Direction>>, k: K): set<Direction>
  {
    if k in m then m[k] else {}
  }

  /** The bag after one flag is set to `on`. */
  function Toggle(bag: set<Direction>, d: Direction, on: bool): (r: set<Direction>)
    ensures d in r <==> on
    ensures r - {d} == bag - {d}
  {
    if on then bag + {d} else bag - {d}
  }

  /** Set flag `d` to `on` in the bag of every listed part, creating the bag
      of a part that has none, one part after the other. */
  function SetFlags<K>(m: map<K, set<Direction>>, parts: seq<K>, d: Direction, on: bool): map<K, set<Direction>>
  {
    if parts == [] then m
    else
      var m' := SetFlags(m, parts[..|parts| - 1], d, on);
      var k := parts[|parts| - 1];
      m'[k := Toggle(BagOf(m', k), d, on)]
  }

  /** Part by part: a listed part has its bag (created if need be) with flag
      `d` set to `on` and every other flag unchanged; an unlisted part is
      untouched. */
  lemma {:induction false} SetFlagsAt<K>(m: map<K, set<Direction>>, parts: seq<K>, d: Direction, on: bool, k: K)
    ensures k in SetFlags(m, parts, d, on) <==> k in m || k in parts
    ensures BagOf(SetFlags(m, parts, d, on), k) == if k in parts then Toggle(BagOf(m, k), d, on) else BagOf(m, k)
  {
    if parts != [] {
      var init := parts[..|parts| - 1];
      SetFlagsAt(m, init, d, on, k);
      assert k in parts <==> k in init || k == parts[|parts| - 1];
    }
  }

  /** A key press followed by its release leaves that flag cleared in every
      part it names and every other flag as it was. */
  lemma PressThenRelease<K>(m: map<K, set<Direction>>, parts: seq<K>, d: Direction, k: K)
    requires k in parts
    ensures BagOf(SetFlags(SetFlags(m, parts, d, true), parts, d, false), k) == BagOf(m, k) - {d}
  {
    SetFlagsAt(m, parts, d, true, k);
    SetFlagsAt(SetFlags(m, parts, d, true), parts, d, false, k);
  }
}
