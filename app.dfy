/** The app-wide definitions of src/lib.rs: the `AppSet` groups of the `Update` schedule and
    their chained order, and `get_magnitude`, the scaled speed of a velocity. */
module App {
  import opened Numeric
  import opened Components

  /** `AppSet` */
  datatype AppSet = TickTimers | RecordInput | Update | UpdateScore

  /** The order the sets are chained in within `Update`. */
  const UpdateChain: seq<AppSet> := [TickTimers, RecordInput, Update, UpdateScore]

  /** The position of a set in the chain. */
  function Rank(s: AppSet): (r: nat)
    ensures r < |UpdateChain| && UpdateChain[r] == s
  {
    match s
    case TickTimers => 0
    case RecordInput => 1
    case Update => 2
    case UpdateScore => 3
  }

  /** Set `a` runs before set `b` in every frame. */
  predicate RunsBefore(a: AppSet, b: AppSet) {
    Rank(a) < Rank(b)
  }

  /** The chain names every set exactly once, so it orders all of them: of two distinct sets
      exactly one runs first, and the order is transitive. */
  lemma ChainIsStrictTotalOrder(a: AppSet, b: AppSet, c: AppSet)
    ensures a != b <==> (RunsBefore(a, b) != RunsBefore(b, a))
    ensures RunsBefore(a, b) && RunsBefore(b, c) ==> RunsBefore(a, c)
    ensures !RunsBefore(a, a)
  {
  }

  /** Timers tick before input is recorded, input before the game update, and the update before
      score and end-of-game checks. */
  lemma ScoreIsCheckedLast(s: AppSet)
    ensures s != UpdateScore ==> RunsBefore(s, UpdateScore)
    ensures s != TickTimers ==> RunsBefore(TickTimers, s)
  {
  }

  /** `get_magnitude`: the sum of the absolute components, scaled by 0.08. */
  function GetMagnitude(v: Vec2): (m: real)
    ensures m >= 0.0
    ensures m == 0.0 <==> v == Vec2Zero
    ensures m >= 0.08 * Abs(v.x) && m >= 0.08 * Abs(v.y)
  {
    (Abs(v.x) + Abs(v.y)) * 0.08
  }

  /** The magnitude ignores the sign of each component and which component is which. */
  lemma MagnitudeSymmetries(v: Vec2)
    ensures GetMagnitude(Vec2(-v.x, v.y)) == GetMagnitude(v)
    ensures GetMagnitude(Vec2(v.x, -v.y)) == GetMagnitude(v)
    ensures GetMagnitude(Vec2(v.y, v.x)) == GetMagnitude(v)
  {
  }

  /** The magnitude obeys the triangle inequality. */
  lemma MagnitudeTriangle(v: Vec2, w: Vec2)
    ensures GetMagnitude(v.Add(w)) <= GetMagnitude(v) + GetMagnitude(w)
  {
  }
}
