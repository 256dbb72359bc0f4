/** The ranges enemy stats are drawn from, and the colour and shape that show an enemy's
    difficulty (src/game/enemy/resources.rs). */
module EnemyResources {
  import opened Numeric
  import opened Timers
  import opened Components
  import opened Enemies
  import opened EnemyStrength

  /** A `(low, high)` pair of a stat range. */
  type Range = (real, real)

  /** `randomize` can draw from this range with any positive bias. */
  predicate ValidRange(r: Range) {
    0.0 < r.0 <= r.1
  }

  /** The `EnemyStrengthRange` resource. */
  datatype EnemyStrengthRange = EnemyStrengthRange(
    maxSpeed: Range,
    maxEnergy: Range,
    rechargeRate: Range,
    mass: Range,
    thrust: Range,
    lifetime: Range,
    radius: Range)
  {
    predicate Valid() {
      ValidRange(maxSpeed) && ValidRange(maxEnergy) && ValidRange(rechargeRate) && ValidRange(mass)
      && ValidRange(thrust) && ValidRange(lifetime) && ValidRange(radius)
    }
  }

  /** `EnemyStrengthRange::default()`: every range is positive and ordered. */
  function DefaultStrengthRange(): (s: EnemyStrengthRange)
    ensures s.Valid()
  {
    EnemyStrengthRange((5.0, 12.0), (30.0, 120.0), (10.0, 60.0), (1.0, 10.0),
                       (10.0, 20.0), (30.0, 120.0), (5.0, 15.0))
  }

  /** The weakest ship the ranges describe: every stat at its low end (mass included). */
  function LowCorner(s: EnemyStrengthRange): (Momentum, Enemy)
    requires s.Valid()
  {
    (Momentum(s.maxSpeed.0, s.mass.0, s.thrust.0),
     NewEnemy(s.lifetime.0, s.maxEnergy.0, s.rechargeRate.0, 0.0))
  }

  /** Every stat at its high end (mass included). */
  function HighCorner(s: EnemyStrengthRange): (Momentum, Enemy)
    requires s.Valid()
  {
    (Momentum(s.maxSpeed.1, s.mass.1, s.thrust.1),
     NewEnemy(s.lifetime.1, s.maxEnergy.1, s.rechargeRate.1, 0.0))
  }

  /** `get_power_range`: the strength of the all-low ship paired with that of the all-high ship.
      The starting energy that `Enemy::new` draws does not enter the strength, so a zero draw
      stands for it. */
  function GetPowerRange(s: EnemyStrengthRange): (r: (real, real))
    requires s.Valid()
    ensures r.0 > s.maxEnergy.0 + s.rechargeRate.0 && r.1 > s.maxEnergy.1 + s.rechargeRate.1
  {
    var lo := LowCorner(s);
    var hi := HighCorner(s);
    assert PositiveStats(lo.0, lo.1) && PositiveStats(hi.0, hi.1);
    (CalcStrength(lo.0, lo.1), CalcStrength(hi.0, hi.1))
  }

  /** With the default ranges the power range is `(90, 204)`: `5*10/1 + 30 + 10` and
      `12*20/10 + 120 + 60`. */
  lemma DefaultPowerRange()
    ensures GetPowerRange(DefaultStrengthRange()) == (90.0, 204.0)
    ensures PowerSpan(DefaultStrengthRange()) == 318.0
  {
    var s := DefaultStrengthRange();
    assert CalcStrength(LowCorner(s).0, LowCorner(s).1) == 5.0 * 10.0 / 1.0 + 30.0 + 10.0;
    assert CalcStrength(HighCorner(s).0, HighCorner(s).1) == 12.0 * 20.0 / 10.0 + 120.0 + 60.0;
  }

  /** Because the high end also takes the heaviest mass, the all-high ship need not be the
      stronger one: ranges that are each positive and ordered can pair a lower bound above the
      upper bound. */
  lemma HighCornerCanBeWeaker()
    ensures var s := EnemyStrengthRange((10.0, 10.0), (1.0, 1.0), (1.0, 1.0), (1.0, 100.0),
                                        (10.0, 10.0), (1.0, 1.0), (1.0, 1.0));
            s.Valid() && GetPowerRange(s).0 > GetPowerRange(s).1
  {
    var s := EnemyStrengthRange((10.0, 10.0), (1.0, 1.0), (1.0, 1.0), (1.0, 100.0),
                                (10.0, 10.0), (1.0, 1.0), (1.0, 1.0));
    assert CalcStrength(LowCorner(s).0, LowCorner(s).1) == 102.0;
    assert CalcStrength(HighCorner(s).0, HighCorner(s).1) == 100.0 / 100.0 + 2.0;
  }

  /** The divisor `2 * max - min` of the relative difficulty. */
  function PowerSpan(s: EnemyStrengthRange): real
    requires s.Valid()
  {
    2.0 * GetPowerRange(s).1 - GetPowerRange(s).0
  }

  /** Each stat and the starting-energy fraction for one new enemy, as unit draws. */
  datatype StatDraws = StatDraws(
    maxSpeed: real, mass: real, thrust: real, lifetime: real, maxEnergy: real, rechargeRate: real,
    startEnergy: real)
  {
    predicate Valid() {
      0.0 <= maxSpeed <= 1.0 && 0.0 <= mass <= 1.0 && 0.0 <= thrust <= 1.0 && 0.0 <= lifetime <= 1.0
      && 0.0 <= maxEnergy <= 1.0 && 0.0 <= rechargeRate <= 1.0 && 0.0 <= startEnergy <= 1.0
    }
  }

  /** `x` is a possible outcome of `randomize(range, bias)`. */
  predicate InBiasedRange(x: real, range: Range, bias: real)
    requires range.0 > 0.0 && bias > 0.0
  {
    range.0 <= x <= RandomizeMax(range, bias)
  }

  /** `get_enemy_stats(bias)`: every one of the six stats drawn from its own range with the bias. */
  function GetEnemyStats(s: EnemyStrengthRange, bias: real, d: StatDraws): (r: (Momentum, Enemy))
    requires s.Valid() && bias > 0.0 && d.Valid()
    ensures InBiasedRange(r.0.maxSpeed, s.maxSpeed, bias)
    ensures InBiasedRange(r.0.mass, s.mass, bias)
    ensures InBiasedRange(r.0.thrust, s.thrust, bias)
    ensures InBiasedRange(r.1.lifetime.duration, s.lifetime, bias)
    ensures InBiasedRange(r.1.maxEnergy, s.maxEnergy, bias)
    ensures InBiasedRange(r.1.rechargeRate, s.rechargeRate, bias)
    ensures r.0.mass >= s.mass.0 > 0.0
    ensures PositiveStats(r.0, r.1)
    ensures r.1.state == Stopped && 0.0 <= r.1.energy <= r.1.maxEnergy
    ensures r.1.lifetime.mode == Once && !r.1.lifetime.finished && r.1.lifetime.Valid()
  {
    var momentum := Momentum(Randomize(s.maxSpeed, bias, d.maxSpeed),
                             Randomize(s.mass, bias, d.mass),
                             Randomize(s.thrust, bias, d.thrust));
    var enemy := NewEnemy(Randomize(s.lifetime, bias, d.lifetime),
                          Randomize(s.maxEnergy, bias, d.maxEnergy),
                          Randomize(s.rechargeRate, bias, d.rechargeRate),
                          d.startEnergy);
    (momentum, enemy)
  }

  /** `get_radius(mass)`: a draw biased by how heavy the ship is compared with the heaviest
      mass, clamped back into the radius range. */
  function GetRadius(s: EnemyStrengthRange, mass: real, u: real): (r: real)
    requires s.Valid() && mass > 0.0 && 0.0 <= u <= 1.0
    ensures s.radius.0 <= r <= s.radius.1
    ensures s.radius.1 * (mass / s.mass.1) <= s.radius.0 ==> r == s.radius.0
  {
    Clamp(Randomize(s.radius, mass / s.mass.1, u), s.radius.0, s.radius.1)
  }

  /** The difficulty of a ship relative to the power range:
      `(strength - min) / (2 * max - min)`. */
  function RelativeDifficulty(s: EnemyStrengthRange, m: Momentum, e: Enemy): (rel: real)
    requires s.Valid() && m.mass != 0.0 && PowerSpan(s) != 0.0
    ensures PowerSpan(s) > 0.0 ==> (rel < 0.0 <==> CalcStrength(m, e) < GetPowerRange(s).0)
    ensures rel == 0.0 <==> CalcStrength(m, e) == GetPowerRange(s).0
  {
    var lo := GetPowerRange(s).0;
    var d := PowerSpan(s);
    SignOfQuotient(CalcStrength(m, e) - lo, d);
    (CalcStrength(m, e) - lo) / d
  }

  lemma SignOfQuotient(a: real, d: real)
    requires d != 0.0
    ensures d > 0.0 ==> (a / d < 0.0 <==> a < 0.0)
    ensures a / d == 0.0 <==> a == 0.0
  {
    var q := a / d;
    assert q * d == a;
  }

  /** A stronger ship never has a lower relative difficulty. */
  lemma {:induction false} RelativeDifficultyMonotone(s: EnemyStrengthRange, m1: Momentum, e1: Enemy, m2: Momentum, e2: Enemy)
    requires s.Valid() && m1.mass != 0.0 && m2.mass != 0.0 && PowerSpan(s) > 0.0
    requires CalcStrength(m1, e1) <= CalcStrength(m2, e2)
    ensures RelativeDifficulty(s, m1, e1) <= RelativeDifficulty(s, m2, e2)
  {
    var lo := GetPowerRange(s).0;
    var d := PowerSpan(s);
    DivisionMonotone(CalcStrength(m1, e1) - lo, CalcStrength(m2, e2) - lo, d);
  }

  lemma DivisionMonotone(a1: real, a2: real, d: real)
    requires a1 <= a2 && d > 0.0
    ensures a1 / d <= a2 / d
  {
    var q1 := a1 / d;
    var q2 := a2 / d;
    assert q1 * d == a1;
    assert q2 * d == a2;
    assert (q2 - q1) * d >= 0.0;
  }

  /** The ten difficulty colours, from red (easiest) to white. */
  const Palette: seq<Color> := [
    Srgb(255.0, 0.0, 0.0), Srgb(255.0, 112.5, 0.0), Srgb(255.0, 255.0, 0.0),
    Srgb(112.5, 255.0, 0.0), Srgb(0.0, 255.0, 0.0), Srgb(0.0, 255.0, 112.5),
    Srgb(0.0, 255.0, 255.0), Srgb(0.0, 112.5, 255.0), Srgb(0.0, 0.0, 255.0),
    Srgb(255.0, 255.0, 255.0)]

  /** The ladder of `get_colour` on a relative difficulty: ten tiers with strict `<` at
      0.1, 0.2, ..., 0.9. */
  function ColourForDifficulty(rel: real): (c: Color)
    ensures c in Palette
    ensures rel < 0.1 ==> c == Srgb(255.0, 0.0, 0.0)
    ensures rel >= 0.9 ==> c == Srgb(255.0, 255.0, 255.0)
  {
    if rel < 0.1 then Srgb(255.0, 0.0, 0.0)
    else if rel < 0.2 then Srgb(255.0, 112.5, 0.0)
    else if rel < 0.3 then Srgb(255.0, 255.0, 0.0)
    else if rel < 0.4 then Srgb(112.5, 255.0, 0.0)
    else if rel < 0.5 then Srgb(0.0, 255.0, 0.0)
    else if rel < 0.6 then Srgb(0.0, 255.0, 112.5)
    else if rel < 0.7 then Srgb(0.0, 255.0, 255.0)
    else if rel < 0.8 then Srgb(0.0, 112.5, 255.0)
    else if rel < 0.9 then Srgb(0.0, 0.0, 255.0)
    else Srgb(255.0, 255.0, 255.0)
  }

  /** A reference definition of the tier: tenths of the difficulty, with everything below 0.1
      in the first tier and everything from 0.9 up in the last. */
  function Tier(rel: real): (t: nat)
    ensures t <= 9
    ensures t == 0 <==> rel < 0.1
    ensures t == 9 <==> rel >= 0.9
    ensures 0 < t < 9 ==> t as real / 10.0 <= rel < (t + 1) as real / 10.0
  {
    if rel < 0.1 then 0 else if rel >= 0.9 then 9 else (10.0 * rel).Floor
  }

  /** The ladder picks exactly the palette entry of the difficulty's tier. */
  lemma ColourIsTierEntry(rel: real)
    ensures ColourForDifficulty(rel) == Palette[Tier(rel)]
  {
  }

  /** The ten colours are distinct, so a colour names its tier. */
  lemma PaletteDistinct(i: nat, j: nat)
    requires i < 10 && j < 10 && Palette[i] == Palette[j]
    ensures i == j
  {
  }

  /** A harder ship never gets an earlier tier. */
  lemma TierMonotone(rel1: real, rel2: real)
    requires rel1 <= rel2
    ensures Tier(rel1) <= Tier(rel2)
  {
  }

  /** `get_colour`: the tier colour of the ship's relative difficulty. */
  function GetColour(s: EnemyStrengthRange, m: Momentum, e: Enemy): (c: Color)
    requires s.Valid() && m.mass != 0.0 && PowerSpan(s) != 0.0
    ensures c == Palette[Tier(RelativeDifficulty(s, m, e))]
  {
    ColourIsTierEntry(RelativeDifficulty(s, m, e));
    ColourForDifficulty(RelativeDifficulty(s, m, e))
  }

  /** The ten star points for radius `r`: twice the radius at even indices, the radius at odd
      ones, one tenth of a turn apart. */
  function StarPoints(r: real): seq<PolarPoint>
  {
    seq(10, i requires 0 <= i < 10 => PolarPoint(r * (if i % 2 == 0 then 2.0 else 1.0), i as real / 10.0))
  }

  /** The star alternates outer and inner points evenly around one full turn. */
  lemma StarShape(r: real)
    ensures |StarPoints(r)| == 10
    ensures forall i :: 0 <= i < 10 && i % 2 == 0 ==> StarPoints(r)[i].distance == 2.0 * r
    ensures forall i :: 0 <= i < 10 && i % 2 == 1 ==> StarPoints(r)[i].distance == r
    ensures forall i :: 0 <= i < 9 ==> StarPoints(r)[i + 1].turns - StarPoints(r)[i].turns == 0.1
    ensures forall i :: 0 <= i < 10 ==> 0.0 <= StarPoints(r)[i].turns < 1.0
  {
  }

  /** The bird: beak, left wing, tail, right wing. */
  function BirdPoints(r: real): (pts: seq<Vec2>)
    ensures |pts| == 4
    ensures pts[0].x == 0.0 && pts[2].x == 0.0 && pts[0].y == -pts[2].y
    ensures pts[1].x == -pts[3].x && pts[1].y == pts[3].y
  {
    [Vec2(0.0, r), Vec2(-(r * 2.0), r * 2.0), Vec2(0.0, -r), Vec2(r * 2.0, r * 2.0)]
  }

  /** The shape for a relative difficulty and radius: the star below 0.5, the bird otherwise. */
  function ShapeFor(rel: real, r: real): Path
  {
    if rel < 0.5 then PolarPolygon(StarPoints(r)) else Polygon(BirdPoints(r))
  }

  /** The shape and the colour agree: a ship is drawn as a star exactly when its colour is one
      of the first five tiers. */
  lemma StarIffLowTier(rel: real, r: real)
    ensures ShapeFor(rel, r).PolarPolygon? <==> Tier(rel) <= 4
  {
  }

  /** `get_shape`: builds the star points one by one, then picks the star or the bird by the
      relative difficulty.  Its radius is a fresh `get_radius` draw `u`, independent of the
      collider radius the spawner drew.  The crescent and U shapes it also builds are unused. */
  method GetShape(s: EnemyStrengthRange, m: Momentum, e: Enemy, u: real) returns (path: Path)
    requires s.Valid() && m.mass > 0.0 && PowerSpan(s) != 0.0 && 0.0 <= u <= 1.0
    ensures path == ShapeFor(RelativeDifficulty(s, m, e), GetRadius(s, m.mass, u))
    ensures path.PolarPolygon? <==> Tier(RelativeDifficulty(s, m, e)) <= 4
  {
    var rel := RelativeDifficulty(s, m, e);
    var radius := GetRadius(s, m.mass, u);
    var bird := [Vec2(0.0, radius), Vec2(-(radius * 2.0), radius * 2.0), Vec2(0.0, -radius),
                 Vec2(radius * 2.0, radius * 2.0)];
    var star: seq<PolarPoint> := [];
    var i := 0;
    while i < 10
      invariant 0 <= i <= 10
      invariant star == StarPoints(radius)[..i]
    {
      var factor := if i % 2 == 0 then 2.0 else 1.0;
      var turns := (i as real / 2.0) / 5.0;
      star := star + [PolarPoint(radius * factor, turns)];
      i := i + 1;
    }
    assert star == StarPoints(radius);
    StarIffLowTier(rel, radius);
    if rel < 0.5 {
      path := PolarPolygon(star);
    } else {
      path := Polygon(bird);
    }
  }
}
