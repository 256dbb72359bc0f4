/** The strength score and the biased random draw shared by the enemy spawner and its
    resources (src/game/enemy/systems.rs, `calc_strength` and `randomize`). */
module EnemyStrength {
  import opened Numeric
  import opened Components
  import opened Enemies

  /** Every stat that enters the strength score is positive, as the default ranges make them. */
  predicate PositiveStats(m: Momentum, e: Enemy) {
    m.maxSpeed > 0.0 && m.thrust > 0.0 && m.mass > 0.0 && e.maxEnergy > 0.0 && e.rechargeRate > 0.0
  }

  /** `calc_strength`: speed times thrust over mass, plus maximum energy and recharge rate. */
  function CalcStrength(m: Momentum, e: Enemy): (s: real)
    requires m.mass != 0.0
    ensures PositiveStats(m, e) ==> s > e.maxEnergy + e.rechargeRate > 0.0
  {
    PositiveQuotient(m.maxSpeed, m.thrust, m.mass);
    m.maxSpeed * m.thrust / m.mass + e.maxEnergy + e.rechargeRate
  }

  lemma PositiveQuotient(a: real, b: real, c: real)
    requires c != 0.0
    ensures a > 0.0 && b > 0.0 && c > 0.0 ==> a * b / c > 0.0
  {
    if a > 0.0 && b > 0.0 && c > 0.0 {
      var p := a * b;
      assert p > 0.0;
      assert p / c > 0.0;
    }
  }

  lemma ProductMonotone(a1: real, b1: real, a2: real, b2: real)
    requires 0.0 <= a1 <= a2 && 0.0 <= b1 <= b2
    ensures a1 * b1 <= a2 * b2
  {
    assert a1 * b1 <= a1 * b2;
    assert a1 * b2 <= a2 * b2;
  }

  lemma QuotientMonotone(p1: real, p2: real, m1: real, m2: real)
    requires 0.0 <= p1 <= p2 && m1 >= m2 > 0.0
    ensures p1 / m1 <= p2 / m2
  {
    var q1 := p1 / m1;
    var q2 := p2 / m2;
    assert q1 * m1 == p1;
    assert q2 * m2 == p2;
    assert q1 >= 0.0;
    assert q1 * m2 <= q1 * m1;
    assert (q1 - q2) * m2 <= 0.0;
  }

  /** A ship that is at least as fast, thrusty, energetic and quick to recharge, and no heavier,
      is at least as strong. */
  lemma StrengthMonotone(m1: Momentum, e1: Enemy, m2: Momentum, e2: Enemy)
    requires PositiveStats(m1, e1) && PositiveStats(m2, e2)
    requires m1.maxSpeed <= m2.maxSpeed && m1.thrust <= m2.thrust && m1.mass >= m2.mass
    requires e1.maxEnergy <= e2.maxEnergy && e1.rechargeRate <= e2.rechargeRate
    ensures CalcStrength(m1, e1) <= CalcStrength(m2, e2)
  {
    ProductMonotone(m1.maxSpeed, m1.thrust, m2.maxSpeed, m2.thrust);
    var p1 := m1.maxSpeed * m1.thrust;
    var p2 := m2.maxSpeed * m2.thrust;
    assert p1 >= 0.0;
    QuotientMonotone(p1, p2, m1.mass, m2.mass);
    assert CalcStrength(m1, e1) == p1 / m1.mass + e1.maxEnergy + e1.rechargeRate;
    assert CalcStrength(m2, e2) == p2 / m2.mass + e2.maxEnergy + e2.rechargeRate;
  }

  /** The upper end of a biased draw: `(range.1 * bias).clamp(range.0, INFINITY)`. */
  function RandomizeMax(range: (real, real), bias: real): (hi: real)
    requires range.0 > 0.0 && bias > 0.0
    ensures hi >= range.0 && hi >= range.1 * bias
    ensures hi == range.0 || hi == range.1 * bias
  {
    Max(range.1 * bias, range.0)
  }

  /** `randomize(range, bias)`: a uniform draw, here the unit draw `u`, from
      `[range.0, RandomizeMax(range, bias)]`.  The asserts that the engine panics on are the
      preconditions `range.0 > 0` and `bias > 0`; its other two asserts then always hold. */
  function Randomize(range: (real, real), bias: real, u: real): (r: real)
    requires range.0 > 0.0 && bias > 0.0 && 0.0 <= u <= 1.0
    ensures range.0 <= r <= RandomizeMax(range, bias)
    ensures range.1 * bias <= range.0 ==> r == range.0
    ensures u == 0.0 ==> r == range.0
    ensures u == 1.0 ==> r == RandomizeMax(range, bias)
  {
    Lerp(range.0, RandomizeMax(range, bias), u)
  }

  /** Every value in the biased range is a possible outcome of `Randomize`. */
  lemma RandomizeCovers(range: (real, real), bias: real, x: real)
    requires range.0 > 0.0 && bias > 0.0
    requires range.0 <= x <= RandomizeMax(range, bias)
    ensures exists u :: 0.0 <= u <= 1.0 && Randomize(range, bias, u) == x
  {
    LerpCovers(range.0, RandomizeMax(range, bias), x);
    var u :| 0.0 <= u <= 1.0 && Lerp(range.0, RandomizeMax(range, bias), u) == x;
    assert Randomize(range, bias, u) == x;
  }
}
