/** The older, single-file enemy generator (src/game/enemy.rs).  It has its own component, its
    own maximum-strength resource and different formulas from the current enemy systems, so it
    is modelled on its own terms; only the spawn gate, the bias and the ten-tier threshold
    ladder, which it shares word for word with the current code, are reused. */
module LegacyEnemy {
  import opened Numeric
  import opened Timers
  import opened Components
  import EnemyStrength
  import EnemyResources
  import EnemySystems

  /** The legacy activity flag; `Stopped` is the default. */
  datatype EnemyState = Stopped | Moving

  const DefaultEnemyState: EnemyState := Stopped

  /** The legacy `Enemy` component: no colour and no health. */
  datatype Enemy = Enemy(lifetime: Timer, energy: real, maxEnergy: real, rechargeRate: real, state: EnemyState)

  /** `Enemy::new`: a once-timer, a starting energy drawn from `[0, max_energy]` (the unit draw
      `energyDraw`), and the Stopped state. */
  function NewEnemy(lifetime: real, maxEnergy: real, rechargeRate: real, energyDraw: real): (e: Enemy)
    requires lifetime >= 0.0 && maxEnergy >= 0.0 && 0.0 <= energyDraw <= 1.0
    ensures e.state == Stopped && 0.0 <= e.energy <= maxEnergy
    ensures e.maxEnergy == maxEnergy && e.rechargeRate == rechargeRate
    ensures e.lifetime == FromSeconds(lifetime, Once)
  {
    Enemy(FromSeconds(lifetime, Once), Lerp(0.0, maxEnergy, energyDraw), maxEnergy, rechargeRate, Stopped)
  }

  /** The stats the strength score needs to be positive. */
  predicate PositiveStats(m: Momentum, e: Enemy) {
    m.maxSpeed > 0.0 && m.thrust > 0.0 && m.mass > 0.0 && e.maxEnergy > 0.0 && e.rechargeRate > 0.0
  }

  /** The legacy `calc_strength`, the same formula as the current one over the legacy component. */
  function CalcStrength(m: Momentum, e: Enemy): (s: real)
    requires m.mass != 0.0
    ensures m.maxSpeed >= 0.0 && m.thrust >= 0.0 && m.mass > 0.0 ==> s >= e.maxEnergy + e.rechargeRate
    ensures PositiveStats(m, e) ==> s > e.maxEnergy + e.rechargeRate > 0.0
  {
    EnemyStrength.PositiveQuotient(m.maxSpeed, m.thrust, m.mass);
    NonNegativeQuotient(m.maxSpeed, m.thrust, m.mass);
    m.maxSpeed * m.thrust / m.mass + e.maxEnergy + e.rechargeRate
  }

  lemma NonNegativeQuotient(a: real, b: real, c: real)
    requires c != 0.0
    ensures a >= 0.0 && b >= 0.0 && c > 0.0 ==> a * b / c >= 0.0
  {
    if a >= 0.0 && b >= 0.0 && c > 0.0 {
      var p := a * b;
      assert p >= 0.0;
    }
  }

  /** The legacy `randomize(max)`: a uniform draw, the unit draw `u`, from `[0, max]`; the engine
      panics unless `max > 0`. */
  function Randomize(max: real, u: real): (r: real)
    requires max > 0.0 && 0.0 <= u <= 1.0
    ensures 0.0 <= r <= max
    ensures u == 0.0 ==> r == 0.0
    ensures u == 1.0 ==> r == max
  {
    Lerp(0.0, max, u)
  }

  /** Every value in `[0, max]` is a possible outcome of `Randomize`. */
  lemma RandomizeCovers(max: real, x: real)
    requires max > 0.0 && 0.0 <= x <= max
    ensures exists u :: 0.0 <= u <= 1.0 && Randomize(max, u) == x
  {
    LerpCovers(0.0, max, x);
    var u :| 0.0 <= u <= 1.0 && Lerp(0.0, max, u) == x;
    assert Randomize(max, u) == x;
  }

  /** The `MaxEnemyStrength` resource: the upper end of every stat. */
  datatype MaxEnemyStrength = MaxEnemyStrength(
    maxMaxSpeed: real, maxMaxEnergy: real, maxRechargeRate: real, maxMass: real,
    maxThrust: real, maxLifetime: real, maxRadius: real)
  {
    /** Every maximum is positive, as `randomize` demands, and the lifetime maximum is at least
        the ten seconds it is clamped up to. */
    predicate Valid() {
      maxMaxSpeed > 0.0 && maxMaxEnergy > 0.0 && maxRechargeRate > 0.0 && maxMass > 0.0
      && maxThrust > 0.0 && maxLifetime >= 10.0 && maxRadius > 0.0
    }
  }

  /** `MaxEnemyStrength::default()`. */
  function DefaultMaxStrength(): (s: MaxEnemyStrength)
    ensures s.Valid()
  {
    MaxEnemyStrength(12.0, 120.0, 60.0, 5.0, 20.0, 120.0, 5.0)
  }

  /** `get_power`: the strength of an enemy with every stat at its maximum.  The starting energy
      it draws does not enter the strength, so the draw is fixed here. */
  function GetPower(s: MaxEnemyStrength): (p: real)
    requires s.Valid()
    ensures p > s.maxMaxEnergy + s.maxRechargeRate
  {
    CalcStrength(Momentum(s.maxMaxSpeed, s.maxMass, s.maxThrust),
                 NewEnemy(s.maxLifetime, s.maxMaxEnergy, s.maxRechargeRate, 0.0))
  }

  /** The default maximum power is `12 * 20 / 5 + 120 + 60 = 228`. */
  lemma DefaultPower()
    ensures GetPower(DefaultMaxStrength()) == 228.0
  {
    var s := DefaultMaxStrength();
    assert CalcStrength(Momentum(12.0, 5.0, 20.0), NewEnemy(120.0, 120.0, 60.0, 0.0)) == 12.0 * 20.0 / 5.0 + 120.0 + 60.0;
  }

  /** The unit draws of one `get_enemy_stats` call, plus the starting-energy draw of
      `Enemy::new`.  The mass draw is kept away from 0, where the radius would be infinite. */
  datatype StatDraws = StatDraws(maxSpeed: real, mass: real, thrust: real, lifetime: real,
                                 maxEnergy: real, rechargeRate: real, startEnergy: real)
  {
    predicate Valid() {
      0.0 <= maxSpeed <= 1.0 && 0.0 < mass <= 1.0 && 0.0 <= thrust <= 1.0 && 0.0 <= lifetime <= 1.0
      && 0.0 <= maxEnergy <= 1.0 && 0.0 <= rechargeRate <= 1.0 && 0.0 <= startEnergy <= 1.0
    }
  }

  /** The legacy `get_enemy_stats(bias)`: speed, thrust, energy and recharge are each a draw
      from `[0, max]` scaled by the bias; the mass is a draw from `[0, max_mass]` that the bias
      does not touch; the lifetime is a scaled draw clamped into `[10, max_lifetime]`. */
  function GetEnemyStats(s: MaxEnemyStrength, bias: real, d: StatDraws): (r: (Momentum, Enemy))
    requires s.Valid() && bias > 0.0 && d.Valid()
    ensures r.0.maxSpeed == Randomize(s.maxMaxSpeed, d.maxSpeed) * bias
    ensures r.0.thrust == Randomize(s.maxThrust, d.thrust) * bias
    ensures r.0.mass == Randomize(s.maxMass, d.mass) && 0.0 < r.0.mass <= s.maxMass
    ensures r.1.maxEnergy == Randomize(s.maxMaxEnergy, d.maxEnergy) * bias
    ensures r.1.rechargeRate == Randomize(s.maxRechargeRate, d.rechargeRate) * bias
    ensures 0.0 <= r.0.maxSpeed <= s.maxMaxSpeed * bias && 0.0 <= r.0.thrust <= s.maxThrust * bias
    ensures 0.0 <= r.1.maxEnergy <= s.maxMaxEnergy * bias && 0.0 <= r.1.rechargeRate <= s.maxRechargeRate * bias
    ensures 10.0 <= r.1.lifetime.duration <= s.maxLifetime
    ensures r.1.lifetime.mode == Once && r.1.lifetime.Valid() && !r.1.lifetime.finished
    ensures r.1.state == Stopped && 0.0 <= r.1.energy <= r.1.maxEnergy
  {
    (StatsMomentum(s, bias, d), StatsEnemy(s, bias, d))
  }

  /** The momentum half of `get_enemy_stats`. */
  function StatsMomentum(s: MaxEnemyStrength, bias: real, d: StatDraws): (m: Momentum)
    requires s.Valid() && bias > 0.0 && d.Valid()
    ensures m.maxSpeed == Randomize(s.maxMaxSpeed, d.maxSpeed) * bias
    ensures m.thrust == Randomize(s.maxThrust, d.thrust) * bias
    ensures m.mass == Randomize(s.maxMass, d.mass) && 0.0 < m.mass <= s.maxMass
    ensures 0.0 <= m.maxSpeed <= s.maxMaxSpeed * bias && 0.0 <= m.thrust <= s.maxThrust * bias
  {
    var speed := Randomize(s.maxMaxSpeed, d.maxSpeed);
    var thrust := Randomize(s.maxThrust, d.thrust);
    ScaledDraw(speed, s.maxMaxSpeed, bias);
    ScaledDraw(thrust, s.maxThrust, bias);
    RandomizePositive(s.maxMass, d.mass);
    Momentum(speed * bias, Randomize(s.maxMass, d.mass), thrust * bias)
  }

  /** The component half of `get_enemy_stats`. */
  function StatsEnemy(s: MaxEnemyStrength, bias: real, d: StatDraws): (e: Enemy)
    requires s.Valid() && bias > 0.0 && d.Valid()
    ensures e.maxEnergy == Randomize(s.maxMaxEnergy, d.maxEnergy) * bias
    ensures e.rechargeRate == Randomize(s.maxRechargeRate, d.rechargeRate) * bias
    ensures 0.0 <= e.maxEnergy <= s.maxMaxEnergy * bias && 0.0 <= e.rechargeRate <= s.maxRechargeRate * bias
    ensures 10.0 <= e.lifetime.duration <= s.maxLifetime
    ensures e.lifetime.mode == Once && e.lifetime.Valid() && !e.lifetime.finished
    ensures e.state == Stopped && 0.0 <= e.energy <= e.maxEnergy
  {
    var energy := Randomize(s.maxMaxEnergy, d.maxEnergy);
    var recharge := Randomize(s.maxRechargeRate, d.rechargeRate);
    ScaledDraw(energy, s.maxMaxEnergy, bias);
    ScaledDraw(recharge, s.maxRechargeRate, bias);
    var lifetime := Clamp(Randomize(s.maxLifetime, d.lifetime) * bias, 10.0, s.maxLifetime);
    NewEnemy(lifetime, energy * bias, recharge * bias, d.startEnergy)
  }

  lemma RandomizePositive(max: real, u: real)
    requires max > 0.0 && 0.0 < u <= 1.0
    ensures Randomize(max, u) > 0.0
  {
    PositiveProduct(u, max);
    assert Randomize(max, u) == u * max;
  }

  lemma ScaledDraw(x: real, max: real, bias: real)
    requires 0.0 <= x <= max && bias > 0.0
    ensures 0.0 <= x * bias <= max * bias
  {
  }

  lemma PositiveProduct(a: real, b: real)
    requires a > 0.0 && b > 0.0
    ensures a * b > 0.0
  {
  }

  /** The legacy `get_radius(mass)`: the maximum radius scaled by `max_mass / mass`, so lighter
      enemies are larger and an enemy of maximum mass has the maximum radius. */
  function GetRadius(s: MaxEnemyStrength, mass: real): (r: real)
    requires s.Valid() && mass > 0.0
    ensures r > 0.0
    ensures mass <= s.maxMass ==> r >= s.maxRadius
    ensures mass == s.maxMass ==> r == s.maxRadius
  {
    var ratio := s.maxMass / mass;
    assert ratio > 0.0;
    assert mass <= s.maxMass ==> ratio >= 1.0;
    assert ratio * s.maxRadius > 0.0 by { PositiveProduct(ratio, s.maxRadius); }
    assert mass <= s.maxMass ==> ratio * s.maxRadius >= s.maxRadius;
    s.maxRadius * ratio
  }

  /** Multiplying by a non-negative factor keeps an order. */
  lemma ScaleMonotone(c: real, a: real, b: real)
    requires c >= 0.0 && a <= b
    ensures c * a <= c * b
  {
    assert c * b - c * a == c * (b - a);
  }

  /** A positive factor common to both sides can be cancelled. */
  lemma CancelPositive(a: real, b: real, c: real)
    requires c > 0.0 && a * c <= b * c
    ensures a <= b
  {
    assert (b - a) * c == b * c - a * c;
  }

  /** Dividing by a larger positive number gives a smaller quotient. */
  lemma DivAntitone(n: real, m1: real, m2: real)
    requires n > 0.0 && 0.0 < m1 <= m2
    ensures n / m2 <= n / m1
  {
    var q1 := n / m1;
    var q2 := n / m2;
    assert q1 * m1 == n;
    assert q2 * m2 == n;
    assert q2 >= 0.0;
    ScaleMonotone(q2, m1, m2);
    assert q2 * m1 <= q1 * m1;
    CancelPositive(q2, q1, m1);
  }

  /** A heavier enemy is never larger. */
  lemma RadiusAntitone(s: MaxEnemyStrength, m1: real, m2: real)
    requires s.Valid() && 0.0 < m1 <= m2
    ensures GetRadius(s, m2) <= GetRadius(s, m1)
  {
    DivAntitone(s.maxMass, m1, m2);
    ScaleMonotone(s.maxRadius, s.maxMass / m2, s.maxMass / m1);
  }

  /** The colours of the ten tiers (Bevy 0.13's `Color::rgb`, channels in `[0, 1]`); the last
      two tiers are both pure blue. */
  const Palette: seq<Color> := [
    Srgb(1.0, 0.0, 0.0), Srgb(1.0, 0.5, 0.0), Srgb(1.0, 1.0, 0.0), Srgb(0.5, 1.0, 0.0),
    Srgb(0.0, 1.0, 0.0), Srgb(0.0, 1.0, 0.5), Srgb(0.0, 1.0, 1.0), Srgb(0.0, 0.5, 1.0),
    Srgb(0.0, 0.0, 1.0), Srgb(0.0, 0.0, 1.0)]

  const Blue := Srgb(0.0, 0.0, 1.0)

  /** The strength relative to the maximum power. */
  function RelativeDifficulty(s: MaxEnemyStrength, m: Momentum, e: Enemy): (rel: real)
    requires s.Valid() && m.mass != 0.0
    ensures CalcStrength(m, e) <= GetPower(s) ==> rel <= 1.0
    ensures CalcStrength(m, e) >= 0.0 ==> rel >= 0.0
  {
    var p := GetPower(s);
    var rel := CalcStrength(m, e) / p;
    assert rel * p == CalcStrength(m, e);
    rel
  }

  /** The legacy colour ladder over `rel = strength / get_power()`. */
  function ColourForDifficulty(rel: real): (c: Color)
    ensures c in Palette
    ensures c == Palette[EnemyResources.Tier(rel)]
    ensures rel < 0.1 ==> c == Srgb(1.0, 0.0, 0.0)
  {
    if rel < 0.1 then Srgb(1.0, 0.0, 0.0)
    else if rel < 0.2 then Srgb(1.0, 0.5, 0.0)
    else if rel < 0.3 then Srgb(1.0, 1.0, 0.0)
    else if rel < 0.4 then Srgb(0.5, 1.0, 0.0)
    else if rel < 0.5 then Srgb(0.0, 1.0, 0.0)
    else if rel < 0.6 then Srgb(0.0, 1.0, 0.5)
    else if rel < 0.7 then Srgb(0.0, 1.0, 1.0)
    else if rel < 0.8 then Srgb(0.0, 0.5, 1.0)
    else if rel < 0.9 then Srgb(0.0, 0.0, 1.0)
    else Blue
  }

  /** The legacy `get_colour`. */
  function GetColour(s: MaxEnemyStrength, m: Momentum, e: Enemy): (c: Color)
    requires s.Valid() && m.mass != 0.0
    ensures c == Palette[EnemyResources.Tier(RelativeDifficulty(s, m, e))]
  {
    ColourForDifficulty(RelativeDifficulty(s, m, e))
  }

  /** From eight tenths of the maximum power upwards every enemy is pure blue, and below that none is. */
  lemma BlueIffTopTiers(rel: real)
    ensures ColourForDifficulty(rel) == Blue <==> rel >= 0.8
  {
  }

  /** The legacy `get_shape`: always a circle of the unclamped `get_radius`, whatever the
      difficulty. */
  function GetShape(s: MaxEnemyStrength, m: Momentum, e: Enemy): (p: Path)
    requires s.Valid() && m.mass > 0.0
    ensures p.Circle? && p.radius == GetRadius(s, m.mass) && p.radius > 0.0
  {
    Circle(GetRadius(s, m.mass))
  }

  /** The shape does not depend on the enemy's energy or recharge. */
  lemma ShapeIgnoresDifficulty(s: MaxEnemyStrength, m: Momentum, e1: Enemy, e2: Enemy)
    requires s.Valid() && m.mass > 0.0
    ensures GetShape(s, m, e1) == GetShape(s, m, e2)
  {
  }

  // ---------------------------------------------------------------- spawning

  /** The collider radius: `get_radius(mass)` clamped into `[2, h/2 - 1]`; the clamp panics in
      the engine on a window less than 6 high. */
  function SpawnRadius(s: MaxEnemyStrength, mass: real, h: real): (r: real)
    requires s.Valid() && mass > 0.0 && h >= 6.0
    ensures 2.0 <= r <= h / 2.0 - 1.0 && r < h / 2.0
  {
    Clamp(GetRadius(s, mass), 2.0, h / 2.0 - 1.0)
  }

  /** A candidate spawn point: uniform in `[r, w - r] x [r, h - r]`. */
  function CandidatePoint(w: real, h: real, r: real, c: (real, real)): (p: Vec2)
    requires 2.0 * r <= w && 2.0 * r <= h && EnemySystems.UnitPair(c)
    ensures r <= p.x <= w - r && r <= p.y <= h - r
  {
    Vec2(Lerp(r, w - r, c.0), Lerp(r, h - r, c.1))
  }

  /** The acceptance test: outside the box of half-extents `0.2 w` and `0.2 h` around the player. */
  predicate FarFromPlayer(p: Vec2, player: Vec3, w: real, h: real) {
    p.x < player.x - 0.2 * w || p.x > player.x + 0.2 * w
    || p.y < player.y - 0.2 * h || p.y > player.y + 0.2 * h
  }

  predicate Placeable(w: real, h: real, r: real, player: Vec3, cs: seq<(real, real)>)
    requires 2.0 * r <= w && 2.0 * r <= h && forall i :: 0 <= i < |cs| ==> EnemySystems.UnitPair(cs[i])
  {
    exists i :: 0 <= i < |cs| && FarFromPlayer(CandidatePoint(w, h, r, cs[i]), player, w, h)
  }

  /** The index of the first accepted candidate. */
  function FirstAccepted(w: real, h: real, r: real, player: Vec3, cs: seq<(real, real)>): (k: nat)
    requires 2.0 * r <= w && 2.0 * r <= h && forall i :: 0 <= i < |cs| ==> EnemySystems.UnitPair(cs[i])
    requires Placeable(w, h, r, player, cs)
    ensures k < |cs| && FarFromPlayer(CandidatePoint(w, h, r, cs[k]), player, w, h)
    ensures forall j :: 0 <= j < k ==> !FarFromPlayer(CandidatePoint(w, h, r, cs[j]), player, w, h)
    decreases |cs|
  {
    if FarFromPlayer(CandidatePoint(w, h, r, cs[0]), player, w, h) then 0
    else
      assert Placeable(w, h, r, player, cs[1..]) by {
        var i :| 0 <= i < |cs| && FarFromPlayer(CandidatePoint(w, h, r, cs[i]), player, w, h);
        assert i > 0 && cs[1..][i - 1] == cs[i];
      }
      1 + FirstAccepted(w, h, r, player, cs[1..])
  }

  /** The legacy placement loop: draw candidates until one is far enough from the player. */
  method PickSpawnPoint(w: real, h: real, r: real, player: Vec3, cs: seq<(real, real)>) returns (p: Vec2)
    requires 2.0 * r <= w && 2.0 * r <= h && forall i :: 0 <= i < |cs| ==> EnemySystems.UnitPair(cs[i])
    requires Placeable(w, h, r, player, cs)
    ensures p == CandidatePoint(w, h, r, cs[FirstAccepted(w, h, r, player, cs)])
    ensures r <= p.x <= w - r && r <= p.y <= h - r
    ensures FarFromPlayer(p, player, w, h)
  {
    var k := 0;
    while true
      invariant k <= FirstAccepted(w, h, r, player, cs)
      decreases FirstAccepted(w, h, r, player, cs) - k
    {
      var x := Lerp(r, w - r, cs[k].0);
      var y := Lerp(r, h - r, cs[k].1);
      if x < player.x - 0.2 * w || x > player.x + 0.2 * w
         || y < player.y - 0.2 * h || y > player.y + 0.2 * h
      {
        return Vec2(x, y);
      }
      k := k + 1;
    }
  }

  /** A legacy enemy as its systems see it: handle, translation, velocity, momentum, component,
      fill colour, collider radius and shape. */
  datatype EnemyEntity = EnemyEntity(id: Entity, translation: Vec3, velocity: Vec2, momentum: Momentum,
                                     enemy: Enemy, fill: Color, radius: real, path: Path)

  /** The draws of one spawn: the stats, then the placement candidates. */
  datatype SpawnDraws = SpawnDraws(stats: StatDraws, placement: seq<(real, real)>) {
    predicate Valid() {
      stats.Valid() && forall i :: 0 <= i < |placement| ==> EnemySystems.UnitPair(placement[i])
    }
  }

  datatype SpawnOutcome = NotDue | NoWindow | RadiusTooLarge | Spawned(entity: EnemyEntity)

  /** The stats and collider radius of a spawn in a `w x h` window at this score. */
  function SpawnStats(score: real, s: MaxEnemyStrength, d: SpawnDraws, h: real): (r: (Momentum, Enemy, real))
    requires s.Valid() && d.Valid() && h >= 6.0
    ensures r.1 == GetEnemyStats(s, EnemySystems.SpawnBias(score), d.stats).1
    ensures r.0 == GetEnemyStats(s, EnemySystems.SpawnBias(score), d.stats).0
    ensures r.2 == SpawnRadius(s, r.0.mass, h)
  {
    var (m, e) := GetEnemyStats(s, EnemySystems.SpawnBias(score), d.stats);
    (m, e, SpawnRadius(s, m.mass, h))
  }

  /** What a due spawn in an existing window needs: a window at least 6 high (else the radius
      clamp panics) and, when the radius passes the size assertion, an acceptable candidate. */
  predicate SpawnPlaceable(gameTime: real, delta: real, score: real, window: Option<(real, real)>,
                           player: Vec3, s: MaxEnemyStrength, d: SpawnDraws)
    requires s.Valid() && d.Valid()
  {
    (EnemySystems.SpawnDue(gameTime, delta) && window.Some?) ==>
      && window.value.1 >= 6.0
      && var r := SpawnStats(score, s, d, window.value.1).2;
         (r < window.value.0 / 2.0 ==> Placeable(window.value.0, window.value.1, r, player, d.placement))
  }

  /** The legacy `spawn_enemy` as a function of its inputs and draws. */
  function PlanSpawn(gameTime: real, delta: real, score: real, window: Option<(real, real)>, player: Vec3,
                     s: MaxEnemyStrength, d: SpawnDraws, id: Entity): (o: SpawnOutcome)
    requires s.Valid() && d.Valid() && SpawnPlaceable(gameTime, delta, score, window, player, s, d)
    ensures o.NotDue? <==> !EnemySystems.SpawnDue(gameTime, delta)
    ensures o.NoWindow? <==> EnemySystems.SpawnDue(gameTime, delta) && window.None?
    ensures o.RadiusTooLarge? <==>
              EnemySystems.SpawnDue(gameTime, delta) && window.Some?
              && SpawnStats(score, s, d, window.value.1).2 >= window.value.0 / 2.0
    ensures o.Spawned? ==>
              var w := window.value.0;
              var h := window.value.1;
              var x := o.entity;
              && x.id == id
              && (x.momentum, x.enemy, x.radius) == SpawnStats(score, s, d, h)
              && PositiveMass(x)
              && 2.0 <= x.radius < w / 2.0 && x.radius < h / 2.0
              && x.radius <= x.translation.x <= w - x.radius && x.radius <= x.translation.y <= h - x.radius
              && x.translation.z == 0.0
              && FarFromPlayer(x.translation.Truncate(), player, w, h)
              && x.velocity == Vec2Zero && x.enemy.state == Stopped
              && x.fill == GetColour(s, x.momentum, x.enemy)
              && x.path == Circle(GetRadius(s, x.momentum.mass))
  {
    if !EnemySystems.SpawnDue(gameTime, delta) then NotDue
    else if window.None? then NoWindow
    else
      var w := window.value.0;
      var h := window.value.1;
      var (m, e, r) := SpawnStats(score, s, d, h);
      if !(r < w / 2.0 && r < h / 2.0) then RadiusTooLarge
      else
        var c := d.placement[FirstAccepted(w, h, r, player, d.placement)];
        var p := CandidatePoint(w, h, r, c);
        Spawned(EnemyEntity(id, Vec3(p.x, p.y, 0.0), Vec2Zero, m, e, GetColour(s, m, e), r, GetShape(s, m, e)))
  }

  /** A window wider than the clamped radius allows never trips the size assertion. */
  lemma WideWindowNeverPanics(gameTime: real, delta: real, score: real, w: real, h: real, player: Vec3,
                              s: MaxEnemyStrength, d: SpawnDraws, id: Entity)
    requires s.Valid() && d.Valid() && h >= 6.0 && w >= h
    requires SpawnPlaceable(gameTime, delta, score, Some((w, h)), player, s, d)
    ensures !PlanSpawn(gameTime, delta, score, Some((w, h)), player, s, d, id).RadiusTooLarge?
  {
  }

  // ------------------------------------------------------- energy and lifetime

  predicate PositiveMass(x: EnemyEntity) {
    x.momentum.mass > 0.0
  }

  /** What every legacy enemy keeps: a positive mass, non-negative speed, thrust, maximum
      energy and recharge rate, a non-negative energy and a well-formed once-timer.  Unlike the current code, no step can
      drive the energy below zero here. */
  predicate WellFormed(x: EnemyEntity) {
    && PositiveMass(x) && x.momentum.maxSpeed >= 0.0 && x.momentum.thrust >= 0.0
    && x.enemy.maxEnergy >= 0.0 && x.enemy.rechargeRate >= 0.0 && x.enemy.energy >= 0.0
    && x.enemy.lifetime.Valid() && x.enemy.lifetime.mode == Once
  }

  predicate AllWellFormed(es: seq<EnemyEntity>) {
    forall i :: 0 <= i < |es| ==> WellFormed(es[i])
  }

  /** A spawned enemy is well formed. */
  lemma SpawnedWellFormed(gameTime: real, delta: real, score: real, window: Option<(real, real)>, player: Vec3,
                          s: MaxEnemyStrength, d: SpawnDraws, id: Entity)
    requires s.Valid() && d.Valid() && SpawnPlaceable(gameTime, delta, score, window, player, s, d)
    ensures var o := PlanSpawn(gameTime, delta, score, window, player, s, d, id);
            o.Spawned? ==> WellFormed(o.entity)
  {
  }

  datatype Step = Kept(e: Enemy) | Flipped(e: Enemy) | Expired(e: Enemy)

  // The legacy steps below repeat `EnemySystems` almost line for line on purpose: they model
  // src/game/enemy.rs, a separate copy of the generator, and are kept apart from the current one.

  /** The legacy Stopped step, the same as the current one: recharge by
      `(recharge_rate * dt).clamp(0, max_energy)` and start moving once full. */
  function StoppedStep(e: Enemy, dt: real): (r: Step)
    requires e.state == Stopped && e.maxEnergy >= 0.0
    ensures !r.Expired?
    ensures r.e.energy - e.energy == Clamp(e.rechargeRate * dt, 0.0, e.maxEnergy)
    ensures e.energy <= r.e.energy <= e.energy + e.maxEnergy
    ensures r.Flipped? <==> r.e.energy >= e.maxEnergy
    ensures r.e.state == Moving <==> r.Flipped?
    ensures r.e == e.(energy := r.e.energy, state := r.e.state)
  {
    var charged := e.(energy := e.energy + Clamp(e.rechargeRate * dt, 0.0, e.maxEnergy));
    if charged.energy >= charged.maxEnergy then Flipped(charged.(state := Moving))
    else Kept(charged)
  }

  /** The legacy Moving step: spend `dt.clamp(0, energy)`, age, stop when the energy is gone,
      and otherwise expire once the lifetime has finished.  The clamp panics in the engine on a
      negative energy. */
  function MovingStep(e: Enemy, dt: real): (r: Step)
    requires e.state == Moving && e.energy >= 0.0 && e.lifetime.Valid() && dt >= 0.0
    ensures 0.0 <= r.e.energy <= e.energy
    ensures r.e.energy == Max(e.energy - dt, 0.0)
    ensures r.e.lifetime == e.lifetime.Tick(dt)
    ensures r.Flipped? <==> r.e.energy <= 0.0
    ensures r.e.state == Stopped <==> r.Flipped?
    ensures r.Expired? <==> r.e.energy > 0.0 && r.e.lifetime.finished
    ensures r.e == e.(energy := r.e.energy, lifetime := r.e.lifetime, state := r.e.state)
  {
    var spent := e.(energy := e.energy - Clamp(dt, 0.0, e.energy), lifetime := e.lifetime.Tick(dt));
    if spent.energy <= 0.0 then Flipped(spent.(state := Stopped))
    else if spent.lifetime.finished then Expired(spent)
    else Kept(spent)
  }

  function StepEntity(x: EnemyEntity, dt: real): (r: Step)
    requires WellFormed(x) && dt >= 0.0
    ensures WellFormed(x.(enemy := r.e))
  {
    if x.enemy.state == Stopped then StoppedStep(x.enemy, dt) else MovingStep(x.enemy, dt)
  }

  /** The index of the first enemy from `i` on that changes state this frame, or `|es|`. */
  function FirstFlip(es: seq<EnemyEntity>, i: nat, dt: real): (k: nat)
    requires AllWellFormed(es) && dt >= 0.0 && i <= |es|
    ensures i <= k <= |es|
    ensures k < |es| ==> StepEntity(es[k], dt).Flipped?
    ensures forall j :: i <= j < k ==> !StepEntity(es[j], dt).Flipped?
    decreases |es| - i
  {
    if i == |es| then i
    else if StepEntity(es[i], dt).Flipped? then i
    else FirstFlip(es, i + 1, dt)
  }

  /** The score an enemy earns this frame: its strength if it expires, nothing otherwise. */
  function Reward(x: EnemyEntity, dt: real): (g: real)
    requires WellFormed(x) && dt >= 0.0
    ensures g >= 0.0
  {
    var step := StepEntity(x, dt);
    if step.Expired? then CalcStrength(x.momentum, step.e) else 0.0
  }

  /** The total reward of the enemies `es[i..k]`. */
  function Gain(es: seq<EnemyEntity>, i: nat, k: nat, dt: real): (g: real)
    requires AllWellFormed(es) && dt >= 0.0 && i <= k <= |es|
    ensures g >= 0.0
    decreases k - i
  {
    if i == k then 0.0 else Reward(es[i], dt) + Gain(es, i + 1, k, dt)
  }

  /** The enemies among `es[i..k]` that neither expire nor change state, after their step. */
  function Survivors(es: seq<EnemyEntity>, i: nat, k: nat, dt: real): (r: seq<EnemyEntity>)
    requires AllWellFormed(es) && dt >= 0.0 && i <= k <= |es|
    ensures |r| <= k - i && AllWellFormed(r)
    decreases k - i
  {
    if i == k then []
    else
      var step := StepEntity(es[i], dt);
      var rest := Survivors(es, i + 1, k, dt);
      if step.Kept? then [es[i].(enemy := step.e)] + rest else rest
  }

  /** The enemies from the first state change on: the one that changed, updated, and every later
      one exactly as it was. */
  function Untouched(es: seq<EnemyEntity>, k: nat, dt: real): (r: seq<EnemyEntity>)
    requires AllWellFormed(es) && dt >= 0.0 && k <= |es|
    ensures AllWellFormed(r)
  {
    if k == |es| then []
    else
      var r := [es[k].(enemy := StepEntity(es[k], dt).e)] + es[k + 1..];
      assert AllWellFormed(r) by {
        forall j | 0 <= j < |r| ensures WellFormed(r[j]) { if j > 0 { assert r[j] == es[k + j]; } }
      }
      r
  }

  datatype LifetimeOutcome = LifetimeOutcome(enemies: seq<EnemyEntity>, score: real)

  /** The legacy `enemy_lifetime` from the `i`-th enemy on, with the enemies kept so far and the
      score so far.  A state change returns from the system; an expired enemy is despawned and
      its strength added to the score; no event is sent. */
  function LifetimeFrom(es: seq<EnemyEntity>, i: nat, kept: seq<EnemyEntity>, score: real, dt: real): (r: LifetimeOutcome)
    requires AllWellFormed(es) && AllWellFormed(kept) && dt >= 0.0 && i <= |es|
    decreases |es| - i
  {
    if i == |es| then LifetimeOutcome(kept, score)
    else
      var x := es[i];
      match StepEntity(x, dt)
      case Flipped(e) => LifetimeOutcome(kept + [x.(enemy := e)] + es[i + 1..], score)
      case Kept(e) => LifetimeFrom(es, i + 1, kept + [x.(enemy := e)], score, dt)
      case Expired(e) => LifetimeFrom(es, i + 1, kept, score + CalcStrength(x.momentum, e), dt)
  }

  /** The frame from the `i`-th enemy on keeps the survivors before the first state change,
      then that enemy updated and the untouched rest, and adds the strengths of the expired. */
  lemma {:induction false} LifetimeFromSummary(es: seq<EnemyEntity>, i: nat, kept: seq<EnemyEntity>, score: real, dt: real)
    requires AllWellFormed(es) && AllWellFormed(kept) && dt >= 0.0 && i <= |es|
    ensures var r := LifetimeFrom(es, i, kept, score, dt);
            var k := FirstFlip(es, i, dt);
            && r.score == score + Gain(es, i, k, dt)
            && r.enemies == kept + Survivors(es, i, k, dt) + Untouched(es, k, dt)
    decreases |es| - i
  {
    var k := FirstFlip(es, i, dt);
    if i == |es| {
      assert kept + Survivors(es, i, k, dt) + Untouched(es, k, dt) == kept;
    } else {
      var x := es[i];
      LifetimeFromStep(es, i, kept, score, dt);
      match StepEntity(x, dt)
      case Flipped(e) =>
        assert k == i && Gain(es, i, k, dt) == 0.0 && Survivors(es, i, k, dt) == [];
        assert Untouched(es, k, dt) == [x.(enemy := e)] + es[i + 1..];
      case Kept(e) =>
        var kept' := kept + [x.(enemy := e)];
        assert k == FirstFlip(es, i + 1, dt);
        assert Gain(es, i, k, dt) == Gain(es, i + 1, k, dt);
        assert Survivors(es, i, k, dt) == [x.(enemy := e)] + Survivors(es, i + 1, k, dt);
        LifetimeFromSummary(es, i + 1, kept', score, dt);
        assert kept' + Survivors(es, i + 1, k, dt) == kept + Survivors(es, i, k, dt);
      case Expired(e) =>
        assert k == FirstFlip(es, i + 1, dt);
        assert Gain(es, i, k, dt) == CalcStrength(x.momentum, e) + Gain(es, i + 1, k, dt);
        assert Survivors(es, i, k, dt) == Survivors(es, i + 1, k, dt);
        LifetimeFromSummary(es, i + 1, kept, score + CalcStrength(x.momentum, e), dt);
    }
  }

  /** After a legacy frame every enemy is still well formed, the score has not dropped, no
      enemy is created, and a frame in which every enemy is Stopped earns nothing. */
  lemma {:induction false} LifetimeFrameKeepsWellFormed(es: seq<EnemyEntity>, score: real, dt: real)
    requires AllWellFormed(es) && dt >= 0.0
    ensures var r := LifetimeFrame(es, score, dt);
            AllWellFormed(r.enemies) && r.score >= score && |r.enemies| <= |es|
  {
    var k := FirstFlip(es, 0, dt);
    LifetimeFromSummary(es, 0, [], score, dt);
    SurvivorsUntouchedLength(es, k, dt);
  }

  lemma SurvivorsUntouchedLength(es: seq<EnemyEntity>, k: nat, dt: real)
    requires AllWellFormed(es) && dt >= 0.0 && k <= |es|
    ensures |Survivors(es, 0, k, dt)| + |Untouched(es, k, dt)| <= |es|
    ensures AllWellFormed(Survivors(es, 0, k, dt) + Untouched(es, k, dt))
  {
    var a := Survivors(es, 0, k, dt);
    var b := Untouched(es, k, dt);
    assert AllWellFormed(a + b) by {
      forall j | 0 <= j < |a + b| ensures WellFormed((a + b)[j]) { if j >= |a| { assert (a + b)[j] == b[j - |a|]; } }
    }
  }

  /** A frame in which every enemy is recharging earns no score. */
  lemma {:induction false} StoppedEarnNothing(es: seq<EnemyEntity>, i: nat, k: nat, dt: real)
    requires AllWellFormed(es) && dt >= 0.0 && i <= k <= |es|
    requires forall j :: i <= j < k ==> es[j].enemy.state == Stopped
    ensures Gain(es, i, k, dt) == 0.0
    decreases k - i
  {
    if i < k {
      StoppedEarnNothing(es, i + 1, k, dt);
    }
  }

  /** The legacy `enemy_lifetime` over all enemies. */
  function LifetimeFrame(es: seq<EnemyEntity>, score: real, dt: real): LifetimeOutcome
    requires AllWellFormed(es) && dt >= 0.0
  {
    LifetimeFrom(es, 0, [], score, dt)
  }

  /** One step of `LifetimeFrom`: a state change ends the frame, an expiry adds the
      strength, any other step keeps the enemy. */
  lemma LifetimeFromStep(es: seq<EnemyEntity>, i: nat, kept: seq<EnemyEntity>, score: real, dt: real)
    requires AllWellFormed(es) && AllWellFormed(kept) && dt >= 0.0 && i < |es|
    ensures var x := es[i];
            var step := StepEntity(x, dt);
            && AllWellFormed(kept + [x.(enemy := step.e)])
            && (step.Flipped? ==>
                  LifetimeFrom(es, i, kept, score, dt) == LifetimeOutcome(kept + [x.(enemy := step.e)] + es[i + 1..], score))
            && (step.Kept? ==>
                  LifetimeFrom(es, i, kept, score, dt) == LifetimeFrom(es, i + 1, kept + [x.(enemy := step.e)], score, dt))
            && (step.Expired? ==>
                  LifetimeFrom(es, i, kept, score, dt) == LifetimeFrom(es, i + 1, kept, score + CalcStrength(x.momentum, step.e), dt))
  {
    var x := es[i];
    var k := kept + [x.(enemy := StepEntity(x, dt).e)];
    forall j | 0 <= j < |k| ensures WellFormed(k[j]) {
      if j < |kept| { assert k[j] == kept[j]; }
    }
  }

  /** The loop of the legacy `enemy_lifetime`: each enemy is stepped; an expired one adds its
      strength to the score and is despawned, any other one is kept stepped; the first one that
      changes state ends the system, the rest untouched. */
  method LifetimeLoop(es: seq<EnemyEntity>, score0: real, dt: real) returns (r: LifetimeOutcome)
    requires AllWellFormed(es) && dt >= 0.0
    ensures r == LifetimeFrame(es, score0, dt)
  {
    var kept: seq<EnemyEntity> := [];
    var score := score0;
    var i := 0;
    while i < |es|
      invariant 0 <= i <= |es| && AllWellFormed(kept)
      invariant LifetimeFrame(es, score0, dt) == LifetimeFrom(es, i, kept, score, dt)
    {
      var x := es[i];
      var step := StepEnemy(x, dt);
      LifetimeFromStep(es, i, kept, score, dt);
      if step.Flipped? {
        return LifetimeOutcome(kept + [x.(enemy := step.e)] + es[i + 1..], score);
      }
      if step.Expired? {
        score := score + CalcStrength(x.momentum, step.e);
      } else {
        kept := kept + [x.(enemy := step.e)];
      }
      i := i + 1;
    }
    r := LifetimeOutcome(kept, score);
  }

  /** The legacy enemies with the score they feed. */
  class LegacyWorld {
    var enemies: seq<EnemyEntity>
    var score: real
    var nextId: Entity

    ghost predicate Valid()
      reads this
    {
      AllWellFormed(enemies)
    }

    constructor ()
      ensures Valid() && enemies == [] && score == 0.0
    {
      enemies := [];
      score := 0.0;
      nextId := 0;
    }

    /** The legacy `spawn_enemy`. */
    method SpawnEnemy(gameTime: real, delta: real, window: Option<(real, real)>, player: Vec3,
                      s: MaxEnemyStrength, d: SpawnDraws) returns (outcome: SpawnOutcome)
      requires Valid() && s.Valid() && d.Valid()
      requires SpawnPlaceable(gameTime, delta, score, window, player, s, d)
      modifies this
      ensures Valid()
      ensures outcome == PlanSpawn(gameTime, delta, old(score), window, player, s, d, old(nextId))
      ensures enemies == old(enemies) + (if outcome.Spawned? then [outcome.entity] else [])
      ensures nextId == (if outcome.Spawned? then old(nextId) + 1 else old(nextId))
      ensures score == old(score)
    {
      if !(FMod(gameTime, 5.0) < delta) {
        return NotDue;
      }
      if window.None? {
        return NoWindow;
      }
      var w := window.value.0;
      var h := window.value.1;
      var bias := Clamp(score / 100.0, 0.5, 2.0);
      var (momentum, enemy) := GetEnemyStats(s, bias, d.stats);
      var radius := Clamp(GetRadius(s, momentum.mass), 2.0, h / 2.0 - 1.0);
      if !(radius < w / 2.0 && radius < h / 2.0) {
        return RadiusTooLarge;
      }
      var p := PickSpawnPoint(w, h, radius, player, d.placement);
      var colour := GetColour(s, momentum, enemy);
      var path := GetShape(s, momentum, enemy);
      var entity := EnemyEntity(nextId, Vec3(p.x, p.y, 0.0), Vec2Zero, momentum, enemy, colour, radius, path);
      SpawnedWellFormed(gameTime, delta, old(score), window, player, s, d, nextId);
      enemies := enemies + [entity];
      nextId := nextId + 1;
      outcome := Spawned(entity);
    }

    /** The legacy `enemy_lifetime`. */
    method EnemyLifetime(dt: real)
      requires Valid() && dt >= 0.0
      modifies this
      ensures Valid()
      ensures var r := LifetimeFrame(old(enemies), old(score), dt);
              enemies == r.enemies && score == r.score
      ensures score >= old(score) && nextId == old(nextId)
    {
      var r := LifetimeLoop(enemies, score, dt);
      LifetimeFrameKeepsWellFormed(enemies, score, dt);
      enemies := r.enemies;
      score := r.score;
    }

    /** The legacy `despawn_all_enemies`, run on leaving the in-game state. */
    method DespawnAllEnemies()
      modifies this
      ensures Valid() && enemies == [] && score == old(score) && nextId == old(nextId)
    {
      var i := 0;
      var despawned: set<Entity> := {};
      while i < |enemies|
        invariant 0 <= i <= |enemies| && enemies == old(enemies) && score == old(score) && nextId == old(nextId)
        invariant forall j :: 0 <= j < i ==> enemies[j].id in despawned
      {
        despawned := despawned + {enemies[i].id};
        i := i + 1;
      }
      enemies := Despawn(enemies, despawned);
    }

    /** The legacy plugin's schedule: `spawn_enemy` in `Update`, then `enemy_lifetime` in
        `PostUpdate`, both only while the in-game state is `Play`. */
    method Update(playing: bool, gameTime: real, dt: real, window: Option<(real, real)>, player: Vec3,
                  s: MaxEnemyStrength, d: SpawnDraws) returns (outcome: Option<SpawnOutcome>)
      requires Valid() && dt >= 0.0 && s.Valid() && d.Valid()
      requires SpawnPlaceable(gameTime, dt, score, window, player, s, d)
      modifies this
      ensures Valid()
      ensures !playing ==> outcome.None? && enemies == old(enemies) && score == old(score) && nextId == old(nextId)
      ensures playing ==>
                && outcome == Some(PlanSpawn(gameTime, dt, old(score), window, player, s, d, old(nextId)))
                && nextId == (if outcome.value.Spawned? then old(nextId) + 1 else old(nextId))
                && var spawned := old(enemies) + (if outcome.value.Spawned? then [outcome.value.entity] else []);
                   AllWellFormed(spawned)
                   && var r := LifetimeFrame(spawned, old(score), dt);
                      enemies == r.enemies && score == r.score
    {
      if !playing {
        return None;
      }
      var o := SpawnEnemy(gameTime, dt, window, player, s, d);
      EnemyLifetime(dt);
      outcome := Some(o);
    }
  }

  /** The enemies whose handles are not despawned, in order. */
  function Despawn(es: seq<EnemyEntity>, gone: set<Entity>): (r: seq<EnemyEntity>)
    ensures forall j :: 0 <= j < |r| ==> r[j] in es && r[j].id !in gone
    ensures (forall j :: 0 <= j < |es| ==> es[j].id in gone) ==> r == []
    decreases |es|
  {
    if es == [] then []
    else if es[0].id in gone then Despawn(es[1..], gone)
    else
      assert forall j :: 1 <= j < |es| ==> es[j] == es[1..][j - 1];
      [es[0]] + Despawn(es[1..], gone)
  }

  /** The body of the legacy `enemy_lifetime` loop for one enemy. */
  method StepEnemy(x: EnemyEntity, dt: real) returns (r: Step)
    requires WellFormed(x) && dt >= 0.0
    ensures r == StepEntity(x, dt)
  {
    match x.enemy.state {
      case Stopped =>
        r := StepStopped(x.enemy, dt);
      case Moving =>
        r := StepMoving(x.enemy, dt);
    }
  }

  /** The Stopped arm of `enemy_movement`, one field update at a time. */
  method StepStopped(e0: Enemy, dt: real) returns (r: Step)
    requires e0.state == Stopped && e0.maxEnergy >= 0.0
    ensures r == StoppedStep(e0, dt)
  {
    var e := e0.(energy := e0.energy + Clamp(e0.rechargeRate * dt, 0.0, e0.maxEnergy));
    if e.energy >= e.maxEnergy {
      e := e.(state := Moving);
      return Flipped(e);
    }
    return Kept(e);
  }

  /** The Moving arm of `enemy_movement`, one field update at a time. */
  method StepMoving(e0: Enemy, dt: real) returns (r: Step)
    requires e0.state == Moving && e0.energy >= 0.0 && e0.lifetime.Valid() && dt >= 0.0
    ensures r == MovingStep(e0, dt)
  {
    var e := e0.(energy := e0.energy - Clamp(dt, 0.0, e0.energy));
    e := e.(lifetime := e.lifetime.Tick(dt));
    if e.energy <= 0.0 {
      e := e.(state := Stopped);
      return Flipped(e);
    }
    if e.lifetime.finished {
      return Expired(e);
    }
    return Kept(e);
  }
}
