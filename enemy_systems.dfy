/** The enemy systems: spawning, hits, and the per-frame energy and lifetime state machine
    (src/game/enemy/systems.rs), with the enemy plugin's schedule (src/game/enemy/mod.rs). */
module EnemySystems {
  import opened Numeric
  import opened Timers
  import opened Components
  import opened Events
  import opened Enemies
  import opened EnemyStrength
  import opened EnemyResources

  // ---------------------------------------------------------------- spawning

  /** The spawn gate: an enemy is due only in the frame where the game time passes a multiple
      of five seconds, i.e. when `game_time % 5 < delta`. */
  predicate SpawnDue(gameTime: real, delta: real) {
    FMod(gameTime, 5.0) < delta
  }

  /** Every frame whose game time is a multiple of five seconds is due, for any positive delta. */
  lemma SpawnDueAtMultiplesOfFive(k: nat, delta: real)
    requires delta > 0.0
    ensures SpawnDue(5.0 * k as real, delta)
  {
    var a := 5.0 * k as real;
    assert a / 5.0 == k as real;
    assert Trunc(a / 5.0) == k;
    assert FMod(a, 5.0) == 0.0;
  }

  /** A frame with no elapsed time never spawns while the game time is not negative. */
  lemma NoSpawnWithoutElapsedTime(gameTime: real, delta: real)
    requires gameTime >= 0.0 && delta <= 0.0
    ensures !SpawnDue(gameTime, delta)
  {
  }

  /** `(score / 100).clamp(0.5, 2.0)`: the fraction of the stat ranges a new enemy may reach. */
  function SpawnBias(score: real): (b: real)
    ensures 0.5 <= b <= 2.0
    ensures 50.0 <= score <= 200.0 ==> b == score / 100.0
    ensures score < 50.0 ==> b == 0.5
    ensures score > 200.0 ==> b == 2.0
  {
    Clamp(score / 100.0, 0.5, 2.0)
  }

  /** The bias never decreases as the score grows. */
  lemma SpawnBiasMonotone(s1: real, s2: real)
    requires s1 <= s2
    ensures SpawnBias(s1) <= SpawnBias(s2)
  {
  }

  /** Both unit draws of a spawn-point candidate are in `[0, 1]`. */
  predicate UnitPair(c: (real, real)) {
    0.0 <= c.0 <= 1.0 && 0.0 <= c.1 <= 1.0
  }

  /** A candidate spawn point: uniform in `[-hw + r, hw - r] x [-hh + r, hh - r]`. */
  function CandidatePoint(hw: real, hh: real, r: real, c: (real, real)): (p: Vec2)
    requires r <= hw && r <= hh && UnitPair(c)
    ensures -hw + r <= p.x <= hw - r && -hh + r <= p.y <= hh - r
  {
    Vec2(Lerp(-hw + r, hw - r, c.0), Lerp(-hh + r, hh - r, c.1))
  }

  /** The acceptance test: the point is outside the box of half-extents `0.4 hw` and `0.4 hh`
      around the player. */
  predicate FarFromPlayer(p: Vec2, player: Vec3, hw: real, hh: real) {
    p.x < player.x - 0.4 * hw || p.x > player.x + 0.4 * hw
    || p.y < player.y - 0.4 * hh || p.y > player.y + 0.4 * hh
  }

  /** Some candidate in the draws would be accepted. */
  predicate Placeable(hw: real, hh: real, r: real, player: Vec3, cs: seq<(real, real)>)
    requires r <= hw && r <= hh && forall i :: 0 <= i < |cs| ==> UnitPair(cs[i])
  {
    exists i :: 0 <= i < |cs| && FarFromPlayer(CandidatePoint(hw, hh, r, cs[i]), player, hw, hh)
  }

  /** The index of the first accepted candidate. */
  function FirstAccepted(hw: real, hh: real, r: real, player: Vec3, cs: seq<(real, real)>): (k: nat)
    requires r <= hw && r <= hh && forall i :: 0 <= i < |cs| ==> UnitPair(cs[i])
    requires Placeable(hw, hh, r, player, cs)
    ensures k < |cs| && FarFromPlayer(CandidatePoint(hw, hh, r, cs[k]), player, hw, hh)
    ensures forall j :: 0 <= j < k ==> !FarFromPlayer(CandidatePoint(hw, hh, r, cs[j]), player, hw, hh)
    decreases |cs|
  {
    if FarFromPlayer(CandidatePoint(hw, hh, r, cs[0]), player, hw, hh) then 0
    else
      assert Placeable(hw, hh, r, player, cs[1..]) by {
        var i :| 0 <= i < |cs| && FarFromPlayer(CandidatePoint(hw, hh, r, cs[i]), player, hw, hh);
        assert i > 0 && cs[1..][i - 1] == cs[i];
      }
      1 + FirstAccepted(hw, hh, r, player, cs[1..])
  }

  /** The placement loop of `spawn_enemy`: draw candidates until one is far enough from the
      player.  The draws are the candidates in order; one of them is accepted. */
  method PickSpawnPoint(hw: real, hh: real, r: real, player: Vec3, cs: seq<(real, real)>)
      returns (p: Vec2, k: nat)
    requires r <= hw && r <= hh && forall i :: 0 <= i < |cs| ==> UnitPair(cs[i])
    requires Placeable(hw, hh, r, player, cs)
    ensures k == FirstAccepted(hw, hh, r, player, cs)
    ensures p == CandidatePoint(hw, hh, r, cs[k])
    ensures -hw + r <= p.x <= hw - r && -hh + r <= p.y <= hh - r
    ensures FarFromPlayer(p, player, hw, hh)
  {
    k := 0;
    while true
      invariant k <= FirstAccepted(hw, hh, r, player, cs)
      decreases FirstAccepted(hw, hh, r, player, cs) - k
    {
      var x := Lerp(-hw + r, hw - r, cs[k].0);
      var y := Lerp(-hh + r, hh - r, cs[k].1);
      if x < player.x - 0.4 * hw || x > player.x + 0.4 * hw
         || y < player.y - 0.4 * hh || y > player.y + 0.4 * hh
      {
        p := Vec2(x, y);
        return;
      }
      k := k + 1;
    }
  }

  // ------------------------------------------------------- energy and lifetime

  /** What the spawner guarantees of every enemy and the systems keep: positive stats (so the
      strength is defined and the energy clamps are well formed) and a well-formed once-timer.
      The energy itself is not bounded: recharging can overshoot and hits can drive it below 0. */
  predicate WellFormed(x: EnemyEntity) {
    PositiveStats(x.momentum, x.enemy) && x.enemy.lifetime.Valid() && x.enemy.lifetime.mode == Once
  }

  /** One enemy's step this frame: it carries on, it changes state (which ends the frame), or
      its lifetime is up and it is despawned. */
  datatype Step = Kept(e: Enemy) | Flipped(e: Enemy) | Expired(e: Enemy)

  /** A Stopped enemy recharges by `(recharge_rate * dt).clamp(0, max_energy)` and starts moving
      once it is full. */
  function StoppedStep(e: Enemy, dt: real): (r: Step)
    requires e.state == Stopped && e.maxEnergy >= 0.0
    ensures !r.Expired?
    ensures r.e.energy - e.energy == Clamp(e.rechargeRate * dt, 0.0, e.maxEnergy)
    ensures e.energy <= r.e.energy <= e.energy + e.maxEnergy
    ensures r.Flipped? <==> r.e.energy >= e.maxEnergy
    ensures r.e.state == Moving <==> r.Flipped?
    ensures r.e == e.(energy := r.e.energy, state := r.e.state)
  {
    var charged := e.(energy := e.energy + Clamp(e.rechargeRate * dt, 0.0, e.maxEnergy));
    if charged.energy >= charged.maxEnergy then Flipped(charged.(state := Moving))
    else Kept(charged)
  }

  /** A Moving enemy spends `dt` of energy (clamped into `[0, max_energy]`) and ages; it stops
      when its energy is gone, and otherwise expires once its lifetime has finished. */
  function MovingStep(e: Enemy, dt: real): (r: Step)
    requires e.state == Moving && e.maxEnergy >= 0.0 && e.lifetime.Valid() && dt >= 0.0
    ensures 0.0 <= r.e.energy <= e.maxEnergy
    ensures e.energy >= 0.0 ==> r.e.energy <= e.energy
    ensures r.e.lifetime == e.lifetime.Tick(dt)
    ensures r.Flipped? <==> r.e.energy == 0.0
    ensures r.e.state == Stopped <==> r.Flipped?
    ensures r.Expired? <==> r.e.energy > 0.0 && r.e.lifetime.finished
    ensures r.e == e.(energy := r.e.energy, lifetime := r.e.lifetime, state := r.e.state)
  {
    var spent := e.(energy := Clamp(e.energy - dt, 0.0, e.maxEnergy), lifetime := e.lifetime.Tick(dt));
    if spent.energy <= 0.0 then Flipped(spent.(state := Stopped))
    else if spent.lifetime.finished then Expired(spent)
    else Kept(spent)
  }

  function StepEntity(x: EnemyEntity, dt: real): Step
    requires WellFormed(x) && dt >= 0.0
  {
    if x.enemy.state == Stopped then StoppedStep(x.enemy, dt) else MovingStep(x.enemy, dt)
  }

  predicate AllWellFormed(es: seq<EnemyEntity>) {
    forall i :: 0 <= i < |es| ==> WellFormed(es[i])
  }

  /** No enemy in `es` changes state this frame. */
  predicate NoFlip(es: seq<EnemyEntity>, dt: real)
    requires AllWellFormed(es) && dt >= 0.0
  {
    forall i :: 0 <= i < |es| ==> !StepEntity(es[i], dt).Flipped?
  }

  /** The result of `enemy_lifetime`: the enemies still alive, the score gained, and the
      `ShipDestroyed` events sent. */
  datatype LifetimeOutcome = LifetimeOutcome(enemies: seq<EnemyEntity>, gain: real, destroyed: seq<ShipDestroyed>)

  /** `enemy_lifetime` over the enemies in query order.  The first enemy that changes state is
      updated and the system returns: later enemies are left as they are.  Enemies that expired
      before that are still despawned and still rewarded. */
  function LifetimeFrame(es: seq<EnemyEntity>, dt: real): (r: LifetimeOutcome)
    requires AllWellFormed(es) && dt >= 0.0
    ensures |r.enemies| + |r.destroyed| == |es|
    ensures AllWellFormed(r.enemies)
    ensures r.gain >= 0.0
    decreases |es|
  {
    if es == [] then LifetimeOutcome([], 0.0, [])
    else
      var x := es[0];
      TailWellFormed(es);
      match StepEntity(x, dt)
      case Flipped(e) => LifetimeOutcome([x.(enemy := e)] + es[1..], 0.0, [])
      case Kept(e) =>
        var rest := LifetimeFrame(es[1..], dt);
        LifetimeOutcome([x.(enemy := e)] + rest.enemies, rest.gain, rest.destroyed)
      case Expired(e) =>
        var rest := LifetimeFrame(es[1..], dt);
        LifetimeOutcome(rest.enemies, CalcStrength(x.momentum, e) + rest.gain,
                        [ShipDestroyed(x.translation.x, x.translation.y, e.colour)] + rest.destroyed)
  }

  lemma TailWellFormed(es: seq<EnemyEntity>)
    requires AllWellFormed(es) && es != []
    ensures AllWellFormed(es[1..])
  {
    forall i | 0 <= i < |es[1..]| ensures WellFormed(es[1..][i]) { assert es[1..][i] == es[i + 1]; }
  }

  function Combine(a: LifetimeOutcome, b: LifetimeOutcome): LifetimeOutcome {
    LifetimeOutcome(a.enemies + b.enemies, a.gain + b.gain, a.destroyed + b.destroyed)
  }

  lemma AllWellFormedAppend(a: seq<EnemyEntity>, b: seq<EnemyEntity>)
    requires AllWellFormed(a) && AllWellFormed(b)
    ensures AllWellFormed(a + b)
  {
    forall i | 0 <= i < |a + b| ensures WellFormed((a + b)[i]) {
      if i >= |a| { assert (a + b)[i] == b[i - |a|]; }
    }
  }

  /** The tail of a frame in which nothing changes state has nothing that changes state either. */
  lemma NoFlipTail(es: seq<EnemyEntity>, dt: real)
    requires AllWellFormed(es) && dt >= 0.0 && es != [] && NoFlip(es, dt)
    ensures AllWellFormed(es[1..]) && NoFlip(es[1..], dt)
    ensures !StepEntity(es[0], dt).Flipped?
  {
    TailWellFormed(es);
    forall i | 0 <= i < |es[1..]| ensures !StepEntity(es[1..][i], dt).Flipped? { assert es[1..][i] == es[i + 1]; }
  }

  /** An enemy that neither changes state nor expires stays, stepped, ahead of the rest. */
  lemma KeptEnemyStays(x: EnemyEntity, rest: seq<EnemyEntity>, dt: real)
    requires WellFormed(x) && AllWellFormed(rest) && dt >= 0.0 && StepEntity(x, dt).Kept?
    ensures AllWellFormed([x] + rest)
    ensures var r := LifetimeFrame([x] + rest, dt);
            var t := LifetimeFrame(rest, dt);
            r == LifetimeOutcome([x.(enemy := StepEntity(x, dt).e)] + t.enemies, t.gain, t.destroyed)
  {
    AllWellFormedAppend([x], rest);
    assert ([x] + rest)[0] == x && ([x] + rest)[1..] == rest;
  }

  /** The frame over `[x] + rest` when `x` does not change state: `x`'s own outcome combined
      with the frame over `rest`. */
  lemma UnflippedHead(x: EnemyEntity, rest: seq<EnemyEntity>, dt: real)
    requires WellFormed(x) && AllWellFormed(rest) && dt >= 0.0 && !StepEntity(x, dt).Flipped?
    ensures AllWellFormed([x] + rest) && AllWellFormed([x])
    ensures LifetimeFrame([x] + rest, dt) == Combine(LifetimeFrame([x], dt), LifetimeFrame(rest, dt))
  {
    AllWellFormedAppend([x], rest);
    assert [x] + [] == [x];
    if StepEntity(x, dt).Kept? {
      KeptEnemyStays(x, rest, dt);
      KeptEnemyStays(x, [], dt);
    } else {
      assert x.enemy.state == Moving;
      ExpiredEnemyRewarded(x, rest, dt);
      ExpiredEnemyRewarded(x, [], dt);
    }
  }

  /** Combining outcomes is associative. */
  lemma CombineAssociative(a: LifetimeOutcome, b: LifetimeOutcome, c: LifetimeOutcome)
    ensures Combine(Combine(a, b), c) == Combine(a, Combine(b, c))
  {
    assert (a.enemies + b.enemies) + c.enemies == a.enemies + (b.enemies + c.enemies);
    assert (a.destroyed + b.destroyed) + c.destroyed == a.destroyed + (b.destroyed + c.destroyed);
  }

  /** When no enemy in `a` changes state, the frame over `a + b` is the frame over `a` followed
      by the frame over `b`. */
  lemma {:induction false} LifetimeFrameAppend(a: seq<EnemyEntity>, b: seq<EnemyEntity>, dt: real)
    requires AllWellFormed(a) && AllWellFormed(b) && dt >= 0.0 && NoFlip(a, dt)
    ensures AllWellFormed(a + b)
    ensures LifetimeFrame(a + b, dt) == Combine(LifetimeFrame(a, dt), LifetimeFrame(b, dt))
    decreases |a|
  {
    AllWellFormedAppend(a, b);
    if a == [] {
      assert a + b == b;
      assert LifetimeFrame(a, dt) == LifetimeOutcome([], 0.0, []);
      assert Combine(LifetimeOutcome([], 0.0, []), LifetimeFrame(b, dt)) == LifetimeFrame(b, dt);
    } else {
      var x := a[0];
      var tail := a[1..];
      NoFlipTail(a, dt);
      assert a == [x] + tail;
      assert a + b == [x] + (tail + b);
      LifetimeFrameAppend(tail, b, dt);
      UnflippedHead(x, tail, dt);
      UnflippedHead(x, tail + b, dt);
      CombineAssociative(LifetimeFrame([x], dt), LifetimeFrame(tail, dt), LifetimeFrame(b, dt));
    }
  }

  /** The first enemy that changes state ends the frame: it is updated, every enemy after it is
      left exactly as it was, and everything before it was stepped as usual. */
  lemma LifetimeFlipEndsFrame(es: seq<EnemyEntity>, dt: real, k: nat)
    requires AllWellFormed(es) && dt >= 0.0 && k < |es|
    requires forall i :: 0 <= i < k ==> !StepEntity(es[i], dt).Flipped?
    requires StepEntity(es[k], dt).Flipped?
    ensures AllWellFormed(es[..k])
    ensures var before := LifetimeFrame(es[..k], dt);
            LifetimeFrame(es, dt)
              == LifetimeOutcome(before.enemies + [es[k].(enemy := StepEntity(es[k], dt).e)] + es[k + 1..],
                                 before.gain, before.destroyed)
  {
    var pre := es[..k];
    var post := es[k..];
    assert AllWellFormed(pre) by { forall i | 0 <= i < k ensures WellFormed(pre[i]) { assert pre[i] == es[i]; } }
    assert AllWellFormed(post) by { forall i | 0 <= i < |post| ensures WellFormed(post[i]) { assert post[i] == es[k + i]; } }
    assert NoFlip(pre, dt) by { forall i | 0 <= i < k ensures !StepEntity(pre[i], dt).Flipped? { assert pre[i] == es[i]; } }
    assert es == pre + post;
    LifetimeFrameAppend(pre, post, dt);
    assert post[0] == es[k] && post[1..] == es[k + 1..];
    var before := LifetimeFrame(pre, dt);
    assert before.enemies + ([es[k].(enemy := StepEntity(es[k], dt).e)] + es[k + 1..])
        == before.enemies + [es[k].(enemy := StepEntity(es[k], dt).e)] + es[k + 1..];
    assert before.destroyed + [] == before.destroyed;
  }

  /** A moving enemy that still has energy when its lifetime finishes is despawned, adds its
      strength to the score, and sends one `ShipDestroyed` with its position and colour. */
  lemma ExpiredEnemyRewarded(x: EnemyEntity, rest: seq<EnemyEntity>, dt: real)
    requires WellFormed(x) && AllWellFormed(rest) && dt >= 0.0
    requires x.enemy.state == Moving && StepEntity(x, dt).Expired?
    ensures AllWellFormed([x] + rest)
    ensures var e := StepEntity(x, dt).e;
            var r := LifetimeFrame([x] + rest, dt);
            && r.gain == CalcStrength(x.momentum, e) + LifetimeFrame(rest, dt).gain
            && r.destroyed == [ShipDestroyed(x.translation.x, x.translation.y, x.enemy.colour)] + LifetimeFrame(rest, dt).destroyed
            && r.enemies == LifetimeFrame(rest, dt).enemies
  {
    AllWellFormedAppend([x], rest);
    assert ([x] + rest)[0] == x && ([x] + rest)[1..] == rest;
  }

  // -------------------------------------------------------------------- hits

  /** The penalty of one hit: a fifth of the maximum energy, with no lower bound. */
  function HitEnemy(x: EnemyEntity): EnemyEntity {
    x.(enemy := x.enemy.(energy := x.enemy.energy - x.enemy.maxEnergy * 0.2))
  }

  /** One `ShipHit` event applied to every enemy: the enemies whose handle matches are hit. */
  function HitOne(es: seq<EnemyEntity>, id: Entity): (r: seq<EnemyEntity>)
    ensures |r| == |es|
    ensures forall j :: 0 <= j < |es| ==> r[j] == (if es[j].id == id then HitEnemy(es[j]) else es[j])
  {
    seq(|es|, j requires 0 <= j < |es| => if es[j].id == id then HitEnemy(es[j]) else es[j])
  }

  /** `enemy_hit`: the events in order, each applied to every enemy. */
  function HitFrame(es: seq<EnemyEntity>, hits: seq<ShipHit>): (r: seq<EnemyEntity>)
    ensures |r| == |es|
    ensures AllWellFormed(es) ==> AllWellFormed(r)
    decreases |hits|
  {
    if hits == [] then es else HitOne(HitFrame(es, hits[..|hits| - 1]), hits[|hits| - 1].id)
  }

  /** How many of the events hit `id`. */
  function HitCount(hits: seq<ShipHit>, id: Entity): nat
    decreases |hits|
  {
    if hits == [] then 0
    else HitCount(hits[..|hits| - 1], id) + (if hits[|hits| - 1].id == id then 1 else 0)
  }

  /** An enemy after `n` hits: its energy lowered by `n` fifths of its maximum energy. */
  function Drained(x: EnemyEntity, n: nat): EnemyEntity {
    x.(enemy := x.enemy.(energy := x.enemy.energy - n as real * (x.enemy.maxEnergy * 0.2)))
  }

  /** No hits leave an enemy as it was, and each further hit is one more `HitEnemy`. */
  lemma DrainedStepwise(x: EnemyEntity, c: nat)
    ensures Drained(x, 0) == x
    ensures Drained(x, c + 1) == HitEnemy(Drained(x, c))
  {
    var m := x.enemy.maxEnergy * 0.2;
    assert x.enemy.energy - (c + 1) as real * m == (x.enemy.energy - c as real * m) - m;
    assert x.enemy.(energy := x.enemy.energy) == x.enemy;
  }

  /** n hits on an enemy lower its energy by n fifths of its maximum energy; nothing else about
      any enemy changes, and enemies that are not hit are untouched. */
  lemma {:induction false} HitFrameCounts(es: seq<EnemyEntity>, hits: seq<ShipHit>, j: nat)
    requires j < |es|
    ensures HitFrame(es, hits)[j] == Drained(es[j], HitCount(hits, es[j].id))
    ensures HitCount(hits, es[j].id) == 0 ==> HitFrame(es, hits)[j] == es[j]
    decreases |hits|
  {
    var front := if hits == [] then [] else hits[..|hits| - 1];
    DrainedStepwise(es[j], HitCount(front, es[j].id));
    if hits != [] {
      HitFrameCounts(es, front, j);
    }
  }

  // ----------------------------------------------------------------- spawning

  /** The unit draws one spawn consumes: the stats, the collider radius, the placement
      candidates in order, and the second radius draw made inside `get_shape`. */
  datatype SpawnDraws = SpawnDraws(stats: StatDraws, radius: real, placement: seq<(real, real)>, shapeRadius: real)
  {
    predicate Valid() {
      stats.Valid() && 0.0 <= radius <= 1.0 && 0.0 <= shapeRadius <= 1.0
      && forall i :: 0 <= i < |placement| ==> UnitPair(placement[i])
    }
  }

  /** What `spawn_enemy` does in one frame.  `RadiusTooLarge` is the frame where its assert on the
      radius panics. */
  datatype SpawnOutcome = NotDue | NoWindow | RadiusTooLarge | Spawned(entity: EnemyEntity)

  /** The stats and the collider radius a spawn at this score would draw. */
  function SpawnStats(score: real, s: EnemyStrengthRange, d: SpawnDraws): (r: (Momentum, Enemy, real))
    requires s.Valid() && d.Valid()
    ensures r.0.mass > 0.0 && s.radius.0 <= r.2 <= s.radius.1
  {
    var (momentum, enemy) := GetEnemyStats(s, SpawnBias(score), d.stats);
    (momentum, enemy, GetRadius(s, momentum.mass, d.radius))
  }

  /** The placement loop terminates on these draws whenever the frame reaches it. */
  predicate SpawnPlaceable(gameTime: real, delta: real, score: real, window: Option<(real, real)>,
                           player: Vec3, s: EnemyStrengthRange, d: SpawnDraws)
    requires s.Valid() && d.Valid()
  {
    var r := SpawnStats(score, s, d).2;
    (SpawnDue(gameTime, delta) && window.Some? && r < window.value.0 / 2.0 && r < window.value.1 / 2.0)
    ==> Placeable(window.value.0 / 2.0, window.value.1 / 2.0, r, player, d.placement)
  }

  /** The enemy a due frame spawns in a window of half-extents `hw` x `hh` large enough for its
      radius: placed at the first accepted candidate, coloured by its tier and drawn as a star or
      a bird. */
  function SpawnedEnemy(hw: real, hh: real, score: real, player: Vec3, s: EnemyStrengthRange,
                        d: SpawnDraws, id: Entity): (x: EnemyEntity)
    requires s.Valid() && PowerSpan(s) != 0.0 && d.Valid()
    requires SpawnStats(score, s, d).2 < hw && SpawnStats(score, s, d).2 < hh
    requires Placeable(hw, hh, SpawnStats(score, s, d).2, player, d.placement)
    ensures x.id == id && WellFormed(x)
    ensures s.radius.0 <= x.radius <= s.radius.1 && x.radius < hw && x.radius < hh
    ensures -hw + x.radius <= x.translation.x <= hw - x.radius
    ensures -hh + x.radius <= x.translation.y <= hh - x.radius
    ensures x.translation.z == 0.0
    ensures FarFromPlayer(x.translation.Truncate(), player, hw, hh)
    ensures x.velocity == Vec2(0.1, 0.1)
    ensures x.enemy.state == Stopped && x.enemy.health == 4
    ensures 0.0 <= x.enemy.energy <= x.enemy.maxEnergy
    ensures x.fill == x.enemy.colour == Palette[Tier(RelativeDifficulty(s, x.momentum, x.enemy))]
    ensures x.path.PolarPolygon? <==> Tier(RelativeDifficulty(s, x.momentum, x.enemy)) <= 4
  {
    var (momentum, enemy, radius) := SpawnStats(score, s, d);
    var k := FirstAccepted(hw, hh, radius, player, d.placement);
    var p := CandidatePoint(hw, hh, radius, d.placement[k]);
    var colour := GetColour(s, momentum, enemy);
    var coloured := enemy.(colour := colour);
    var rel := RelativeDifficulty(s, momentum, coloured);
    var path := ShapeFor(rel, GetRadius(s, momentum.mass, d.shapeRadius));
    StarIffLowTier(rel, GetRadius(s, momentum.mass, d.shapeRadius));
    EnemyEntity(id, p.Extend(0.0), Vec2(0.1, 0.1), momentum, coloured, colour, radius, path)
  }

  /** `spawn_enemy` as a function of the game time, frame time, score, window resolution,
      player position, ranges and draws; `id` is the handle the new entity gets. */
  function PlanSpawn(gameTime: real, delta: real, score: real, window: Option<(real, real)>, player: Vec3,
                     s: EnemyStrengthRange, d: SpawnDraws, id: Entity): (o: SpawnOutcome)
    requires s.Valid() && PowerSpan(s) != 0.0 && d.Valid()
    requires SpawnPlaceable(gameTime, delta, score, window, player, s, d)
    ensures o.NotDue? <==> !SpawnDue(gameTime, delta)
    ensures o.NoWindow? <==> SpawnDue(gameTime, delta) && window.None?
    ensures o.RadiusTooLarge? ==> var r := SpawnStats(score, s, d).2;
              window.Some? && (r >= window.value.0 / 2.0 || r >= window.value.1 / 2.0)
    ensures o.Spawned? ==>
              && window.Some? && SpawnDue(gameTime, delta)
              && SpawnStats(score, s, d).2 < window.value.0 / 2.0 && SpawnStats(score, s, d).2 < window.value.1 / 2.0
              && o.entity == SpawnedEnemy(window.value.0 / 2.0, window.value.1 / 2.0, score, player, s, d, id)
  {
    if !SpawnDue(gameTime, delta) then NotDue
    else if window.None? then NoWindow
    else
      var hw := window.value.0 / 2.0;
      var hh := window.value.1 / 2.0;
      var radius := SpawnStats(score, s, d).2;
      if !(radius < hw && radius < hh) then RadiusTooLarge
      else Spawned(SpawnedEnemy(hw, hh, score, player, s, d, id))
  }

  /** With a window more than twice the largest radius in each direction the radius assert
      never fires. */
  lemma WideWindowNeverPanics(gameTime: real, delta: real, score: real, w: real, h: real, player: Vec3,
                              s: EnemyStrengthRange, d: SpawnDraws, id: Entity)
    requires s.Valid() && PowerSpan(s) != 0.0 && d.Valid()
    requires SpawnPlaceable(gameTime, delta, score, Some((w, h)), player, s, d)
    requires s.radius.1 < w / 2.0 && s.radius.1 < h / 2.0
    ensures !PlanSpawn(gameTime, delta, score, Some((w, h)), player, s, d, id).RadiusTooLarge?
  {
  }

  /** The enemies after a spawn outcome. */
  function AfterSpawn(es: seq<EnemyEntity>, o: SpawnOutcome): (r: seq<EnemyEntity>)
    ensures AllWellFormed(es) && (o.Spawned? ==> WellFormed(o.entity)) ==> AllWellFormed(r)
  {
    if o.Spawned? then
      assert AllWellFormed(es) && WellFormed(o.entity) ==> AllWellFormed(es + [o.entity]) by {
        if AllWellFormed(es) && WellFormed(o.entity) { AllWellFormedAppend(es, [o.entity]); }
      }
      es + [o.entity]
    else es
  }

  // ------------------------------------------------------------- despawning

  /** The entities whose despawn commands were issued are gone once the commands apply. */
  function Despawn(es: seq<EnemyEntity>, gone: set<Entity>): (r: seq<EnemyEntity>)
    ensures forall i :: 0 <= i < |r| ==> r[i] in es && r[i].id !in gone
    decreases |es|
  {
    if es == [] then []
    else (if es[0].id in gone then [] else [es[0]]) + Despawn(es[1..], gone)
  }

  function Ids(es: seq<EnemyEntity>): set<Entity> {
    set i | 0 <= i < |es| :: es[i].id
  }

  lemma IdsSnoc(es: seq<EnemyEntity>, x: EnemyEntity)
    ensures Ids(es + [x]) == Ids(es) + {x.id}
  {
    var l := es + [x];
    assert l[|es|] == x;
    forall id | id in Ids(l) ensures id in Ids(es) + {x.id} {
      var i :| 0 <= i < |l| && l[i].id == id;
      if i < |es| { assert l[i] == es[i]; }
    }
    forall id | id in Ids(es) ensures id in Ids(l) {
      var i :| 0 <= i < |es| && es[i].id == id;
      assert l[i] == es[i];
    }
  }

  /** Despawning every handle of a collection empties it. */
  lemma DespawnEverything(es: seq<EnemyEntity>)
    ensures Despawn(es, Ids(es)) == []
  {
    DespawnCovered(es, Ids(es));
  }

  lemma {:induction false} DespawnCovered(es: seq<EnemyEntity>, gone: set<Entity>)
    requires forall i :: 0 <= i < |es| ==> es[i].id in gone
    ensures Despawn(es, gone) == []
    decreases |es|
  {
    if es != [] {
      assert es[0].id in gone;
      DespawnCovered(es[1..], gone);
    }
  }

  // ------------------------------------------------------------------- world

  /** The decisions of `spawn_enemy` in the order the system makes them: the five second
      gate, the window, the stats, the radius check, the placement, the colour and the shape;
      `id` is the handle the new enemy gets. */
  method SpawnSteps(gameTime: real, delta: real, score: real, window: Option<(real, real)>, player: Vec3,
                    s: EnemyStrengthRange, d: SpawnDraws, id: Entity) returns (outcome: SpawnOutcome)
    requires s.Valid() && PowerSpan(s) != 0.0 && d.Valid()
    requires SpawnPlaceable(gameTime, delta, score, window, player, s, d)
    ensures outcome == PlanSpawn(gameTime, delta, score, window, player, s, d, id)
  {
    if !(FMod(gameTime, 5.0) < delta) {
      return NotDue;
    }
    if window.None? {
      return NoWindow;
    }
    var hw := window.value.0 / 2.0;
    var hh := window.value.1 / 2.0;
    var bias := Clamp(score / 100.0, 0.5, 2.0);
    var (momentum, enemy) := GetEnemyStats(s, bias, d.stats);
    var radius := GetRadius(s, momentum.mass, d.radius);
    assert (momentum, enemy, radius) == SpawnStats(score, s, d);
    if !(radius < hw && radius < hh) {
      return RadiusTooLarge;
    }
    var entity := PlaceEnemy(hw, hh, score, player, s, d, id, momentum, enemy, radius);
    outcome := Spawned(entity);
  }

  /** The rest of `spawn_enemy` once the radius fits: the spawn point, the colour, the shape and
      the new entity. */
  method PlaceEnemy(hw: real, hh: real, score: real, player: Vec3, s: EnemyStrengthRange, d: SpawnDraws,
                    id: Entity, momentum: Momentum, enemy0: Enemy, radius: real) returns (entity: EnemyEntity)
    requires s.Valid() && PowerSpan(s) != 0.0 && d.Valid()
    requires (momentum, enemy0, radius) == SpawnStats(score, s, d)
    requires radius < hw && radius < hh && Placeable(hw, hh, radius, player, d.placement)
    ensures entity == SpawnedEnemy(hw, hh, score, player, s, d, id)
  {
    var p, _ := PickSpawnPoint(hw, hh, radius, player, d.placement);
    var colour := GetColour(s, momentum, enemy0);
    var enemy := enemy0.(colour := colour);
    var path := GetShape(s, momentum, enemy, d.shapeRadius);
    entity := EnemyEntity(id, Vec3(p.x, p.y, 0.0), Vec2(0.1, 0.1), momentum, enemy, colour, radius, path);
  }

  /** The loop of `enemy_lifetime` over the enemies in query order: each one is stepped; an
      expired one adds its strength and a `ShipDestroyed` event and is despawned, any other one is
      kept stepped; the first one that changes state ends the system, the rest untouched. */
  method LifetimeLoop(es: seq<EnemyEntity>, dt: real) returns (r: LifetimeOutcome)
    requires AllWellFormed(es) && dt >= 0.0
    ensures r == LifetimeFrame(es, dt)
  {
    var kept: seq<EnemyEntity> := [];
    var gain := 0.0;
    var destroyed: seq<ShipDestroyed> := [];
    var i := 0;
    while i < |es|
      invariant 0 <= i <= |es| && AllWellFormed(es[..i]) && NoFlip(es[..i], dt)
      invariant LifetimeOutcome(kept, gain, destroyed) == LifetimeFrame(es[..i], dt)
    {
      var x := es[i];
      var step := StepEnemy(x, dt);
      if step.Flipped? {
        FrameStopsAt(es, i, dt);
        return LifetimeOutcome(kept + [x.(enemy := step.e)] + es[i + 1..], gain, destroyed);
      }
      FrameStepsOn(es, i, dt);
      if step.Expired? {
        gain := gain + CalcStrength(x.momentum, step.e);
        destroyed := destroyed + [ShipDestroyed(x.translation.x, x.translation.y, step.e.colour)];
      } else {
        kept := kept + [x.(enemy := step.e)];
      }
      i := i + 1;
    }
    assert es[..i] == es;
    r := LifetimeOutcome(kept, gain, destroyed);
  }

  /** The enemies in the world with the resources their systems write: the score and the
      `ShipDestroyed` events sent this frame. */
  class EnemyWorld {
    var enemies: seq<EnemyEntity>
    var score: real
    var shipDestroyed: seq<ShipDestroyed>
    var nextId: Entity

    ghost predicate Valid()
      reads this
    {
      AllWellFormed(enemies)
    }

    constructor ()
      ensures Valid() && enemies == [] && score == 0.0 && shipDestroyed == []
    {
      enemies := [];
      score := 0.0;
      shipDestroyed := [];
      nextId := 0;
    }

    /** `spawn_enemy`. */
    method SpawnEnemy(gameTime: real, delta: real, window: Option<(real, real)>, player: Vec3,
                      s: EnemyStrengthRange, d: SpawnDraws) returns (outcome: SpawnOutcome)
      requires Valid() && s.Valid() && PowerSpan(s) != 0.0 && d.Valid()
      requires SpawnPlaceable(gameTime, delta, score, window, player, s, d)
      modifies this
      ensures Valid()
      ensures outcome == PlanSpawn(gameTime, delta, old(score), window, player, s, d, old(nextId))
      ensures enemies == AfterSpawn(old(enemies), outcome)
      ensures nextId == (if outcome.Spawned? then old(nextId) + 1 else old(nextId))
      ensures score == old(score) && shipDestroyed == old(shipDestroyed)
    {
      outcome := SpawnSteps(gameTime, delta, score, window, player, s, d, nextId);
      if outcome.Spawned? {
        enemies := enemies + [outcome.entity];
        nextId := nextId + 1;
      }
    }

    /** `enemy_hit`: for every event, every enemy with that handle loses a fifth of its maximum
        energy. */
    method EnemyHit(hits: seq<ShipHit>)
      requires Valid()
      modifies this
      ensures Valid()
      ensures enemies == HitFrame(old(enemies), hits)
      ensures score == old(score) && shipDestroyed == old(shipDestroyed) && nextId == old(nextId)
    {
      var i := 0;
      while i < |hits|
        invariant 0 <= i <= |hits|
        invariant enemies == HitFrame(old(enemies), hits[..i])
        invariant score == old(score) && shipDestroyed == old(shipDestroyed) && nextId == old(nextId)
      {
        var before := enemies;
        var j := 0;
        while j < |enemies|
          invariant 0 <= j <= |enemies| == |before|
          invariant forall k :: 0 <= k < j ==> enemies[k] == HitOne(before, hits[i].id)[k]
          invariant forall k :: j <= k < |enemies| ==> enemies[k] == before[k]
          invariant score == old(score) && shipDestroyed == old(shipDestroyed) && nextId == old(nextId)
        {
          if hits[i].id == enemies[j].id {
            var x := enemies[j];
            enemies := enemies[j := x.(enemy := x.enemy.(energy := x.enemy.energy - x.enemy.maxEnergy * 0.2))];
          }
          j := j + 1;
        }
        assert enemies == HitOne(before, hits[i].id);
        assert hits[..i + 1][..i] == hits[..i];
        i := i + 1;
      }
      assert hits[..|hits|] == hits;
    }

    /** `enemy_lifetime`. */
    method EnemyLifetime(dt: real)
      requires Valid() && dt >= 0.0
      modifies this
      ensures Valid()
      ensures var r := LifetimeFrame(old(enemies), dt);
              enemies == r.enemies && score == old(score) + r.gain
              && shipDestroyed == old(shipDestroyed) + r.destroyed
      ensures score >= old(score) && nextId == old(nextId)
    {
      var r := LifetimeLoop(enemies, dt);
      enemies := r.enemies;
      score := score + r.gain;
      shipDestroyed := shipDestroyed + r.destroyed;
    }

    /** `despawn_all_enemies`: a despawn command for every enemy, applied when the system ends. */
    method DespawnAllEnemies()
      modifies this
      ensures Valid() && enemies == []
      ensures score == old(score) && shipDestroyed == old(shipDestroyed) && nextId == old(nextId)
    {
      var despawned: set<Entity> := {};
      var i := 0;
      while i < |enemies|
        invariant 0 <= i <= |enemies|
        invariant despawned == Ids(enemies[..i])
        invariant enemies == old(enemies) && score == old(score) && shipDestroyed == old(shipDestroyed)
        invariant nextId == old(nextId)
      {
        IdsSnoc(enemies[..i], enemies[i]);
        assert enemies[..i + 1] == enemies[..i] + [enemies[i]];
        despawned := despawned + {enemies[i].id};
        i := i + 1;
      }
      assert enemies[..i] == enemies;
      DespawnEverything(enemies);
      enemies := Despawn(enemies, despawned);
    }

    /** The enemy plugin's `Update` schedule: `spawn_enemy`, then `enemy_hit`, then
        `enemy_lifetime`, and only while the in-game state is Playing. */
    method Update(playing: bool, gameTime: real, dt: real, window: Option<(real, real)>, player: Vec3,
                  s: EnemyStrengthRange, d: SpawnDraws, hits: seq<ShipHit>) returns (outcome: Option<SpawnOutcome>)
      requires Valid() && dt >= 0.0 && s.Valid() && PowerSpan(s) != 0.0 && d.Valid()
      requires SpawnPlaceable(gameTime, dt, score, window, player, s, d)
      modifies this
      ensures Valid()
      ensures !playing ==> outcome.None? && enemies == old(enemies) && score == old(score)
                           && shipDestroyed == old(shipDestroyed) && nextId == old(nextId)
      ensures playing ==>
                && outcome == Some(PlanSpawn(gameTime, dt, old(score), window, player, s, d, old(nextId)))
                && nextId == (if outcome.value.Spawned? then old(nextId) + 1 else old(nextId))
                && var r := LifetimeFrame(HitFrame(AfterSpawn(old(enemies), outcome.value), hits), dt);
                   enemies == r.enemies && score == old(score) + r.gain
                   && shipDestroyed == old(shipDestroyed) + r.destroyed
    {
      if !playing {
        return None;
      }
      var o := SpawnEnemy(gameTime, dt, window, player, s, d);
      EnemyHit(hits);
      EnemyLifetime(dt);
      outcome := Some(o);
    }
  }

  /** The body of the `enemy_lifetime` loop for one enemy: the energy and state updates in the
      order the system makes them, and whether it changed state or expired. */
  method StepEnemy(x: EnemyEntity, dt: real) returns (r: Step)
    requires WellFormed(x) && dt >= 0.0
    ensures r == StepEntity(x, dt)
  {
    match x.enemy.state {
      case Stopped =>
        r := StepStopped(x.enemy, dt);
      case Moving =>
        r := StepMoving(x.enemy, dt);
    }
  }

  /** The Stopped arm of the loop body, one field update at a time. */
  method StepStopped(e0: Enemy, dt: real) returns (r: Step)
    requires e0.state == Stopped && e0.maxEnergy >= 0.0
    ensures r == StoppedStep(e0, dt)
  {
    var e := e0.(energy := e0.energy + Clamp(e0.rechargeRate * dt, 0.0, e0.maxEnergy));
    if e.energy >= e.maxEnergy {
      e := e.(state := Moving);
      return Flipped(e);
    }
    return Kept(e);
  }

  /** The Moving arm of the loop body, one field update at a time. */
  method StepMoving(e0: Enemy, dt: real) returns (r: Step)
    requires e0.state == Moving && e0.maxEnergy >= 0.0 && e0.lifetime.Valid() && dt >= 0.0
    ensures r == MovingStep(e0, dt)
  {
    var e := e0.(energy := Clamp(e0.energy - dt, 0.0, e0.maxEnergy));
    e := e.(lifetime := e.lifetime.Tick(dt));
    if e.energy <= 0.0 {
      e := e.(state := Stopped);
      return Flipped(e);
    }
    if e.lifetime.finished {
      return Expired(e);
    }
    return Kept(e);
  }

  /** One more enemy stepped without a state change extends the frame by that enemy's step. */
  lemma PrefixNext(es: seq<EnemyEntity>, i: nat, dt: real)
    requires AllWellFormed(es) && dt >= 0.0 && i < |es|
    ensures AllWellFormed(es[..i]) && AllWellFormed(es[..i + 1]) && AllWellFormed([es[i]])
    ensures NoFlip(es[..i], dt) && !StepEntity(es[i], dt).Flipped? ==>
              NoFlip(es[..i + 1], dt)
              && LifetimeFrame(es[..i + 1], dt) == Combine(LifetimeFrame(es[..i], dt), LifetimeFrame([es[i]], dt))
  {
    var pre := es[..i];
    var pre1 := es[..i + 1];
    assert AllWellFormed(pre) by { forall k | 0 <= k < |pre| ensures WellFormed(pre[k]) { assert pre[k] == es[k]; } }
    assert AllWellFormed(pre1) by { forall k | 0 <= k < |pre1| ensures WellFormed(pre1[k]) { assert pre1[k] == es[k]; } }
    if NoFlip(es[..i], dt) && !StepEntity(es[i], dt).Flipped? {
      assert es[..i + 1] == es[..i] + [es[i]];
      LifetimeFrameAppend(es[..i], [es[i]], dt);
    }
  }
  /** The frame over one enemy that does not change state. */
  lemma SingleFrame(x: EnemyEntity, dt: real)
    requires WellFormed(x) && dt >= 0.0 && !StepEntity(x, dt).Flipped?
    ensures AllWellFormed([x])
    ensures var step := StepEntity(x, dt);
            LifetimeFrame([x], dt)
              == if step.Expired?
                 then LifetimeOutcome([], CalcStrength(x.momentum, step.e), [ShipDestroyed(x.translation.x, x.translation.y, step.e.colour)])
                 else LifetimeOutcome([x.(enemy := step.e)], 0.0, [])
  {
    assert [x][0] == x && [x][1..] == [];
  }

  /** One more enemy stepped without a state change: the frame over the longer prefix keeps,
      rewards or reports that enemy after the ones before it. */
  lemma FrameStepsOn(es: seq<EnemyEntity>, i: nat, dt: real)
    requires AllWellFormed(es) && dt >= 0.0 && i < |es|
    requires AllWellFormed(es[..i]) && NoFlip(es[..i], dt) && !StepEntity(es[i], dt).Flipped?
    ensures AllWellFormed(es[..i + 1]) && NoFlip(es[..i + 1], dt)
    ensures var before := LifetimeFrame(es[..i], dt);
            var x := es[i];
            var step := StepEntity(x, dt);
            LifetimeFrame(es[..i + 1], dt)
              == if step.Expired?
                 then LifetimeOutcome(before.enemies, before.gain + CalcStrength(x.momentum, step.e),
                                      before.destroyed + [ShipDestroyed(x.translation.x, x.translation.y, step.e.colour)])
                 else LifetimeOutcome(before.enemies + [x.(enemy := step.e)], before.gain, before.destroyed)
  {
    PrefixNext(es, i, dt);
    SingleFrame(es[i], dt);
  }

  /** The first enemy that changes state ends the frame: the frame over all enemies is the frame
      over the ones before it, that enemy stepped, and the rest untouched. */
  lemma FrameStopsAt(es: seq<EnemyEntity>, i: nat, dt: real)
    requires AllWellFormed(es) && dt >= 0.0 && i < |es|
    requires AllWellFormed(es[..i]) && NoFlip(es[..i], dt) && StepEntity(es[i], dt).Flipped?
    ensures var before := LifetimeFrame(es[..i], dt);
            LifetimeFrame(es, dt)
              == LifetimeOutcome(before.enemies + [es[i].(enemy := StepEntity(es[i], dt).e)] + es[i + 1..],
                                 before.gain, before.destroyed)
  {
    forall j | 0 <= j < i ensures !StepEntity(es[j], dt).Flipped? {
      assert es[..i][j] == es[j];
    }
    LifetimeFlipEndsFrame(es, dt, i);
  }

}
