/** The `Pig` component and the two per-frame pig systems that src/game/pig.rs and
    src/plugins/pig.rs define identically: the wander state machine of `pig_movement` and the
    lifetime tick of `pig_lifetime`.  The direction a pig picks when it turns is a draw passed
    in (`random_direction` is not modelled). */
module PigMotion {
  import opened Components
  import opened Timers

  /** The distance a moving pig covers per second, as a multiple of its direction. */
  const PigSpeed: real := 50.0

  /** `Pig`: its lifetime, whether it is walking, where it walks, and the timers that end a walk
      and a rest. */
  datatype Pig = Pig(lifetime: Timer, isMoving: bool, direction: Vec3, stopTimer: Timer, moveTimer: Timer) {
    predicate Valid() {
      lifetime.Valid() && stopTimer.Valid() && moveTimer.Valid()
    }
  }

  /** A pig entity: its handle, its translation and its `Pig` component. */
  datatype PigEntity = PigEntity(id: Entity, translation: Vec3, pig: Pig)

  predicate AllValid(ps: seq<PigEntity>) {
    forall k :: 0 <= k < |ps| ==> ps[k].pig.Valid()
  }

  /** A direction with no horizontal part; a moving pig facing it gives up its walk. */
  predicate Still(d: Vec3) {
    d.x == 0.0 && d.y == 0.0
  }

  // ----------------------------------------------------------------- wander

  /** One frame of `pig_movement` for one pig; `draw` is the direction it takes if it turns.
      A walking pig facing nowhere stops and rewinds its stop timer.  Any other walking pig steps
      `direction * 50 * delta` and ticks its stop timer; when that finishes it turns, stops and
      rewinds its move timer.  A resting pig only ticks its move timer; when that finishes it
      turns, walks and rewinds its stop timer.  The lifetime is never touched. */
  function WanderStep(e: PigEntity, delta: real, draw: Vec3): (r: PigEntity)
    requires e.pig.Valid() && delta >= 0.0
    ensures r.id == e.id && r.pig.Valid() && r.pig.lifetime == e.pig.lifetime
    ensures r.translation == (if e.pig.isMoving && !Still(e.pig.direction)
                              then e.translation.Add(e.pig.direction.Scale(PigSpeed * delta))
                              else e.translation)
    ensures e.pig.isMoving && Still(e.pig.direction) ==>
              && !r.pig.isMoving && r.pig.stopTimer == e.pig.stopTimer.Reset()
              && r.pig.moveTimer == e.pig.moveTimer && r.pig.direction == e.pig.direction
    ensures e.pig.isMoving && !Still(e.pig.direction) ==>
              var st := e.pig.stopTimer.Tick(delta);
              && r.pig.stopTimer == st
              && (r.pig.isMoving <==> !st.finished)
              && r.pig.direction == (if st.finished then draw else e.pig.direction)
              && r.pig.moveTimer == (if st.finished then e.pig.moveTimer.Reset() else e.pig.moveTimer)
    ensures !e.pig.isMoving ==>
              var mt := e.pig.moveTimer.Tick(delta);
              && r.pig.moveTimer == mt
              && (r.pig.isMoving <==> mt.finished)
              && r.pig.direction == (if mt.finished then draw else e.pig.direction)
              && r.pig.stopTimer == (if mt.finished then e.pig.stopTimer.Reset() else e.pig.stopTimer)
  {
    var p := e.pig;
    if p.isMoving then
      if Still(p.direction) then
        e.(pig := p.(isMoving := false, stopTimer := p.stopTimer.Reset()))
      else
        var moved := e.translation.Add(p.direction.Scale(PigSpeed * delta));
        var st := p.stopTimer.Tick(delta);
        if st.finished then
          PigEntity(e.id, moved, p.(direction := draw, isMoving := false, stopTimer := st,
                                    moveTimer := p.moveTimer.Reset()))
        else
          PigEntity(e.id, moved, p.(stopTimer := st))
    else
      var mt := p.moveTimer.Tick(delta);
      if mt.finished then
        e.(pig := p.(direction := draw, isMoving := true, moveTimer := mt, stopTimer := p.stopTimer.Reset()))
      else
        e.(pig := p.(moveTimer := mt))
  }

  /** A unit direction: the length `random_direction` normalises to. */
  predicate Unit(d: Vec3) {
    d.x * d.x + d.y * d.y + d.z * d.z == 1.0
  }

  /** A step of `k` along a unit direction has squared length `k * k`. */
  lemma UnitStepLength(a: Vec3, d: Vec3, k: real)
    requires Unit(d)
    ensures DistanceSquared(a.Add(d.Scale(k)), a) == k * k
  {
    var t := a.Add(d.Scale(k));
    assert t.x - a.x == d.x * k && t.y - a.y == d.y * k && t.z - a.z == d.z * k;
    calc {
      DistanceSquared(t, a);
      (d.x * k) * (d.x * k) + (d.y * k) * (d.y * k) + (d.z * k) * (d.z * k);
      (d.x * d.x + d.y * d.y + d.z * d.z) * (k * k);
      k * k;
    }
  }

  /** A walking pig facing a unit direction covers exactly `50 * delta` in the frame. */
  lemma WalkCoversPigSpeed(e: PigEntity, delta: real, draw: Vec3)
    requires e.pig.Valid() && delta >= 0.0
    requires e.pig.isMoving && !Still(e.pig.direction) && Unit(e.pig.direction)
    ensures DistanceSquared(WanderStep(e, delta, draw).translation, e.translation) == (PigSpeed * delta) * (PigSpeed * delta)
  {
    UnitStepLength(e.translation, e.pig.direction, PigSpeed * delta);
  }

  /** The pig after one `pig_movement` per frame, frame `i` using `deltas[i]` and `draws[i]`. */
  function Wander(e: PigEntity, deltas: seq<real>, draws: seq<Vec3>): (r: PigEntity)
    requires e.pig.Valid() && |draws| == |deltas|
    requires forall i :: 0 <= i < |deltas| ==> deltas[i] >= 0.0
    ensures r.pig.Valid() && r.id == e.id && r.pig.lifetime == e.pig.lifetime
    decreases |deltas|
  {
    if deltas == [] then e else Wander(WanderStep(e, deltas[0], draws[0]), deltas[1..], draws[1..])
  }

  /** Pigs stay on the ground: with a flat direction and flat draws their height never changes. */
  lemma {:induction false} WanderKeepsHeight(e: PigEntity, deltas: seq<real>, draws: seq<Vec3>)
    requires e.pig.Valid() && |draws| == |deltas|
    requires forall i :: 0 <= i < |deltas| ==> deltas[i] >= 0.0
    requires e.pig.direction.z == 0.0 && forall i :: 0 <= i < |draws| ==> draws[i].z == 0.0
    ensures Wander(e, deltas, draws).translation.z == e.translation.z
    ensures Wander(e, deltas, draws).pig.direction.z == 0.0
    decreases |deltas|
  {
    if deltas != [] {
      var next := WanderStep(e, deltas[0], draws[0]);
      assert next.translation.z == e.translation.z;
      assert forall i :: 0 <= i < |draws[1..]| ==> draws[1..][i].z == 0.0 by {
        forall i | 0 <= i < |draws[1..]| ensures draws[1..][i].z == 0.0 {
          assert draws[1..][i] == draws[i + 1];
        }
      }
      WanderKeepsHeight(next, deltas[1..], draws[1..]);
    }
  }

  /** A pig that has just ended a walk rests in place on the next frame. */
  lemma RestFollowsWalk(e: PigEntity, delta: real, draw: Vec3, delta2: real, draw2: Vec3)
    requires e.pig.Valid() && delta >= 0.0 && delta2 >= 0.0 && e.pig.isMoving
    requires !WanderStep(e, delta, draw).pig.isMoving
    ensures var r := WanderStep(e, delta, draw);
            WanderStep(r, delta2, draw2).translation == r.translation
  {
  }

  // --------------------------------------------------------------- lifetime

  /** The pig after its lifetime timer ticks. */
  function LifetimeTick(e: PigEntity, delta: real): (r: PigEntity)
    requires e.pig.Valid() && delta >= 0.0
    ensures r.pig.Valid() && r.id == e.id && r.translation == e.translation
    ensures r.pig == e.pig.(lifetime := e.pig.lifetime.Tick(delta))
  {
    e.(pig := e.pig.(lifetime := e.pig.lifetime.Tick(delta)))
  }

  /** The number of pigs whose lifetime finishes on this frame's tick. */
  function Expired(ps: seq<PigEntity>, delta: real): (n: nat)
    requires AllValid(ps) && delta >= 0.0
    ensures n <= |ps|
    decreases |ps|
  {
    if ps == [] then 0
    else
      var k := |ps| - 1;
      Expired(ps[..k], delta) + (if LifetimeTick(ps[k], delta).pig.lifetime.finished then 1 else 0)
  }

  /** The pigs `pig_lifetime` leaves in the world, in order, their lifetimes ticked: exactly
      the ones whose lifetime has not finished; every other pig is one of the `Expired`. */
  function Survivors(ps: seq<PigEntity>, delta: real): (s: seq<PigEntity>)
    requires AllValid(ps) && delta >= 0.0
    ensures AllValid(s)
    ensures |s| + Expired(ps, delta) == |ps|
    ensures forall k :: 0 <= k < |s| ==> !s[k].pig.lifetime.finished
    decreases |ps|
  {
    if ps == [] then []
    else
      var k := |ps| - 1;
      var t := LifetimeTick(ps[k], delta);
      Survivors(ps[..k], delta) + (if t.pig.lifetime.finished then [] else [t])
  }

  /** One more pig: it expires or survives according to its own tick. */
  lemma SurvivorsStep(ps: seq<PigEntity>, i: nat, delta: real)
    requires AllValid(ps) && delta >= 0.0 && i < |ps|
    ensures AllValid(ps[..i]) && AllValid(ps[..i + 1])
    ensures var t := LifetimeTick(ps[i], delta);
            && Survivors(ps[..i + 1], delta) == Survivors(ps[..i], delta) + (if t.pig.lifetime.finished then [] else [t])
            && Expired(ps[..i + 1], delta) == Expired(ps[..i], delta) + (if t.pig.lifetime.finished then 1 else 0)
  {
    assert ps[..i + 1][..i] == ps[..i];
  }

  /** Every pig whose lifetime is still running stays, ticked. */
  lemma {:induction false} RunningPigsSurvive(ps: seq<PigEntity>, delta: real, j: nat)
    requires AllValid(ps) && delta >= 0.0 && j < |ps|
    requires !LifetimeTick(ps[j], delta).pig.lifetime.finished
    ensures LifetimeTick(ps[j], delta) in Survivors(ps, delta)
    decreases |ps|
  {
    var k := |ps| - 1;
    if j < k {
      assert ps[..k][j] == ps[j];
      RunningPigsSurvive(ps[..k], delta, j);
    }
  }

  /** A frame in which no lifetime runs out removes no pig. */
  lemma {:induction false} NoExpiryKeepsAll(ps: seq<PigEntity>, delta: real)
    requires AllValid(ps) && delta >= 0.0
    requires forall k :: 0 <= k < |ps| ==> !LifetimeTick(ps[k], delta).pig.lifetime.finished
    ensures Expired(ps, delta) == 0
    decreases |ps|
  {
    if ps != [] {
      var k := |ps| - 1;
      assert forall i :: 0 <= i < k ==> ps[..k][i] == ps[i];
      NoExpiryKeepsAll(ps[..k], delta);
    }
  }
}
