/** The pigs of src/game/pig.rs: every five seconds of game time a pig appears at a random spot
    of the 1280 x 720 world away from the player, wanders, and scores 15 when its 30 second
    lifetime runs out. */
module GamePigs {
  import opened Numeric
  import opened Components
  import opened Timers
  import opened PigMotion
  import EnemySystems
  import WindowGuard

  /** The score a pig earns when its lifetime runs out. */
  const PigScore: real := 15.0

  /** A pig as `spawn_pig` creates it: a 30 second once lifetime, a 1 second repeating move timer,
      a 0.5 second once stop timer, resting, facing `direction`. */
  function NewPig(direction: Vec3): (p: Pig)
    ensures p.Valid() && !p.isMoving && p.direction == direction
    ensures p.lifetime == FromSeconds(30.0, Once)
    ensures p.moveTimer == FromSeconds(1.0, Repeating)
    ensures p.stopTimer == FromSeconds(0.5, Once)
  {
    Pig(FromSeconds(30.0, Once), false, direction, FromSeconds(0.5, Once), FromSeconds(1.0, Repeating))
  }

  /** The candidate spawn point for the unit draws `c`: anywhere in the world rectangle. */
  function CandidatePoint(c: (real, real)): (p: Vec2)
    requires EnemySystems.UnitPair(c)
    ensures 0.0 <= p.x <= WindowGuard.WindowUsableWorldWidth && 0.0 <= p.y <= WindowGuard.WindowWorldHeight
  {
    Vec2(Lerp(0.0, WindowGuard.WindowUsableWorldWidth, c.0), Lerp(0.0, WindowGuard.WindowWorldHeight, c.1))
  }

  /** The acceptance test: outside the box of half-extents `0.2 * 1280` and `0.2 * 720` around the
      player. */
  predicate FarFromPlayer(p: Vec2, player: Vec3) {
    || p.x < player.x - 0.2 * WindowGuard.WindowUsableWorldWidth
    || p.x > player.x + 0.2 * WindowGuard.WindowUsableWorldWidth
    || p.y < player.y - 0.2 * WindowGuard.WindowWorldHeight
    || p.y > player.y + 0.2 * WindowGuard.WindowWorldHeight
  }

  predicate UnitDraws(cs: seq<(real, real)>) {
    forall i :: 0 <= i < |cs| ==> EnemySystems.UnitPair(cs[i])
  }

  /** Some candidate is accepted, so the placement loop ends. */
  predicate Placeable(player: Vec3, cs: seq<(real, real)>)
    requires UnitDraws(cs)
  {
    exists i :: 0 <= i < |cs| && FarFromPlayer(CandidatePoint(cs[i]), player)
  }

  /** The index of the first accepted candidate. */
  function FirstAccepted(player: Vec3, cs: seq<(real, real)>): (k: nat)
    requires UnitDraws(cs) && Placeable(player, cs)
    ensures k < |cs| && FarFromPlayer(CandidatePoint(cs[k]), player)
    ensures forall j :: 0 <= j < k ==> !FarFromPlayer(CandidatePoint(cs[j]), player)
    decreases |cs|
  {
    if FarFromPlayer(CandidatePoint(cs[0]), player) then 0
    else
      assert Placeable(player, cs[1..]) by {
        var i :| 0 <= i < |cs| && FarFromPlayer(CandidatePoint(cs[i]), player);
        assert i > 0 && cs[1..][i - 1] == cs[i];
      }
      1 + FirstAccepted(player, cs[1..])
  }

  /** The placement loop: draw candidate points until one is far enough from the player. */
  method PickPigPoint(player: Vec3, cs: seq<(real, real)>) returns (p: Vec2)
    requires UnitDraws(cs) && Placeable(player, cs)
    ensures p == CandidatePoint(cs[FirstAccepted(player, cs)])
    ensures FarFromPlayer(p, player)
  {
    var k := 0;
    while true
      invariant k <= FirstAccepted(player, cs)
      decreases FirstAccepted(player, cs) - k
    {
      var x := Lerp(0.0, WindowGuard.WindowUsableWorldWidth, cs[k].0);
      var y := Lerp(0.0, WindowGuard.WindowWorldHeight, cs[k].1);
      if x < player.x - 0.2 * WindowGuard.WindowUsableWorldWidth
         || x > player.x + 0.2 * WindowGuard.WindowUsableWorldWidth
         || y < player.y - 0.2 * WindowGuard.WindowWorldHeight
         || y > player.y + 0.2 * WindowGuard.WindowWorldHeight
      {
        return Vec2(x, y);
      }
      k := k + 1;
    }
  }

  /** With the player anywhere in the world, a candidate in the opposite corner is accepted:
      if the draws include all four corners, placement always succeeds. */
  lemma CornersArePlaceable(player: Vec3)
    requires 0.0 <= player.x <= WindowGuard.WindowUsableWorldWidth
    requires 0.0 <= player.y <= WindowGuard.WindowWorldHeight
    ensures Placeable(player, [(0.0, 0.0), (1.0, 0.0), (0.0, 1.0), (1.0, 1.0)])
  {
    var cs := [(0.0, 0.0), (1.0, 0.0), (0.0, 1.0), (1.0, 1.0)];
    if player.x >= 640.0 {
      assert FarFromPlayer(CandidatePoint(cs[0]), player);
    } else {
      assert FarFromPlayer(CandidatePoint(cs[1]), player);
    }
  }

  /** The pigs of the legacy game: the `Pig` entities and the `Score` resource they feed. */
  class PigField {
    var pigs: seq<PigEntity>
    var score: real
    var nextId: Entity

    ghost predicate Valid()
      reads this
    {
      AllValid(pigs)
    }

    constructor ()
      ensures Valid() && pigs == [] && score == 0.0
    {
      pigs := [];
      score := 0.0;
      nextId := 0;
    }

    /** `spawn_pig`: the placement loop runs first, whatever the time; a pig is spawned at the
        accepted point, on the ground, only on a frame where the game time passes a multiple of
        five seconds.  `direction` is its `random_direction`. */
    method SpawnPig(gameTime: real, delta: real, player: Vec3, cs: seq<(real, real)>, direction: Vec3)
      returns (spawned: bool)
      requires Valid() && UnitDraws(cs) && Placeable(player, cs)
      modifies this
      ensures Valid() && score == old(score)
      ensures spawned <==> EnemySystems.SpawnDue(gameTime, delta)
      ensures var p := CandidatePoint(cs[FirstAccepted(player, cs)]);
              pigs == old(pigs) + (if spawned then [PigEntity(old(nextId), Vec3(p.x, p.y, 0.0), NewPig(direction))] else [])
      ensures nextId == (if spawned then old(nextId) + 1 else old(nextId))
    {
      var p := PickPigPoint(player, cs);
      if !(FMod(gameTime, 5.0) < delta) {
        return false;
      }
      pigs := pigs + [PigEntity(nextId, Vec3(p.x, p.y, 0.0), NewPig(direction))];
      nextId := nextId + 1;
      return true;
    }

    /** `pig_lifetime`: every pig's lifetime ticks; each one that finishes scores 15 and is
        despawned, the others stay in order. */
    method PigLifetime(delta: real)
      requires Valid() && delta >= 0.0
      modifies this
      ensures Valid() && nextId == old(nextId)
      ensures pigs == Survivors(old(pigs), delta)
      ensures score == old(score) + PigScore * Expired(old(pigs), delta) as real
    {
      var i := 0;
      var kept: seq<PigEntity> := [];
      var gained: nat := 0;
      while i < |pigs|
        invariant 0 <= i <= |pigs| && pigs == old(pigs) && nextId == old(nextId)
        invariant kept == Survivors(pigs[..i], delta)
        invariant gained == Expired(pigs[..i], delta)
        invariant score == old(score) + PigScore * gained as real
      {
        var t := LifetimeTick(pigs[i], delta);
        SurvivorsStep(pigs, i, delta);
        if t.pig.lifetime.finished {
          score := score + PigScore;
          gained := gained + 1;
        } else {
          kept := kept + [t];
        }
        i := i + 1;
      }
      assert pigs[..i] == pigs;
      pigs := kept;
    }

    /** `pig_movement`: every pig takes one wander step; `draws[k]` is the direction pig `k`
        takes if it turns. */
    method PigMovement(delta: real, draws: seq<Vec3>)
      requires Valid() && delta >= 0.0 && |draws| == |pigs|
      modifies this
      ensures Valid() && score == old(score) && nextId == old(nextId)
      ensures |pigs| == |old(pigs)|
      ensures forall k :: 0 <= k < |pigs| ==> pigs[k] == WanderStep(old(pigs)[k], delta, draws[k])
    {
      var i := 0;
      while i < |pigs|
        invariant 0 <= i <= |pigs| == |old(pigs)|
        invariant forall k :: 0 <= k < i ==> pigs[k] == WanderStep(old(pigs)[k], delta, draws[k])
        invariant forall k :: i <= k < |pigs| ==> pigs[k] == old(pigs)[k]
        invariant AllValid(pigs) && score == old(score) && nextId == old(nextId)
      {
        pigs := pigs[i := WanderStep(pigs[i], delta, draws[i])];
        i := i + 1;
      }
    }

    /** `despawn_all_pigs`, on leaving the game. */
    method DespawnAllPigs()
      modifies this
      ensures Valid() && pigs == [] && score == old(score) && nextId == old(nextId)
    {
      pigs := [];
    }
  }

  /** A pig spawned by this system scores 15 exactly when its 30 seconds are up. */
  lemma NewPigScoresAfterThirtySeconds(direction: Vec3, deltas: seq<real>)
    requires deltas != [] && forall i :: 0 <= i < |deltas| ==> deltas[i] >= 0.0
    ensures TickAll(NewPig(direction).lifetime, deltas).finished <==> Sum(deltas) >= 30.0
  {
    FreshOnceTimerFinishedIff(30.0, deltas);
  }
}
