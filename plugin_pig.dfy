/** The pig economy of src/plugins/pig.rs: Space buys a pig for 10 money at the player's position;
    it wanders and sells for 15 money when its 5 second lifetime runs out. */
module PluginPigs {
  import opened Components
  import opened Timers
  import opened Input
  import opened PigMotion
  import opened Wallet

  /** A pig as this `spawn_pig` creates it: a 5 second once lifetime, a 1 second repeating move
      timer, a 0.5 second once stop timer, resting and facing nowhere (the default direction). */
  function NewPig(): (p: Pig)
    ensures p.Valid() && !p.isMoving && p.direction == Vec3Zero
    ensures p.lifetime == FromSeconds(5.0, Once)
    ensures p.moveTimer == FromSeconds(1.0, Repeating)
    ensures p.stopTimer == FromSeconds(0.5, Once)
  {
    Pig(FromSeconds(5.0, Once), false, Vec3Zero, FromSeconds(0.5, Once), FromSeconds(1.0, Repeating))
  }

  /** A fresh pig rests until its first move timer runs out, so it never walks facing nowhere. */
  lemma FreshPigRestsInPlace(id: Entity, at: Vec3, delta: real, draw: Vec3)
    requires 0.0 <= delta < 1.0
    ensures var r := WanderStep(PigEntity(id, at, NewPig()), delta, draw);
            r.translation == at && !r.pig.isMoving
  {
  }

  /** The pigs of the plugin and the handles still free. */
  class PigFarm {
    var pigs: seq<PigEntity>
    var nextId: Entity

    ghost predicate Valid()
      reads this
    {
      AllValid(pigs)
    }

    constructor ()
      ensures Valid() && pigs == []
    {
      pigs := [];
      nextId := 0;
    }

    /** `spawn_pig`: unless Space was just pressed nothing happens (and the player query is not
        read); otherwise, with at least 10 money, 10 is paid and a new pig appears at the single
        player's translation. */
    method SpawnPig(input: ButtonInput, players: seq<Vec3>, money: Money) returns (spawned: bool)
      requires Valid()
      requires Space in input.justPressed ==> |players| == 1
      modifies this, money
      ensures Valid()
      ensures (spawned, money.amount) == Purchase(Space in input.justPressed, old(money.amount))
      ensures pigs == old(pigs) + (if spawned then [PigEntity(old(nextId), players[0], NewPig())] else [])
      ensures nextId == (if spawned then old(nextId) + 1 else old(nextId))
    {
      var pigCost := 10.0;
      if Space !in input.justPressed {
        return false;
      }
      var player := players[0];
      if money.amount < pigCost {
        return false;
      }
      money.amount := money.amount - pigCost;
      pigs := pigs + [PigEntity(nextId, player, NewPig())];
      nextId := nextId + 1;
      return true;
    }

    /** `pig_lifetime`: every pig's lifetime ticks; each one that finishes sells for 15 and is
        despawned, the others stay in order. */
    method PigLifetime(delta: real, money: Money)
      requires Valid() && delta >= 0.0
      modifies this, money
      ensures Valid() && nextId == old(nextId)
      ensures pigs == Survivors(old(pigs), delta)
      ensures money.amount == old(money.amount) + PigPrice * Expired(old(pigs), delta) as real
    {
      var i := 0;
      var kept: seq<PigEntity> := [];
      var sold: nat := 0;
      while i < |pigs|
        invariant 0 <= i <= |pigs| && pigs == old(pigs) && nextId == old(nextId)
        invariant kept == Survivors(pigs[..i], delta)
        invariant sold == Expired(pigs[..i], delta)
        invariant money.amount == old(money.amount) + PigPrice * sold as real
      {
        var t := LifetimeTick(pigs[i], delta);
        SurvivorsStep(pigs, i, delta);
        if t.pig.lifetime.finished {
          money.amount := money.amount + 15.0;
          sold := sold + 1;
        } else {
          kept := kept + [t];
        }
        i := i + 1;
      }
      assert pigs[..i] == pigs;
      pigs := kept;
    }

    /** `pig_movement`: every pig takes one wander step; `draws[k]` is the direction pig `k`
        takes if it turns. */
    method PigMovement(delta: real, draws: seq<Vec3>)
      requires Valid() && delta >= 0.0 && |draws| == |pigs|
      modifies this
      ensures Valid() && nextId == old(nextId)
      ensures |pigs| == |old(pigs)|
      ensures forall k :: 0 <= k < |pigs| ==> pigs[k] == WanderStep(old(pigs)[k], delta, draws[k])
    {
      var i := 0;
      while i < |pigs|
        invariant 0 <= i <= |pigs| == |old(pigs)|
        invariant forall k :: 0 <= k < i ==> pigs[k] == WanderStep(old(pigs)[k], delta, draws[k])
        invariant forall k :: i <= k < |pigs| ==> pigs[k] == old(pigs)[k]
        invariant AllValid(pigs) && nextId == old(nextId)
      {
        pigs := pigs[i := WanderStep(pigs[i], delta, draws[i])];
        i := i + 1;
      }
    }
  }
}
