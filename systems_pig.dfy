/** The simplest pig trade, src/systems/pig.rs: Space buys a pig for 10 money at the player's
    position, and it sells for 15 money when its 2 second lifetime runs out.  Its `Pig`
    component (src/components/mod.rs has none; the system names `components::Pig`) holds only
    the lifetime. */
module SystemPigs {
  import opened Components
  import opened Timers
  import opened Input
  import opened Wallet

  /** A pig of this system: its handle, its translation and its lifetime timer. */
  datatype PenPig = PenPig(id: Entity, translation: Vec3, lifetime: Timer)

  predicate AllValid(ps: seq<PenPig>) {
    forall k :: 0 <= k < |ps| ==> ps[k].lifetime.Valid()
  }

  /** The lifetime of a new pig: 2 seconds, once. */
  const PenPigLifetime: Timer := FromSeconds(2.0, Once)

  /** The pig after its lifetime ticks. */
  function Tick(p: PenPig, delta: real): (r: PenPig)
    requires p.lifetime.Valid() && delta >= 0.0
    ensures r.lifetime.Valid() && r.id == p.id && r.translation == p.translation
    ensures r.lifetime == p.lifetime.Tick(delta)
  {
    p.(lifetime := p.lifetime.Tick(delta))
  }

  /** The number of pigs whose lifetime finishes on this frame's tick. */
  function Sold(ps: seq<PenPig>, delta: real): (n: nat)
    requires AllValid(ps) && delta >= 0.0
    ensures n <= |ps|
    decreases |ps|
  {
    if ps == [] then 0
    else
      var k := |ps| - 1;
      Sold(ps[..k], delta) + (if Tick(ps[k], delta).lifetime.finished then 1 else 0)
  }

  /** The pigs `pig_lifetime` keeps, in order, their lifetimes ticked: exactly the ones still
      running; every other pig is one of the `Sold`. */
  function Kept(ps: seq<PenPig>, delta: real): (s: seq<PenPig>)
    requires AllValid(ps) && delta >= 0.0
    ensures AllValid(s)
    ensures |s| + Sold(ps, delta) == |ps|
    ensures forall k :: 0 <= k < |s| ==> !s[k].lifetime.finished
    decreases |ps|
  {
    if ps == [] then []
    else
      var k := |ps| - 1;
      var t := Tick(ps[k], delta);
      Kept(ps[..k], delta) + (if t.lifetime.finished then [] else [t])
  }

  /** One more pig: it is sold or kept according to its own tick. */
  lemma KeptStep(ps: seq<PenPig>, i: nat, delta: real)
    requires AllValid(ps) && delta >= 0.0 && i < |ps|
    ensures AllValid(ps[..i]) && AllValid(ps[..i + 1])
    ensures var t := Tick(ps[i], delta);
            && Kept(ps[..i + 1], delta) == Kept(ps[..i], delta) + (if t.lifetime.finished then [] else [t])
            && Sold(ps[..i + 1], delta) == Sold(ps[..i], delta) + (if t.lifetime.finished then 1 else 0)
  {
    assert ps[..i + 1][..i] == ps[..i];
  }

  /** The pigs of the system and the handles still free. */
  class PigPen {
    var pigs: seq<PenPig>
    var nextId: Entity

    ghost predicate Valid()
      reads this
    {
      AllValid(pigs)
    }

    constructor ()
      ensures Valid() && pigs == []
    {
      pigs := [];
      nextId := 0;
    }

    /** `spawn_pig`: unless Space was just pressed nothing happens; otherwise, with at least 10
        money, 10 is paid and a 2 second pig appears at the single player's translation. */
    method SpawnPig(input: ButtonInput, players: seq<Vec3>, money: Money) returns (spawned: bool)
      requires Valid()
      requires Space in input.justPressed ==> |players| == 1
      modifies this, money
      ensures Valid()
      ensures (spawned, money.amount) == Purchase(Space in input.justPressed, old(money.amount))
      ensures pigs == old(pigs) + (if spawned then [PenPig(old(nextId), players[0], PenPigLifetime)] else [])
      ensures nextId == (if spawned then old(nextId) + 1 else old(nextId))
    {
      var pigCost := 10.0;
      if Space !in input.justPressed {
        return false;
      }
      var player := players[0];
      if money.amount < pigCost {
        return false;
      }
      money.amount := money.amount - pigCost;
      pigs := pigs + [PenPig(nextId, player, FromSeconds(2.0, Once))];
      nextId := nextId + 1;
      return true;
    }

    /** `pig_lifetime`: every pig's lifetime ticks; each one that finishes sells for 15 and is
        despawned, the others stay in order. */
    method PigLifetime(delta: real, money: Money)
      requires Valid() && delta >= 0.0
      modifies this, money
      ensures Valid() && nextId == old(nextId)
      ensures pigs == Kept(old(pigs), delta)
      ensures money.amount == old(money.amount) + PigPrice * Sold(old(pigs), delta) as real
    {
      var i := 0;
      var kept: seq<PenPig> := [];
      var sold: nat := 0;
      while i < |pigs|
        invariant 0 <= i <= |pigs| && pigs == old(pigs) && nextId == old(nextId)
        invariant kept == Kept(pigs[..i], delta)
        invariant sold == Sold(pigs[..i], delta)
        invariant money.amount == old(money.amount) + PigPrice * sold as real
      {
        var t := Tick(pigs[i], delta);
        KeptStep(pigs, i, delta);
        if t.lifetime.finished {
          money.amount := money.amount + 15.0;
          sold := sold + 1;
        } else {
          kept := kept + [t];
        }
        i := i + 1;
      }
      assert pigs[..i] == pigs;
      pigs := kept;
    }
  }

  /** A frame whose tick finishes none of the pigs sells none and keeps them all. */
  lemma {:induction false} NothingSoldWhileRunning(ps: seq<PenPig>, delta: real)
    requires AllValid(ps) && delta >= 0.0
    requires forall k :: 0 <= k < |ps| ==> !Tick(ps[k], delta).lifetime.finished
    ensures Sold(ps, delta) == 0 && |Kept(ps, delta)| == |ps|
    decreases |ps|
  {
    if ps != [] {
      var k := |ps| - 1;
      assert forall i :: 0 <= i < k ==> ps[..k][i] == ps[i];
      NothingSoldWhileRunning(ps[..k], delta);
    }
  }

  /** A pig bought on a frame and sold on the frame where its two seconds run out leaves the
      money 5 higher than before the purchase. */
  lemma SpawnThenExpiryNetsFive(money: real, id: Entity, at: Vec3, delta: real)
    requires money >= PigCost && delta >= 2.0
    ensures var bought := Purchase(true, money);
            var pig := [PenPig(id, at, PenPigLifetime)];
            && bought.0
            && Kept(pig, delta) == []
            && bought.1 + PigPrice * Sold(pig, delta) as real == money + 5.0
  {
    var pig := [PenPig(id, at, PenPigLifetime)];
    assert pig[..0] == [];
    assert Tick(pig[0], delta).lifetime.finished;
  }

  /** The lifetime of a bought pig runs out exactly once the frames add up to two seconds. */
  lemma PenPigSellsAfterTwoSeconds(deltas: seq<real>)
    requires deltas != [] && forall i :: 0 <= i < |deltas| ==> deltas[i] >= 0.0
    ensures TickAll(PenPigLifetime, deltas).finished <==> Sum(deltas) >= 2.0
  {
    FreshOnceTimerFinishedIff(2.0, deltas);
  }
}
