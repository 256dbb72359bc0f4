/** The collision filter of src/game/collisions.rs: a contact between the player and an enemy
    ends the game. */
module Collisions {
  import opened Components
  import opened Events

  /** The physics engine's `CollisionEvent`, by the two entities in contact (the flags are not
      used). */
  datatype CollisionEvent = Started(e1: Entity, e2: Entity) | Stopped(e1: Entity, e2: Entity)

  /** A starting contact between the player and this enemy, in either order. */
  predicate Involves(ev: CollisionEvent, player: Entity, enemy: Entity) {
    ev.Started? && ((ev.e1 == player && ev.e2 == enemy) || (ev.e2 == player && ev.e1 == enemy))
  }

  /** How many of the enemies one event pairs with the player. */
  function Matches(ev: CollisionEvent, player: Entity, enemies: seq<Entity>): (n: nat)
    ensures n <= |enemies|
    ensures ev.Stopped? ==> n == 0
    decreases |enemies|
  {
    if enemies == [] then 0
    else
      var last := enemies[|enemies| - 1];
      Matches(ev, player, enemies[..|enemies| - 1]) + (if Involves(ev, player, last) then 1 else 0)
  }

  /** How many `EndGameTriggered` events `collision_events` sends: one per (event, enemy) pair. */
  function EndGameCount(events: seq<CollisionEvent>, player: Entity, enemies: seq<Entity>): (n: nat)
    ensures n <= |events| * |enemies|
    decreases |events|
  {
    if events == [] then 0
    else
      var k := |events| - 1;
      EndGameCount(events[..k], player, enemies) + Matches(events[k], player, enemies)
  }

  /** `collision_events`: for every collision event and every enemy, a starting contact between
      the player and that enemy sends one `EndGameTriggered`.  The query for the player must hold
      exactly one entity.  No `ShipHit` is sent. */
  method CollisionEvents(events: seq<CollisionEvent>, players: seq<Entity>, enemies: seq<Entity>,
                         endGame: EventWriter<EndGameTriggered>, shipHits: EventWriter<ShipHit>)
    requires |players| == 1
    modifies endGame
    ensures |endGame.sent| == |old(endGame.sent)| + EndGameCount(events, players[0], enemies)
    ensures endGame.sent[..|old(endGame.sent)|] == old(endGame.sent)
    ensures shipHits.sent == old(shipHits.sent)
  {
    var player := players[0];
    var i := 0;
    while i < |events|
      invariant 0 <= i <= |events|
      invariant |endGame.sent| == |old(endGame.sent)| + EndGameCount(events[..i], player, enemies)
      invariant endGame.sent[..|old(endGame.sent)|] == old(endGame.sent)
    {
      var ev := events[i];
      var before := |endGame.sent|;
      var j := 0;
      while j < |enemies|
        invariant 0 <= j <= |enemies|
        invariant |endGame.sent| == before + Matches(ev, player, enemies[..j])
        invariant endGame.sent[..|old(endGame.sent)|] == old(endGame.sent)
      {
        var enemy := enemies[j];
        if ev.Started? {
          if (ev.e1 == player && ev.e2 == enemy) || (ev.e2 == player && ev.e1 == enemy) {
            endGame.Send(EndGameTriggered);
          }
        }
        assert enemies[..j + 1][..j] == enemies[..j];
        j := j + 1;
      }
      assert enemies[..j] == enemies;
      assert events[..i + 1][..i] == events[..i];
      i := i + 1;
    }
    assert events[..i] == events;
  }

  /** Contacts that stopped never end the game. */
  lemma {:induction false} StoppedEventsIgnored(events: seq<CollisionEvent>, player: Entity, enemies: seq<Entity>)
    requires forall i :: 0 <= i < |events| ==> events[i].Stopped?
    ensures EndGameCount(events, player, enemies) == 0
    decreases |events|
  {
    if events != [] {
      var k := |events| - 1;
      StoppedEventsIgnored(events[..k], player, enemies);
    }
  }

  /** The contact with its two entities swapped. */
  function Swap(ev: CollisionEvent): (r: CollisionEvent)
    ensures r.Started? <==> ev.Started?
    ensures r.e1 == ev.e2 && r.e2 == ev.e1
  {
    match ev
    case Started(a, b) => Started(b, a)
    case Stopped(a, b) => Stopped(b, a)
  }

  /** Which entity of a contact is the player does not matter. */
  lemma {:induction false} MatchesSymmetric(ev: CollisionEvent, player: Entity, enemies: seq<Entity>)
    ensures Matches(Swap(ev), player, enemies) == Matches(ev, player, enemies)
    decreases |enemies|
  {
    if enemies != [] {
      MatchesSymmetric(ev, player, enemies[..|enemies| - 1]);
    }
  }

  function SwapAll(events: seq<CollisionEvent>): (r: seq<CollisionEvent>)
    ensures |r| == |events| && forall i :: 0 <= i < |r| ==> r[i] == Swap(events[i])
  {
    seq(|events|, i requires 0 <= i < |events| => Swap(events[i]))
  }

  /** Swapping the two entities of every contact sends the same number of events. */
  lemma {:induction false} EndGameSymmetric(events: seq<CollisionEvent>, player: Entity, enemies: seq<Entity>)
    ensures EndGameCount(SwapAll(events), player, enemies) == EndGameCount(events, player, enemies)
    decreases |events|
  {
    if events != [] {
      var k := |events| - 1;
      EndGameSymmetric(events[..k], player, enemies);
      assert SwapAll(events)[..k] == SwapAll(events[..k]);
      MatchesSymmetric(events[k], player, enemies);
    }
  }

  /** A contact that does not involve the player sends nothing. */
  lemma {:induction false} WithoutPlayerNothing(ev: CollisionEvent, player: Entity, enemies: seq<Entity>)
    requires ev.e1 != player && ev.e2 != player
    ensures Matches(ev, player, enemies) == 0
    decreases |enemies|
  {
    if enemies != [] {
      WithoutPlayerNothing(ev, player, enemies[..|enemies| - 1]);
    }
  }

  /** A contact whose other entity is not among the enemies sends nothing. */
  lemma {:induction false} WithoutEnemyNothing(ev: CollisionEvent, player: Entity, enemies: seq<Entity>)
    requires forall k :: 0 <= k < |enemies| ==> !Involves(ev, player, enemies[k])
    ensures Matches(ev, player, enemies) == 0
    decreases |enemies|
  {
    if enemies != [] {
      WithoutEnemyNothing(ev, player, enemies[..|enemies| - 1]);
    }
  }

  /** A starting contact between the player and an enemy of the query is counted. */
  lemma {:induction false} ContactMatches(ev: CollisionEvent, player: Entity, enemies: seq<Entity>, k: nat)
    requires k < |enemies| && Involves(ev, player, enemies[k])
    ensures Matches(ev, player, enemies) >= 1
    decreases |enemies|
  {
    var n := |enemies| - 1;
    if k < n {
      assert enemies[..n][k] == enemies[k];
      ContactMatches(ev, player, enemies[..n], k);
    }
  }

  /** Any starting contact of the frame between the player and an enemy of the query ends the
      game. */
  lemma {:induction false} ContactEndsGame(events: seq<CollisionEvent>, player: Entity, enemies: seq<Entity>, i: nat, k: nat)
    requires i < |events| && k < |enemies| && Involves(events[i], player, enemies[k])
    ensures EndGameCount(events, player, enemies) >= 1
    decreases |events|
  {
    var n := |events| - 1;
    if i < n {
      assert events[..n][i] == events[i];
      ContactEndsGame(events[..n], player, enemies, i, k);
    } else {
      ContactMatches(events[n], player, enemies, k);
    }
  }

  /** A frame without any starting contact between the player and an enemy of the query sends
      nothing. */
  lemma {:induction false} NoContactNoEndGame(events: seq<CollisionEvent>, player: Entity, enemies: seq<Entity>)
    requires forall i, k :: 0 <= i < |events| && 0 <= k < |enemies| ==> !Involves(events[i], player, enemies[k])
    ensures EndGameCount(events, player, enemies) == 0
    decreases |events|
  {
    if events != [] {
      var n := |events| - 1;
      assert forall i :: 0 <= i < n ==> events[..n][i] == events[i];
      NoContactNoEndGame(events[..n], player, enemies);
      WithoutEnemyNothing(events[n], player, enemies);
    }
  }

  /** The game ends on a frame exactly when some starting contact pairs the player with an enemy
      of the query. */
  lemma EndGameIffContact(events: seq<CollisionEvent>, player: Entity, enemies: seq<Entity>)
    ensures EndGameCount(events, player, enemies) > 0 <==>
              exists i, k :: 0 <= i < |events| && 0 <= k < |enemies| && Involves(events[i], player, enemies[k])
  {
    if exists i, k :: 0 <= i < |events| && 0 <= k < |enemies| && Involves(events[i], player, enemies[k]) {
      var i, k :| 0 <= i < |events| && 0 <= k < |enemies| && Involves(events[i], player, enemies[k]);
      ContactEndsGame(events, player, enemies, i, k);
    } else {
      NoContactNoEndGame(events, player, enemies);
    }
  }

  /** With distinct enemy handles, none of them the player's, one contact ends the game at most
      once. */
  lemma {:induction false} AtMostOncePerContact(ev: CollisionEvent, player: Entity, enemies: seq<Entity>)
    requires forall a, b :: 0 <= a < b < |enemies| ==> enemies[a] != enemies[b]
    requires forall k :: 0 <= k < |enemies| ==> enemies[k] != player
    ensures Matches(ev, player, enemies) <= 1
    decreases |enemies|
  {
    if enemies != [] {
      var n := |enemies| - 1;
      var pre := enemies[..n];
      var last := enemies[n];
      if Involves(ev, player, last) {
        assert forall k :: 0 <= k < |pre| ==> !Involves(ev, player, pre[k]) by {
          forall k | 0 <= k < |pre| ensures !Involves(ev, player, pre[k]) {
            assert pre[k] == enemies[k] && enemies[k] != last && enemies[k] != player;
          }
        }
        WithoutEnemyNothing(ev, player, pre);
      } else {
        AtMostOncePerContact(ev, player, pre);
      }
    }
  }
}
