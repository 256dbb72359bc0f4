/** Momentum movement (src/game/movement.rs): keys give the player an acceleration, enemies
    accelerate toward the nearest player, velocities are clamped per component, and positions
    advance by the velocity. */
module Movement {
  import opened Numeric
  import opened Components
  import opened Input
  import opened Enemies

  // ---------------------------------------------------------- player input

  /** The sign -1, 0 or +1 of an axis from its positive and negative keys. */
  function AxisSign(positive: bool, negative: bool): int {
    (if positive then 1 else 0) - (if negative then 1 else 0)
  }

  predicate Up(keys: ButtonInput) { KeyW in keys.pressed || ArrowUp in keys.pressed }
  predicate Down(keys: ButtonInput) { KeyS in keys.pressed || ArrowDown in keys.pressed }
  predicate Left(keys: ButtonInput) { KeyA in keys.pressed || ArrowLeft in keys.pressed }
  predicate Right(keys: ButtonInput) { KeyD in keys.pressed || ArrowRight in keys.pressed }

  /** The player's acceleration from the movement keys: `thrust / mass` along each axis whose
      keys do not cancel (W or Up and S or Down on y; D or Right and A or Left on x). */
  function Acceleration(keys: ButtonInput, m: Momentum): (acc: Vec2)
    requires m.mass != 0.0
    ensures var a := m.thrust / m.mass;
            (acc.x == -a || acc.x == 0.0 || acc.x == a) && (acc.y == -a || acc.y == 0.0 || acc.y == a)
    ensures (Up(keys) && Down(keys)) || (!Up(keys) && !Down(keys)) ==> acc.y == 0.0
    ensures (Left(keys) && Right(keys)) || (!Left(keys) && !Right(keys)) ==> acc.x == 0.0
    ensures Up(keys) && !Down(keys) ==> acc.y == m.thrust / m.mass
    ensures Down(keys) && !Up(keys) ==> acc.y == -(m.thrust / m.mass)
    ensures Right(keys) && !Left(keys) ==> acc.x == m.thrust / m.mass
    ensures Left(keys) && !Right(keys) ==> acc.x == -(m.thrust / m.mass)
  {
    var a := m.thrust / m.mass;
    var sx := AxisSign(Right(keys), Left(keys));
    var sy := AxisSign(Up(keys), Down(keys));
    Vec2(sx as real * a, sy as real * a)
  }

  /** `linvel.clamp(splat(-max_speed), splat(max_speed))` after adding `acc * dt`. */
  function StepVelocity(v: Vec2, acc: Vec2, dt: real, maxSpeed: real): (r: Vec2)
    requires maxSpeed >= 0.0
    ensures -maxSpeed <= r.x <= maxSpeed && -maxSpeed <= r.y <= maxSpeed
    ensures -maxSpeed <= v.x + acc.x * dt <= maxSpeed ==> r.x == v.x + acc.x * dt
    ensures -maxSpeed <= v.y + acc.y * dt <= maxSpeed ==> r.y == v.y + acc.y * dt
  {
    var w := v.Add(acc.Scale(dt));
    Vec2(Clamp(w.x, -maxSpeed, maxSpeed), Clamp(w.y, -maxSpeed, maxSpeed))
  }

  /** A body the player moves: its translation, velocity and momentum. */
  datatype Body = Body(translation: Vec3, velocity: Vec2, momentum: Momentum)

  predicate PlayerBodyValid(b: Body) {
    b.momentum.mass != 0.0 && b.momentum.maxSpeed >= 0.0
  }

  /** One player body after `player_movement`: the clamped velocity, and the translation moved
      by that velocity itself (not scaled by the frame time), with z unchanged. */
  function PlayerStep(b: Body, keys: ButtonInput, dt: real): (r: Body)
    requires PlayerBodyValid(b)
    ensures r.momentum == b.momentum && PlayerBodyValid(r)
    ensures -b.momentum.maxSpeed <= r.velocity.x <= b.momentum.maxSpeed
    ensures -b.momentum.maxSpeed <= r.velocity.y <= b.momentum.maxSpeed
    ensures r.translation == Vec3(b.translation.x + r.velocity.x, b.translation.y + r.velocity.y, b.translation.z)
  {
    var v := StepVelocity(b.velocity, Acceleration(keys, b.momentum), dt, b.momentum.maxSpeed);
    b.(velocity := v, translation := b.translation.Add(v.Extend(0.0)))
  }

  /** With no keys held and a velocity already within bounds, the body coasts. */
  lemma PlayerCoastsWithoutKeys(b: Body, keys: ButtonInput, dt: real)
    requires PlayerBodyValid(b) && keys.pressed == {}
    requires -b.momentum.maxSpeed <= b.velocity.x <= b.momentum.maxSpeed
    requires -b.momentum.maxSpeed <= b.velocity.y <= b.momentum.maxSpeed
    ensures PlayerStep(b, keys, dt).velocity == b.velocity
  {
  }

  // ------------------------------------------------------------ chasing

  /** The index of the nearest target, folding left to right and replacing the current best
      only on a strictly smaller distance; compared by squared distance, which orders points
      exactly as distance does. */
  function Nearest(p: Vec3, targets: seq<Vec3>): (r: Option<nat>)
    ensures r.None? <==> targets == []
    ensures r.Some? ==> r.value < |targets|
    ensures r.Some? ==> forall j :: 0 <= j < |targets| ==>
              DistanceSquared(p, targets[r.value]) <= DistanceSquared(p, targets[j])
    ensures r.Some? ==> forall j :: 0 <= j < r.value ==>
              DistanceSquared(p, targets[j]) > DistanceSquared(p, targets[r.value])
    decreases |targets|
  {
    if targets == [] then None
    else
      var last := |targets| - 1;
      var best := Nearest(p, targets[..last]);
      if best.None? then Some(last)
      else if DistanceSquared(p, targets[last]) < DistanceSquared(p, targets[..last][best.value]) then Some(last)
      else Some(best.value)
  }

  /** The colour of an inactive enemy: `srgb_u8(100, 100, 100)`. */
  const Gray := Srgb(100.0 / 255.0, 100.0 / 255.0, 100.0 / 255.0)

  /** What `chase_movement` chases: the translations of the player bodies. */
  function Targets(players: seq<Body>): (ts: seq<Vec3>)
    ensures |ts| == |players|
    ensures forall i :: 0 <= i < |players| ==> ts[i] == players[i].translation
  {
    seq(|players|, i requires 0 <= i < |players| => players[i].translation)
  }

  predicate ChaserValid(x: EnemyEntity) {
    x.momentum.mass != 0.0 && x.momentum.maxSpeed >= 0.0
  }

  /** One enemy after `chase_movement` when there is a target. `normalize` stands for the
      vector normalisation. */
  function ChaseStep(x: EnemyEntity, targets: seq<Vec3>, dt: real, normalize: Vec2 -> Vec2): (r: EnemyEntity)
    requires ChaserValid(x) && targets != []
    ensures r == x.(fill := r.fill, velocity := r.velocity, translation := r.translation)
    ensures r.translation == x.translation.Add(r.velocity.Extend(0.0))
    ensures x.enemy.state == Stopped ==> r.fill == Gray && r.velocity == x.velocity
    ensures x.enemy.state == Moving ==>
              && r.fill == x.enemy.colour
              && -x.momentum.maxSpeed <= r.velocity.x <= x.momentum.maxSpeed
              && -x.momentum.maxSpeed <= r.velocity.y <= x.momentum.maxSpeed
              && var t := targets[Nearest(x.translation, targets).value];
                 var acc := normalize(t.Truncate().Add(x.translation.Truncate().Scale(-1.0)))
                              .Scale(x.momentum.thrust).Scale(1.0 / x.momentum.mass);
                 r.velocity == StepVelocity(x.velocity, acc, dt, x.momentum.maxSpeed)
  {
    var v :=
      if x.enemy.state == Moving then
        var t := targets[Nearest(x.translation, targets).value];
        var direction := t.Truncate().Add(x.translation.Truncate().Scale(-1.0));
        var acc := normalize(direction).Scale(x.momentum.thrust).Scale(1.0 / x.momentum.mass);
        StepVelocity(x.velocity, acc, dt, x.momentum.maxSpeed)
      else x.velocity;
    var fill := if x.enemy.state == Moving then x.enemy.colour else Gray;
    x.(fill := fill, velocity := v, translation := x.translation.Add(v.Extend(0.0)))
  }

  predicate AllChasersValid(es: seq<EnemyEntity>) {
    forall i :: 0 <= i < |es| ==> ChaserValid(es[i])
  }

  /** An enemy with no one to chase: grayed, and moved by its unchanged velocity. */
  function Drift(x: EnemyEntity): EnemyEntity {
    x.(fill := Gray, translation := x.translation.Add(x.velocity.Extend(0.0)))
  }

  /** `chase_movement` over the enemies in query order.  With no player to chase, the first
      Moving enemy gets its colour back and the system returns: it and every later enemy keep
      their position and velocity. */
  function ChaseFrame(es: seq<EnemyEntity>, targets: seq<Vec3>, dt: real, normalize: Vec2 -> Vec2): (r: seq<EnemyEntity>)
    requires AllChasersValid(es)
    ensures |r| == |es|
    ensures forall i :: 0 <= i < |es| ==> r[i].id == es[i].id && r[i].enemy == es[i].enemy && r[i].momentum == es[i].momentum
    ensures targets != [] ==> forall i :: 0 <= i < |es| ==> r[i] == ChaseStep(es[i], targets, dt, normalize)
    ensures targets == [] ==> forall i :: 0 <= i < |es| ==> r[i].velocity == es[i].velocity
    decreases |es|
  {
    if es == [] then []
    else
      var x := es[0];
      assert AllChasersValid(es[1..]) by {
        forall i | 0 <= i < |es[1..]| ensures ChaserValid(es[1..][i]) { assert es[1..][i] == es[i + 1]; }
      }
      if targets == [] && x.enemy.state == Moving then [x.(fill := x.enemy.colour)] + es[1..]
      else if targets == [] then
        [Drift(x)] + ChaseFrame(es[1..], targets, dt, normalize)
      else [ChaseStep(x, targets, dt, normalize)] + ChaseFrame(es[1..], targets, dt, normalize)
  }

  /** Without a target, the enemies before the first Moving one are grayed and drift, that one
      only gets its colour back, and every enemy after it is untouched. */
  lemma ChaseWithoutTargets(es: seq<EnemyEntity>, dt: real, normalize: Vec2 -> Vec2, k: nat)
    requires AllChasersValid(es) && k < |es| && es[k].enemy.state == Moving
    requires forall i :: 0 <= i < k ==> es[i].enemy.state == Stopped
    ensures var r := ChaseFrame(es, [], dt, normalize);
            && (forall i :: 0 <= i < k ==> r[i] == Drift(es[i]))
            && r[k] == es[k].(fill := es[k].enemy.colour)
            && r[k + 1..] == es[k + 1..]
  {
    DriftBeforeFirstMoving(es, dt, normalize, k);
    FirstMovingEndsChase(es, dt, normalize, k);
  }

  /** Dropping the first enemy keeps every remaining one a valid chaser. */
  lemma TailChasersValid(es: seq<EnemyEntity>)
    requires AllChasersValid(es) && es != []
    ensures AllChasersValid(es[1..])
  {
    forall i | 0 <= i < |es[1..]| ensures ChaserValid(es[1..][i]) { assert es[1..][i] == es[i + 1]; }
  }

  /** Without a target, every enemy before the first Moving one is grayed and drifts. */
  lemma {:induction false} DriftBeforeFirstMoving(es: seq<EnemyEntity>, dt: real, normalize: Vec2 -> Vec2, k: nat)
    requires AllChasersValid(es) && k < |es| && es[k].enemy.state == Moving
    requires forall i :: 0 <= i < k ==> es[i].enemy.state == Stopped
    ensures forall i :: 0 <= i < k ==> ChaseFrame(es, [], dt, normalize)[i] == Drift(es[i])
    decreases k
  {
    if k > 0 {
      var tail := es[1..];
      TailChasersValid(es);
      DriftBeforeFirstMoving(tail, dt, normalize, k - 1);
      var r := ChaseFrame(es, [], dt, normalize);
      var rt := ChaseFrame(tail, [], dt, normalize);
      assert r == [Drift(es[0])] + rt;
      forall i | 0 <= i < k ensures r[i] == Drift(es[i]) {
        if i > 0 { assert r[i] == rt[i - 1] && tail[i - 1] == es[i]; }
      }
    }
  }

  /** Without a target, the first Moving enemy only gets its colour back and the enemies after
      it are untouched. */
  lemma {:induction false} FirstMovingEndsChase(es: seq<EnemyEntity>, dt: real, normalize: Vec2 -> Vec2, k: nat)
    requires AllChasersValid(es) && k < |es| && es[k].enemy.state == Moving
    requires forall i :: 0 <= i < k ==> es[i].enemy.state == Stopped
    ensures var r := ChaseFrame(es, [], dt, normalize);
            r[k] == es[k].(fill := es[k].enemy.colour) && r[k + 1..] == es[k + 1..]
    decreases k
  {
    TailChasersValid(es);
    if k > 0 {
      var tail := es[1..];
      FirstMovingEndsChase(tail, dt, normalize, k - 1);
      var r := ChaseFrame(es, [], dt, normalize);
      var rt := ChaseFrame(tail, [], dt, normalize);
      assert r == [Drift(es[0])] + rt;
      assert r[k] == rt[k - 1] && tail[k - 1] == es[k];
      assert r[k + 1..] == rt[k..];
      assert tail[k..] == es[k + 1..];
    }
  }

  // --------------------------------------------------------------- bounds

  /** `bounded_movement` on one translation: x into `[-hw, hw]`, y into `[-hh, hh]`. */
  function BoundPosition(t: Vec3, hw: real, hh: real): (r: Vec3)
    requires hw >= 0.0 && hh >= 0.0
    ensures -hw <= r.x <= hw && -hh <= r.y <= hh && r.z == t.z
    ensures -hw <= t.x <= hw && -hh <= t.y <= hh ==> r == t
  {
    Vec3(Clamp(t.x, -hw, hw), Clamp(t.y, -hh, hh), t.z)
  }

  /** Bounding twice is bounding once. */
  lemma BoundPositionIdempotent(t: Vec3, hw: real, hh: real)
    requires hw >= 0.0 && hh >= 0.0
    ensures BoundPosition(BoundPosition(t, hw, hh), hw, hh) == BoundPosition(t, hw, hh)
  {
  }

  function BoundAll(ts: seq<Vec3>, hw: real, hh: real): (r: seq<Vec3>)
    requires hw >= 0.0 && hh >= 0.0
  {
    seq(|ts|, i requires 0 <= i < |ts| => BoundPosition(ts[i], hw, hh))
  }

  // ---------------------------------------------------------------- world

  /** The loop of `chase_movement` over the enemies in query order: each one is stepped by
      `ChaseEnemy`, and the first one that aborts ends the loop with the rest untouched. */
  method ChaseLoop(es: seq<EnemyEntity>, targets: seq<Vec3>, dt: real, normalize: Vec2 -> Vec2)
      returns (out: seq<EnemyEntity>)
    requires AllChasersValid(es)
    ensures out == ChaseFrame(es, targets, dt, normalize)
  {
    ghost var r := ChaseFrame(es, targets, dt, normalize);
    out := es;
    var i := 0;
    while i < |out|
      invariant 0 <= i <= |out| == |es| == |r|
      invariant forall k :: 0 <= k < i ==> out[k] == r[k]
      invariant forall k :: i <= k < |out| ==> out[k] == es[k]
      invariant targets == [] ==> forall k :: 0 <= k < i ==> es[k].enemy.state == Stopped
    {
      var x, aborted := ChaseEnemy(out[i], targets, dt, normalize);
      if aborted {
        FrameAtFirstMoving(es, dt, normalize, i);
        out := out[i := x];
        assert forall k :: 0 <= k < |out| ==> out[k] == r[k];
        return;
      }
      FrameAt(es, targets, dt, normalize, i);
      out := out[i := x];
      i := i + 1;
    }
  }

  /** The bodies the movement systems query: the players (`Transform`, `Momentum`, `Velocity`
      with `Player`), the enemies, and the translations of entities with `BoundedMovement`. */
  class MovementWorld {
    var players: seq<Body>
    var enemies: seq<EnemyEntity>
    var bounded: seq<Vec3>

    ghost predicate Valid()
      reads this
    {
      (forall i :: 0 <= i < |players| ==> PlayerBodyValid(players[i])) && AllChasersValid(enemies)
    }

    constructor (players: seq<Body>, enemies: seq<EnemyEntity>, bounded: seq<Vec3>)
      ensures this.players == players && this.enemies == enemies && this.bounded == bounded
    {
      this.players := players;
      this.enemies := enemies;
      this.bounded := bounded;
    }

    /** `player_movement`. */
    method PlayerMovement(keys: ButtonInput, dt: real)
      requires Valid()
      modifies this
      ensures Valid() && enemies == old(enemies) && bounded == old(bounded)
      ensures |players| == |old(players)|
      ensures forall i :: 0 <= i < |players| ==> players[i] == PlayerStep(old(players)[i], keys, dt)
    {
      var i := 0;
      while i < |players|
        invariant 0 <= i <= |players| == |old(players)|
        invariant enemies == old(enemies) && bounded == old(bounded)
        invariant forall k :: 0 <= k < i ==> players[k] == PlayerStep(old(players)[k], keys, dt)
        invariant forall k :: i <= k < |players| ==> players[k] == old(players)[k]
      {
        var b := MovePlayer(players[i], keys, dt);
        players := players[i := b];
        i := i + 1;
      }
    }

    /** `chase_movement`: the new translations are inserted by command and so land even for
        enemies handled before an early return. */
    method ChaseMovement(dt: real, normalize: Vec2 -> Vec2)
      requires Valid()
      modifies this
      ensures Valid() && players == old(players) && bounded == old(bounded)
      ensures enemies == ChaseFrame(old(enemies), Targets(players), dt, normalize)
    {
      enemies := ChaseLoop(enemies, Targets(players), dt, normalize);
      ChaseFrameValid(old(enemies), Targets(players), dt, normalize);
    }

    /** `bounded_movement`: with no window nothing moves. */
    method BoundedMovement(window: Option<(real, real)>)
      requires window.Some? ==> window.value.0 >= 0.0 && window.value.1 >= 0.0
      modifies this
      ensures players == old(players) && enemies == old(enemies)
      ensures window.None? ==> bounded == old(bounded)
      ensures window.Some? ==> bounded == BoundAll(old(bounded), window.value.0 / 2.0, window.value.1 / 2.0)
    {
      if window.None? {
        return;
      }
      var hw := window.value.0 / 2.0;
      var hh := window.value.1 / 2.0;
      var i := 0;
      while i < |bounded|
        invariant 0 <= i <= |bounded| == |old(bounded)|
        invariant players == old(players) && enemies == old(enemies)
        invariant forall k :: 0 <= k < i ==> bounded[k] == BoundPosition(old(bounded)[k], hw, hh)
        invariant forall k :: i <= k < |bounded| ==> bounded[k] == old(bounded)[k]
      {
        var t := bounded[i];
        bounded := bounded[i := t.(x := Clamp(t.x, -hw, hw)).(y := Clamp(t.y, -hh, hh))];
        i := i + 1;
      }
    }
  }

  /** The body of the `player_movement` loop for one body. */
  method MovePlayer(b: Body, keys: ButtonInput, dt: real) returns (r: Body)
    requires PlayerBodyValid(b)
    ensures r == PlayerStep(b, keys, dt)
  {
    var a := b.momentum.thrust / b.momentum.mass;
    var acceleration := Vec2Zero;
    if KeyW in keys.pressed || ArrowUp in keys.pressed {
      acceleration := acceleration.(y := acceleration.y + a);
    }
    if KeyS in keys.pressed || ArrowDown in keys.pressed {
      acceleration := acceleration.(y := acceleration.y - a);
    }
    if KeyA in keys.pressed || ArrowLeft in keys.pressed {
      acceleration := acceleration.(x := acceleration.x - a);
    }
    if KeyD in keys.pressed || ArrowRight in keys.pressed {
      acceleration := acceleration.(x := acceleration.x + a);
    }
    assert acceleration == Acceleration(keys, b.momentum);
    var v := b.velocity.Add(acceleration.Scale(dt));
    v := Vec2(Clamp(v.x, -b.momentum.maxSpeed, b.momentum.maxSpeed), Clamp(v.y, -b.momentum.maxSpeed, b.momentum.maxSpeed));
    r := b.(velocity := v, translation := b.translation.Add(v.Extend(0.0)));
  }

  /** The body of the `chase_movement` loop for one enemy; `aborted` is the early return taken
      when a Moving enemy finds no target. */
  method ChaseEnemy(x0: EnemyEntity, targets: seq<Vec3>, dt: real, normalize: Vec2 -> Vec2)
      returns (x: EnemyEntity, aborted: bool)
    requires ChaserValid(x0)
    ensures aborted <==> targets == [] && x0.enemy.state == Moving
    ensures aborted ==> x == x0.(fill := x0.enemy.colour)
    ensures !aborted && targets == [] ==> x == Drift(x0)
    ensures targets != [] ==> x == ChaseStep(x0, targets, dt, normalize)
  {
    x := x0;
    aborted := false;
    var v := x.velocity;
    if x.enemy.state == Moving {
      x := x.(fill := x.enemy.colour);
      var best := Nearest(x.translation, targets);
      if best.None? {
        aborted := true;
        return;
      }
      var t := targets[best.value];
      var direction := t.Truncate().Add(x.translation.Truncate().Scale(-1.0));
      var acceleration := normalize(direction).Scale(x.momentum.thrust).Scale(1.0 / x.momentum.mass);
      v := v.Add(acceleration.Scale(dt));
      v := Vec2(Clamp(v.x, -x.momentum.maxSpeed, x.momentum.maxSpeed), Clamp(v.y, -x.momentum.maxSpeed, x.momentum.maxSpeed));
    } else {
      x := x.(fill := Gray);
    }
    x := x.(velocity := v, translation := x.translation.Add(v.Extend(0.0)));
  }

  /** The frame entry at an index the loop reaches. */
  lemma {:induction false} FrameAt(es: seq<EnemyEntity>, targets: seq<Vec3>, dt: real, normalize: Vec2 -> Vec2, i: nat)
    requires AllChasersValid(es) && i < |es|
    requires targets == [] ==> forall k :: 0 <= k <= i ==> es[k].enemy.state == Stopped
    ensures ChaseFrame(es, targets, dt, normalize)[i] ==
              if targets == [] then Drift(es[i])
              else ChaseStep(es[i], targets, dt, normalize)
    decreases i
  {
    var tail := es[1..];
    assert AllChasersValid(tail) by {
      forall k | 0 <= k < |tail| ensures ChaserValid(tail[k]) { assert tail[k] == es[k + 1]; }
    }
    if i > 0 {
      FrameAt(tail, targets, dt, normalize, i - 1);
      assert tail[i - 1] == es[i];
    }
  }

  /** The frame at the first Moving enemy when there is no target: the rest is untouched. */
  lemma FrameAtFirstMoving(es: seq<EnemyEntity>, dt: real, normalize: Vec2 -> Vec2, i: nat)
    requires AllChasersValid(es) && i < |es| && es[i].enemy.state == Moving
    requires forall k :: 0 <= k < i ==> es[k].enemy.state == Stopped
    ensures ChaseFrame(es, [], dt, normalize)[i] == es[i].(fill := es[i].enemy.colour)
    ensures forall k :: i < k < |es| ==> ChaseFrame(es, [], dt, normalize)[k] == es[k]
  {
    ChaseWithoutTargets(es, dt, normalize, i);
    var r := ChaseFrame(es, [], dt, normalize);
    forall k | i < k < |es| ensures r[k] == es[k] {
      assert r[k] == r[i + 1..][k - i - 1];
      assert es[k] == es[i + 1..][k - i - 1];
    }
  }

  /** Chasing keeps every enemy's momentum, so the frame keeps the chasers valid. */
  lemma ChaseFrameValid(es: seq<EnemyEntity>, targets: seq<Vec3>, dt: real, normalize: Vec2 -> Vec2)
    requires AllChasersValid(es)
    ensures AllChasersValid(ChaseFrame(es, targets, dt, normalize))
  {
    var r := ChaseFrame(es, targets, dt, normalize);
    forall i | 0 <= i < |r| ensures ChaserValid(r[i]) { assert r[i].momentum == es[i].momentum; }
  }

  /** The movement plugin: `player_movement`, `chase_movement`, `bounded_movement` in that order,
      only while the in-game state is Playing. */
  method MovementUpdate(w: MovementWorld, playing: bool, keys: ButtonInput, dt: real, normalize: Vec2 -> Vec2,
                        window: Option<(real, real)>)
    requires w.Valid() && (window.Some? ==> window.value.0 >= 0.0 && window.value.1 >= 0.0)
    modifies w
    ensures |w.players| == |old(w.players)|
    ensures !playing ==> w.players == old(w.players) && w.enemies == old(w.enemies) && w.bounded == old(w.bounded)
    ensures playing ==> forall i :: 0 <= i < |w.players| ==> w.players[i] == PlayerStep(old(w.players)[i], keys, dt)
    ensures playing ==> w.enemies == ChaseFrame(old(w.enemies), Targets(w.players), dt, normalize)
    ensures playing && window.None? ==> w.bounded == old(w.bounded)
    ensures playing && window.Some? ==> w.bounded == BoundAll(old(w.bounded), window.value.0 / 2.0, window.value.1 / 2.0)
  {
    if playing {
      w.PlayerMovement(keys, dt);
      w.ChaseMovement(dt, normalize);
      w.BoundedMovement(window);
    }
  }
}
