/** Plain character movement, as src/plugins/player.rs and src/systems/mod.rs both write
    `character_movement`: W/Up, S/Down, A/Left and D/Right each move the character by
    `speed * delta` along their axis, a diagonal step is divided by the square root of two, and
    the height is never touched. */
module Character {
  import opened Components
  import opened Input

  /** The `Player { speed }` the startup system spawns. */
  const StartupSpeed: real := 100.0

  /** A character: the translation of its transform and the speed of its `Player` component. */
  datatype Body = Body(translation: Vec3, speed: real)

  /** The character `startup` spawns: at the origin, with speed 100. */
  function StartupPlayer(): (b: Body)
    ensures b.translation == Vec3Zero && b.speed == StartupSpeed
  {
    Body(Vec3Zero, 100.0)
  }

  predicate UpHeld(input: ButtonInput) { KeyW in input.pressed || ArrowUp in input.pressed }
  predicate DownHeld(input: ButtonInput) { KeyS in input.pressed || ArrowDown in input.pressed }
  predicate LeftHeld(input: ButtonInput) { KeyA in input.pressed || ArrowLeft in input.pressed }
  predicate RightHeld(input: ButtonInput) { KeyD in input.pressed || ArrowRight in input.pressed }

  /** The direction of one axis: +1, -1, or 0 when neither or both of its keys are held. */
  function Axis(plus: bool, minus: bool): (a: int)
    ensures -1 <= a <= 1
    ensures a == 0 <==> plus == minus
    ensures a == 1 <==> plus && !minus
  {
    (if plus then 1 else 0) - (if minus then 1 else 0)
  }

  /** The step of one frame, by axis: `speed * delta` times the direction of each axis, divided by
      `root2` when both axes move. */
  function Offset(input: ButtonInput, speed: real, delta: real, root2: real): (d: Vec3)
    requires root2 > 0.0
    ensures d.z == 0.0
  {
    var m := speed * delta;
    var ax := Axis(RightHeld(input), LeftHeld(input)) as real;
    var ay := Axis(UpHeld(input), DownHeld(input)) as real;
    if ax != 0.0 && ay != 0.0 && m != 0.0 then Vec3(ax * m / root2, ay * m / root2, 0.0)
    else Vec3(ax * m, ay * m, 0.0)
  }

  /** The step as `character_movement` builds it, one key test at a time; equal to `Offset`. */
  method StepCharacter(input: ButtonInput, speed: real, delta: real, root2: real) returns (t: Vec3)
    requires root2 > 0.0
    ensures t == Offset(input, speed, delta, root2)
  {
    var movementAmount := speed * delta;
    t := Vec3Zero;
    if KeyW in input.pressed || ArrowUp in input.pressed {
      t := t.(y := t.y + movementAmount);
    }
    if KeyS in input.pressed || ArrowDown in input.pressed {
      t := t.(y := t.y - movementAmount);
    }
    if KeyA in input.pressed || ArrowLeft in input.pressed {
      t := t.(x := t.x - movementAmount);
    }
    if KeyD in input.pressed || ArrowRight in input.pressed {
      t := t.(x := t.x + movementAmount);
    }
    if t.x != 0.0 && t.y != 0.0 {
      t := Vec3(t.x / root2, t.y / root2, t.z / root2);
    }
  }

  /** With no movement key held the character stays where it is. */
  lemma NoKeysNoStep(input: ButtonInput, speed: real, delta: real, root2: real)
    requires root2 > 0.0
    requires !UpHeld(input) && !DownHeld(input) && !LeftHeld(input) && !RightHeld(input)
    ensures Offset(input, speed, delta, root2) == Vec3Zero
  {
  }

  /** Holding both keys of an axis is holding neither: that axis does not move, and the other
      moves its full amount. */
  lemma OppositeKeysCancel(input: ButtonInput, speed: real, delta: real, root2: real)
    requires root2 > 0.0
    ensures UpHeld(input) && DownHeld(input) ==>
              var d := Offset(input, speed, delta, root2);
              d.y == 0.0 && d.x == Axis(RightHeld(input), LeftHeld(input)) as real * (speed * delta)
    ensures LeftHeld(input) && RightHeld(input) ==>
              var d := Offset(input, speed, delta, root2);
              d.x == 0.0 && d.y == Axis(UpHeld(input), DownHeld(input)) as real * (speed * delta)
  {
  }

  /** A step along one axis is exactly `speed * delta` in that axis's direction. */
  lemma StraightStep(input: ButtonInput, speed: real, delta: real, root2: real)
    requires root2 > 0.0
    requires Axis(UpHeld(input), DownHeld(input)) == 0 || Axis(RightHeld(input), LeftHeld(input)) == 0
    ensures var d := Offset(input, speed, delta, root2);
            && d.x == Axis(RightHeld(input), LeftHeld(input)) as real * (speed * delta)
            && d.y == Axis(UpHeld(input), DownHeld(input)) as real * (speed * delta)
  {
  }

  /** Dividing a diagonal step by the square root of two makes it as long as a straight one. */
  lemma DiagonalKeepsSpeed(input: ButtonInput, speed: real, delta: real, root2: real)
    requires root2 > 0.0 && root2 * root2 == 2.0
    requires Axis(UpHeld(input), DownHeld(input)) != 0 && Axis(RightHeld(input), LeftHeld(input)) != 0
    ensures var d := Offset(input, speed, delta, root2);
            d.x * d.x + d.y * d.y == (speed * delta) * (speed * delta)
  {
    var m := speed * delta;
    var d := Offset(input, speed, delta, root2);
    if m != 0.0 {
      var q := m / root2;
      assert q * root2 == m;
      assert d.x * d.x == q * q && d.y * d.y == q * q;
      calc {
        m * m;
        (q * root2) * (q * root2);
        (q * q) * (root2 * root2);
        2.0 * (q * q);
      }
    }
  }

  /** The characters: every entity with a transform and a `Player`. */
  class Characters {
    var bodies: seq<Body>

    constructor ()
      ensures bodies == []
    {
      bodies := [];
    }

    /** `character_movement`: every character's translation advances by its own step; its speed
        is kept.  `root2` stands for `f32::sqrt(2.0)`. */
    method CharacterMovement(input: ButtonInput, delta: real, root2: real)
      requires root2 > 0.0
      modifies this
      ensures |bodies| == |old(bodies)|
      ensures forall k :: 0 <= k < |bodies| ==>
                bodies[k] == old(bodies)[k].(translation := old(bodies)[k].translation.Add(
                                                 Offset(input, old(bodies)[k].speed, delta, root2)))
    {
      var i := 0;
      while i < |bodies|
        invariant 0 <= i <= |bodies| == |old(bodies)|
        invariant forall k :: 0 <= k < i ==>
                    bodies[k] == old(bodies)[k].(translation := old(bodies)[k].translation.Add(
                                                     Offset(input, old(bodies)[k].speed, delta, root2)))
        invariant forall k :: i <= k < |bodies| ==> bodies[k] == old(bodies)[k]
      {
        var step := StepCharacter(input, bodies[i].speed, delta, root2);
        bodies := bodies[i := bodies[i].(translation := bodies[i].translation.Add(step))];
        i := i + 1;
      }
    }
  }
}
