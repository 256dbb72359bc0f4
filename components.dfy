/** Value types shared by the game's systems: the engine's vectors and colours,
    entity handles, and the `Momentum` component (src/game/movement.rs). */
module Components {

  datatype Option<T> = None | Some(value: T)

  /** An entity handle; the engine hands out distinct ones. */
  type Entity = nat

  datatype Vec2 = Vec2(x: real, y: real) {
    function Add(o: Vec2): Vec2 { Vec2(x + o.x, y + o.y) }
    function Scale(k: real): Vec2 { Vec2(x * k, y * k) }
    /** `v.extend(z)` */
    function Extend(z: real): Vec3 { Vec3(x, y, z) }
  }

  const Vec2Zero := Vec2(0.0, 0.0)

  datatype Vec3 = Vec3(x: real, y: real, z: real) {
    function Add(o: Vec3): Vec3 { Vec3(x + o.x, y + o.y, z + o.z) }
    function Scale(k: real): Vec3 { Vec3(x * k, y * k, z * k) }
    /** `v.truncate()` */
    function Truncate(): Vec2 { Vec2(x, y) }
  }

  const Vec3Zero := Vec3(0.0, 0.0, 0.0)

  /** Squared Euclidean distance; it orders points exactly as `distance` does. */
  function DistanceSquared(a: Vec3, b: Vec3): (d: real)
    ensures d >= 0.0
  {
    (a.x - b.x) * (a.x - b.x) + (a.y - b.y) * (a.y - b.y) + (a.z - b.z) * (a.z - b.z)
  }

  /** A colour by its three sRGB channels, exactly as the game passes them. */
  datatype Color = Srgb(r: real, g: real, b: real)

  const White := Srgb(1.0, 1.0, 1.0)
  const Black := Srgb(0.0, 0.0, 0.0)

  /** A point given by its distance from the centre and its angle as a fraction of a full turn
      (the cosine and sine that turn it into coordinates are not modelled). */
  datatype PolarPoint = PolarPoint(distance: real, turns: real)

  /** An entity's shape: a closed polygon given by polar points or by coordinates, or a circle
      about the entity's centre. */
  datatype Path = PolarPolygon(polar: seq<PolarPoint>) | Polygon(points: seq<Vec2>) | Circle(radius: real)

  /** The `Momentum` component: top speed, mass and thrust of a moving body. */
  datatype Momentum = Momentum(maxSpeed: real, mass: real, thrust: real)
}

/** The game's events (src/game/events.rs; `ShipHit` and `ShipDestroyed` by the fields the enemy
    systems use) and the engine's event queues. */
module Events {
  import opened Components

  datatype RestartRequested = RestartRequested
  datatype MenuRequested = MenuRequested
  datatype TogglePauseRequested = TogglePauseRequested
  datatype EndGameTriggered = EndGameTriggered
  datatype OptionsRequested = OptionsRequested
  datatype UpdateOptions = UpdateOptions
  datatype AppExit = AppExit

  /** `ShipHit { id }`: the entity that was hit. */
  datatype ShipHit = ShipHit(id: Entity)

  /** `ShipDestroyed { x, y, colour }`: where a ship expired and what colour it was. */
  datatype ShipDestroyed = ShipDestroyed(x: real, y: real, colour: Color)

  /** An `EventWriter<T>`: everything sent through it this frame, in order. */
  class EventWriter<T> {
    var sent: seq<T>

    constructor ()
      ensures sent == []
    {
      sent := [];
    }

    method Send(e: T)
      modifies this
      ensures sent == old(sent) + [e]
    {
      sent := sent + [e];
    }
  }

  /** An `EventReader<T>`: the events not yet read by this system. */
  class EventReader<T> {
    var unread: seq<T>

    constructor (events: seq<T>)
      ensures unread == events
    {
      unread := events;
    }

    /** `reader.is_empty()` */
    function IsEmpty(): (b: bool)
      reads this
      ensures b <==> |unread| == 0
    {
      unread == []
    }

    /** `reader.clear()`: every pending event is marked as read. */
    method Clear()
      modifies this
      ensures unread == []
    {
      unread := [];
    }
  }
}
