/** The boundary of the Box2D physics engine and the small geometry types the
    machine code passes around.  The engine is opaque: a world only counts the
    bodies installed into it and records the steps asked of it; a contact list
    is a sequence of records the engine owns. */
module Physics {

  /** wxPoint: integer coordinates in centimetres. */
  datatype Point = Point(x: int, y: int) {
    function Plus(d: Point): Point {
      Point(x + d.x, y + d.y)
    }
  }

  /** wxSize. */
  datatype Size = Size(width: int, height: int)

  /** b2Vec2. */
  datatype Vec2 = Vec2(x: real, y: real)

  /** One entry of a body's contact list (b2ContactEdge): whether its contact
      is touching, and the linear velocity of the other body. */
  datatype ContactEdge = ContactEdge(touching: bool, otherVelocity: Vec2)

  /** A contact handed to a PreSolve callback (b2Contact). */
  class Contact {
    var enabled: bool
    var tangentSpeed: real

    constructor ()
      ensures enabled && tangentSpeed == 0.0
    {
      enabled := true;
      tangentSpeed := 0.0;
    }
  }

  /** The arguments of one b2World::Step call. */
  datatype Step = Step(elapsed: real, velocityIterations: int, positionIterations: int)

  /** b2World. */
  class World {
    const gravity: Vec2
    /** How many bodies have been installed into this world. */
    var bodies: nat
    /** The steps taken so far, oldest first. */
    var steps: seq<Step>

    constructor (gravity: Vec2)
      ensures this.gravity == gravity && bodies == 0 && steps == []
    {
      this.gravity := gravity;
      bodies := 0;
      steps := [];
    }

    /** PhysicsPolygon::InstallPhysics: create one body in this world. */
    method CreateBody()
      modifies this`bodies
      ensures bodies == old(bodies) + 1
    {
      bodies := bodies + 1;
    }

    /** b2World::Step: advance the simulation by `elapsed` seconds. */
    method Advance(elapsed: real, velocityIterations: int, positionIterations: int)
      modifies this`steps
      ensures steps == old(steps) + [Step(elapsed, velocityIterations, positionIterations)]
    {
      steps := steps + [Step(elapsed, velocityIterations, positionIterations)];
    }
  }

  /** The machine's contact listener.  Its class is not part of this model;
      only the registrations made through `Add` are kept, in order. */
  class ContactListener {
    var observers: seq<object>

    constructor ()
      ensures observers == []
    {
      observers := [];
    }

    /** ContactListener::Add: route contacts of a body to `observer`. */
    method Add(observer: object)
      modifies this`observers
      ensures observers == old(observers) + [observer]
    {
      observers := observers + [observer];
    }
  }
}
