/** The physics backend (jbox2d) as the engine sees it: a world that creates, destroys and steps
    bodies. Bodies, shapes and definitions are opaque records; nothing of the solver is modelled. */
module Backend {
  import opened JavaLang
  import opened Vecs

  /** A body handle: the index of the body in the world's creation history. */
  type Handle = nat

  datatype BodyType = Static | Kinematic | Dynamic

  /** The `BodyDef` fields the engine sets. */
  datatype BodyDef = BodyDef(bodyType: BodyType, active: bool, position: Vec2)

  /** `PolygonShape.setAsBox(hx, hy)` and `ChainShape.createChain(vertices, count)`. */
  datatype Shape =
    | AsBox(hx: real, hy: real)
    | Chain(vertices: seq<Vec2>, count: int)

  /** A `FixtureDef`; its shape is null until a shape object sets one. */
  datatype FixtureDef = FixtureDef(density: real, friction: real, restitution: real, shape: Option<Shape>)

  /** A body as created: its definition and the fixtures attached to it, in order. */
  datatype BodyRecord = BodyRecord(def: BodyDef, fixtures: seq<FixtureDef>)

  /** One call of `World.step(dt, velocityIterations, positionIterations)`. */
  datatype StepCall = StepCall(dt: real, velocityIterations: int, positionIterations: int)

  class World {
    const gravity: Vec2
    /** Every body ever created, indexed by handle. */
    var bodies: seq<BodyRecord>
    /** Handles of bodies not yet destroyed. */
    var live: set<Handle>
    /** Handles passed to `destroyBody`, in call order. */
    var destroyed: seq<Handle>
    /** Calls of `step`, in order. */
    var steps: seq<StepCall>

    /** Every live handle names a body that was created. */
    ghost predicate Valid()
      reads this
    {
      forall h :: h in live ==> h < |bodies|
    }

    constructor (gravity: Vec2)
      ensures Valid()
      ensures this.gravity == gravity
      ensures bodies == [] && live == {} && destroyed == [] && steps == []
    {
      this.gravity := gravity;
      bodies, live, destroyed, steps := [], {}, [], [];
    }

    /** `createBody(def)`: a fresh, live body with no fixtures. */
    method CreateBody(def: BodyDef) returns (h: Handle)
      requires Valid()
      modifies this
      ensures Valid()
      ensures h == |old(bodies)| && h !in old(live)
      ensures bodies == old(bodies) + [BodyRecord(def, [])]
      ensures live == old(live) + {h}
      ensures destroyed == old(destroyed) && steps == old(steps)
    {
      h := |bodies|;
      bodies := bodies + [BodyRecord(def, [])];
      live := live + {h};
    }

    /** `body.createFixture(def)`: appends a fixture to an existing body. */
    method CreateFixture(h: Handle, def: FixtureDef)
      requires Valid() && h < |bodies|
      modifies this
      ensures Valid()
      ensures bodies == old(bodies)[h := old(bodies)[h].(fixtures := old(bodies)[h].fixtures + [def])]
      ensures live == old(live) && destroyed == old(destroyed) && steps == old(steps)
    {
      bodies := bodies[h := bodies[h].(fixtures := bodies[h].fixtures + [def])];
    }

    /** `destroyBody(body)`: the body is no longer live; the call is recorded whether or not it was. */
    method DestroyBody(h: Handle)
      requires Valid()
      modifies this
      ensures Valid()
      ensures live == old(live) - {h}
      ensures destroyed == old(destroyed) + [h]
      ensures bodies == old(bodies) && steps == old(steps)
    {
      live := live - {h};
      destroyed := destroyed + [h];
    }

    /** `step(dt, velocityIterations, positionIterations)`: only the call is recorded. */
    method Step(dt: real, velocityIterations: int, positionIterations: int)
      requires Valid()
      modifies this
      ensures Valid()
      ensures steps == old(steps) + [StepCall(dt, velocityIterations, positionIterations)]
      ensures bodies == old(bodies) && live == old(live) && destroyed == old(destroyed)
    {
      steps := steps + [StepCall(dt, velocityIterations, positionIterations)];
    }
  }
}
