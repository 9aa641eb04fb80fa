/** BasePhysicsObject, ShapeObject and AbstractBox, with the two concrete boxes Box and InsetBox.

    Every concrete body-backed object of the repository is an AbstractBox, so the chain
    BasePhysicsObject -> ShapeObject -> AbstractBox -> {Box, InsetBox} is one class here,
    `ShapeObject`, whose `kind` says which concrete box it is. Members named `Base...` are the
    BasePhysicsObject versions that the AbstractBox / ShapeObject overrides call through `super`. */
module ShapeObjects {
  import opened JavaLang
  import opened Vecs
  import opened MeasurementUtil
  import opened Backend
  import opened Shapes

  /** The concrete class: Box (a solid polygon) or InsetBox (a closed chain, stroked). */
  datatype BoxKind = Solid | Inset

  /** The part of `Paint` the objects configure. */
  datatype PaintStyle = Fill | Stroke

  /** `Color.WHITE` (0xFFFFFFFF) as a Java `int`. */
  const White: int := -1

  /** Defaults of BasePhysicsObject's field initialisers. */
  const DefaultDensity: real := 0.8
  const DefaultFriction: real := 0.7
  const DefaultRestitution: real := 0.8

  /** A snapshot of every field of a shape object. */
  datatype ShapeState = ShapeState(
    kind: BoxKind,
    color: int,
    style: PaintStyle,
    visible: bool,
    position: Vec2,
    rotation: real,
    body: Option<Handle>,
    density: real,
    friction: real,
    restitution: real,
    bodyType: BodyType,
    relativePosition: Option<Vec2>,
    top: real,
    left: real,
    right: real,
    bottom: real,
    width: real,
    height: real,
    relativeSize: bool)
  {
    /** BasePhysicsObject.requiresRelative: a relative position is pending. */
    predicate BaseRequiresRelative() {
      relativePosition.Some?
    }

    /** AbstractBox.requiresRelative: a relative position or a relative size is pending. */
    predicate RequiresRelative() {
      BaseRequiresRelative() || relativeSize
    }

    /** The state after BasePhysicsObject.setupRelative returns normally: a pending relative
        position becomes the absolute position (fraction times world size) and is consumed. */
    function BaseResolved(w: int32, h: int32): ShapeState
    {
      match relativePosition
      case None => this
      case Some(rel) => this.(position := Vec(w as real * rel.x, h as real * rel.y), relativePosition := None)
    }

    /** The state after AbstractBox.setupRelative returns normally: the base resolution, then a
        pending relative size scales width and height by the world size and is consumed. The edge
        coordinates keep their constructor values. */
    function Resolved(w: int32, h: int32): ShapeState
    {
      var based := BaseResolved(w, h);
      if relativeSize then based.(width := w as real * width, height := h as real * height, relativeSize := false)
      else based
    }

    /** BasePhysicsObject.createBodyDefinition: configured type, active, position in metres. */
    function CreateBodyDefinition(): BodyDef {
      BodyDef(bodyType, true, PixelToMetersVec(position))
    }

    /** BasePhysicsObject.defineFixture: the configured material, no shape yet. */
    function BaseDefineFixture(): FixtureDef {
      FixtureDef(density, friction, restitution, None)
    }

    /** Box.createShape or InsetBox.createShape, by concrete class. */
    function CreateShape(): Shape {
      match kind
      case Solid => BoxShape(width, height)
      case Inset => InsetChain(left, top, right, bottom)
    }

    /** ShapeObject.defineFixture: the base fixture with the concrete class's shape. */
    function DefineFixture(): FixtureDef {
      BaseDefineFixture().(shape := Some(CreateShape()))
    }

    /** The body `onCreate` adds to the world for an object in this state. */
    function CreationRecord(): BodyRecord {
      BodyRecord(CreateBodyDefinition(), [DefineFixture()])
    }
  }

  /** A freshly constructed box of the given kind and size (AbstractBox constructor plus the
      BasePhysicsObject field initialisers). */
  function Initial(kind: BoxKind, width: real, height: real): ShapeState {
    ShapeState(kind, White, if kind == Inset then Stroke else Fill, true, Vec2(0.0, 0.0), 0.0, None,
               DefaultDensity, DefaultFriction, DefaultRestitution, Dynamic, None,
               height * -0.5, width * -0.5, width * 0.5, height * 0.5, width, height, false)
  }

  class ShapeObject {
    const kind: BoxKind
    var color: int
    var style: PaintStyle
    var visible: bool
    var position: Vec2
    var rotation: real
    var body: Option<Handle>
    var density: real
    var friction: real
    var restitution: real
    var bodyType: BodyType
    var relativePosition: Option<Vec2>
    var top: real
    var left: real
    var right: real
    var bottom: real
    var width: real
    var height: real
    var relativeSize: bool

    /** All fields of this object, as a value. */
    function State(): ShapeState
      reads this
    {
      ShapeState(kind, color, style, visible, position, rotation, body, density, friction, restitution,
                 bodyType, relativePosition, top, left, right, bottom, width, height, relativeSize)
    }

    /** `new Box(width, height)`: the BasePhysicsObject field initialisers, then the AbstractBox
        constructor. */
    constructor Box(width: real, height: real)
      ensures State() == Initial(Solid, width, height)
    {
      kind := Solid;
      color, style, visible := White, Fill, true;
      position, rotation, body := Vec2(0.0, 0.0), 0.0, None;
      density, friction, restitution := DefaultDensity, DefaultFriction, DefaultRestitution;
      bodyType, relativePosition, relativeSize := Dynamic, None, false;
      this.width, this.height := width, height;
      top, bottom, left, right := height * -0.5, height * 0.5, width * -0.5, width * 0.5;
    }

    /** `new InsetBox(width, height)`: as Box, after which the paint is switched to a stroke. */
    constructor InsetBox(width: real, height: real)
      ensures State() == Initial(Inset, width, height)
    {
      kind := Inset;
      color, style, visible := White, Fill, true;
      position, rotation, body := Vec2(0.0, 0.0), 0.0, None;
      density, friction, restitution := DefaultDensity, DefaultFriction, DefaultRestitution;
      bodyType, relativePosition, relativeSize := Dynamic, None, false;
      this.width, this.height := width, height;
      top, bottom, left, right := height * -0.5, height * 0.5, width * -0.5, width * 0.5;
      style := Stroke;
    }

    // Builder setters: each changes its own field only and returns the object itself.

    method SetColor(c: int) returns (self: ShapeObject)
      modifies this
      ensures self == this && State() == old(State()).(color := c)
    {
      color := c;
      return this;
    }

    method SetVisible(v: bool) returns (self: ShapeObject)
      modifies this
      ensures self == this && State() == old(State()).(visible := v)
    {
      visible := v;
      return this;
    }

    method SetDensity(d: real) returns (self: ShapeObject)
      modifies this
      ensures self == this && State() == old(State()).(density := d)
    {
      density := d;
      return this;
    }

    method SetFriction(f: real) returns (self: ShapeObject)
      modifies this
      ensures self == this && State() == old(State()).(friction := f)
    {
      friction := f;
      return this;
    }

    method SetRestitution(r: real) returns (self: ShapeObject)
      modifies this
      ensures self == this && State() == old(State()).(restitution := r)
    {
      restitution := r;
      return this;
    }

    method SetPosition(p: Vec2) returns (self: ShapeObject)
      modifies this
      ensures self == this && State() == old(State()).(position := p)
    {
      position := p;
      return this;
    }

    method SetType(t: BodyType) returns (self: ShapeObject)
      modifies this
      ensures self == this && State() == old(State()).(bodyType := t)
    {
      bodyType := t;
      return this;
    }

    /** `setPosition(float x, float y)`. */
    method SetPositionXY(x: real, y: real) returns (self: ShapeObject)
      modifies this
      ensures self == this && State() == old(State()).(position := Vec2(x, y))
    {
      self := SetPosition(Vec(x, y));
    }

    /** `setRelativePosition(x, y)`: from now on the object requires relative resolution. */
    method SetRelativePosition(x: real, y: real) returns (self: ShapeObject)
      modifies this
      ensures self == this && State() == old(State()).(relativePosition := Some(Vec2(x, y)))
      ensures State().BaseRequiresRelative() && State().RequiresRelative()
    {
      relativePosition := Some(Vec(x, y));
      return this;
    }

    /** AbstractBox.relative(): the width and height are fractions of the world size. */
    method Relative() returns (self: ShapeObject)
      modifies this
      ensures self == this && State() == old(State()).(relativeSize := true)
      ensures State().RequiresRelative()
    {
      relativeSize := true;
      return this;
    }

    /** BasePhysicsObject.requiresRelative. */
    method BaseRequiresRelative() returns (r: bool)
      ensures r == State().BaseRequiresRelative()
    {
      r := relativePosition.Some?;
    }

    /** AbstractBox.requiresRelative: the base answer or the relative-size flag. */
    method RequiresRelative() returns (r: bool)
      ensures r == State().RequiresRelative()
    {
      r := BaseRequiresRelative();
      r := r || relativeSize;
    }

    /** BasePhysicsObject.setupRelative: throws IllegalStateException once a body exists;
        otherwise resolves a pending relative position. */
    method BaseSetupRelative(w: int32, h: int32) returns (outcome: Outcome)
      modifies this
      ensures outcome == if old(body).Some? then Fail(IllegalState) else Pass
      ensures State() == if old(body).Some? then old(State()) else old(State()).BaseResolved(w, h)
    {
      if body.Some? {
        return Fail(IllegalState);
      }
      if relativePosition.Some? {
        var x := w as real * relativePosition.value.x;
        var y := h as real * relativePosition.value.y;
        var _ := SetPositionXY(x, y);
        relativePosition := None;
      }
      return Pass;
    }

    /** AbstractBox.setupRelative: the base check and resolution first (so it throws before the
        size is touched), then a pending relative size scales width and height. */
    method SetupRelative(w: int32, h: int32) returns (outcome: Outcome)
      modifies this
      ensures outcome == if old(body).Some? then Fail(IllegalState) else Pass
      ensures State() == if old(body).Some? then old(State()) else old(State()).Resolved(w, h)
    {
      outcome := BaseSetupRelative(w, h);
      if outcome.Fail? {
        return;
      }
      if relativeSize {
        width := w as real * width;
        height := h as real * height;
        relativeSize := false;
      }
    }

    /** BasePhysicsObject.onCreate: one new body from the current pose and type, then
        onBodyCreation attaches one fixture. An existing body is not checked for. */
    method OnCreate(world: World)
      requires world.Valid()
      modifies this, world
      ensures world.Valid()
      ensures State() == old(State()).(body := Some(|old(world.bodies)|))
      ensures world.bodies == old(world.bodies) + [old(State()).CreationRecord()]
      ensures world.live == old(world.live) + {|old(world.bodies)|}
      ensures world.destroyed == old(world.destroyed) && world.steps == old(world.steps)
    {
      ghost var before := State();
      var handle := world.CreateBody(State().CreateBodyDefinition());
      ghost var created := world.bodies;
      OnBodyCreation(world, handle);
      assert created[handle] == BodyRecord(before.CreateBodyDefinition(), []);
      assert [] + [before.DefineFixture()] == [before.DefineFixture()];
    }

    /** BasePhysicsObject.onBodyCreation: records the body and attaches the fixture defined by
        defineFixture (which ShapeObject overrides to add the shape). */
    method OnBodyCreation(world: World, handle: Handle)
      requires world.Valid() && handle < |world.bodies|
      modifies this, world
      ensures world.Valid()
      ensures State() == old(State()).(body := Some(handle))
      ensures world.bodies == old(world.bodies)[handle :=
                old(world.bodies)[handle].(fixtures := old(world.bodies)[handle].fixtures + [old(State()).DefineFixture()])]
      ensures world.live == old(world.live) && world.destroyed == old(world.destroyed)
      ensures world.steps == old(world.steps)
    {
      body := Some(handle);
      var fixture := State().DefineFixture();
      world.CreateFixture(handle, fixture);
    }

    /** BasePhysicsObject.onDestroy: destroys the body if there is one. The `body` field is not
        cleared, so a later setupRelative still throws and a second onDestroy destroys again. */
    method OnDestroy(world: World)
      requires world.Valid()
      modifies world
      ensures world.Valid()
      ensures world.destroyed == old(world.destroyed) + (if body.Some? then [body.value] else [])
      ensures world.live == (if body.Some? then old(world.live) - {body.value} else old(world.live))
      ensures world.bodies == old(world.bodies) && world.steps == old(world.steps)
    {
      if body.Some? {
        world.DestroyBody(body.value);
      }
    }
  }

  /** The states of a sequence of shape objects, position by position. */
  ghost function States(L: seq<ShapeObject>): (r: seq<ShapeState>)
    reads set l | l in L
    ensures |r| == |L|
  {
    seq(|L|, j requires 0 <= j < |L| reads set l | l in L => L[j].State())
  }

  /** A freshly constructed box is centred on its position: its edges span its width and height. */
  lemma InitialEdges(kind: BoxKind, width: real, height: real)
    ensures var s := Initial(kind, width, height);
      s.right - s.left == width && s.bottom - s.top == height &&
      s.left == -s.right && s.top == -s.bottom &&
      !s.RequiresRelative() && s.body.None?
  {
  }

  /** BasePhysicsObject.setupRelative makes requiresRelative false, places the object at the
      given fraction of the world size, and does nothing when no relative position is pending. */
  lemma BaseResolvedSpec(s: ShapeState, w: int32, h: int32)
    ensures var r := s.BaseResolved(w, h);
      && !r.BaseRequiresRelative()
      && (s.relativePosition.Some? ==>
            r.position == Vec2(w as real * s.relativePosition.value.x, h as real * s.relativePosition.value.y))
      && (s.relativePosition.None? ==> r == s)
  {
  }

  /** AbstractBox.setupRelative makes requiresRelative false (the promise of the PhysicsObject
      interface), scales a relative size by the world size, and does nothing when nothing relative
      is pending. */
  lemma ResolvedSpec(s: ShapeState, w: int32, h: int32)
    ensures var r := s.Resolved(w, h);
      && !r.RequiresRelative()
      && (!s.RequiresRelative() ==> r == s)
      && (s.relativeSize ==> r.width == w as real * s.width && r.height == h as real * s.height)
      && (!s.relativeSize ==> r.width == s.width && r.height == s.height)
      && r.position == s.BaseResolved(w, h).position
  {
  }

  /** Resolution consumes what it resolves: a second setupRelative, whatever the size, changes
      nothing, so a box is never rescaled twice. */
  lemma ResolvedIdempotent(s: ShapeState, w: int32, h: int32, w2: int32, h2: int32)
    ensures s.Resolved(w, h).Resolved(w2, h2) == s.Resolved(w, h)
  {
  }

  /** Resolution changes only the position, the size and the pending relative data: the body, the
      material and the edge coordinates computed by the constructor are kept. */
  lemma ResolvedKeepsTheRest(s: ShapeState, w: int32, h: int32)
    ensures var r := s.Resolved(w, h);
      r == s.(position := r.position, relativePosition := None,
              width := r.width, height := r.height, relativeSize := false)
  {
  }

  /** The body onCreate adds: configured type, active, position converted to metres, and one
      fixture with the configured material and the shape of the concrete class. */
  lemma CreationRecordSpec(s: ShapeState)
    ensures var r := s.CreationRecord();
      r.def.bodyType == s.bodyType && r.def.active &&
      MetersToPixels(r.def.position) == s.position &&
      |r.fixtures| == 1 &&
      r.fixtures[0].density == s.density && r.fixtures[0].friction == s.friction &&
      r.fixtures[0].restitution == s.restitution &&
      r.fixtures[0].shape == Some(s.CreateShape())
  {
    VectorRoundTrips(s.position);
  }

  /** The shape a Box creates uses its current width and height (scaled, after a relative size was
      resolved) converted to metres; an InsetBox's chain uses the raw edge coordinates. */
  lemma CreateShapeSpec(s: ShapeState)
    ensures s.kind == Solid ==>
              s.CreateShape().AsBox? &&
              MetersToPixel(s.CreateShape().hx) == s.width && MetersToPixel(s.CreateShape().hy) == s.height
    ensures s.kind == Inset ==>
              s.CreateShape() == Chain([Vec2(s.left, s.top), Vec2(s.right, s.top), Vec2(s.right, s.bottom),
                                        Vec2(s.left, s.bottom), Vec2(s.left, s.top)], 5)
  {
  }
}
