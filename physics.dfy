/**
 * Value model of the Matter.js objects the simulation scripts create.
 *
 * Every factory call (`Bodies.circle`, `Bodies.rectangle`, `Bodies.fromVertices`,
 * `Constraint.create`) becomes a record; the world is the sequence of entries that
 * `Composite.add`/`World.add` appended since the last `World.clear(world, false)`.
 * Stepping, collisions and constraint solving are not modelled.
 */
module Physics {

  datatype Option<T> = None | Some(value: T)

  /** A point or a vector in canvas coordinates (y grows downwards). */
  datatype Vec = Vec(x: real, y: real)

  function Add(p: Vec, q: Vec): Vec { Vec(p.x + q.x, p.y + q.y) }

  function DistSq(p: Vec, q: Vec): real
  {
    (q.x - p.x) * (q.x - p.x) + (q.y - p.y) * (q.y - p.y)
  }

  /**
   * Math.PI, Math.sin, Math.cos and Math.tan. Their values are not interpreted: a fact
   * about them that a proof needs is stated as a hypothesis of that proof.
   */
  datatype MathLib = MathLib(pi: real, sin: real -> real, cos: real -> real, tan: real -> real)

  function Sin(m: MathLib, a: real): real { m.sin(a) }
  function Cos(m: MathLib, a: real): real { m.cos(a) }
  function Tan(m: MathLib, a: real): real { m.tan(a) }

  /** sin²(a) + cos²(a) = 1 at one angle. */
  predicate UnitCircleAt(m: MathLib, a: real)
  {
    m.sin(a) * m.sin(a) + m.cos(a) * m.cos(a) == 1.0
  }

  /**
   * The source variable a body is bound to (`balls[i]`, `pendulum1`, `ground`, ...).
   * It stands for the identity of the Matter.js object: two entries with the same
   * handle are the same object.
   */
  datatype Handle = Handle(name: string, index: nat)

  datatype Shape =
    | CircleShape(radius: real)
    | RectangleShape(width: real, height: real)
    | PolygonShape(vertices: seq<Vec>)

  /** The body options the scripts pass; `None` means the option was not given. */
  datatype Options = Options(
    isStatic: bool,
    mass: Option<real>,
    density: Option<real>,
    restitution: Option<real>,
    friction: Option<real>,
    frictionAir: Option<real>,
    angle: Option<real>,
    infiniteInertia: bool)

  const NoOptions := Options(false, None, None, None, None, None, None, false)
  const StaticOptions := NoOptions.(isStatic := true)

  datatype Body = Body(handle: Handle, position: Vec, shape: Shape, options: Options, velocity: Vec)

  /** `Bodies.circle(x, y, radius, options)`: a body at rest. */
  function Circle(h: Handle, x: real, y: real, radius: real, o: Options): Body
  {
    Body(h, Vec(x, y), CircleShape(radius), o, Vec(0.0, 0.0))
  }

  /** `Bodies.rectangle(x, y, width, height, options)`: a body at rest. */
  function Rectangle(h: Handle, x: real, y: real, width: real, height: real, o: Options): Body
  {
    Body(h, Vec(x, y), RectangleShape(width, height), o, Vec(0.0, 0.0))
  }

  /** `Bodies.fromVertices(x, y, [vertices], options)`: a body at rest. */
  function FromVertices(h: Handle, x: real, y: real, vertices: seq<Vec>, o: Options): Body
  {
    Body(h, Vec(x, y), PolygonShape(vertices), o, Vec(0.0, 0.0))
  }

  /** `Body.setVelocity(b, v)`. */
  function SetVelocity(b: Body, v: Vec): Body { b.(velocity := v) }

  /** `Body.setPosition(b, p)`. */
  function SetPosition(b: Body, p: Vec): Body { b.(position := p) }

  /** One end of a constraint: `bodyA`/`pointA` (or B). Without a body the point is fixed in the world. */
  datatype Endpoint = Endpoint(body: Option<Handle>, point: Vec)

  function AtPoint(p: Vec): Endpoint { Endpoint(None, p) }

  function OnBody(h: Handle, offset: Vec): Endpoint { Endpoint(Some(h), offset) }

  /** `Constraint.create({...})` with an explicit `length` and `stiffness`. */
  datatype Constraint = Constraint(a: Endpoint, b: Endpoint, length: real, stiffness: real)

  datatype Entity =
    | BodyEntry(body: Body)
    | ConstraintEntry(constraint: Constraint)
    | MouseConstraintEntry

  /** The world entries of a list of bodies, in order. */
  function Bodies(bs: seq<Body>): (es: seq<Entity>)
    ensures |es| == |bs|
    ensures forall i :: 0 <= i < |bs| ==> es[i] == BodyEntry(bs[i])
  {
    seq(|bs|, i requires 0 <= i < |bs| => BodyEntry(bs[i]))
  }

  /** The world entries of a list of constraints, in order. */
  function Constraints(cs: seq<Constraint>): (es: seq<Entity>)
    ensures |es| == |cs|
    ensures forall i :: 0 <= i < |cs| ==> es[i] == ConstraintEntry(cs[i])
  {
    seq(|cs|, i requires 0 <= i < |cs| => ConstraintEntry(cs[i]))
  }

  /** How many times `e` occurs in the world. */
  function Count(w: seq<Entity>, e: Entity): nat
  {
    if w == [] then 0 else (if w[0] == e then 1 else 0) + Count(w[1..], e)
  }

  /** y of the top surface of the 800×50 ground that most scripts create at (400, 575). */
  const GroundTop: real := 550.0

  /** `Bodies.rectangle(400, 575, 800, 50, options)` bound to a variable called `ground`. */
  function Ground(o: Options): Body
  {
    Rectangle(Handle("ground", 0), 400.0, 575.0, 800.0, 50.0, o)
  }

  /** Top edge of a rectangle body. */
  function TopEdge(b: Body): real
    requires b.shape.RectangleShape?
  {
    b.position.y - b.shape.height / 2.0
  }

  /** Bottom edge of a rectangle body. */
  function BottomEdge(b: Body): real
    requires b.shape.RectangleShape?
  {
    b.position.y + b.shape.height / 2.0
  }

  function Sub(p: Vec, q: Vec): Vec { Vec(p.x - q.x, p.y - q.y) }

  /** The mean of a triangle's three corners, which is also the centre of its area. */
  function TriangleCentroid(vs: seq<Vec>): Vec
    requires |vs| == 3
  {
    Vec((vs[0].x + vs[1].x + vs[2].x) / 3.0, (vs[0].y + vs[1].y + vs[2].y) / 3.0)
  }

  /**
   * Where `Bodies.fromVertices` puts a triangle's corners in the world: the shape keeps
   * its form and is moved so that its centre of mass, not the origin of its vertex list,
   * lands on the position given.
   */
  function PlacedTriangle(b: Body): (r: seq<Vec>)
    requires b.shape.PolygonShape? && |b.shape.vertices| == 3
    ensures |r| == 3
    ensures TriangleCentroid(r) == b.position
    ensures forall i, j :: 0 <= i < 3 && 0 <= j < 3 ==> Sub(r[i], r[j]) == Sub(b.shape.vertices[i], b.shape.vertices[j])
  {
    var vs := b.shape.vertices;
    var shift := Sub(b.position, TriangleCentroid(vs));
    [Add(vs[0], shift), Add(vs[1], shift), Add(vs[2], shift)]
  }
}
