/**
 * Geometry shared by motion_inclined_plane.js and circular_body_inclined.js: both build the
 * same right-triangle incline standing on the ground, put the moving body above its tall
 * side, and push that body with the same external force.
 */
module Incline {
  import opened Physics

  /** The vertical side of the triangle is always 300 high. */
  const FixedHeight: real := 300.0
  /** x of the plane's reference point. */
  const PlaneX: real := 250.0
  /** x where the block or the ball starts. */
  const MoverX: real := 200.0
  /** Scale from the force slider to Matter.js force units (the y part is negated). */
  const ForceScale: real := 0.0002
  /** The incline slider's range, in degrees. */
  const MinPlaneAngle: real := 10.0
  const MaxPlaneAngle: real := 60.0

  /** `toRadians(degrees)`: degrees * (π / 180). */
  function ToRadians(m: MathLib, degrees: real): real
  {
    degrees * (m.pi / 180.0)
  }

  /** tan is positive at every angle the incline slider can produce (a fact about Math.tan). */
  ghost predicate TanPositiveOnSliderRange(m: MathLib)
  {
    forall a :: MinPlaneAngle <= a <= MaxPlaneAngle ==> Tan(m, ToRadians(m, a)) > 0.0
  }

  /** Width of the triangle's base: 300 / tan(planeAngle in radians). */
  function BaseWidth(m: MathLib, planeAngle: real): real
    requires Tan(m, ToRadians(m, planeAngle)) != 0.0
  {
    FixedHeight / Tan(m, ToRadians(m, planeAngle))
  }

  /** The base is as wide as a slope of angle planeAngle needs to rise 300, and positive where tan is. */
  lemma BaseWidthRises(m: MathLib, planeAngle: real)
    requires Tan(m, ToRadians(m, planeAngle)) != 0.0
    ensures BaseWidth(m, planeAngle) * Tan(m, ToRadians(m, planeAngle)) == FixedHeight
    ensures Tan(m, ToRadians(m, planeAngle)) > 0.0 ==> BaseWidth(m, planeAngle) > 0.0
  {
  }

  /** The triangle, relative to its reference point: bottom left, bottom right, top left. */
  function TriangleVertices(baseWidth: real): seq<Vec>
  {
    [Vec(0.0, 0.0), Vec(baseWidth, 0.0), Vec(0.0, -FixedHeight)]
  }

  /**
   * The incline is a right triangle: its base is horizontal, its tall side vertical and
   * 300 long, the two meet at a right angle at the bottom left, and its slope rises 300
   * over the base width, i.e. tan of the plane angle.
   */
  lemma TriangleIsRight(m: MathLib, planeAngle: real)
    requires MinPlaneAngle <= planeAngle <= MaxPlaneAngle
    requires TanPositiveOnSliderRange(m)
    ensures var v := TriangleVertices(BaseWidth(m, planeAngle));
      && |v| == 3
      && v[0].y == v[1].y && v[0].x == v[2].x
      && v[0].y - v[2].y == FixedHeight
      && v[1].x - v[0].x > 0.0
      && (v[1].x - v[0].x) * (v[2].x - v[0].x) + (v[1].y - v[0].y) * (v[2].y - v[0].y) == 0.0
      && (v[0].y - v[2].y) == (v[1].x - v[0].x) * Tan(m, ToRadians(m, planeAngle))
  {
    assert Tan(m, ToRadians(m, planeAngle)) > 0.0;
    BaseWidthRises(m, planeAngle);
  }

  const PlaneHandle := Handle("inclinedPlane", 0)

  /** `Bodies.fromVertices(250, 550 - 300 / 2, [triangle], {isStatic, friction})`. */
  function Plane(m: MathLib, planeAngle: real, friction: real): Body
    requires Tan(m, ToRadians(m, planeAngle)) != 0.0
  {
    FromVertices(PlaneHandle, PlaneX, GroundTop - FixedHeight / 2.0, TriangleVertices(BaseWidth(m, planeAngle)),
                 StaticOptions.(friction := Some(friction)))
  }

  /** y where the block or the ball starts: the vertical side's height above the ground surface. */
  function MoverY(): real
  {
    GroundTop - FixedHeight
  }

  /**
   * The reference point passed for the plane is 150 above the ground top and 150 below
   * where the mover starts: the midpoint of the vertical side, had the vertex list been
   * placed by its own origin.
   */
  lemma PlaneReferenceMidway(m: MathLib, planeAngle: real, friction: real)
    requires Tan(m, ToRadians(m, planeAngle)) != 0.0
    ensures Plane(m, planeAngle, friction).position.y + FixedHeight / 2.0 == TopEdge(Ground(StaticOptions))
    ensures Plane(m, planeAngle, friction).position.y - FixedHeight / 2.0 == MoverY()
  {
  }

  /**
   * Where the plane actually stands: fromVertices centres the triangle on its centroid,
   * one third of the way up the vertical side, so the base lies at y = 500 and the apex
   * at y = 200, 50 above the ground top and 50 above where the mover starts.
   */
  lemma PlaneFloatsAboveGround(m: MathLib, planeAngle: real, friction: real)
    requires Tan(m, ToRadians(m, planeAngle)) != 0.0
    ensures var v := PlacedTriangle(Plane(m, planeAngle, friction));
      && v[0].y == v[1].y == GroundTop - FixedHeight / 6.0
      && v[2].y == MoverY() - FixedHeight / 6.0
      && v[0].x == v[2].x == PlaneX - BaseWidth(m, planeAngle) / 3.0
      && v[1].x == PlaneX + 2.0 * BaseWidth(m, planeAngle) / 3.0
  {
  }

  /**
   * The placement the builder's comments describe ("base positioned directly on the
   * ground surface"): the triangle's centroid one third of the height above the ground top.
   */
  function IntendedPlane(m: MathLib, planeAngle: real, friction: real): Body
    requires Tan(m, ToRadians(m, planeAngle)) != 0.0
  {
    FromVertices(PlaneHandle, PlaneX, GroundTop - FixedHeight / 3.0, TriangleVertices(BaseWidth(m, planeAngle)),
                 StaticOptions.(friction := Some(friction)))
  }

  /** With the intended placement the base rests on the ground top and the apex is level with the mover's start. */
  lemma IntendedPlaneRestsOnGround(m: MathLib, planeAngle: real, friction: real)
    requires Tan(m, ToRadians(m, planeAngle)) != 0.0
    ensures var v := PlacedTriangle(IntendedPlane(m, planeAngle, friction));
      && v[0].y == v[1].y == TopEdge(Ground(StaticOptions))
      && v[2].y == MoverY()
      && IntendedPlane(m, planeAngle, friction).shape == Plane(m, planeAngle, friction).shape
  {
  }

  /** The force applyExternalForce applies: F * 0.0002 * (cos θ, -sin θ), θ the force angle in radians. */
  function ExternalForce(m: MathLib, appliedForce: real, forceAngle: real): Vec
  {
    Vec(appliedForce * Cos(m, ToRadians(m, forceAngle)) * ForceScale,
        appliedForce * Sin(m, ToRadians(m, forceAngle)) * -ForceScale)
  }

  /**
   * The applied force has magnitude F * 0.0002 (given sin² + cos² = 1 at the angle), and
   * a positive angle with a positive sine points up the canvas (negative y).
   */
  lemma ExternalForceMagnitude(m: MathLib, appliedForce: real, forceAngle: real)
    requires UnitCircleAt(m, ToRadians(m, forceAngle))
    ensures var f := ExternalForce(m, appliedForce, forceAngle);
      f.x * f.x + f.y * f.y == (appliedForce * ForceScale) * (appliedForce * ForceScale)
  {
    var c, s := Cos(m, ToRadians(m, forceAngle)), Sin(m, ToRadians(m, forceAngle));
    var k := appliedForce * ForceScale;
    calc {
      ExternalForce(m, appliedForce, forceAngle).x * ExternalForce(m, appliedForce, forceAngle).x
        + ExternalForce(m, appliedForce, forceAngle).y * ExternalForce(m, appliedForce, forceAngle).y;
      (k * c) * (k * c) + (k * s) * (k * s);
      k * k * (c * c + s * s);
    }
  }

  lemma ExternalForceDirection(m: MathLib, appliedForce: real, forceAngle: real)
    requires appliedForce > 0.0
    ensures Sin(m, ToRadians(m, forceAngle)) > 0.0 ==> ExternalForce(m, appliedForce, forceAngle).y < 0.0
    ensures Cos(m, ToRadians(m, forceAngle)) > 0.0 ==> ExternalForce(m, appliedForce, forceAngle).x > 0.0
  {
  }
}
