/**
 * circular_body_inclined.js: a ball rolling on a right-triangle incline, with friction,
 * gravity and an optional external push.
 */
module CircularBodyInclined {
  import opened Physics
  import opened Incline

  const BallMass: real := 10.0
  const BallHandle := Handle("ball", 0)

  /** The ball: a circle of radius `ballRadius`, free to rotate. */
  function Ball(friction: real, ballRadius: real): Body
  {
    Circle(BallHandle, MoverX, MoverY(), ballRadius,
           NoOptions.(mass := Some(BallMass), friction := Some(friction), frictionAir := Some(0.01)))
  }

  /** What one build adds to the world: a fresh ground, the plane, the ball. */
  function SceneEntities(m: MathLib, planeAngle: real, friction: real, ballRadius: real): seq<Entity>
    requires Tan(m, ToRadians(m, planeAngle)) != 0.0
  {
    [BodyEntry(Ground(StaticOptions)), BodyEntry(Plane(m, planeAngle, friction)),
     BodyEntry(Ball(friction, ballRadius))]
  }

  /**
   * The ball shares the plane's friction, keeps its rotation free (no inertia override,
   * no initial angle) and starts 150 above the plane's reference point.
   */
  lemma BallMatchesPlane(m: MathLib, planeAngle: real, friction: real, ballRadius: real)
    requires Tan(m, ToRadians(m, planeAngle)) != 0.0
    ensures var b, p := Ball(friction, ballRadius), Plane(m, planeAngle, friction);
      && b.options.friction == p.options.friction == Some(friction)
      && b.options.angle == None && !b.options.infiniteInertia
      && !b.options.isStatic && p.options.isStatic
      && b.shape == CircleShape(ballRadius)
      && b.position == Vec(MoverX, p.position.y - FixedHeight / 2.0)
  {
  }

  /** The GUI mirror object `guiParams`. */
  datatype GuiParams = GuiParams(friction: real, appliedForce: real, forceAngle: real, planeAngle: real, ballRadius: real)

  class Scene {
    const math: MathLib
    var ball: Option<Body>
    var inclinedPlane: Option<Body>
    var friction: real
    var appliedForce: real
    var forceAngle: real
    var gravity: real
    var planeAngle: real
    var ballRadius: real
    /** engine.world.gravity.y */
    var gravityY: real
    /** How many `beforeUpdate` handlers the builds have registered with the engine. */
    var beforeUpdateListeners: nat
    var world: seq<Entity>
    var isPlaying: bool
    var running: bool
    var guiParams: GuiParams

    /** Math.tan is positive over the incline slider's range and the incline angle is in that range. */
    ghost predicate AngleInRange()
      reads this
    {
      TanPositiveOnSliderRange(math) && MinPlaneAngle <= planeAngle <= MaxPlaneAngle
    }

    /** The world holds exactly the ground, plane and ball built from the current globals. */
    ghost predicate Valid()
      reads this
    {
      && AngleInRange()
      && Tan(math, ToRadians(math, planeAngle)) > 0.0
      && inclinedPlane == Some(Plane(math, planeAngle, friction))
      && ball == Some(Ball(friction, ballRadius))
      && world == SceneEntities(math, planeAngle, friction, ballRadius)
      && gravityY == gravity
    }

    /** Loading the script on an empty world: gravity 1, globals, GUI mirror, then `circularMotionInclined(0.3, 0, 0, 1, 30, 25)`. */
    constructor (m: MathLib, playing: bool, runnerRunning: bool)
      requires TanPositiveOnSliderRange(m)
      ensures Valid() && math == m
      ensures friction == 0.3 && appliedForce == 0.0 && forceAngle == 0.0 && gravity == 1.0
      ensures planeAngle == 30.0 && ballRadius == 25.0
      ensures beforeUpdateListeners == 1
      ensures guiParams == GuiParams(0.3, 0.0, 0.0, 30.0, 25.0)
      ensures isPlaying == playing && running == runnerRunning
    {
      math := m;
      gravityY := 1.0;
      ball, inclinedPlane := None, None;
      friction, appliedForce, forceAngle, gravity, planeAngle, ballRadius := 0.3, 0.0, 0.0, 1.0, 30.0, 25.0;
      beforeUpdateListeners := 0;
      world := [];
      isPlaying, running := playing, runnerRunning;
      guiParams := GuiParams(0.3, 0.0, 0.0, 30.0, 25.0);
      new;
      CircularMotionInclined(0.3, 0.0, 0.0, 1.0, 30.0, 25.0);
    }

    /**
     * `circularMotionInclined(...)`: store the six arguments in the globals, set gravity,
     * append ground, plane and ball to the world (which it does not clear), and register
     * one more `beforeUpdate` handler.
     */
    method CircularMotionInclined(frictionCoeff: real, force: real, forceAngleDeg: real, gravityConstant: real,
                                  inclineAngle: real, ballRadiusParam: real)
      requires Tan(math, ToRadians(math, inclineAngle)) != 0.0
      modifies this`friction, this`appliedForce, this`forceAngle, this`gravity, this`planeAngle, this`ballRadius
      modifies this`gravityY, this`inclinedPlane, this`ball, this`world, this`beforeUpdateListeners
      ensures friction == frictionCoeff && appliedForce == force && forceAngle == forceAngleDeg
      ensures gravity == gravityConstant && planeAngle == inclineAngle && ballRadius == ballRadiusParam
      ensures gravityY == gravityConstant
      ensures inclinedPlane == Some(Plane(math, inclineAngle, frictionCoeff))
      ensures ball == Some(Ball(frictionCoeff, ballRadiusParam))
      ensures world == old(world) + SceneEntities(math, inclineAngle, frictionCoeff, ballRadiusParam)
      ensures beforeUpdateListeners == old(beforeUpdateListeners) + 1
    {
      friction, appliedForce, forceAngle := frictionCoeff, force, forceAngleDeg;
      gravity, planeAngle, ballRadius := gravityConstant, inclineAngle, ballRadiusParam;
      gravityY := gravity;

      var baseWidth := FixedHeight / Tan(math, ToRadians(math, planeAngle));
      inclinedPlane := Some(FromVertices(PlaneHandle, 250.0, GroundTop - FixedHeight / 2.0,
                                         [Vec(0.0, 0.0), Vec(baseWidth, 0.0), Vec(0.0, -FixedHeight)],
                                         StaticOptions.(friction := Some(friction))));
      ball := Some(Circle(BallHandle, 200.0, GroundTop - FixedHeight, ballRadius,
                          NoOptions.(mass := Some(BallMass), friction := Some(friction), frictionAir := Some(0.01))));
      world := world + [BodyEntry(Ground(StaticOptions)), BodyEntry(inclinedPlane.value), BodyEntry(ball.value)];
      beforeUpdateListeners := beforeUpdateListeners + 1;
    }

    /**
     * `applyExternalForce()`: the force it applies to the ball at its centre, or `None`
     * when there is no ball or the force magnitude is not positive.
     */
    method ApplyExternalForce() returns (applied: Option<Vec>)
      ensures applied.Some? <==> ball.Some? && appliedForce > 0.0
      ensures applied.Some? ==> applied.value == ExternalForce(math, appliedForce, forceAngle)
    {
      applied := None;
      if ball.Some? && appliedForce > 0.0 {
        var forceX := appliedForce * Cos(math, ToRadians(math, forceAngle)) * 0.0002;
        var forceY := appliedForce * Sin(math, ToRadians(math, forceAngle)) * -0.0002;
        applied := Some(Vec(forceX, forceY));
      }
    }

    /** One registered `beforeUpdate` handler: apply the external force only when it is positive. */
    method BeforeUpdateHandler() returns (applied: Option<Vec>)
      ensures applied.Some? <==> ball.Some? && appliedForce > 0.0
      ensures applied.Some? ==> applied.value == ExternalForce(math, appliedForce, forceAngle)
    {
      applied := None;
      if appliedForce > 0.0 {
        applied := ApplyExternalForce();
      }
    }

    /** `resetScene()`: the reset button; unlike most scripts it also clears isPlaying. */
    method ResetScene()
      requires AngleInRange()
      modifies this
      ensures Valid()
      ensures friction == old(friction) && appliedForce == old(appliedForce) && forceAngle == old(forceAngle)
      ensures gravity == old(gravity) && planeAngle == old(planeAngle) && ballRadius == old(ballRadius)
      ensures beforeUpdateListeners == old(beforeUpdateListeners) + 1
      ensures !isPlaying && !running
      ensures guiParams == GuiParams(friction, appliedForce, forceAngle, planeAngle, ballRadius)
    {
      isPlaying := false;
      running := false;
      world := [];
      CircularMotionInclined(friction, appliedForce, forceAngle, gravity, planeAngle, ballRadius);
      ResetGUI();
    }

    /** `resetparams()`: what the friction, incline and radius sliders call. */
    method ResetParams()
      requires AngleInRange()
      modifies this
      ensures Valid()
      ensures friction == old(friction) && appliedForce == old(appliedForce) && forceAngle == old(forceAngle)
      ensures gravity == old(gravity) && planeAngle == old(planeAngle) && ballRadius == old(ballRadius)
      ensures beforeUpdateListeners == old(beforeUpdateListeners) + 1
      ensures !isPlaying && !running
      ensures guiParams == old(guiParams)
    {
      running := false;
      isPlaying := false;
      world := [];
      CircularMotionInclined(friction, appliedForce, forceAngle, gravity, planeAngle, ballRadius);
    }

    /** The friction slider rebuilds the scene. */
    method OnFrictionChange(value: real)
      requires AngleInRange()
      modifies this
      ensures Valid() && !isPlaying && !running
      ensures friction == value && appliedForce == old(appliedForce) && forceAngle == old(forceAngle)
      ensures gravity == old(gravity) && planeAngle == old(planeAngle) && ballRadius == old(ballRadius)
      ensures beforeUpdateListeners == old(beforeUpdateListeners) + 1
      ensures guiParams == old(guiParams).(friction := value)
    {
      guiParams := guiParams.(friction := value);
      friction := value;
      ResetParams();
    }

    /** The force-magnitude slider only writes its global; the running scene picks it up. */
    method OnAppliedForceChange(value: real)
      modifies this`guiParams, this`appliedForce
      ensures appliedForce == value
      ensures guiParams == old(guiParams).(appliedForce := value)
    {
      guiParams := guiParams.(appliedForce := value);
      appliedForce := value;
    }

    /** The force-angle slider only writes its global. */
    method OnForceAngleChange(value: real)
      modifies this`guiParams, this`forceAngle
      ensures forceAngle == value
      ensures guiParams == old(guiParams).(forceAngle := value)
    {
      guiParams := guiParams.(forceAngle := value);
      forceAngle := value;
    }

    /** The incline slider (10..60 degrees) rebuilds the scene. */
    method OnPlaneAngleChange(value: real)
      requires AngleInRange()
      requires MinPlaneAngle <= value <= MaxPlaneAngle
      modifies this
      ensures Valid() && !isPlaying && !running
      ensures planeAngle == value && friction == old(friction) && appliedForce == old(appliedForce)
      ensures forceAngle == old(forceAngle) && gravity == old(gravity) && ballRadius == old(ballRadius)
      ensures beforeUpdateListeners == old(beforeUpdateListeners) + 1
      ensures guiParams == old(guiParams).(planeAngle := value)
    {
      guiParams := guiParams.(planeAngle := value);
      planeAngle := value;
      ResetParams();
    }

    /** The ball-radius slider rebuilds the scene. */
    method OnBallRadiusChange(value: real)
      requires AngleInRange()
      modifies this
      ensures Valid() && !isPlaying && !running
      ensures ballRadius == value && friction == old(friction) && appliedForce == old(appliedForce)
      ensures forceAngle == old(forceAngle) && gravity == old(gravity) && planeAngle == old(planeAngle)
      ensures beforeUpdateListeners == old(beforeUpdateListeners) + 1
      ensures guiParams == old(guiParams).(ballRadius := value)
    {
      guiParams := guiParams.(ballRadius := value);
      ballRadius := value;
      ResetParams();
    }

    /** `ResetGUI()`: copy the five globals into the mirror. */
    method ResetGUI()
      modifies this`guiParams
      ensures guiParams == GuiParams(friction, appliedForce, forceAngle, planeAngle, ballRadius)
    {
      guiParams := GuiParams(friction, appliedForce, forceAngle, planeAngle, ballRadius);
    }
  }
}
