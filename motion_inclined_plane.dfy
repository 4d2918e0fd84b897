/**
 * motion_inclined_plane.js: a square block on a right-triangle incline, with friction,
 * gravity and an optional external push.
 */
module MotionInclinedPlane {
  import opened Physics
  import opened Incline

  const BlockMass: real := 10.0
  const BlockHandle := Handle("block", 0)

  /** The block: a square of side `blockSize`, turned to the plane's angle, that does not rotate. */
  function Block(m: MathLib, planeAngle: real, friction: real, blockSize: real): Body
  {
    Rectangle(BlockHandle, MoverX, MoverY(), blockSize, blockSize,
              NoOptions.(mass := Some(BlockMass), friction := Some(friction), frictionAir := Some(0.01),
                         infiniteInertia := true, angle := Some(ToRadians(m, planeAngle))))
  }

  /** What one build adds to the world: a fresh ground, the plane, the block. */
  function SceneEntities(m: MathLib, planeAngle: real, friction: real, blockSize: real): seq<Entity>
    requires Tan(m, ToRadians(m, planeAngle)) != 0.0
  {
    [BodyEntry(Ground(StaticOptions)), BodyEntry(Plane(m, planeAngle, friction)),
     BodyEntry(Block(m, planeAngle, friction, blockSize))]
  }

  /**
   * The block shares the plane's friction, is tilted to the plane's angle and starts
   * 150 above the plane's reference point.
   */
  lemma BlockMatchesPlane(m: MathLib, planeAngle: real, friction: real, blockSize: real)
    requires Tan(m, ToRadians(m, planeAngle)) != 0.0
    ensures var b, p := Block(m, planeAngle, friction, blockSize), Plane(m, planeAngle, friction);
      && b.options.friction == p.options.friction == Some(friction)
      && b.options.angle == Some(ToRadians(m, planeAngle))
      && b.options.infiniteInertia && !b.options.isStatic && p.options.isStatic
      && b.position == Vec(MoverX, p.position.y - FixedHeight / 2.0)
  {
  }

  /** The GUI mirror object `guiParams`. */
  datatype GuiParams = GuiParams(friction: real, appliedForce: real, forceAngle: real, planeAngle: real, blockSize: real)

  class Scene {
    const math: MathLib
    var block: Option<Body>
    var inclinedPlane: Option<Body>
    var friction: real
    var appliedForce: real
    var forceAngle: real
    var gravity: real
    var planeAngle: real
    var blockSize: real
    /** engine.world.gravity.y */
    var gravityY: real
    /** How many `beforeUpdate` handlers the builds have registered with the engine. */
    var beforeUpdateListeners: nat
    var world: seq<Entity>
    var isPlaying: bool
    var running: bool
    var guiParams: GuiParams

    /** Math.tan is positive over the incline slider's range and the incline angle is in that range. */
    ghost predicate AngleInRange()
      reads this
    {
      TanPositiveOnSliderRange(math) && MinPlaneAngle <= planeAngle <= MaxPlaneAngle
    }

    /** The world holds exactly the ground, plane and block built from the current globals. */
    ghost predicate Valid()
      reads this
    {
      && AngleInRange()
      && Tan(math, ToRadians(math, planeAngle)) > 0.0
      && inclinedPlane == Some(Plane(math, planeAngle, friction))
      && block == Some(Block(math, planeAngle, friction, blockSize))
      && world == SceneEntities(math, planeAngle, friction, blockSize)
      && gravityY == gravity
    }

    /** Loading the script on an empty world: gravity 1, globals, GUI mirror, then `motionInclinedPlane(0.3, 0, 0, 1, 30, 25)`. */
    constructor (m: MathLib, playing: bool, runnerRunning: bool)
      requires TanPositiveOnSliderRange(m)
      ensures Valid() && math == m
      ensures friction == 0.3 && appliedForce == 0.0 && forceAngle == 0.0 && gravity == 1.0
      ensures planeAngle == 30.0 && blockSize == 25.0
      ensures beforeUpdateListeners == 1
      ensures guiParams == GuiParams(0.3, 0.0, 0.0, 30.0, 25.0)
      ensures isPlaying == playing && running == runnerRunning
    {
      math := m;
      gravityY := 1.0;
      block, inclinedPlane := None, None;
      friction, appliedForce, forceAngle, gravity, planeAngle, blockSize := 0.3, 0.0, 0.0, 1.0, 30.0, 25.0;
      beforeUpdateListeners := 0;
      world := [];
      isPlaying, running := playing, runnerRunning;
      guiParams := GuiParams(0.3, 0.0, 0.0, 30.0, 25.0);
      new;
      MotionInclinedPlane(0.3, 0.0, 0.0, 1.0, 30.0, 25.0);
    }

    /**
     * `motionInclinedPlane(...)`: store the six arguments in the globals, set gravity,
     * append ground, plane and block to the world (which it does not clear), and register
     * one more `beforeUpdate` handler.
     */
    method MotionInclinedPlane(frictionCoeff: real, force: real, forceAngleDeg: real, gravityConstant: real,
                               inclineAngle: real, blockSizeParam: real)
      requires Tan(math, ToRadians(math, inclineAngle)) != 0.0
      modifies this`friction, this`appliedForce, this`forceAngle, this`gravity, this`planeAngle, this`blockSize
      modifies this`gravityY, this`inclinedPlane, this`block, this`world, this`beforeUpdateListeners
      ensures friction == frictionCoeff && appliedForce == force && forceAngle == forceAngleDeg
      ensures gravity == gravityConstant && planeAngle == inclineAngle && blockSize == blockSizeParam
      ensures gravityY == gravityConstant
      ensures inclinedPlane == Some(Plane(math, inclineAngle, frictionCoeff))
      ensures block == Some(Block(math, inclineAngle, frictionCoeff, blockSizeParam))
      ensures world == old(world) + SceneEntities(math, inclineAngle, frictionCoeff, blockSizeParam)
      ensures beforeUpdateListeners == old(beforeUpdateListeners) + 1
    {
      friction, appliedForce, forceAngle := frictionCoeff, force, forceAngleDeg;
      gravity, planeAngle, blockSize := gravityConstant, inclineAngle, blockSizeParam;
      gravityY := gravity;

      var baseWidth := FixedHeight / Tan(math, ToRadians(math, planeAngle));
      inclinedPlane := Some(FromVertices(PlaneHandle, 250.0, GroundTop - FixedHeight / 2.0,
                                         [Vec(0.0, 0.0), Vec(baseWidth, 0.0), Vec(0.0, -FixedHeight)],
                                         StaticOptions.(friction := Some(friction))));
      block := Some(Rectangle(BlockHandle, 200.0, GroundTop - FixedHeight, blockSize, blockSize,
                              NoOptions.(mass := Some(BlockMass), friction := Some(friction), frictionAir := Some(0.01),
                                         infiniteInertia := true, angle := Some(ToRadians(math, planeAngle)))));
      world := world + [BodyEntry(Ground(StaticOptions)), BodyEntry(inclinedPlane.value), BodyEntry(block.value)];
      beforeUpdateListeners := beforeUpdateListeners + 1;
    }

    /**
     * `applyExternalForce()`: the force it applies to the block at its centre, or `None`
     * when there is no block or the force magnitude is not positive.
     */
    method ApplyExternalForce() returns (applied: Option<Vec>)
      ensures applied.Some? <==> block.Some? && appliedForce > 0.0
      ensures applied.Some? ==> applied.value == ExternalForce(math, appliedForce, forceAngle)
    {
      applied := None;
      if block.Some? && appliedForce > 0.0 {
        var forceX := appliedForce * Cos(math, ToRadians(math, forceAngle)) * 0.0002;
        var forceY := appliedForce * Sin(math, ToRadians(math, forceAngle)) * -0.0002;
        applied := Some(Vec(forceX, forceY));
      }
    }

    /** One registered `beforeUpdate` handler: apply the external force only when it is positive. */
    method BeforeUpdateHandler() returns (applied: Option<Vec>)
      ensures applied.Some? <==> block.Some? && appliedForce > 0.0
      ensures applied.Some? ==> applied.value == ExternalForce(math, appliedForce, forceAngle)
    {
      applied := None;
      if appliedForce > 0.0 {
        applied := ApplyExternalForce();
      }
    }

    /** `resetScene()`: the reset button; unlike most scripts it also clears isPlaying. */
    method ResetScene()
      requires AngleInRange()
      modifies this
      ensures Valid()
      ensures friction == old(friction) && appliedForce == old(appliedForce) && forceAngle == old(forceAngle)
      ensures gravity == old(gravity) && planeAngle == old(planeAngle) && blockSize == old(blockSize)
      ensures beforeUpdateListeners == old(beforeUpdateListeners) + 1
      ensures !isPlaying && !running
      ensures guiParams == GuiParams(friction, appliedForce, forceAngle, planeAngle, blockSize)
    {
      isPlaying := false;
      running := false;
      world := [];
      MotionInclinedPlane(friction, appliedForce, forceAngle, gravity, planeAngle, blockSize);
      ResetGUI();
    }

    /** `resetparams()`: what the friction, incline and size sliders call. */
    method ResetParams()
      requires AngleInRange()
      modifies this
      ensures Valid()
      ensures friction == old(friction) && appliedForce == old(appliedForce) && forceAngle == old(forceAngle)
      ensures gravity == old(gravity) && planeAngle == old(planeAngle) && blockSize == old(blockSize)
      ensures beforeUpdateListeners == old(beforeUpdateListeners) + 1
      ensures !isPlaying && !running
      ensures guiParams == old(guiParams)
    {
      running := false;
      isPlaying := false;
      world := [];
      MotionInclinedPlane(friction, appliedForce, forceAngle, gravity, planeAngle, blockSize);
    }

    /** The friction slider rebuilds the scene. */
    method OnFrictionChange(value: real)
      requires AngleInRange()
      modifies this
      ensures Valid() && !isPlaying && !running
      ensures friction == value && appliedForce == old(appliedForce) && forceAngle == old(forceAngle)
      ensures gravity == old(gravity) && planeAngle == old(planeAngle) && blockSize == old(blockSize)
      ensures beforeUpdateListeners == old(beforeUpdateListeners) + 1
      ensures guiParams == old(guiParams).(friction := value)
    {
      guiParams := guiParams.(friction := value);
      friction := value;
      ResetParams();
    }

    /** The force-magnitude slider only writes its global; the running scene picks it up. */
    method OnAppliedForceChange(value: real)
      modifies this`guiParams, this`appliedForce
      ensures appliedForce == value
      ensures guiParams == old(guiParams).(appliedForce := value)
    {
      guiParams := guiParams.(appliedForce := value);
      appliedForce := value;
    }

    /** The force-angle slider only writes its global. */
    method OnForceAngleChange(value: real)
      modifies this`guiParams, this`forceAngle
      ensures forceAngle == value
      ensures guiParams == old(guiParams).(forceAngle := value)
    {
      guiParams := guiParams.(forceAngle := value);
      forceAngle := value;
    }

    /** The incline slider (10..60 degrees) rebuilds the scene. */
    method OnPlaneAngleChange(value: real)
      requires AngleInRange()
      requires MinPlaneAngle <= value <= MaxPlaneAngle
      modifies this
      ensures Valid() && !isPlaying && !running
      ensures planeAngle == value && friction == old(friction) && appliedForce == old(appliedForce)
      ensures forceAngle == old(forceAngle) && gravity == old(gravity) && blockSize == old(blockSize)
      ensures beforeUpdateListeners == old(beforeUpdateListeners) + 1
      ensures guiParams == old(guiParams).(planeAngle := value)
    {
      guiParams := guiParams.(planeAngle := value);
      planeAngle := value;
      ResetParams();
    }

    /** The block-size slider rebuilds the scene. */
    method OnBlockSizeChange(value: real)
      requires AngleInRange()
      modifies this
      ensures Valid() && !isPlaying && !running
      ensures blockSize == value && friction == old(friction) && appliedForce == old(appliedForce)
      ensures forceAngle == old(forceAngle) && gravity == old(gravity) && planeAngle == old(planeAngle)
      ensures beforeUpdateListeners == old(beforeUpdateListeners) + 1
      ensures guiParams == old(guiParams).(blockSize := value)
    {
      guiParams := guiParams.(blockSize := value);
      blockSize := value;
      ResetParams();
    }

    /** `ResetGUI()`: copy the five globals into the mirror. */
    method ResetGUI()
      modifies this`guiParams
      ensures guiParams == GuiParams(friction, appliedForce, forceAngle, planeAngle, blockSize)
    {
      guiParams := GuiParams(friction, appliedForce, forceAngle, planeAngle, blockSize);
    }
  }
}
