/**
 * motion_under_gravity.js: a square dropped or thrown up from a chosen height above the
 * ground. The ground is created and added once, when the script loads; the two reset
 * paths put it back after the object.
 */
module MotionUnderGravity {
  import opened Physics

  /** Side of the square object. */
  const ObjectSize: real := 40.0
  /** x of the object's centre. */
  const InitialPositionX: real := 400.0

  const ObjectHandle := Handle("object", 0)

  /** The module-level ground, created once at load. */
  function GroundBody(): Body
  {
    Ground(StaticOptions)
  }

  /**
   * The object for a height and a y-velocity slider value: its centre is height + 20
   * above the ground surface, and it moves with velocity (0, -velocity).
   */
  function Object(height: real, velocity: real): Body
  {
    SetVelocity(Rectangle(ObjectHandle, InitialPositionX, GroundTop - height - ObjectSize / 2.0, ObjectSize, ObjectSize,
                          NoOptions.(restitution := Some(0.0), friction := Some(0.1), density := Some(0.004))),
                Vec(0.0, -velocity))
  }

  /** The world after either reset path: the object, then the ground. */
  function SceneWorld(height: real, velocity: real): seq<Entity>
  {
    [BodyEntry(Object(height, velocity)), BodyEntry(GroundBody())]
  }

  /**
   * The object's bottom edge is exactly `height` above the ground's top edge, and it
   * stands over the middle of the ground.
   */
  lemma HeightAboveGround(height: real, velocity: real)
    ensures TopEdge(GroundBody()) - BottomEdge(Object(height, velocity)) == height
    ensures Object(height, velocity).position.x == GroundBody().position.x
  {
  }

  /**
   * The slider value is the upward speed: the body moves straight up exactly when the
   * value is positive, straight down when it is negative.
   */
  lemma PositiveMeansUpward(height: real, velocity: real)
    ensures Object(height, velocity).velocity.x == 0.0
    ensures Object(height, velocity).velocity.y < 0.0 <==> velocity > 0.0
    ensures Object(height, velocity).velocity.y > 0.0 <==> velocity < 0.0
  {
  }

  /** The GUI mirror object `guiParams`. */
  datatype GuiParams = GuiParams(objectHeight: real, yVelocity: real)

  class Scene {
    /** The module-level `ground`. */
    const ground: Body := GroundBody()
    /** The global `object` (a reserved word here). */
    var obj: Option<Body>
    var objectHeight: real
    var yVelocity: real
    /** engine.world.gravity.y */
    var gravityY: real
    var world: seq<Entity>
    var isPlaying: bool
    var running: bool
    var guiParams: GuiParams

    /** The world holds the object built from the globals, then the ground. */
    ghost predicate Valid()
      reads this
    {
      obj == Some(Object(objectHeight, yVelocity)) && world == SceneWorld(objectHeight, yVelocity)
    }

    /**
     * Loading the script on an empty world: add the ground, gravity 1, the GUI mirror,
     * then `motionUnderGravity(100, 5)`, which puts the object after the ground.
     */
    constructor (playing: bool, runnerRunning: bool)
      ensures objectHeight == 100.0 && yVelocity == 5.0 && gravityY == 1.0
      ensures obj == Some(Object(100.0, 5.0))
      ensures world == [BodyEntry(GroundBody()), BodyEntry(Object(100.0, 5.0))]
      ensures guiParams == GuiParams(100.0, 5.0)
      ensures isPlaying == playing && running == runnerRunning
    {
      world := [BodyEntry(Ground(StaticOptions))];
      gravityY := 1.0;
      obj := None;
      objectHeight, yVelocity := 100.0, 5.0;
      guiParams := GuiParams(100.0, 5.0);
      isPlaying, running := playing, runnerRunning;
      new;
      MotionUnderGravity(100.0, 5.0);
    }

    /**
     * `motionUnderGravity(height, velocity)`: store both arguments in the globals, build
     * the object and append it to the world (which it does not clear).
     */
    method MotionUnderGravity(height: real, velocity: real)
      modifies this`objectHeight, this`yVelocity, this`obj, this`world
      ensures objectHeight == height && yVelocity == velocity
      ensures obj == Some(Object(height, velocity))
      ensures world == old(world) + [BodyEntry(Object(height, velocity))]
    {
      objectHeight := height;
      yVelocity := velocity;
      var initialPositionY := GroundTop - objectHeight - ObjectSize / 2.0;
      var o := Rectangle(ObjectHandle, InitialPositionX, initialPositionY, ObjectSize, ObjectSize,
                         NoOptions.(restitution := Some(0.0), friction := Some(0.1), density := Some(0.004)));
      o := SetVelocity(o, Vec(0.0, -yVelocity));
      obj := Some(o);
      world := world + [BodyEntry(o)];
    }

    /** `resetScene()`: the reset button; it clears isPlaying, rebuilds, re-adds the ground and resyncs the GUI. */
    method ResetScene()
      modifies this`isPlaying, this`running, this`world, this`objectHeight, this`yVelocity, this`obj, this`guiParams
      ensures Valid() && !isPlaying && !running
      ensures objectHeight == old(objectHeight) && yVelocity == old(yVelocity)
      ensures guiParams == GuiParams(objectHeight, yVelocity)
    {
      isPlaying := false;
      running := false;
      world := [];
      MotionUnderGravity(objectHeight, yVelocity);
      world := world + [BodyEntry(ground)];
      ResetGUI();
    }

    /** `resetparams()`: what both sliders call; the same rebuild without the GUI resync. */
    method ResetParams()
      modifies this`isPlaying, this`running, this`world, this`objectHeight, this`yVelocity, this`obj
      ensures Valid() && !isPlaying && !running
      ensures objectHeight == old(objectHeight) && yVelocity == old(yVelocity)
    {
      running := false;
      isPlaying := false;
      world := [];
      MotionUnderGravity(objectHeight, yVelocity);
      world := world + [BodyEntry(ground)];
    }

    /** The y-velocity slider: the controller writes guiParams, then onChange rebuilds. */
    method OnYVelocityChange(value: real)
      modifies this`isPlaying, this`running, this`world, this`objectHeight, this`yVelocity, this`obj, this`guiParams
      ensures Valid() && !isPlaying && !running
      ensures yVelocity == value && objectHeight == old(objectHeight)
      ensures guiParams == old(guiParams).(yVelocity := value)
    {
      guiParams := guiParams.(yVelocity := value);
      yVelocity := value;
      ResetParams();
    }

    /** The height slider. */
    method OnObjectHeightChange(value: real)
      modifies this`isPlaying, this`running, this`world, this`objectHeight, this`yVelocity, this`obj, this`guiParams
      ensures Valid() && !isPlaying && !running
      ensures objectHeight == value && yVelocity == old(yVelocity)
      ensures guiParams == old(guiParams).(objectHeight := value)
    {
      guiParams := guiParams.(objectHeight := value);
      objectHeight := value;
      ResetParams();
    }

    /** `ResetGUI()`: copy both globals into the mirror. */
    method ResetGUI()
      modifies this`guiParams
      ensures guiParams == GuiParams(objectHeight, yVelocity)
    {
      guiParams := guiParams.(yVelocity := yVelocity);
      guiParams := guiParams.(objectHeight := objectHeight);
    }
  }
}
