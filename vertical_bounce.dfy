/**
 * verticalBounce.js: a ball dropped onto a frictionless ground, bouncing with a chosen
 * elasticity. The scene is first built when the page has loaded; that load handler is
 * also the only place that adds a mouse constraint.
 */
module VerticalBounce {
  import opened Physics

  const BallX: real := 400.0
  const BallY: real := 400.0
  const BallRadius: real := 20.0
  /** The y-velocity slider's range. */
  const MinYVelocity: real := -20.0
  const MaxYVelocity: real := 0.0

  const BallHandle := Handle("ball", 0)

  /** The ball: no friction, no air resistance, restitution `elasticity`, moving with (0, yVel). */
  function Ball(yVel: real, elasticity: real): Body
  {
    SetVelocity(Circle(BallHandle, BallX, BallY, BallRadius,
                       NoOptions.(restitution := Some(elasticity), friction := Some(0.0), frictionAir := Some(0.0),
                                  density := Some(0.004))),
                Vec(0.0, yVel))
  }

  /** The ground this script builds, frictionless too. */
  function BounceGround(): Body
  {
    Ground(StaticOptions.(friction := Some(0.0)))
  }

  /** What one build appends: the ball, then the ground. */
  function SceneEntities(yVel: real, elasticity: real): seq<Entity>
  {
    [BodyEntry(Ball(yVel, elasticity)), BodyEntry(BounceGround())]
  }

  /**
   * The ball starts still in x, 150 above the ground surface (its bottom 130 above),
   * and bounces with the chosen elasticity on a ground without friction.
   */
  lemma BallAboveGround(yVel: real, elasticity: real)
    ensures Ball(yVel, elasticity).velocity == Vec(0.0, yVel)
    ensures TopEdge(BounceGround()) - (Ball(yVel, elasticity).position.y + BallRadius) == 130.0
    ensures Ball(yVel, elasticity).options.restitution == Some(elasticity)
    ensures Ball(yVel, elasticity).options.friction == BounceGround().options.friction == Some(0.0)
  {
  }

  /** Every value the y-velocity slider offers starts the ball upwards or at rest, never downwards. */
  lemma SliderNeverThrowsDown(yVel: real, elasticity: real)
    requires MinYVelocity <= yVel <= MaxYVelocity
    ensures Ball(yVel, elasticity).velocity.y <= 0.0
  {
  }

  /** The GUI mirror object `guiParams`. */
  datatype GuiParams = GuiParams(yVelocity: real, elasticity: real)

  class Scene {
    var ball: Option<Body>
    var ground: Option<Body>
    var initialYVelocity: real
    var elasticity: real
    var world: seq<Entity>
    var isPlaying: bool
    var running: bool
    var guiParams: GuiParams

    /** The world holds exactly the ball and the ground built from the globals (no mouse constraint). */
    ghost predicate Valid()
      reads this
    {
      && ball == Some(Ball(initialYVelocity, elasticity))
      && ground == Some(BounceGround())
      && world == SceneEntities(initialYVelocity, elasticity)
    }

    /** Loading the script on an empty world: globals and GUI mirror only; nothing is built yet. */
    constructor (playing: bool, runnerRunning: bool)
      ensures initialYVelocity == -8.0 && elasticity == 0.8
      ensures ball == None && ground == None && world == []
      ensures guiParams == GuiParams(-8.0, 0.8)
      ensures isPlaying == playing && running == runnerRunning
    {
      ball, ground := None, None;
      initialYVelocity, elasticity := -8.0, 0.8;
      world := [];
      guiParams := GuiParams(-8.0, 0.8);
      isPlaying, running := playing, runnerRunning;
    }

    /**
     * `projectileMotion(yVel, bounce)`: store both arguments in the globals, build the
     * ball and a new ground, and append both to the world.
     */
    method ProjectileMotion(yVel: real, bounce: real)
      modifies this`initialYVelocity, this`elasticity, this`ball, this`ground, this`world
      ensures initialYVelocity == yVel && elasticity == bounce
      ensures ball == Some(Ball(yVel, bounce)) && ground == Some(BounceGround())
      ensures world == old(world) + SceneEntities(yVel, bounce)
    {
      initialYVelocity, elasticity := yVel, bounce;
      var b := Circle(BallHandle, BallX, BallY, BallRadius,
                      NoOptions.(restitution := Some(elasticity), friction := Some(0.0), frictionAir := Some(0.0),
                                 density := Some(0.004)));
      b := SetVelocity(b, Vec(0.0, initialYVelocity));
      ball := Some(b);
      ground := Some(Rectangle(Handle("ground", 0), 400.0, 575.0, 800.0, 50.0, StaticOptions.(friction := Some(0.0))));
      world := world + [BodyEntry(b), BodyEntry(ground.value)];
    }

    /**
     * The DOMContentLoaded handler: when the engine and world exist, build the scene and
     * add the mouse constraint; otherwise do nothing.
     */
    method OnDomContentLoaded(engineReady: bool)
      modifies this`initialYVelocity, this`elasticity, this`ball, this`ground, this`world
      ensures initialYVelocity == old(initialYVelocity) && elasticity == old(elasticity)
      ensures engineReady ==> ball == Some(Ball(initialYVelocity, elasticity)) && ground == Some(BounceGround())
      ensures engineReady ==> world == old(world) + SceneEntities(initialYVelocity, elasticity) + [MouseConstraintEntry]
      ensures !engineReady ==> ball == old(ball) && ground == old(ground) && world == old(world)
    {
      if engineReady {
        ProjectileMotion(initialYVelocity, elasticity);
        world := world + [MouseConstraintEntry];
      }
    }

    /** `resetScene()`: stop, clear, rebuild, resync the GUI; the mouse constraint is not put back. */
    method ResetScene()
      modifies this`running, this`world, this`initialYVelocity, this`elasticity, this`ball, this`ground
      modifies this`guiParams
      ensures Valid() && !running
      ensures MouseConstraintEntry !in world
      ensures initialYVelocity == old(initialYVelocity) && elasticity == old(elasticity)
      ensures guiParams == GuiParams(initialYVelocity, elasticity)
    {
      running := false;
      world := [];
      ProjectileMotion(initialYVelocity, elasticity);
      ResetGUI();
    }

    /** `resetparams()`: what the sliders call; it also clears isPlaying. */
    method ResetParams()
      modifies this`running, this`isPlaying, this`world, this`initialYVelocity, this`elasticity, this`ball
      modifies this`ground
      ensures Valid() && !running && !isPlaying
      ensures MouseConstraintEntry !in world
      ensures initialYVelocity == old(initialYVelocity) && elasticity == old(elasticity)
    {
      running := false;
      isPlaying := false;
      world := [];
      ProjectileMotion(initialYVelocity, elasticity);
    }

    /**
     * The y-velocity slider: store the value, rebuild, then set the ball's velocity to
     * (0, value) again; the ball is entry 0 of the world, the same object.
     */
    method OnYVelocityChange(value: real)
      modifies this`running, this`isPlaying, this`world, this`initialYVelocity, this`elasticity, this`ball
      modifies this`ground, this`guiParams
      ensures Valid() && !running && !isPlaying
      ensures initialYVelocity == value && elasticity == old(elasticity)
      ensures guiParams == old(guiParams).(yVelocity := value)
    {
      guiParams := guiParams.(yVelocity := value);
      initialYVelocity := value;
      ResetParams();
      if ball.Some? {
        var b := SetVelocity(ball.value, Vec(0.0, value));
        ball := Some(b);
        world := world[0 := BodyEntry(b)];
      }
    }

    /** The elasticity slider. */
    method OnElasticityChange(value: real)
      modifies this`running, this`isPlaying, this`world, this`initialYVelocity, this`elasticity, this`ball
      modifies this`ground, this`guiParams
      ensures Valid() && !running && !isPlaying
      ensures elasticity == value && initialYVelocity == old(initialYVelocity)
      ensures guiParams == old(guiParams).(elasticity := value)
    {
      guiParams := guiParams.(elasticity := value);
      elasticity := value;
      ResetParams();
    }

    /** `ResetGUI()`: copy both globals into the mirror. */
    method ResetGUI()
      modifies this`guiParams
      ensures guiParams == GuiParams(initialYVelocity, elasticity)
    {
      guiParams := guiParams.(yVelocity := initialYVelocity);
      guiParams := guiParams.(elasticity := elasticity);
    }
  }
}
