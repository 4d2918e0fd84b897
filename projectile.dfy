/**
 * projectile.js: a ball launched from the top of a block of chosen height. The ground
 * is created once but added by every build, after the block and the ball.
 */
module Projectile {
  import opened Physics

  const BlockWidth: real := 60.0
  const CircleRadius: real := 20.0
  /** x shared by the block and the ball. */
  const LaunchX: real := 100.0

  const BlockHandle := Handle("block", 0)
  const BodyHandle := Handle("body", 0)

  /** The module-level ground. */
  function GroundBody(): Body
  {
    Ground(StaticOptions)
  }

  /** The static block of height `height` standing on the ground. */
  function Block(height: real): Body
  {
    Rectangle(BlockHandle, LaunchX, GroundTop - height / 2.0, BlockWidth, height, StaticOptions)
  }

  /** The ball on top of the block, launched with velocity (xVel, yVel). */
  function Ball(height: real, xVel: real, yVel: real): Body
  {
    SetVelocity(Circle(BodyHandle, LaunchX, GroundTop - height / 2.0 - height / 2.0 - CircleRadius, 20.0,
                       NoOptions.(restitution := Some(0.0), friction := Some(0.1), density := Some(0.004))),
                Vec(xVel, yVel))
  }

  /** What one build appends: block, ball, ground. */
  function SceneEntities(height: real, xVel: real, yVel: real): seq<Entity>
  {
    [BodyEntry(Block(height)), BodyEntry(Ball(height, xVel, yVel)), BodyEntry(GroundBody())]
  }

  /**
   * The stack: the block's bottom is on the ground's top, the ball touches the block's
   * top, both share x = 100, and the ball's launch velocity is the one given.
   */
  lemma Stacked(height: real, xVel: real, yVel: real)
    ensures BottomEdge(Block(height)) == TopEdge(GroundBody())
    ensures Ball(height, xVel, yVel).position.y + CircleRadius == TopEdge(Block(height))
    ensures Ball(height, xVel, yVel).position.x == Block(height).position.x == LaunchX
    ensures Ball(height, xVel, yVel).velocity == Vec(xVel, yVel)
    ensures TopEdge(GroundBody()) - (Ball(height, xVel, yVel).position.y + CircleRadius) == height
  {
  }

  /** What the y-velocity slider stores for a slider value: its negation. */
  function StoredYVelocity(sliderValue: real): real
  {
    -sliderValue
  }

  /** The GUI mirror object `guiParams`. */
  datatype GuiParams = GuiParams(blockHeight: real, xVelocity: real, yVelocity: real)

  class Scene {
    /** The module-level `ground`. */
    const ground: Body := GroundBody()
    var block: Option<Body>
    var body: Option<Body>
    var blockHeight: real
    var xVelocity: real
    var yVelocity: real
    var world: seq<Entity>
    var isPlaying: bool
    var running: bool
    var guiParams: GuiParams

    /** The world holds block, ball and ground built from the globals. */
    ghost predicate Valid()
      reads this
    {
      && block == Some(Block(blockHeight))
      && body == Some(Ball(blockHeight, xVelocity, yVelocity))
      && world == SceneEntities(blockHeight, xVelocity, yVelocity)
    }

    /** Loading the script on an empty world: globals, GUI mirror, then `projectileMotion(100, 4, -4)`. */
    constructor (playing: bool, runnerRunning: bool)
      ensures Valid()
      ensures blockHeight == 100.0 && xVelocity == 4.0 && yVelocity == -4.0
      ensures guiParams == GuiParams(100.0, 4.0, -4.0)
      ensures isPlaying == playing && running == runnerRunning
    {
      blockHeight, xVelocity, yVelocity := 100.0, 4.0, -4.0;
      block, body := None, None;
      world := [];
      guiParams := GuiParams(100.0, 4.0, -4.0);
      isPlaying, running := playing, runnerRunning;
      new;
      ProjectileMotion(100.0, 4.0, -4.0);
    }

    /**
     * `projectileMotion(height, xVel, yVel)`: store the arguments in the globals, stack the
     * block and the ball, and append block, ball and ground to the world.
     */
    method ProjectileMotion(height: real, xVel: real, yVel: real)
      modifies this`blockHeight, this`xVelocity, this`yVelocity, this`block, this`body, this`world
      ensures blockHeight == height && xVelocity == xVel && yVelocity == yVel
      ensures block == Some(Block(height)) && body == Some(Ball(height, xVel, yVel))
      ensures world == old(world) + SceneEntities(height, xVel, yVel)
    {
      blockHeight, xVelocity, yVelocity := height, xVel, yVel;
      var blockY := GroundTop - blockHeight / 2.0;
      var circleY := blockY - blockHeight / 2.0 - CircleRadius;
      var b := Rectangle(BlockHandle, 100.0, blockY, BlockWidth, blockHeight, StaticOptions);
      var c := Circle(BodyHandle, 100.0, circleY, 20.0,
                      NoOptions.(restitution := Some(0.0), friction := Some(0.1), density := Some(0.004)));
      c := SetVelocity(c, Vec(xVelocity, yVelocity));
      block, body := Some(b), Some(c);
      world := world + [BodyEntry(b), BodyEntry(c), BodyEntry(ground)];
    }

    /** `resetScene()`: the reset button; isPlaying is left as it was. */
    method ResetScene()
      modifies this`running, this`world, this`blockHeight, this`xVelocity, this`yVelocity, this`block, this`body
      modifies this`guiParams
      ensures Valid() && !running
      ensures blockHeight == old(blockHeight) && xVelocity == old(xVelocity) && yVelocity == old(yVelocity)
      ensures guiParams == old(guiParams).(xVelocity := xVelocity, yVelocity := yVelocity)
    {
      running := false;
      world := [];
      ProjectileMotion(blockHeight, xVelocity, yVelocity);
      ResetGUI();
    }

    /** `resetparams()`: what the sliders call; it also clears isPlaying. */
    method ResetParams()
      modifies this`running, this`isPlaying, this`world, this`blockHeight, this`xVelocity, this`yVelocity
      modifies this`block, this`body
      ensures Valid() && !running && !isPlaying
      ensures blockHeight == old(blockHeight) && xVelocity == old(xVelocity) && yVelocity == old(yVelocity)
    {
      running := false;
      isPlaying := false;
      world := [];
      ProjectileMotion(blockHeight, xVelocity, yVelocity);
    }

    /**
     * The ball in the world is the object `body` points to (entry 1): setting its velocity
     * in place changes both.
     */
    method SetBodyVelocity(v: Vec)
      requires Valid()
      modifies this`body, this`world
      ensures body == Some(SetVelocity(old(body).value, v))
      ensures world == old(world)[1 := BodyEntry(body.value)]
    {
      var b := SetVelocity(body.value, v);
      body := Some(b);
      world := world[1 := BodyEntry(b)];
    }

    /** The x slider: store the value, rebuild, then set the ball's x velocity to it again. */
    method OnXVelocityChange(value: real)
      modifies this`running, this`isPlaying, this`world, this`blockHeight, this`xVelocity, this`yVelocity
      modifies this`block, this`body, this`guiParams
      ensures Valid() && !running && !isPlaying
      ensures xVelocity == value && yVelocity == old(yVelocity) && blockHeight == old(blockHeight)
      ensures guiParams == old(guiParams).(xVelocity := value)
    {
      guiParams := guiParams.(xVelocity := value);
      xVelocity := value;
      ResetParams();
      SetBodyVelocity(Vec(value, body.value.velocity.y));
    }

    /**
     * The y slider: store the NEGATED value, rebuild, then set the ball's y velocity to
     * the negated value again. The mirror keeps the slider's own value.
     */
    method OnYVelocityChange(value: real)
      modifies this`running, this`isPlaying, this`world, this`blockHeight, this`xVelocity, this`yVelocity
      modifies this`block, this`body, this`guiParams
      ensures Valid() && !running && !isPlaying
      ensures yVelocity == StoredYVelocity(value) && xVelocity == old(xVelocity) && blockHeight == old(blockHeight)
      ensures body.value.velocity == Vec(xVelocity, -value)
      ensures guiParams == old(guiParams).(yVelocity := value)
    {
      guiParams := guiParams.(yVelocity := value);
      yVelocity := -value;
      ResetParams();
      SetBodyVelocity(Vec(body.value.velocity.x, -value));
    }

    /** The block-height slider. */
    method OnBlockHeightChange(value: real)
      modifies this`running, this`isPlaying, this`world, this`blockHeight, this`xVelocity, this`yVelocity
      modifies this`block, this`body, this`guiParams
      ensures Valid() && !running && !isPlaying
      ensures blockHeight == value && xVelocity == old(xVelocity) && yVelocity == old(yVelocity)
      ensures guiParams == old(guiParams).(blockHeight := value)
    {
      guiParams := guiParams.(blockHeight := value);
      blockHeight := value;
      ResetParams();
    }

    /** `ResetGUI()`: copy the two velocities into the mirror; the block height is not resynced. */
    method ResetGUI()
      modifies this`guiParams
      ensures guiParams == old(guiParams).(xVelocity := xVelocity, yVelocity := yVelocity)
    {
      guiParams := guiParams.(xVelocity := xVelocity);
      guiParams := guiParams.(yVelocity := yVelocity);
    }

    /**
     * Moving the y slider to `value` and pressing reset leaves the slider showing -value
     * while the ball is launched with y velocity -value: after a reset the slider reads
     * as the stored velocity, before it the slider's value is the velocity negated.
     */
    method YSliderThenReset(value: real)
      modifies this`running, this`isPlaying, this`world, this`blockHeight, this`xVelocity, this`yVelocity
      modifies this`block, this`body, this`guiParams
      ensures Valid() && !running && !isPlaying
      ensures yVelocity == -value && xVelocity == old(xVelocity) && blockHeight == old(blockHeight)
      ensures guiParams == old(guiParams).(xVelocity := xVelocity, yVelocity := -value)
      ensures body.value.velocity.y == -value
    {
      OnYVelocityChange(value);
      ResetScene();
    }

    /**
     * A `ResetGUI` that shows the y velocity in the slider's own convention (upwards is
     * positive), the one the slider's handler reads it in.
     */
    method ResetGUIUpwardPositive()
      modifies this`guiParams
      ensures guiParams == old(guiParams).(xVelocity := xVelocity, yVelocity := -yVelocity)
    {
      guiParams := guiParams.(xVelocity := xVelocity);
      guiParams := guiParams.(yVelocity := -yVelocity);
    }

    /** `resetScene()` with that `ResetGUI`. */
    method ResetSceneUpwardPositive()
      modifies this`running, this`world, this`blockHeight, this`xVelocity, this`yVelocity, this`block, this`body
      modifies this`guiParams
      ensures Valid() && !running
      ensures blockHeight == old(blockHeight) && xVelocity == old(xVelocity) && yVelocity == old(yVelocity)
      ensures guiParams == old(guiParams).(xVelocity := xVelocity, yVelocity := -yVelocity)
    {
      running := false;
      world := [];
      ProjectileMotion(blockHeight, xVelocity, yVelocity);
      ResetGUIUpwardPositive();
    }

    /** With the upward-positive display, the slider keeps its value through a reset. */
    method YSliderThenResetUpwardPositive(value: real)
      modifies this`running, this`isPlaying, this`world, this`blockHeight, this`xVelocity, this`yVelocity
      modifies this`block, this`body, this`guiParams
      ensures Valid() && !running && !isPlaying
      ensures yVelocity == -value && xVelocity == old(xVelocity) && blockHeight == old(blockHeight)
      ensures guiParams == old(guiParams).(xVelocity := xVelocity, yVelocity := value)
      ensures body.value.velocity.y == -value
    {
      OnYVelocityChange(value);
      ResetSceneUpwardPositive();
    }
  }

  /**
   * At load the y slider shows -4 and the ball is launched at y velocity -4 (upwards);
   * moving the slider to that same value -4 launches it at +4 (downwards).
   */
  method SameSliderValueOppositeLaunch() returns (shown: real, before: real, after: real)
    ensures shown == -4.0 && before == -4.0 && after == 4.0
  {
    var s := new Scene(false, false);
    shown := s.guiParams.yVelocity;
    before := s.body.value.velocity.y;
    s.OnYVelocityChange(shown);
    after := s.body.value.velocity.y;
  }

  /**
   * With the upward-positive convention used at load too (the mirror starting at 4), a
   * slider value means the same launch whether it was shown at load or chosen later.
   */
  method SameSliderValueSameLaunch() returns (shown: real, before: real, after: real)
    ensures shown == 4.0 && before == -4.0 && after == before
  {
    var s := new Scene(false, false);
    s.ResetGUIUpwardPositive();
    shown := s.guiParams.yVelocity;
    before := s.body.value.velocity.y;
    s.OnYVelocityChange(shown);
    after := s.body.value.velocity.y;
  }
}
