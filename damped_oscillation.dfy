/**
 * Damped_oscillation.js: a block on a horizontal spring tied to a fixed anchor, slowed by
 * air friction. The ground is created once, when the script loads, and re-added after
 * every clear.
 */
module DampedOscillation {
  import opened Physics

  const BlockWidth: real := 60.0
  const BlockHeight: real := 40.0
  /** The anchor's centre, on the ground surface. */
  const AnchorX: real := 200.0
  const AnchorY: real := 550.0
  /** Rest length of the spring. */
  const SpringLength: real := 150.0

  const AnchorHandle := Handle("anchor", 0)
  const BlockHandle := Handle("block", 0)

  /** The module-level ground, created once at load. */
  function GroundBody(): Body
  {
    Ground(StaticOptions)
  }

  /** The fixed anchor: a static circle of radius 10 at (200, 550). */
  function Anchor(): Body
  {
    Circle(AnchorHandle, AnchorX, AnchorY, 10.0, StaticOptions)
  }

  /**
   * The block, `amplitude` to the right of the anchor; its air friction stands for the
   * damping, it does not bounce, slides without friction and does not rotate.
   */
  function Block(amplitude: real, damping: real, mass: real): Body
  {
    Rectangle(BlockHandle, AnchorX + amplitude, AnchorY, BlockWidth, BlockHeight,
              NoOptions.(mass := Some(mass), frictionAir := Some(damping), restitution := Some(0.0),
                         friction := Some(0.0), infiniteInertia := true))
  }

  /** The spring from the anchor's centre to the block's centre, rest length 150. */
  function Spring(stiffness: real): Constraint
  {
    Constraint(OnBody(AnchorHandle, Vec(0.0, 0.0)), OnBody(BlockHandle, Vec(0.0, 0.0)), SpringLength, stiffness)
  }

  /** The world after a build: the ground, then anchor, block and spring. */
  function SceneWorld(amplitude: real, stiffness: real, damping: real, mass: real): seq<Entity>
  {
    [BodyEntry(GroundBody()), BodyEntry(Anchor()), BodyEntry(Block(amplitude, damping, mass)),
     ConstraintEntry(Spring(stiffness))]
  }

  /** However often the scene is rebuilt, the world holds the ground exactly once. */
  lemma {:induction false} GroundOnce(amplitude: real, stiffness: real, damping: real, mass: real)
    ensures Count(SceneWorld(amplitude, stiffness, damping, mass), BodyEntry(GroundBody())) == 1
  {
    var w := SceneWorld(amplitude, stiffness, damping, mass);
    assert w[1..][1..][1..][1..] == [];
    assert Count(w[1..][1..][1..], BodyEntry(GroundBody())) == 0;
    assert Count(w[1..][1..], BodyEntry(GroundBody())) == 0;
    assert Count(w[1..], BodyEntry(GroundBody())) == 0;
  }

  /**
   * The block starts level with the anchor, displaced by `amplitude` along x; the spring
   * therefore starts stretched by amplitude - 150, and at rest when amplitude is 150.
   */
  lemma StartsDisplaced(amplitude: real, damping: real, mass: real)
    requires amplitude >= 0.0
    ensures Block(amplitude, damping, mass).position.y == Anchor().position.y
    ensures Block(amplitude, damping, mass).position.x - Anchor().position.x == amplitude
    ensures DistSq(Anchor().position, Block(amplitude, damping, mass).position) == amplitude * amplitude
    ensures amplitude == SpringLength <==>
              DistSq(Anchor().position, Block(amplitude, damping, mass).position) == SpringLength * SpringLength
  {
    var d, s := amplitude - SpringLength, amplitude + SpringLength;
    assert amplitude * amplitude - SpringLength * SpringLength == d * s;
    if amplitude * amplitude == SpringLength * SpringLength {
      assert d * s == 0.0 && s > 0.0;
      assert d == 0.0;
    }
  }

  /** The block's mass and air friction are the builder's arguments, and nothing else is damped. */
  lemma DampingOnlyOnBlock(amplitude: real, stiffness: real, damping: real, mass: real)
    ensures var w := SceneWorld(amplitude, stiffness, damping, mass);
      && w[2].body.options.mass == Some(mass) && w[2].body.options.frictionAir == Some(damping)
      && w[0].body.options.frictionAir == None && w[1].body.options.frictionAir == None
      && w[0].body.options.isStatic && w[1].body.options.isStatic && !w[2].body.options.isStatic
      && w[3].constraint.length == SpringLength && w[3].constraint.stiffness == stiffness
  {
  }

  /** The GUI mirror object `guiParams`. */
  datatype GuiParams = GuiParams(springStiffness: real, dampingCoeff: real, initialDisplacement: real, massValue: real)

  class Scene {
    /** The module-level `ground`, bound once at load. */
    const ground: Body := GroundBody()
    var block: Option<Body>
    var anchor: Option<Body>
    var spring: Option<Constraint>
    var springStiffness: real
    var dampingCoeff: real
    var initialDisplacement: real
    var massValue: real
    var world: seq<Entity>
    var isPlaying: bool
    var running: bool
    var guiParams: GuiParams

    /** The world holds the scene built from the current globals. */
    ghost predicate Valid()
      reads this
    {
      && anchor == Some(Anchor())
      && block == Some(Block(initialDisplacement, dampingCoeff, massValue))
      && spring == Some(Spring(springStiffness))
      && world == SceneWorld(initialDisplacement, springStiffness, dampingCoeff, massValue)
    }

    /**
     * Loading the script on an empty world: the globals, the ground (added once), the GUI
     * mirror, then the initial `resetScene()`.
     */
    constructor (playing: bool)
      ensures Valid() && running && isPlaying == playing
      ensures springStiffness == 0.01 && dampingCoeff == 0.03 && initialDisplacement == 150.0 && massValue == 5.0
      ensures guiParams == GuiParams(0.01, 0.03, 150.0, 5.0)
    {
      block, anchor, spring := None, None, None;
      springStiffness, dampingCoeff, initialDisplacement, massValue := 0.01, 0.03, 150.0, 5.0;
      world := [BodyEntry(Ground(StaticOptions))];
      isPlaying, running := playing, false;
      guiParams := GuiParams(0.01, 0.03, 150.0, 5.0);
      new;
      ResetScene();
    }

    /**
     * `dampedOscillation(amplitude, stiffness, damping, mass)`: clear the world, put the
     * ground back, then add anchor, block and spring. It does not write the globals.
     */
    method DampedOscillation(amplitude: real, stiffness: real, damping: real, mass: real)
      modifies this`world, this`anchor, this`block, this`spring
      ensures anchor == Some(Anchor()) && block == Some(Block(amplitude, damping, mass))
      ensures spring == Some(Spring(stiffness))
      ensures world == SceneWorld(amplitude, stiffness, damping, mass)
    {
      world := [];
      world := world + [BodyEntry(ground)];
      anchor := Some(Circle(AnchorHandle, 200.0, 550.0, 10.0, StaticOptions));
      block := Some(Rectangle(BlockHandle, 200.0 + amplitude, 550.0, BlockWidth, BlockHeight,
                              NoOptions.(mass := Some(mass), frictionAir := Some(damping), restitution := Some(0.0),
                                         friction := Some(0.0), infiniteInertia := true)));
      spring := Some(Constraint(OnBody(anchor.value.handle, Vec(0.0, 0.0)), OnBody(block.value.handle, Vec(0.0, 0.0)),
                                150.0, stiffness));
      world := world + [BodyEntry(anchor.value), BodyEntry(block.value), ConstraintEntry(spring.value)];
    }

    /**
     * `resetScene()`: stop the runner, clear, re-add the ground, rebuild from the globals,
     * resync the GUI, and start the runner again; isPlaying is not touched.
     */
    method ResetScene()
      modifies this`world, this`anchor, this`block, this`spring, this`running, this`guiParams
      ensures Valid() && running
      ensures Count(world, BodyEntry(ground)) == 1
      ensures guiParams == GuiParams(springStiffness, dampingCoeff, initialDisplacement, massValue)
    {
      running := false;
      world := [];
      world := world + [BodyEntry(ground)];
      DampedOscillation(initialDisplacement, springStiffness, dampingCoeff, massValue);
      ResetGUI();
      running := true;
      GroundOnce(initialDisplacement, springStiffness, dampingCoeff, massValue);
    }

    /** The stiffness slider: write the global, then restart through `resetScene`. */
    method OnStiffnessChange(value: real)
      modifies this`springStiffness, this`world, this`anchor, this`block, this`spring, this`running, this`guiParams
      ensures Valid() && running && springStiffness == value
      ensures guiParams == GuiParams(value, dampingCoeff, initialDisplacement, massValue)
    {
      guiParams := guiParams.(springStiffness := value);
      springStiffness := value;
      ResetScene();
    }

    /** The damping slider. */
    method OnDampingChange(value: real)
      modifies this`dampingCoeff, this`world, this`anchor, this`block, this`spring, this`running, this`guiParams
      ensures Valid() && running && dampingCoeff == value
      ensures guiParams == GuiParams(springStiffness, value, initialDisplacement, massValue)
    {
      guiParams := guiParams.(dampingCoeff := value);
      dampingCoeff := value;
      ResetScene();
    }

    /** The displacement slider. */
    method OnDisplacementChange(value: real)
      modifies this`initialDisplacement, this`world, this`anchor, this`block, this`spring, this`running, this`guiParams
      ensures Valid() && running && initialDisplacement == value
      ensures guiParams == GuiParams(springStiffness, dampingCoeff, value, massValue)
    {
      guiParams := guiParams.(initialDisplacement := value);
      initialDisplacement := value;
      ResetScene();
    }

    /** The mass slider. */
    method OnMassChange(value: real)
      modifies this`massValue, this`world, this`anchor, this`block, this`spring, this`running, this`guiParams
      ensures Valid() && running && massValue == value
      ensures guiParams == GuiParams(springStiffness, dampingCoeff, initialDisplacement, value)
    {
      guiParams := guiParams.(massValue := value);
      massValue := value;
      ResetScene();
    }

    /** `resetGUI()`: push the four globals into the mirror. */
    method ResetGUI()
      modifies this`guiParams
      ensures guiParams == GuiParams(springStiffness, dampingCoeff, initialDisplacement, massValue)
    {
      guiParams := GuiParams(springStiffness, dampingCoeff, initialDisplacement, massValue);
    }
  }
}
