/**
 * pendulum.js: a single bob on a rigid string from a fixed pivot. The start angle is
 * kept in radians and shown in degrees on its slider.
 */
module Pendulum {
  import opened Physics

  const PivotX: real := 400.0
  const PivotY: real := 230.0
  const BallRadius: real := 25.0

  const BallHandle := Handle("pendulumBall", 0)

  /** The slider's conversion: `value * π / 180`. */
  function DegreesToRadians(m: MathLib, degrees: real): real
  {
    degrees * m.pi / 180.0
  }

  /** The GUI's conversion back: `initialAngle * 180 / π`. */
  function RadiansToDegrees(m: MathLib, radians: real): real
    requires m.pi != 0.0
  {
    radians * 180.0 / m.pi
  }

  /** Converting a slider value to radians and back gives the same value, in both orders. */
  lemma AngleRoundTrip(m: MathLib, degrees: real, radians: real)
    requires m.pi != 0.0
    ensures RadiansToDegrees(m, DegreesToRadians(m, degrees)) == degrees
    ensures DegreesToRadians(m, RadiansToDegrees(m, radians)) == radians
  {
    calc {
      RadiansToDegrees(m, DegreesToRadians(m, degrees));
      (degrees * m.pi / 180.0) * 180.0 / m.pi;
      degrees * (m.pi / m.pi);
      degrees;
    }
    calc {
      DegreesToRadians(m, RadiansToDegrees(m, radians));
      (radians * 180.0 / m.pi) * m.pi / 180.0;
      radians * (m.pi / m.pi);
      radians;
    }
  }

  /** The bob's starting centre: pivot + length * (sin θ, cos θ). */
  function BobPosition(m: MathLib, angle: real, length: real): Vec
  {
    Vec(PivotX + length * Sin(m, angle), PivotY + length * Cos(m, angle))
  }

  function Ball(m: MathLib, angle: real, length: real): Body
  {
    Circle(BallHandle, BobPosition(m, angle, length).x, BobPosition(m, angle, length).y, BallRadius,
           NoOptions.(restitution := Some(0.9), friction := Some(0.002)))
  }

  /** The string: from the fixed pivot to the bob's centre, rigid, of the pendulum's length. */
  function String(length: real): Constraint
  {
    Constraint(AtPoint(Vec(PivotX, PivotY)), OnBody(BallHandle, Vec(0.0, 0.0)), length, 1.0)
  }

  /** What one `createPendulum()` appends: ball, string, a fresh ground, a mouse constraint. */
  function SceneEntities(m: MathLib, angle: real, length: real): seq<Entity>
  {
    [BodyEntry(Ball(m, angle, length)), ConstraintEntry(String(length)), BodyEntry(Ground(StaticOptions)),
     MouseConstraintEntry]
  }

  /**
   * The bob starts exactly one string length from the pivot, so the string starts at
   * its rest length (given sin² + cos² = 1 at the angle), and hangs below the pivot
   * for angles with a positive cosine.
   */
  lemma BobOnString(m: MathLib, angle: real, length: real)
    requires UnitCircleAt(m, angle)
    ensures DistSq(String(length).a.point, Ball(m, angle, length).position) == String(length).length * String(length).length
    ensures length > 0.0 && Cos(m, angle) > 0.0 ==> Ball(m, angle, length).position.y > PivotY
  {
    var s, c := Sin(m, angle), Cos(m, angle);
    calc {
      DistSq(String(length).a.point, Ball(m, angle, length).position);
      (length * s) * (length * s) + (length * c) * (length * c);
      length * length * (s * s + c * c);
      length * length;
    }
    if length > 0.0 && c > 0.0 {
      assert length * c > 0.0;
    }
  }

  /** The GUI mirror object `guiParams`: the angle in degrees. */
  datatype GuiParams = GuiParams(initialAngle: real, pendulumLength: real)

  class Scene {
    const math: MathLib
    var pendulumBall: Option<Body>
    var pendulumConstraint: Option<Constraint>
    var pendulumLength: real
    /** In radians. */
    var initialAngle: real
    var world: seq<Entity>
    var isPlaying: bool
    var running: bool
    var guiParams: GuiParams

    /** The world holds the pendulum built from the globals. */
    ghost predicate Valid()
      reads this
    {
      && pendulumBall == Some(Ball(math, initialAngle, pendulumLength))
      && pendulumConstraint == Some(String(pendulumLength))
      && world == SceneEntities(math, initialAngle, pendulumLength)
    }

    /**
     * Loading the script on an empty world: the globals (angle π/6), the GUI mirror (the
     * angle in degrees, 30), then `createPendulum()`. Math.PI is not zero.
     */
    constructor (m: MathLib, playing: bool, runnerRunning: bool)
      requires m.pi != 0.0
      ensures Valid() && math == m
      ensures pendulumLength == 200.0 && initialAngle == m.pi / 6.0
      ensures guiParams == GuiParams(30.0, 200.0)
      ensures isPlaying == playing && running == runnerRunning
    {
      math := m;
      pendulumBall, pendulumConstraint := None, None;
      pendulumLength := 200.0;
      initialAngle := m.pi / 6.0;
      world := [];
      var shown := (m.pi / 6.0) * 180.0 / m.pi;
      calc {
        shown;
        30.0 * (m.pi / m.pi);
      }
      guiParams := GuiParams(shown, 200.0);
      isPlaying, running := playing, runnerRunning;
      new;
      CreatePendulum();
    }

    /** `createPendulum()`: build from the globals and append ball, string, ground and mouse constraint. */
    method CreatePendulum()
      modifies this`pendulumBall, this`pendulumConstraint, this`world
      ensures pendulumBall == Some(Ball(math, initialAngle, pendulumLength))
      ensures pendulumConstraint == Some(String(pendulumLength))
      ensures world == old(world) + SceneEntities(math, initialAngle, pendulumLength)
    {
      var ballX := PivotX + pendulumLength * Sin(math, initialAngle);
      var ballY := PivotY + pendulumLength * Cos(math, initialAngle);
      assert Vec(ballX, ballY) == BobPosition(math, initialAngle, pendulumLength);
      var b := Circle(BallHandle, ballX, ballY, BallRadius, NoOptions.(restitution := Some(0.9), friction := Some(0.002)));
      var c := Constraint(AtPoint(Vec(PivotX, PivotY)), OnBody(b.handle, Vec(0.0, 0.0)), pendulumLength, 1.0);
      pendulumBall, pendulumConstraint := Some(b), Some(c);
      world := world + [BodyEntry(b), ConstraintEntry(c)];
      world := world + [BodyEntry(Ground(StaticOptions))];
      world := world + [MouseConstraintEntry];
    }

    /** `resetScene()`: stop, clear, rebuild, resync the GUI; isPlaying is left as it was. */
    method ResetScene()
      requires math.pi != 0.0
      modifies this`running, this`world, this`pendulumBall, this`pendulumConstraint, this`guiParams
      ensures Valid() && !running
      ensures guiParams == GuiParams(RadiansToDegrees(math, initialAngle), pendulumLength)
    {
      running := false;
      world := [];
      CreatePendulum();
      ResetGUI();
    }

    /** `resetparams()`: what both sliders call; it also clears isPlaying. */
    method ResetParams()
      modifies this`running, this`isPlaying, this`world, this`pendulumBall, this`pendulumConstraint
      ensures Valid() && !running && !isPlaying
    {
      running := false;
      isPlaying := false;
      world := [];
      CreatePendulum();
    }

    /** The angle slider (degrees): store the value in radians, then rebuild. */
    method OnAngleChange(value: real)
      modifies this`initialAngle, this`running, this`isPlaying, this`world, this`pendulumBall
      modifies this`pendulumConstraint, this`guiParams
      ensures Valid() && !running && !isPlaying
      ensures initialAngle == DegreesToRadians(math, value) && pendulumLength == old(pendulumLength)
      ensures guiParams == old(guiParams).(initialAngle := value)
    {
      guiParams := guiParams.(initialAngle := value);
      initialAngle := value * math.pi / 180.0;
      ResetParams();
    }

    /** The length slider. */
    method OnLengthChange(value: real)
      modifies this`pendulumLength, this`running, this`isPlaying, this`world, this`pendulumBall
      modifies this`pendulumConstraint, this`guiParams
      ensures Valid() && !running && !isPlaying
      ensures pendulumLength == value && initialAngle == old(initialAngle)
      ensures guiParams == old(guiParams).(pendulumLength := value)
    {
      guiParams := guiParams.(pendulumLength := value);
      pendulumLength := value;
      ResetParams();
    }

    /** `ResetGUI()`: show the angle in degrees and the length. */
    method ResetGUI()
      requires math.pi != 0.0
      modifies this`guiParams
      ensures guiParams == GuiParams(RadiansToDegrees(math, initialAngle), pendulumLength)
    {
      guiParams := guiParams.(initialAngle := initialAngle * 180.0 / math.pi);
      guiParams := guiParams.(pendulumLength := pendulumLength);
    }

    /**
     * Moving the angle slider to `value` and pressing reset shows `value` again: unlike
     * the projectile's y control, this conversion is a true round trip.
     */
    method AngleSliderThenReset(value: real)
      requires math.pi != 0.0
      modifies this`initialAngle, this`running, this`isPlaying, this`world, this`pendulumBall
      modifies this`pendulumConstraint, this`guiParams
      ensures Valid() && !running && !isPlaying
      ensures initialAngle == DegreesToRadians(math, value) && pendulumLength == old(pendulumLength)
      ensures guiParams == GuiParams(value, pendulumLength)
    {
      OnAngleChange(value);
      ResetScene();
      AngleRoundTrip(math, value, initialAngle);
    }
  }
}
