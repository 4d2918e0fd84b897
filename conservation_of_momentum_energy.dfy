/**
 * conservation_of_momentum_energy.js: a Newton's cradle — a row of balls hanging on
 * strings, the first (orange) one pulled to the side.
 */
module ConservationOfMomentumEnergy {
  import opened Physics

  const BallRadius: real := 20.0
  const StartY: real := 150.0
  const Stiffness: real := 0.999
  /** How far liftFirstBall moves ball 0 to the left of the row. */
  const LiftOffset: real := 100.0

  /** Centre-to-centre distance of neighbouring balls: 2 * radius + 2. */
  function Spacing(): real
  {
    2.0 * BallRadius + 2.0
  }

  /** x of ball 0 in a row of `n` balls: 400 - (n - 1) * spacing / 2. */
  function StartX(n: int): real
  {
    400.0 - (n - 1) as real * Spacing() / 2.0
  }

  /** x of ball i (and of the top of its string). */
  function BallX(n: int, i: nat): real
  {
    StartX(n) + i as real * Spacing()
  }

  /** How many times a `for (i = 0; i < n; i++)` loop runs. */
  function Times(n: int): nat
  {
    if n > 0 then n else 0
  }

  function BallHandle(i: nat): Handle { Handle("balls", i) }

  /** The i-th ball the builder creates; ball 0 is the orange one with its own mass. */
  function Ball(n: int, i: nat, stringLength: real, orangeBallMass: real, ballMass: real, elasticity: real): Body
  {
    Circle(BallHandle(i), BallX(n, i), StartY + stringLength, BallRadius,
           NoOptions.(mass := Some(if i == 0 then orangeBallMass else ballMass),
                      restitution := Some(elasticity), friction := Some(0.00001), frictionAir := Some(0.0001)))
  }

  /** The i-th string: from the fixed point (x_i, startY) to the centre of ball i. */
  function BallString(n: int, i: nat, stringLength: real): Constraint
  {
    Constraint(AtPoint(Vec(BallX(n, i), StartY)), OnBody(BallHandle(i), Vec(0.0, 0.0)), stringLength, Stiffness)
  }

  /** The balls the first loop pushes, in order. */
  function Row(n: int, stringLength: real, orangeBallMass: real, ballMass: real, elasticity: real): (r: seq<Body>)
    ensures |r| == Times(n)
    ensures forall i :: 0 <= i < |r| ==> r[i] == Ball(n, i, stringLength, orangeBallMass, ballMass, elasticity)
  {
    seq(Times(n), i requires 0 <= i < Times(n) => Ball(n, i, stringLength, orangeBallMass, ballMass, elasticity))
  }

  /** The strings the second loop pushes, in order. */
  function Strings(n: int, stringLength: real): (r: seq<Constraint>)
    ensures |r| == Times(n)
    ensures forall i :: 0 <= i < |r| ==> r[i] == BallString(n, i, stringLength)
  {
    seq(Times(n), i requires 0 <= i < Times(n) => BallString(n, i, stringLength))
  }

  /**
   * `liftFirstBall()` on the list of balls: ball 0 is moved to (startX - 100, startY + L);
   * no other ball moves, and nothing happens when there are no balls.
   */
  function LiftFirst(balls: seq<Body>, n: int, stringLength: real): (r: seq<Body>)
    ensures |r| == |balls|
    ensures forall i :: 0 < i < |balls| ==> r[i] == balls[i]
    ensures |balls| > 0 ==> r[0] == balls[0].(position := Vec(StartX(n) - LiftOffset, StartY + stringLength))
  {
    if |balls| > 0 then balls[0 := SetPosition(balls[0], Vec(StartX(n) - LiftOffset, StartY + stringLength))]
    else balls
  }

  /** The balls after a build: the row, with ball 0 lifted. */
  function Layout(n: int, stringLength: real, orangeBallMass: real, ballMass: real, elasticity: real): seq<Body>
  {
    LiftFirst(Row(n, stringLength, orangeBallMass, ballMass, elasticity), n, stringLength)
  }

  /** The world after a build: balls, strings, the ground, the mouse constraint. */
  function SceneWorld(balls: seq<Body>, strings: seq<Constraint>): seq<Entity>
  {
    Bodies(balls) + Constraints(strings) + [BodyEntry(Ground(StaticOptions)), MouseConstraintEntry]
  }

  /**
   * The row is symmetric about x = 400: ball i and ball n-1-i are mirror images, and
   * neighbouring balls' surfaces are exactly 2 apart, so no two balls overlap.
   */
  lemma RowSymmetricAndSpaced(n: int, i: nat)
    requires i < n
    ensures BallX(n, i) + BallX(n, n - 1 - i) == 800.0
    ensures i + 1 < n ==> (BallX(n, i + 1) - BallRadius) - (BallX(n, i) + BallRadius) == 2.0
  {
  }

  /** Sum of the x of balls 0 .. k-1 of a row of n. */
  function SumX(n: int, k: nat): real
  {
    if k == 0 then 0.0 else SumX(n, k - 1) + BallX(n, k - 1)
  }

  lemma {:induction false} SumXClosedForm(n: int, k: nat)
    ensures SumX(n, k) == k as real * StartX(n) + (k * (k - 1)) as real * Spacing() / 2.0
  {
    if k > 0 {
      var j := k - 1;
      SumXClosedForm(n, j);
      assert Spacing() / 2.0 == 21.0;
      assert (j * (j - 1)) + 2 * j == k * j;
      assert (k * (k - 1)) as real == (j * (j - 1)) as real + 2.0 * j as real;
      calc {
        SumX(n, k);
        SumX(n, j) + BallX(n, j);
        j as real * StartX(n) + (j * (j - 1)) as real * 21.0 + StartX(n) + j as real * 42.0;
        k as real * StartX(n) + ((j * (j - 1)) as real + 2.0 * j as real) * 21.0;
        k as real * StartX(n) + (k * (k - 1)) as real * Spacing() / 2.0;
      }
    }
  }

  /** The row is centred on x = 400: the mean x of the n balls (before the lift) is 400. */
  lemma RowCentred(n: nat)
    ensures SumX(n, n) == 400.0 * n as real
  {
    SumXClosedForm(n, n);
    var c := (n - 1) as real;
    assert (n * (n - 1)) as real == n as real * c;
    calc {
      SumX(n, n);
      n as real * (400.0 - c * Spacing() / 2.0) + n as real * c * Spacing() / 2.0;
      400.0 * n as real;
    }
  }

  /**
   * Every string hangs straight down from its anchor to its ball with its rest length,
   * except ball 0's, whose ball liftFirstBall moved 100 to the side at the same height:
   * that string starts stretched, at distance² = 100² + L² from its anchor.
   */
  lemma StringsAtRest(n: int, stringLength: real, orangeBallMass: real, ballMass: real, elasticity: real, i: nat)
    requires i < Times(n)
    ensures var balls := Layout(n, stringLength, orangeBallMass, ballMass, elasticity);
            var s := Strings(n, stringLength)[i];
      && |balls| == |Strings(n, stringLength)|
      && s.b.body == Some(balls[i].handle)
      && s.a.body == None
      && s.length == stringLength
      && (i > 0 ==> s.a.point == Vec(balls[i].position.x, balls[i].position.y - stringLength))
      && (i == 0 ==> DistSq(s.a.point, balls[0].position) == LiftOffset * LiftOffset + stringLength * stringLength)
  {
  }

  /** Ball 0 carries the orange mass, every other ball `ballMass`, and all share `elasticity`. */
  lemma MassesAndRestitution(n: int, stringLength: real, orangeBallMass: real, ballMass: real, elasticity: real, i: nat)
    requires i < Times(n)
    ensures var b := Layout(n, stringLength, orangeBallMass, ballMass, elasticity)[i];
      && b.options.mass == Some(if i == 0 then orangeBallMass else ballMass)
      && b.options.restitution == Some(elasticity)
  {
  }

  /** The GUI mirror object `guiParams`. */
  datatype GuiParams = GuiParams(ballCount: int, stringLength: real, ballMass: real, orangeBallMass: real, elasticity: real)

  class Scene {
    var ballCount: int
    var stringLength: real
    var ballMass: real
    var orangeBallMass: real
    var elasticity: real
    var balls: seq<Body>
    var constraints: seq<Constraint>
    var world: seq<Entity>
    var isPlaying: bool
    var running: bool
    var guiParams: GuiParams

    /** The world holds the very objects in `balls` and `constraints`, then the ground and the mouse. */
    ghost predicate Valid()
      reads this
    {
      world == SceneWorld(balls, constraints)
    }

    /** The balls and strings a build from the current globals produces. */
    ghost predicate Built()
      reads this
    {
      && balls == Layout(ballCount, stringLength, orangeBallMass, ballMass, elasticity)
      && constraints == Strings(ballCount, stringLength)
    }

    /** Loading the script on an empty world: globals, GUI mirror, then the builder. */
    constructor (playing: bool, runnerRunning: bool)
      ensures Valid() && Built()
      ensures ballCount == 5 && stringLength == 100.0 && ballMass == 1.0 && orangeBallMass == 1.0 && elasticity == 0.99
      ensures guiParams == GuiParams(5, 100.0, 1.0, 1.0, 0.99)
      ensures isPlaying == playing && running == runnerRunning
    {
      ballCount, stringLength, ballMass, orangeBallMass, elasticity := 5, 100.0, 1.0, 1.0, 0.99;
      balls, constraints := [], [];
      world := [];
      isPlaying, running := playing, runnerRunning;
      guiParams := GuiParams(5, 100.0, 1.0, 1.0, 0.99);
      new;
      ConservationOfMomentumEnergy();
    }

    /**
     * `conservationOfMomentumEnergy()`: clear the world, rebuild both lists from the
     * globals, add everything, then lift the first ball.
     */
    method ConservationOfMomentumEnergy()
      modifies this`world, this`balls, this`constraints
      ensures Valid() && Built()
    {
      world := [];
      var ballSpacing := 2.0 * BallRadius + 2.0;
      var startX := 400.0 - (ballCount - 1) as real * ballSpacing / 2.0;
      var startY := 150.0;

      balls := [];
      constraints := [];
      var bs: seq<Body> := [];
      var i := 0;
      while i < ballCount
        invariant 0 <= i <= Times(ballCount)
        invariant |bs| == i
        invariant forall k :: 0 <= k < i ==> bs[k] == Ball(ballCount, k, stringLength, orangeBallMass, ballMass, elasticity)
      {
        var mass := if i == 0 then orangeBallMass else ballMass;
        var ball := Circle(BallHandle(i), startX + i as real * ballSpacing, startY + stringLength, BallRadius,
                           NoOptions.(mass := Some(mass), restitution := Some(elasticity),
                                      friction := Some(0.00001), frictionAir := Some(0.0001)));
        bs := bs + [ball];
        i := i + 1;
      }
      assert bs == Row(ballCount, stringLength, orangeBallMass, ballMass, elasticity);
      balls := bs;

      var cs: seq<Constraint> := [];
      i := 0;
      while i < ballCount
        invariant 0 <= i <= Times(ballCount)
        invariant |cs| == i
        invariant forall k :: 0 <= k < i ==> cs[k] == BallString(ballCount, k, stringLength)
      {
        var constraint := Constraint(AtPoint(Vec(startX + i as real * ballSpacing, startY)),
                                     OnBody(balls[i].handle, Vec(0.0, 0.0)), stringLength, 0.999);
        cs := cs + [constraint];
        i := i + 1;
      }
      assert cs == Strings(ballCount, stringLength);
      constraints := cs;

      world := world + Bodies(balls) + Constraints(constraints) + [BodyEntry(Ground(StaticOptions))];
      world := world + [MouseConstraintEntry];
      LiftFirstBall();
    }

    /**
     * `liftFirstBall()`: move ball 0, in place, 100 to the left of the row's start at the
     * same height; the world holds that same object, so its entry moves too.
     */
    method LiftFirstBall()
      requires Valid()
      modifies this`balls, this`world
      ensures Valid()
      ensures balls == LiftFirst(old(balls), ballCount, stringLength)
    {
      if |balls| > 0 {
        var ballSpacing := 2.0 * BallRadius + 2.0;
        var startX := 400.0 - (ballCount - 1) as real * ballSpacing / 2.0;
        var startY := 150.0;
        var liftX := startX - 100.0;
        assert liftX == StartX(ballCount) - LiftOffset;
        var lifted := SetPosition(balls[0], Vec(liftX, startY + stringLength));
        balls := balls[0 := lifted];
        world := world[0 := BodyEntry(lifted)];
      }
    }

    /** `resetScene()`: the reset button. */
    method ResetScene()
      modifies this
      ensures Valid() && Built()
      ensures ballCount == old(ballCount) && stringLength == old(stringLength)
      ensures ballMass == old(ballMass) && orangeBallMass == old(orangeBallMass) && elasticity == old(elasticity)
      ensures !running && isPlaying == old(isPlaying)
      ensures guiParams == GuiParams(ballCount, stringLength, ballMass, orangeBallMass, elasticity)
    {
      running := false;
      world := [];
      ConservationOfMomentumEnergy();
      ResetGUI();
    }

    /** `resetparams()`: what every slider calls; it also clears isPlaying. */
    method ResetParams()
      modifies this
      ensures Valid() && Built()
      ensures ballCount == old(ballCount) && stringLength == old(stringLength)
      ensures ballMass == old(ballMass) && orangeBallMass == old(orangeBallMass) && elasticity == old(elasticity)
      ensures !running && !isPlaying
      ensures guiParams == old(guiParams)
    {
      running := false;
      isPlaying := false;
      world := [];
      ConservationOfMomentumEnergy();
    }

    method OnBallCountChange(value: int)
      modifies this
      ensures Valid() && Built() && !running && !isPlaying
      ensures ballCount == value && stringLength == old(stringLength)
      ensures ballMass == old(ballMass) && orangeBallMass == old(orangeBallMass) && elasticity == old(elasticity)
      ensures guiParams == old(guiParams).(ballCount := value)
    {
      guiParams := guiParams.(ballCount := value);
      ballCount := value;
      ResetParams();
    }

    method OnStringLengthChange(value: real)
      modifies this
      ensures Valid() && Built() && !running && !isPlaying
      ensures stringLength == value && ballCount == old(ballCount)
      ensures ballMass == old(ballMass) && orangeBallMass == old(orangeBallMass) && elasticity == old(elasticity)
      ensures guiParams == old(guiParams).(stringLength := value)
    {
      guiParams := guiParams.(stringLength := value);
      stringLength := value;
      ResetParams();
    }

    method OnBallMassChange(value: real)
      modifies this
      ensures Valid() && Built() && !running && !isPlaying
      ensures ballMass == value && ballCount == old(ballCount) && stringLength == old(stringLength)
      ensures orangeBallMass == old(orangeBallMass) && elasticity == old(elasticity)
      ensures guiParams == old(guiParams).(ballMass := value)
    {
      guiParams := guiParams.(ballMass := value);
      ballMass := value;
      ResetParams();
    }

    method OnOrangeBallMassChange(value: real)
      modifies this
      ensures Valid() && Built() && !running && !isPlaying
      ensures orangeBallMass == value && ballCount == old(ballCount) && stringLength == old(stringLength)
      ensures ballMass == old(ballMass) && elasticity == old(elasticity)
      ensures guiParams == old(guiParams).(orangeBallMass := value)
    {
      guiParams := guiParams.(orangeBallMass := value);
      orangeBallMass := value;
      ResetParams();
    }

    method OnElasticityChange(value: real)
      modifies this
      ensures Valid() && Built() && !running && !isPlaying
      ensures elasticity == value && ballCount == old(ballCount) && stringLength == old(stringLength)
      ensures ballMass == old(ballMass) && orangeBallMass == old(orangeBallMass)
      ensures guiParams == old(guiParams).(elasticity := value)
    {
      guiParams := guiParams.(elasticity := value);
      elasticity := value;
      ResetParams();
    }

    /** `ResetGUI()`: copy the five globals into the mirror. */
    method ResetGUI()
      modifies this`guiParams
      ensures guiParams == GuiParams(ballCount, stringLength, ballMass, orangeBallMass, elasticity)
    {
      guiParams := GuiParams(ballCount, stringLength, ballMass, orangeBallMass, elasticity);
    }
  }
}
