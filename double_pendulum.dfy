/**
 * doublePendulum.js: two bobs hanging from a fixed pivot, with a fading trail behind the lower bob.
 */
module DoublePendulum {
  import opened Physics

  const PivotX: real := 400.0
  const PivotY: real := 200.0
  const BallRadius1: real := 20.0
  const BallRadius2: real := 15.0
  const MaxTrailPoints: nat := 150
  /** The trail fades out over 5000 ms. */
  const FadeMillis: real := 5000.0

  function DegToRad(m: MathLib, degrees: real): real
  {
    degrees * m.pi / 180.0
  }

  function Pivot(): Vec { Vec(PivotX, PivotY) }

  /** Starting centre of bob 1: pivot + length1 * (sin a1, cos a1), a1 in radians. */
  function Bob1(m: MathLib, angle1: real, length1: real): Vec
  {
    var r := DegToRad(m, angle1);
    Vec(PivotX + length1 * Sin(m, r), PivotY + length1 * Cos(m, r))
  }

  /** Starting centre of bob 2: bob 1 + length2 * (sin a2, cos a2). */
  function Bob2(m: MathLib, angle1: real, angle2: real, length1: real, length2: real): Vec
  {
    var b1 := Bob1(m, angle1, length1);
    var r := DegToRad(m, angle2);
    Vec(b1.x + length2 * Sin(m, r), b1.y + length2 * Cos(m, r))
  }

  /**
   * Both strings start exactly at their rest length: bob 1 is length1 from the pivot and
   * bob 2 is length2 from bob 1 (given sin² + cos² = 1 at the two angles).
   */
  lemma BobsAtStringLength(m: MathLib, angle1: real, angle2: real, length1: real, length2: real)
    requires UnitCircleAt(m, DegToRad(m, angle1)) && UnitCircleAt(m, DegToRad(m, angle2))
    ensures DistSq(Pivot(), Bob1(m, angle1, length1)) == length1 * length1
    ensures DistSq(Bob1(m, angle1, length1), Bob2(m, angle1, angle2, length1, length2)) == length2 * length2
  {
    var s1, c1 := m.sin(DegToRad(m, angle1)), m.cos(DegToRad(m, angle1));
    var s2, c2 := m.sin(DegToRad(m, angle2)), m.cos(DegToRad(m, angle2));
    calc {
      DistSq(Pivot(), Bob1(m, angle1, length1));
      (length1 * s1) * (length1 * s1) + (length1 * c1) * (length1 * c1);
      length1 * length1 * (s1 * s1 + c1 * c1);
    }
    calc {
      DistSq(Bob1(m, angle1, length1), Bob2(m, angle1, angle2, length1, length2));
      (length2 * s2) * (length2 * s2) + (length2 * c2) * (length2 * c2);
      length2 * length2 * (s2 * s2 + c2 * c2);
    }
  }

  const Pendulum1Handle := Handle("pendulum1", 0)
  const Pendulum2Handle := Handle("pendulum2", 0)

  function Pendulum1(m: MathLib, angle1: real, length1: real): Body
  {
    var p := Bob1(m, angle1, length1);
    Circle(Pendulum1Handle, p.x, p.y, BallRadius1,
           NoOptions.(restitution := Some(0.9), friction := Some(0.002), density := Some(0.001)))
  }

  function Pendulum2(m: MathLib, angle1: real, angle2: real, length1: real, length2: real): Body
  {
    var p := Bob2(m, angle1, angle2, length1, length2);
    Circle(Pendulum2Handle, p.x, p.y, BallRadius2,
           NoOptions.(restitution := Some(0.9), friction := Some(0.002), density := Some(0.0008)))
  }

  /** constraint1: from the fixed pivot to bob 1. */
  function Constraint1(length1: real): Constraint
  {
    Constraint(AtPoint(Pivot()), OnBody(Pendulum1Handle, Vec(0.0, 0.0)), length1, 1.0)
  }

  /** constraint2: from bob 1 to bob 2. */
  function Constraint2(length2: real): Constraint
  {
    Constraint(OnBody(Pendulum1Handle, Vec(0.0, 0.0)), OnBody(Pendulum2Handle, Vec(0.0, 0.0)), length2, 1.0)
  }

  /** What one call of the builder adds to the world, in order. */
  function SceneEntities(m: MathLib, angle1: real, angle2: real, length1: real, length2: real): seq<Entity>
  {
    [BodyEntry(Pendulum1(m, angle1, length1)), BodyEntry(Pendulum2(m, angle1, angle2, length1, length2)),
     ConstraintEntry(Constraint1(length1)), ConstraintEntry(Constraint2(length2)),
     BodyEntry(Ground(StaticOptions)), MouseConstraintEntry]
  }

  /**
   * The chain is connected: constraint 1 runs from the pivot to bob 1, constraint 2 from
   * bob 1 to bob 2, and their lengths are the two pendulum lengths; both bobs are in the world.
   */
  lemma SceneIsChain(m: MathLib, angle1: real, angle2: real, length1: real, length2: real)
    ensures var w := SceneEntities(m, angle1, angle2, length1, length2);
      && BodyEntry(Pendulum1(m, angle1, length1)) in w
      && BodyEntry(Pendulum2(m, angle1, angle2, length1, length2)) in w
      && ConstraintEntry(Constraint1(length1)) in w && ConstraintEntry(Constraint2(length2)) in w
      && Constraint1(length1).a == AtPoint(Pivot()) && Constraint1(length1).b.body == Some(Pendulum1(m, angle1, length1).handle)
      && Constraint2(length2).a.body == Some(Pendulum1(m, angle1, length1).handle)
      && Constraint2(length2).b.body == Some(Pendulum2(m, angle1, angle2, length1, length2).handle)
      && Constraint1(length1).length == length1 && Constraint2(length2).length == length2
  {
  }

  /** A trail point: a position of bob 2 and the time (ms) it was recorded. */
  datatype TrailPoint = TrailPoint(x: real, y: real, timestamp: int)

  /** One call of updateTrail on the list: push the new point, then shift once if over the cap. */
  function Push(trail: seq<TrailPoint>, p: TrailPoint): (r: seq<TrailPoint>)
    ensures r == trail + [p] || (trail != [] && r == trail[1..] + [p])
    ensures |trail| < MaxTrailPoints ==> r == trail + [p]
    ensures |trail| <= MaxTrailPoints ==> |r| <= MaxTrailPoints
  {
    var t := trail + [p];
    if |t| > MaxTrailPoints then
      assert t[1..] == trail[1..] + [p];
      t[1..]
    else t
  }

  /** The last `MaxTrailPoints` points of a sequence (all of them if there are fewer). */
  function Recent(points: seq<TrailPoint>): (r: seq<TrailPoint>)
    ensures |r| <= MaxTrailPoints
  {
    if |points| <= MaxTrailPoints then points else points[|points| - MaxTrailPoints..]
  }

  /** Pushing onto the recent window gives the recent window of the longer history. */
  lemma PushKeepsRecent(points: seq<TrailPoint>, p: TrailPoint)
    ensures Push(Recent(points), p) == Recent(points + [p])
  {
    if |points| > MaxTrailPoints {
      var k := |points| - MaxTrailPoints;
      calc {
        Push(Recent(points), p);
        (points[k..] + [p])[1..];
        { assert (points[k..] + [p])[1..] == points[k + 1..] + [p]; }
        points[k + 1..] + [p];
        { assert (points + [p])[k + 1..] == points[k + 1..] + [p]; }
        Recent(points + [p]);
      }
    } else if |points| == MaxTrailPoints {
      assert (points + [p])[1..] == (points + [p])[|points + [p]| - MaxTrailPoints..];
    }
  }

  /** The trail after `points` are pushed one by one, in order, onto `trail`. */
  function PushAll(trail: seq<TrailPoint>, points: seq<TrailPoint>): seq<TrailPoint>
  {
    if points == [] then trail else Push(PushAll(trail, points[..|points| - 1]), points[|points| - 1])
  }

  /**
   * The trail is a FIFO window: starting from the empty trail the builder leaves, after
   * any number of updates it holds exactly the last 150 recorded points, oldest first.
   */
  lemma {:induction false} TrailIsRecentWindow(points: seq<TrailPoint>)
    ensures PushAll([], points) == Recent(points)
  {
    if points != [] {
      var init, last := points[..|points| - 1], points[|points| - 1];
      TrailIsRecentWindow(init);
      PushKeepsRecent(init, last);
      assert init + [last] == points;
    }
  }

  /**
   * Opacity of a trail segment whose older point was recorded `elapsed` ms ago:
   * max(0, 1 - elapsed / 5000).
   */
  function FadeAlpha(elapsed: real): (alpha: real)
    ensures 0.0 <= alpha
    ensures elapsed >= 0.0 ==> alpha <= 1.0
    ensures alpha == 0.0 <==> elapsed >= FadeMillis
  {
    var age := elapsed / 5000.0;
    if 1.0 - age > 0.0 then 1.0 - age else 0.0
  }

  /** Newer points are drawn at least as opaque as older ones. */
  lemma NewerIsMoreOpaque(elapsedNew: real, elapsedOld: real)
    requires elapsedNew <= elapsedOld
    ensures FadeAlpha(elapsedOld) <= FadeAlpha(elapsedNew)
  {
  }

  /** The GUI mirror object `guiParams`. */
  datatype GuiParams = GuiParams(initialAngle1: real, initialAngle2: real, pendulumLength1: real, pendulumLength2: real)

  class Scene {
    const math: MathLib
    var initialAngle1: real
    var initialAngle2: real
    var pendulumLength1: real
    var pendulumLength2: real
    var pendulum1: Option<Body>
    var pendulum2: Option<Body>
    var constraint1: Option<Constraint>
    var constraint2: Option<Constraint>
    var trailPoints: seq<TrailPoint>
    var world: seq<Entity>
    var isPlaying: bool
    var running: bool
    var guiParams: GuiParams

    /**
     * The trail is within its cap, and the two bobs and two strings the globals point to
     * are the ones the globals describe.
     */
    ghost predicate Valid()
      reads this
    {
      && |trailPoints| <= MaxTrailPoints
      && pendulum1 == Some(Pendulum1(math, initialAngle1, pendulumLength1))
      && pendulum2 == Some(Pendulum2(math, initialAngle1, initialAngle2, pendulumLength1, pendulumLength2))
      && constraint1 == Some(Constraint1(pendulumLength1)) && constraint2 == Some(Constraint2(pendulumLength2))
    }

    /** The scene this scene's globals describe. */
    ghost function Built(): seq<Entity>
      reads this
    {
      SceneEntities(math, initialAngle1, initialAngle2, pendulumLength1, pendulumLength2)
    }

    /** Loading the script on an empty world: globals, GUI mirror, then `doublePendulumMotion(60, 45, 150, 150)`. */
    constructor (m: MathLib, playing: bool, runnerRunning: bool)
      ensures Valid() && math == m
      ensures initialAngle1 == 60.0 && initialAngle2 == 45.0
      ensures pendulumLength1 == 150.0 && pendulumLength2 == 150.0
      ensures world == Built() && trailPoints == []
      ensures guiParams == GuiParams(60.0, 45.0, 150.0, 150.0)
      ensures isPlaying == playing && running == runnerRunning
    {
      math := m;
      initialAngle1, initialAngle2 := 60.0, 45.0;
      pendulumLength1, pendulumLength2 := 150.0, 150.0;
      pendulum1, pendulum2, constraint1, constraint2 := None, None, None, None;
      trailPoints := [];
      world := [];
      isPlaying, running := playing, runnerRunning;
      guiParams := GuiParams(60.0, 45.0, 150.0, 150.0);
      new;
      DoublePendulumMotion(initialAngle1, initialAngle2, pendulumLength1, pendulumLength2);
    }

    /**
     * `doublePendulumMotion(angle1, angle2, length1, length2)`: store the arguments in the
     * globals, append the two bobs, the two strings, a ground and a mouse constraint to the
     * world (which it does not clear), and empty the trail.
     */
    method DoublePendulumMotion(angle1: real, angle2: real, length1: real, length2: real)
      modifies this`initialAngle1, this`initialAngle2, this`pendulumLength1, this`pendulumLength2
      modifies this`pendulum1, this`pendulum2, this`constraint1, this`constraint2, this`world, this`trailPoints
      ensures Valid()
      ensures initialAngle1 == angle1 && initialAngle2 == angle2
      ensures pendulumLength1 == length1 && pendulumLength2 == length2
      ensures pendulum1 == Some(Pendulum1(math, angle1, length1))
      ensures pendulum2 == Some(Pendulum2(math, angle1, angle2, length1, length2))
      ensures constraint1 == Some(Constraint1(length1)) && constraint2 == Some(Constraint2(length2))
      ensures world == old(world) + SceneEntities(math, angle1, angle2, length1, length2)
      ensures trailPoints == []
    {
      var radAngle1 := DegToRad(math, angle1);
      var radAngle2 := DegToRad(math, angle2);
      var ball1X := PivotX + length1 * Sin(math, radAngle1);
      var ball1Y := PivotY + length1 * Cos(math, radAngle1);
      var ball2X := ball1X + length2 * Sin(math, radAngle2);
      var ball2Y := ball1Y + length2 * Cos(math, radAngle2);
      assert Vec(ball1X, ball1Y) == Bob1(math, angle1, length1);
      assert Vec(ball2X, ball2Y) == Bob2(math, angle1, angle2, length1, length2);
      initialAngle1, initialAngle2 := angle1, angle2;
      pendulumLength1, pendulumLength2 := length1, length2;

      var p1 := Circle(Pendulum1Handle, ball1X, ball1Y, BallRadius1,
                       NoOptions.(restitution := Some(0.9), friction := Some(0.002), density := Some(0.001)));
      var p2 := Circle(Pendulum2Handle, ball2X, ball2Y, BallRadius2,
                       NoOptions.(restitution := Some(0.9), friction := Some(0.002), density := Some(0.0008)));
      var c1 := Constraint(AtPoint(Vec(PivotX, PivotY)), OnBody(Pendulum1Handle, Vec(0.0, 0.0)), pendulumLength1, 1.0);
      var c2 := Constraint(OnBody(Pendulum1Handle, Vec(0.0, 0.0)), OnBody(Pendulum2Handle, Vec(0.0, 0.0)), pendulumLength2, 1.0);
      pendulum1, pendulum2, constraint1, constraint2 := Some(p1), Some(p2), Some(c1), Some(c2);

      world := world + [BodyEntry(p1), BodyEntry(p2), ConstraintEntry(c1), ConstraintEntry(c2)];
      world := world + [BodyEntry(Ground(StaticOptions))];
      trailPoints := [];
      world := world + [MouseConstraintEntry];
    }

    /**
     * `updateTrail()` after a render, with bob 2 at `position` (advanced by the engine)
     * at time `now` (ms): record one point and keep at most 150.
     */
    method UpdateTrail(position: Vec, now: int)
      requires Valid()
      modifies this`trailPoints
      ensures Valid()
      ensures trailPoints == if pendulum2.Some? then Push(old(trailPoints), TrailPoint(position.x, position.y, now))
                             else old(trailPoints)
      ensures pendulum2.Some? && trailPoints == Push(old(trailPoints), TrailPoint(position.x, position.y, now))
    {
      if pendulum2.Some? {
        trailPoints := trailPoints + [TrailPoint(position.x, position.y, now)];
        if |trailPoints| > MaxTrailPoints {
          trailPoints := trailPoints[1..];
        }
      }
    }

    /** `resetScene()`: the reset button; rebuilds from the globals and resyncs the GUI. */
    method ResetScene()
      modifies this
      ensures Valid()
      ensures initialAngle1 == old(initialAngle1) && initialAngle2 == old(initialAngle2)
      ensures pendulumLength1 == old(pendulumLength1) && pendulumLength2 == old(pendulumLength2)
      ensures world == Built() && trailPoints == []
      ensures !running && isPlaying == old(isPlaying)
      ensures guiParams == GuiParams(initialAngle1, initialAngle2, pendulumLength1, pendulumLength2)
    {
      running := false;
      world := [];
      DoublePendulumMotion(initialAngle1, initialAngle2, pendulumLength1, pendulumLength2);
      ResetGUI();
    }

    /** `resetparams()`: what every slider calls; it also clears isPlaying. */
    method ResetParams()
      modifies this
      ensures Valid()
      ensures initialAngle1 == old(initialAngle1) && initialAngle2 == old(initialAngle2)
      ensures pendulumLength1 == old(pendulumLength1) && pendulumLength2 == old(pendulumLength2)
      ensures world == Built() && trailPoints == []
      ensures !running && !isPlaying
      ensures guiParams == old(guiParams)
    {
      running := false;
      isPlaying := false;
      world := [];
      DoublePendulumMotion(initialAngle1, initialAngle2, pendulumLength1, pendulumLength2);
    }

    method OnAngle1Change(value: real)
      modifies this
      ensures Valid() && world == Built() && trailPoints == [] && !running && !isPlaying
      ensures initialAngle1 == value && initialAngle2 == old(initialAngle2)
      ensures pendulumLength1 == old(pendulumLength1) && pendulumLength2 == old(pendulumLength2)
      ensures guiParams == old(guiParams).(initialAngle1 := value)
    {
      guiParams := guiParams.(initialAngle1 := value);
      initialAngle1 := value;
      ResetParams();
    }

    method OnAngle2Change(value: real)
      modifies this
      ensures Valid() && world == Built() && trailPoints == [] && !running && !isPlaying
      ensures initialAngle2 == value && initialAngle1 == old(initialAngle1)
      ensures pendulumLength1 == old(pendulumLength1) && pendulumLength2 == old(pendulumLength2)
      ensures guiParams == old(guiParams).(initialAngle2 := value)
    {
      guiParams := guiParams.(initialAngle2 := value);
      initialAngle2 := value;
      ResetParams();
    }

    method OnLength1Change(value: real)
      modifies this
      ensures Valid() && world == Built() && trailPoints == [] && !running && !isPlaying
      ensures pendulumLength1 == value && pendulumLength2 == old(pendulumLength2)
      ensures initialAngle1 == old(initialAngle1) && initialAngle2 == old(initialAngle2)
      ensures guiParams == old(guiParams).(pendulumLength1 := value)
    {
      guiParams := guiParams.(pendulumLength1 := value);
      pendulumLength1 := value;
      ResetParams();
    }

    method OnLength2Change(value: real)
      modifies this
      ensures Valid() && world == Built() && trailPoints == [] && !running && !isPlaying
      ensures pendulumLength2 == value && pendulumLength1 == old(pendulumLength1)
      ensures initialAngle1 == old(initialAngle1) && initialAngle2 == old(initialAngle2)
      ensures guiParams == old(guiParams).(pendulumLength2 := value)
    {
      guiParams := guiParams.(pendulumLength2 := value);
      pendulumLength2 := value;
      ResetParams();
    }

    /** `ResetGUI()`: copy the four globals into the mirror. */
    method ResetGUI()
      modifies this`guiParams
      ensures guiParams == GuiParams(initialAngle1, initialAngle2, pendulumLength1, pendulumLength2)
    {
      guiParams := GuiParams(initialAngle1, initialAngle2, pendulumLength1, pendulumLength2);
    }
  }
}
