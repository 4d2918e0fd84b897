/**
 * shm.js: simple harmonic motion — a block held by one, two or three springs, with
 * gravity switched off.
 */
module Shm {
  import opened Physics

  const MassWidth: real := 60.0
  const MassHeight: real := 40.0
  const PositionY: real := 300.0
  const AnchorRadius: real := 10.0
  /** Distance of the three anchors from the centre in the three-spring layout. */
  const Radius: real := 150.0
  const CenterX: real := 400.0

  /** How many anchors (and springs) a setup makes: 1, 2 or 3, and none for any other choice. */
  function AnchorCount(numSprings: int): nat
  {
    if numSprings == 1 then 1 else if numSprings == 2 then 2 else if numSprings == 3 then 3 else 0
  }

  /** Angle of anchor i in the three-spring layout: i * 120° from the top. */
  function AnchorAngle(m: MathLib, i: nat): real
  {
    (i as real * 2.0 * m.pi) / 3.0 - m.pi / 2.0
  }

  /** Centre of anchor i for a given number of springs. */
  function AnchorPos(m: MathLib, numSprings: int, i: nat): Vec
  {
    if numSprings == 1 then Vec(400.0, 150.0)
    else if numSprings == 2 then (if i == 0 then Vec(200.0, PositionY) else Vec(600.0, PositionY))
    else Vec(CenterX + Radius * Cos(m, AnchorAngle(m, i)), PositionY + Radius * Sin(m, AnchorAngle(m, i)))
  }

  function AnchorHandle(i: nat): Handle { Handle("anchors", i) }

  const MassHandle := Handle("mass", 0)

  function Anchor(m: MathLib, numSprings: int, i: nat): Body
  {
    var p := AnchorPos(m, numSprings, i);
    Circle(AnchorHandle(i), p.x, p.y, AnchorRadius, StaticOptions)
  }

  /** The anchors a setup pushes, in order. */
  function Anchors(m: MathLib, numSprings: int): (r: seq<Body>)
    ensures |r| == AnchorCount(numSprings)
    ensures forall i :: 0 <= i < |r| ==> r[i] == Anchor(m, numSprings, i)
  {
    seq(AnchorCount(numSprings), i requires 0 <= i < AnchorCount(numSprings) => Anchor(m, numSprings, i))
  }

  /** The block: displaced by `amplitude` to the right only in the one-spring layout. */
  function MassBody(numSprings: int, amplitude: real): Body
  {
    Rectangle(MassHandle, 400.0 + (if numSprings == 1 then amplitude else 0.0), PositionY, MassWidth, MassHeight,
              NoOptions.(restitution := Some(0.0), friction := Some(0.1), density := Some(0.002)))
  }

  /** Where spring i attaches to the block, relative to its centre. */
  function Offset(numSprings: int, i: nat): Vec
  {
    if numSprings == 1 then Vec(0.0, -MassHeight / 2.0)
    else if numSprings == 2 then Vec(if i == 0 then -MassWidth / 2.0 else MassWidth / 2.0, 0.0)
    else Vec(0.0, 0.0)
  }

  function Spring(numSprings: int, i: nat, springLength: real, springStiffness: real): Constraint
  {
    Constraint(OnBody(AnchorHandle(i), Vec(0.0, 0.0)), OnBody(MassHandle, Offset(numSprings, i)),
               springLength, springStiffness)
  }

  /** The springs the forEach over the anchors pushes, in order. */
  function Springs(numSprings: int, springLength: real, springStiffness: real): (r: seq<Constraint>)
    ensures |r| == AnchorCount(numSprings)
    ensures forall i :: 0 <= i < |r| ==> r[i] == Spring(numSprings, i, springLength, springStiffness)
  {
    seq(AnchorCount(numSprings), i requires 0 <= i < AnchorCount(numSprings) =>
      Spring(numSprings, i, springLength, springStiffness))
  }

  /** The world after a setup: anchors, the block, the springs, the mouse constraint. */
  function SceneWorld(anchors: seq<Body>, mass: Body, springs: seq<Constraint>): seq<Entity>
  {
    Bodies(anchors) + [BodyEntry(mass)] + Constraints(springs) + [MouseConstraintEntry]
  }

  /**
   * One spring per anchor: the menu choices 1, 2 and 3 give that many anchors and springs
   * and any other value none; spring i runs from anchor i to the block, and all springs
   * share the length and the stiffness.
   */
  lemma SpringsMatchAnchors(m: MathLib, numSprings: int, springLength: real, springStiffness: real)
    ensures var anchors, springs := Anchors(m, numSprings), Springs(numSprings, springLength, springStiffness);
      && |springs| == |anchors|
      && (numSprings in {1, 2, 3} ==> |anchors| == numSprings)
      && (numSprings !in {1, 2, 3} ==> anchors == [])
      && forall i :: 0 <= i < |springs| ==>
           && springs[i].a.body == Some(anchors[i].handle)
           && springs[i].b.body == Some(MassBody(numSprings, 0.0).handle)
           && springs[i].length == springLength && springs[i].stiffness == springStiffness
  {
  }

  /**
   * One spring: the anchor is straight above the block's rest position and the spring
   * grips the middle of the block's top edge, so the block starts `amplitude` to the side.
   */
  lemma OneSpringLayout(m: MathLib, amplitude: real)
    ensures var mass, anchor := MassBody(1, amplitude), Anchor(m, 1, 0);
      && mass.position.x - anchor.position.x == amplitude
      && Add(mass.position, Offset(1, 0)).y == TopEdge(mass)
  {
  }

  /**
   * Two springs: the anchors sit level with the block on either side, at the same distance
   * from its centre, and each spring grips the nearer side edge, so the block starts balanced.
   */
  lemma TwoSpringsBalanced(m: MathLib, amplitude: real)
    ensures var mass, left, right := MassBody(2, amplitude), Anchor(m, 2, 0), Anchor(m, 2, 1);
            var gl, gr := Add(mass.position, Offset(2, 0)), Add(mass.position, Offset(2, 1));
      && left.position.y == right.position.y == mass.position.y
      && mass.position.x - left.position.x == right.position.x - mass.position.x
      && gl.x == mass.position.x - MassWidth / 2.0 && gr.x == mass.position.x + MassWidth / 2.0
      && DistSq(left.position, gl) == DistSq(right.position, gr)
  {
  }

  /**
   * Three springs: every anchor lies 150 from the block's centre, where all three springs
   * grip it (given sin² + cos² = 1 at the anchor's angle).
   */
  lemma ThreeAnchorsOnCircle(m: MathLib, amplitude: real, i: nat)
    requires i < 3
    requires UnitCircleAt(m, AnchorAngle(m, i))
    ensures DistSq(MassBody(3, amplitude).position, Anchor(m, 3, i).position) == Radius * Radius
    ensures Add(MassBody(3, amplitude).position, Offset(3, i)) == MassBody(3, amplitude).position
  {
    var s, c := Sin(m, AnchorAngle(m, i)), Cos(m, AnchorAngle(m, i));
    calc {
      DistSq(MassBody(3, amplitude).position, Anchor(m, 3, i).position);
      (Radius * c) * (Radius * c) + (Radius * s) * (Radius * s);
      Radius * Radius * (s * s + c * c);
    }
  }

  /** The GUI mirror object `guiParams`. */
  datatype GuiParams = GuiParams(numSprings: int, amplitude: real, springStiffness: real, springLength: real)

  class Scene {
    const math: MathLib
    var mass: Option<Body>
    var anchors: seq<Body>
    var springs: seq<Constraint>
    var amplitude: real
    var springStiffness: real
    var springLength: real
    var numSprings: int
    /** engine.world.gravity.y */
    var gravityY: real
    var world: seq<Entity>
    var isPlaying: bool
    var running: bool
    var guiParams: GuiParams

    /** The world holds the anchors, the block and the springs the globals point to. */
    ghost predicate Valid()
      reads this
    {
      mass.Some? && world == SceneWorld(anchors, mass.value, springs)
    }

    /** The scene a setup from the current globals produces, with gravity off. */
    ghost predicate Built()
      reads this
    {
      && anchors == Anchors(math, numSprings)
      && mass == Some(MassBody(numSprings, amplitude))
      && springs == Springs(numSprings, springLength, springStiffness)
      && gravityY == 0.0
    }

    /** Loading the script on an empty world: globals, then `setupSHM(2, 90, 0.008, 120)`. */
    constructor (m: MathLib, playing: bool, runnerRunning: bool)
      ensures Valid() && Built() && math == m
      ensures numSprings == 2 && amplitude == 90.0 && springStiffness == 0.008 && springLength == 120.0
      ensures guiParams == GuiParams(2, 90.0, 0.008, 120.0)
      ensures isPlaying == playing && running == runnerRunning
    {
      math := m;
      mass := None;
      anchors, springs := [], [];
      amplitude, springStiffness, springLength, numSprings := 90.0, 0.008, 120.0, 2;
      gravityY := 1.0;
      world := [];
      isPlaying, running := playing, runnerRunning;
      guiParams := GuiParams(2, 90.0, 0.008, 120.0);
      new;
      SetupSHM(numSprings, amplitude, springStiffness, springLength);
    }

    /**
     * `setupSHM(numSprings, amplitude, springStiffness, springLength)`: clear the world,
     * empty both lists, switch gravity off, then build anchors, block and springs. Its
     * parameters shadow the globals of the same names, which it does not write.
     */
    method SetupSHM(n: int, amp: real, stiffness: real, length: real)
      modifies this`world, this`anchors, this`springs, this`gravityY, this`mass
      ensures Valid()
      ensures anchors == Anchors(math, n) && mass == Some(MassBody(n, amp))
      ensures springs == Springs(n, length, stiffness)
      ensures gravityY == 0.0
    {
      world := [];
      anchors := [];
      springs := [];
      gravityY := 0.0;

      var made: seq<Body> := [];
      if n == 1 {
        made := made + [Circle(AnchorHandle(0), 400.0, 150.0, 10.0, StaticOptions)];
      } else if n == 2 {
        made := made + [Circle(AnchorHandle(0), 200.0, PositionY, 10.0, StaticOptions)];
        made := made + [Circle(AnchorHandle(1), 600.0, PositionY, 10.0, StaticOptions)];
      } else if n == 3 {
        var centerX := 400.0;
        var centerY := PositionY;
        var radius := 150.0;
        var i := 0;
        while i < 3
          invariant 0 <= i <= 3
          invariant |made| == i
          invariant forall k :: 0 <= k < i ==> made[k] == Anchor(math, n, k)
        {
          var angle := (i as real * 2.0 * math.pi) / 3.0 - math.pi / 2.0;
          var x := centerX + radius * Cos(math, angle);
          var y := centerY + radius * Sin(math, angle);
          assert angle == AnchorAngle(math, i);
          assert x == AnchorPos(math, n, i).x && y == AnchorPos(math, n, i).y;
          made := made + [Circle(AnchorHandle(i), x, y, 10.0, StaticOptions)];
          i := i + 1;
        }
      }
      assert made == Anchors(math, n);
      anchors := made;

      var block := Rectangle(MassHandle, 400.0 + (if n == 1 then amp else 0.0), PositionY, MassWidth, MassHeight,
                             NoOptions.(restitution := Some(0.0), friction := Some(0.1), density := Some(0.002)));
      mass := Some(block);

      var ss: seq<Constraint> := [];
      var index := 0;
      while index < |anchors|
        invariant 0 <= index <= |anchors|
        invariant |ss| == index
        invariant forall k :: 0 <= k < index ==> ss[k] == Spring(n, k, length, stiffness)
      {
        var offsetX := 0.0;
        var offsetY := 0.0;
        if n == 1 {
          offsetX := 0.0;
          offsetY := -MassHeight / 2.0;
        } else if n == 2 {
          offsetX := if index == 0 then -MassWidth / 2.0 else MassWidth / 2.0;
        } else if n == 3 {
          offsetX := 0.0;
          offsetY := 0.0;
        }
        ss := ss + [Constraint(OnBody(anchors[index].handle, Vec(0.0, 0.0)), OnBody(block.handle, Vec(offsetX, offsetY)),
                               length, stiffness)];
        index := index + 1;
      }
      springs := ss;

      world := world + (Bodies(anchors) + [BodyEntry(block)] + Constraints(springs));
      world := world + [MouseConstraintEntry];
    }

    /** `resetScene()`: gravity back to 1, then a setup from the globals (which turns it off again). */
    method ResetScene()
      modifies this
      ensures Valid() && Built()
      ensures numSprings == old(numSprings) && amplitude == old(amplitude)
      ensures springStiffness == old(springStiffness) && springLength == old(springLength)
      ensures !running && isPlaying == old(isPlaying)
      ensures guiParams == GuiParams(numSprings, amplitude, springStiffness, springLength)
    {
      running := false;
      world := [];
      gravityY := 1.0;
      SetupSHM(numSprings, amplitude, springStiffness, springLength);
      ResetGUI();
    }

    /** `resetparams()`: what every control calls; it also clears isPlaying. */
    method ResetParams()
      modifies this
      ensures Valid() && Built()
      ensures numSprings == old(numSprings) && amplitude == old(amplitude)
      ensures springStiffness == old(springStiffness) && springLength == old(springLength)
      ensures !running && !isPlaying
      ensures guiParams == old(guiParams)
    {
      running := false;
      isPlaying := false;
      world := [];
      gravityY := 1.0;
      SetupSHM(numSprings, amplitude, springStiffness, springLength);
    }

    /** The number-of-springs menu (choices 1, 2, 3). */
    method OnNumSpringsChange(value: int)
      modifies this
      ensures Valid() && Built() && !running && !isPlaying
      ensures numSprings == value && amplitude == old(amplitude)
      ensures springStiffness == old(springStiffness) && springLength == old(springLength)
      ensures guiParams == old(guiParams).(numSprings := value)
    {
      guiParams := guiParams.(numSprings := value);
      numSprings := value;
      ResetParams();
    }

    method OnAmplitudeChange(value: real)
      modifies this
      ensures Valid() && Built() && !running && !isPlaying
      ensures amplitude == value && numSprings == old(numSprings)
      ensures springStiffness == old(springStiffness) && springLength == old(springLength)
      ensures guiParams == old(guiParams).(amplitude := value)
    {
      guiParams := guiParams.(amplitude := value);
      amplitude := value;
      ResetParams();
    }

    method OnStiffnessChange(value: real)
      modifies this
      ensures Valid() && Built() && !running && !isPlaying
      ensures springStiffness == value && numSprings == old(numSprings)
      ensures amplitude == old(amplitude) && springLength == old(springLength)
      ensures guiParams == old(guiParams).(springStiffness := value)
    {
      guiParams := guiParams.(springStiffness := value);
      springStiffness := value;
      ResetParams();
    }

    method OnSpringLengthChange(value: real)
      modifies this
      ensures Valid() && Built() && !running && !isPlaying
      ensures springLength == value && numSprings == old(numSprings)
      ensures amplitude == old(amplitude) && springStiffness == old(springStiffness)
      ensures guiParams == old(guiParams).(springLength := value)
    {
      guiParams := guiParams.(springLength := value);
      springLength := value;
      ResetParams();
    }

    /** `resetGUI()`: copy the four globals into the mirror. */
    method ResetGUI()
      modifies this`guiParams
      ensures guiParams == GuiParams(numSprings, amplitude, springStiffness, springLength)
    {
      guiParams := GuiParams(numSprings, amplitude, springStiffness, springLength);
    }
  }
}
