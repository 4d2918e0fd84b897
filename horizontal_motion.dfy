/**
 * horizontal_motion.js: a ball rolling on an "infinite" ground made of recycled tiles.
 */
module HorizontalMotion {
  import opened Physics

  const TileSize: real := 200.0
  const NumTiles: nat := 10
  const TileY: real := 520.0
  const TimeStep: real := 0.016

  /** x of the first tile: -tileSize * floor(numTiles / 2). */
  function StartX(): real
  {
    -TileSize * ((NumTiles / 2) as real)
  }

  /** Where the builder puts tile i. */
  function HomeX(i: nat): real
  {
    StartX() + i as real * TileSize
  }

  function Tile(i: nat, x: real): Body
  {
    Rectangle(Handle("groundTile", i), x, TileY, TileSize, 20.0,
              StaticOptions.(friction := Some(0.0), frictionAir := Some(0.0)))
  }

  /** The tiles the builder pushes into `groundTiles`, in order. */
  function InitialTiles(): (tiles: seq<Body>)
    ensures |tiles| == NumTiles
    ensures forall i :: 0 <= i < NumTiles ==> tiles[i] == Tile(i, HomeX(i))
  {
    seq(NumTiles, i requires 0 <= i < NumTiles => Tile(i, HomeX(i)))
  }

  /** The ball: a circle of radius 20 at (0, 500) moving at (velocity, 0). */
  function MovingBody(velocity: real): Body
  {
    SetVelocity(Circle(Handle("movingBody", 0), 0.0, 500.0, 20.0,
                       NoOptions.(friction := Some(0.0), frictionAir := Some(0.0), restitution := Some(1.0))),
                Vec(velocity, 0.0))
  }

  /** The built tiles abut: each starts where the previous one ends, and the ball starts above the middle tile. */
  lemma TilesAbut(i: nat)
    requires i + 1 < NumTiles
    ensures HomeX(i + 1) - TileSize / 2.0 == HomeX(i) + TileSize / 2.0
    ensures HomeX(NumTiles / 2) == MovingBody(0.0).position.x
  {
  }

  /** Distance from the ball beyond which a tile is recycled: tileSize * (numTiles / 2 + 1). */
  function Reach(): real
  {
    TileSize * (NumTiles as real / 2.0 + 1.0)
  }

  /** Length of the whole tiled strip: tileSize * numTiles. */
  function Span(): real
  {
    TileSize * NumTiles as real
  }

  /** New x of a tile at `tileX` after one pass of the loop in updateGround, for a ball at `ballX`. */
  function RecycledX(tileX: real, ballX: real): (x: real)
    ensures x == tileX || x == tileX + Span() || x == tileX - Span()
    ensures x == tileX + Span() <==> tileX < ballX - Reach()
    ensures x == tileX - Span() <==> tileX > ballX + Reach()
    ensures x == tileX <==> ballX - Reach() <= tileX <= ballX + Reach()
  {
    if tileX < ballX - Reach() then tileX + Span()
    else if tileX > ballX + Reach() then tileX - Span()
    else tileX
  }

  /**
   * A recycled tile ends up strictly closer to the ball than it was, and on the other
   * side of the window it left: a tile moved forward lands less than span - reach ahead
   * of the ball, one moved backward less than span - reach behind it.
   */
  lemma RecycleMovesCloser(tileX: real, ballX: real)
    requires RecycledX(tileX, ballX) != tileX
    ensures Abs(RecycledX(tileX, ballX) - ballX) < Abs(tileX - ballX)
    ensures tileX < ballX ==> RecycledX(tileX, ballX) < ballX + (Span() - Reach())
    ensures tileX > ballX ==> RecycledX(tileX, ballX) > ballX - (Span() - Reach())
  {
  }

  function Abs(r: real): real { if r < 0.0 then -r else r }

  /** `Body.setPosition(tile, {x: recycled x, y: tile.position.y})`, or the tile itself. */
  function Recycle(tile: Body, ballX: real): (t: Body)
    ensures t.position.y == tile.position.y && t.handle == tile.handle && t.shape == tile.shape
  {
    var x := RecycledX(tile.position.x, ballX);
    if x == tile.position.x then tile else SetPosition(tile, Vec(x, tile.position.y))
  }

  /** The tiles after the loop of updateGround. */
  function RecycleAll(tiles: seq<Body>, ballX: real): (r: seq<Body>)
    ensures |r| == |tiles|
    ensures forall i :: 0 <= i < |tiles| ==> r[i] == Recycle(tiles[i], ballX)
  {
    seq(|tiles|, i requires 0 <= i < |tiles| => Recycle(tiles[i], ballX))
  }

  /**
   * updateGround keeps the number and the order of the tiles and every tile's y, and
   * moves a tile's x by exactly +span or -span or not at all.
   */
  lemma RecycleAllShifts(tiles: seq<Body>, ballX: real, i: nat)
    requires i < |tiles|
    ensures |RecycleAll(tiles, ballX)| == |tiles|
    ensures RecycleAll(tiles, ballX)[i].handle == tiles[i].handle
    ensures RecycleAll(tiles, ballX)[i].position.y == tiles[i].position.y
    ensures var d := RecycleAll(tiles, ballX)[i].position.x - tiles[i].position.x;
            d == Span() || d == -Span() || d == 0.0
  {
  }

  /**
   * The tiles sit on the slots of the initial layout, shifted by whole laps of the strip:
   * tile i is at homeX(i) + laps[i] * span.
   */
  ghost predicate OnSlots(tiles: seq<Body>, laps: seq<int>)
  {
    |tiles| == |laps| <= NumTiles &&
    forall i :: 0 <= i < |tiles| ==> tiles[i].position.x == HomeX(i) + laps[i] as real * Span()
  }

  function NextLaps(tiles: seq<Body>, laps: seq<int>, ballX: real): (r: seq<int>)
    requires |tiles| == |laps|
    ensures |r| == |laps|
  {
    seq(|laps|, i requires 0 <= i < |laps| =>
      var x := tiles[i].position.x;
      if x < ballX - Reach() then laps[i] + 1
      else if x > ballX + Reach() then laps[i] - 1
      else laps[i])
  }

  /** Recycling keeps every tile on its slot (one lap more or less). */
  lemma RecycleKeepsSlots(tiles: seq<Body>, laps: seq<int>, ballX: real)
    requires OnSlots(tiles, laps)
    ensures OnSlots(RecycleAll(tiles, ballX), NextLaps(tiles, laps, ballX))
  {
    var r, l := RecycleAll(tiles, ballX), NextLaps(tiles, laps, ballX);
    forall i | 0 <= i < |tiles|
      ensures r[i].position.x == HomeX(i) + l[i] as real * Span()
    {
      var x := tiles[i].position.x;
      if x < ballX - Reach() {
        assert l[i] as real * Span() == laps[i] as real * Span() + Span();
      } else if x > ballX + Reach() {
        assert l[i] as real * Span() == laps[i] as real * Span() - Span();
      }
    }
  }

  /** Two tiles on slots never share an x: tile slots differ by less than a lap. */
  lemma {:induction false} SlotsDistinct(tiles: seq<Body>, laps: seq<int>, i: nat, j: nat)
    requires OnSlots(tiles, laps)
    requires i < j < |tiles|
    ensures tiles[i].position.x != tiles[j].position.x
  {
    var d := laps[i] - laps[j];
    assert j - i != 10 * d;
    assert tiles[j].position.x - tiles[i].position.x == ((j - i) - 10 * d) as real * TileSize;
  }

  /** The GUI mirror object `guiParams`. */
  datatype GuiParams = GuiParams(initialVelocity: real, acceleration: real)

  class Scene {
    var initialVelocity: real
    var acceleration: real
    var currentTime: real
    var distanceTraveled: real
    var groundTiles: seq<Body>
    var movingBody: Option<Body>
    var world: seq<Entity>
    var isPlaying: bool
    var running: bool
    var guiParams: GuiParams
    /** How many whole strip lengths each tile has been moved forward. */
    ghost var laps: seq<int>

    /**
     * The world holds the tiles first, then the ball and the mouse constraint, and the
     * tiles are on their slots.
     */
    ghost predicate Valid()
      reads this
    {
      OnSlots(groundTiles, laps) &&
      movingBody.Some? &&
      world == Bodies(groundTiles) + [BodyEntry(movingBody.value), MouseConstraintEntry]
    }

    /** Loading the script: the globals, the GUI mirror, then `horizontalMotion(5, 0)`. */
    constructor (playing: bool, runnerRunning: bool)
      ensures Valid()
      ensures initialVelocity == 5.0 && acceleration == 0.0
      ensures currentTime == 0.0 && distanceTraveled == 0.0
      ensures groundTiles == InitialTiles() && movingBody == Some(MovingBody(5.0))
      ensures guiParams == GuiParams(5.0, 0.0)
      ensures isPlaying == playing && running == runnerRunning
    {
      initialVelocity, acceleration := 5.0, 0.0;
      currentTime, distanceTraveled := 0.0, 0.0;
      groundTiles, movingBody := [], None;
      world := [];
      isPlaying, running := playing, runnerRunning;
      guiParams := GuiParams(5.0, 0.0);
      laps := [];
      new;
      HorizontalMotion(initialVelocity, acceleration);
    }

    /** `horizontalMotion(velocity, accel)`: clear the world, reset the counters, lay the tiles, add the ball. */
    method HorizontalMotion(velocity: real, accel: real)
      modifies this`world, this`initialVelocity, this`acceleration, this`currentTime, this`distanceTraveled
      modifies this`groundTiles, this`laps, this`movingBody
      ensures Valid()
      ensures initialVelocity == velocity && acceleration == accel
      ensures currentTime == 0.0 && distanceTraveled == 0.0
      ensures groundTiles == InitialTiles()
      ensures movingBody == Some(MovingBody(velocity))
      ensures world == Bodies(InitialTiles()) + [BodyEntry(MovingBody(velocity)), MouseConstraintEntry]
    {
      world := [];
      initialVelocity := velocity;
      acceleration := accel;
      currentTime := 0.0;
      distanceTraveled := 0.0;

      var tiles: seq<Body> := [];
      var startX := -TileSize * ((NumTiles / 2) as real);
      var i := 0;
      while i < NumTiles
        invariant 0 <= i <= NumTiles
        invariant |tiles| == i
        invariant forall k :: 0 <= k < i ==> tiles[k] == Tile(k, HomeX(k))
      {
        tiles := tiles + [Tile(i, startX + i as real * TileSize)];
        i := i + 1;
      }
      groundTiles := tiles;
      laps := seq(NumTiles, _ => 0);

      var body := Circle(Handle("movingBody", 0), 0.0, 500.0, 20.0,
                         NoOptions.(friction := Some(0.0), frictionAir := Some(0.0), restitution := Some(1.0)));
      body := SetVelocity(body, Vec(initialVelocity, 0.0));
      movingBody := Some(body);

      world := world + Bodies(groundTiles) + [BodyEntry(body)];
      world := world + [MouseConstraintEntry];
    }

    /**
     * `updateGround()`, for a ball whose engine-advanced x is `ballX`: every tile too far
     * behind the ball moves one strip length forward, every tile too far ahead one strip
     * length back; the world holds the same tile objects, so it sees the moves.
     */
    method UpdateGround(ballX: real)
      requires Valid()
      modifies this`groundTiles, this`world, this`laps
      ensures Valid()
      ensures groundTiles == RecycleAll(old(groundTiles), ballX)
      ensures laps == NextLaps(old(groundTiles), old(laps), ballX)
    {
      RecycleKeepsSlots(groundTiles, laps, ballX);
      if movingBody.Some? && |groundTiles| > 0 {
        var tiles := groundTiles;
        var w := world;
        var i := 0;
        while i < |tiles|
          invariant 0 <= i <= |tiles| == |old(groundTiles)|
          invariant forall k :: 0 <= k < i ==> tiles[k] == Recycle(old(groundTiles)[k], ballX)
          invariant forall k :: i <= k < |tiles| ==> tiles[k] == old(groundTiles)[k]
          invariant w == Bodies(tiles) + [BodyEntry(movingBody.value), MouseConstraintEntry]
        {
          var tile := tiles[i];
          var tileX := tile.position.x;
          if tileX < ballX - TileSize * (NumTiles as real / 2.0 + 1.0) {
            tile := SetPosition(tile, Vec(tileX + TileSize * NumTiles as real, tile.position.y));
          } else if tileX > ballX + TileSize * (NumTiles as real / 2.0 + 1.0) {
            tile := SetPosition(tile, Vec(tileX - TileSize * NumTiles as real, tile.position.y));
          }
          tiles := tiles[i := tile];
          w := w[i := BodyEntry(tile)];
          i := i + 1;
        }
        groundTiles, world := tiles, w;
      }
      laps := NextLaps(old(groundTiles), laps, ballX);
    }

    /**
     * `updateMotion()`, the beforeUpdate hook: while playing, advance the time counter by
     * one 60 Hz step and recycle the tiles around the ball.
     */
    method UpdateMotion(ballX: real)
      requires Valid()
      modifies this`currentTime, this`groundTiles, this`world, this`laps
      ensures Valid()
      ensures currentTime == if isPlaying then old(currentTime) + TimeStep else old(currentTime)
      ensures groundTiles == if isPlaying then RecycleAll(old(groundTiles), ballX) else old(groundTiles)
    {
      if movingBody.Some? && isPlaying {
        currentTime := currentTime + 0.016;
        UpdateGround(ballX);
      }
    }

    /** `resetScene()`: the reset button. */
    method ResetScene()
      modifies this
      ensures Valid()
      ensures initialVelocity == old(initialVelocity) && acceleration == old(acceleration)
      ensures currentTime == 0.0 && distanceTraveled == 0.0
      ensures groundTiles == InitialTiles() && movingBody == Some(MovingBody(initialVelocity))
      ensures !running && isPlaying == old(isPlaying)
      ensures guiParams == GuiParams(initialVelocity, acceleration)
    {
      running := false;
      world := [];
      HorizontalMotion(initialVelocity, acceleration);
      ResetGUI();
    }

    /** `resetparams()`: what every slider calls. */
    method ResetParams()
      modifies this
      ensures Valid()
      ensures initialVelocity == old(initialVelocity) && acceleration == old(acceleration)
      ensures currentTime == 0.0 && distanceTraveled == 0.0
      ensures groundTiles == InitialTiles() && movingBody == Some(MovingBody(initialVelocity))
      ensures !running && !isPlaying
      ensures guiParams == old(guiParams)
    {
      running := false;
      isPlaying := false;
      world := [];
      HorizontalMotion(initialVelocity, acceleration);
    }

    /** The initial-velocity slider: the controller writes guiParams, then onChange runs. */
    method OnVelocityChange(value: real)
      modifies this
      ensures Valid()
      ensures initialVelocity == value && acceleration == old(acceleration)
      ensures movingBody == Some(MovingBody(value)) && groundTiles == InitialTiles()
      ensures currentTime == 0.0 && distanceTraveled == 0.0 && !running && !isPlaying
      ensures guiParams == old(guiParams).(initialVelocity := value)
    {
      guiParams := guiParams.(initialVelocity := value);
      initialVelocity := value;
      ResetParams();
    }

    /** The acceleration slider. */
    method OnAccelerationChange(value: real)
      modifies this
      ensures Valid()
      ensures acceleration == value && initialVelocity == old(initialVelocity)
      ensures movingBody == Some(MovingBody(initialVelocity)) && groundTiles == InitialTiles()
      ensures currentTime == 0.0 && distanceTraveled == 0.0 && !running && !isPlaying
      ensures guiParams == old(guiParams).(acceleration := value)
    {
      guiParams := guiParams.(acceleration := value);
      acceleration := value;
      ResetParams();
    }

    /** `ResetGUI()`: copy both globals into the mirror. */
    method ResetGUI()
      modifies this`guiParams
      ensures guiParams == GuiParams(initialVelocity, acceleration)
    {
      guiParams := guiParams.(initialVelocity := initialVelocity);
      guiParams := guiParams.(acceleration := acceleration);
    }
  }
}
