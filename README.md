# Physics demo scenes, modelled in Dafny

This project models eleven small browser physics demos. Each demo is one script.
Each script builds a Matter.js scene from a few module globals. It wires lil.GUI
sliders to those globals and rebuilds the scene along two paths: `resetScene`
for the reset button and `resetparams` for the sliders.

The model has three layers.

- `Physics` (physics.dfy) holds the Matter.js vocabulary as plain values:
  - bodies as records (handle, position, shape, options, velocity);
  - constraints with two endpoints, a length and a stiffness;
  - a world as a sequence of entries (body, constraint or mouse constraint);
  - the 800×50 ground whose top edge is at y = 550;
  - `MathLib`, which stands for `Math.PI`, `Math.sin`, `Math.cos` and `Math.tan`.
    Lemmas that need sin² + cos² = 1 take it as a hypothesis (`UnitCircleAt`).
- One module per script. Its functions give the layout arithmetic of the builder.
  Its lemmas prove what that layout guarantees:
  - the cradle row is centred on x = 400;
  - the projectile sits on its block, and the block sits on the ground;
  - there is one spring per anchor;
  - the incline is a right triangle with a 300-high vertical side;
  - both pendulum strings start at their rest length;
  - the trail is a 150-point FIFO window;
  - recycled ground tiles stay on their slots.
- Each script module has a `Scene` class. It holds the script's globals, the world,
  `isPlaying`, the runner's running flag and the GUI mirror `guiParams`. Its methods
  are the script's functions. Each method states the whole new state, usually as
  "the world holds exactly the scene the globals describe" (`Valid()`).

`Incline` (incline.dfy) holds the triangle, placement and force geometry that
motion_inclined_plane.js and circular_body_inclined.js share.

## Model

| member | source | states |
|---|---|---|
| Physics.Bodies | conservation_of_momentum_energy.js:65 | spreading a list of bodies into the world gives one body entry per element, in order |
| Physics.PlacedTriangle | motion_inclined_plane.js:55 | fromVertices moves a triangle without changing its form (every difference of two corners is kept) so that its centroid lands on the position given |
| HorizontalMotion.InitialTiles | horizontal_motion.js:25-38 | the builder lays exactly numTiles = 10 tiles, and tile i is at x = -200·5 + 200·i |
| HorizontalMotion.TilesAbut | horizontal_motion.js:26-41 | neighbouring tiles abut without gap or overlap, and the ball starts above the middle tile |
| HorizontalMotion.RecycledX | horizontal_motion.js:143-156 | a tile moves +span iff it is more than reach behind the ball, -span iff more than reach ahead, and stays iff it is inside the window |
| HorizontalMotion.RecycleMovesCloser | horizontal_motion.js:143-156 | a moved tile ends strictly closer to the ball, and lands inside the window on the other side |
| HorizontalMotion.Recycle | horizontal_motion.js:145-155 | recycling a tile keeps its y, identity and shape |
| HorizontalMotion.RecycleAll | horizontal_motion.js:139-157 | the loop treats every tile, keeping the list's length and order |
| HorizontalMotion.RecycleAllShifts | horizontal_motion.js:139-157 | after updateGround every tile keeps its handle and y, and its x changes by exactly +span, -span or 0 |
| HorizontalMotion.RecycleKeepsSlots | horizontal_motion.js:139-157 | tiles on the slots of the initial layout, shifted by whole laps, stay on those slots after recycling |
| HorizontalMotion.SlotsDistinct | horizontal_motion.js:26-29 | two tiles on their slots never share an x, however often they were recycled |
| HorizontalMotion.Scene.constructor | horizontal_motion.js:6-12 | loading the script gives velocity 5, acceleration 0, time and distance 0 and the initial layout |
| HorizontalMotion.Scene.HorizontalMotion | horizontal_motion.js:14-69 | the builder clears the world, zeroes both counters, stores the arguments, lays the tiles and adds the ball moving at (velocity, 0), then the mouse constraint |
| HorizontalMotion.Scene.UpdateGround | horizontal_motion.js:134-159 | the tiles become the recycled tiles, the world sees the same moves, and the slot invariant is kept |
| HorizontalMotion.Scene.UpdateMotion | horizontal_motion.js:209-223 | while playing, time advances by 0.016 and the tiles are recycled; otherwise nothing changes |
| HorizontalMotion.Scene.ResetScene | horizontal_motion.js:161-169 | stops the runner, rebuilds from the globals, resyncs the mirror and leaves isPlaying unchanged |
| HorizontalMotion.Scene.ResetParams | horizontal_motion.js:171-178 | stops the runner, clears isPlaying and rebuilds from the unchanged globals |
| HorizontalMotion.Scene.OnVelocityChange | horizontal_motion.js:187-191 | the slider writes the mirror and the global, then rebuilds with the new velocity, zeroing time and distance |
| HorizontalMotion.Scene.OnAccelerationChange | horizontal_motion.js:193-197 | the slider writes the mirror and the global, then rebuilds, zeroing time and distance |
| HorizontalMotion.Scene.ResetGUI | horizontal_motion.js:199-206 | the mirror holds both globals |
| DoublePendulum.BobsAtStringLength | doublePendulum.js:24-32 | bob 1 starts length1 from the pivot and bob 2 starts length2 from bob 1 |
| DoublePendulum.SceneIsChain | doublePendulum.js:50-68 | both bobs and both strings are in the world; string 1 joins the pivot to bob 1 and string 2 joins bob 1 to bob 2, with the two pendulum lengths |
| DoublePendulum.Push | doublePendulum.js:101-110 | one update appends the point and drops only the oldest point, and only when over the cap |
| DoublePendulum.Recent | doublePendulum.js:108-110 | the recent window holds at most 150 points |
| DoublePendulum.PushKeepsRecent | doublePendulum.js:101-110 | pushing onto the window of a history gives the window of the longer history |
| DoublePendulum.TrailIsRecentWindow | doublePendulum.js:98-110 | from the empty trail, any run of updates leaves exactly the last 150 points, oldest first |
| DoublePendulum.FadeAlpha | doublePendulum.js:121-122 | alpha is never negative, at most 1 for non-negative age, and 0 exactly from 5000 ms on |
| DoublePendulum.NewerIsMoreOpaque | doublePendulum.js:121-122 | a newer point is drawn at least as opaque as an older one |
| DoublePendulum.Scene.constructor | doublePendulum.js:4-14 | loading the script builds the 60°/45°, 150/150 pendulum with an empty trail; pendulum1, pendulum2, constraint1 and constraint2 hold the bobs and strings those globals describe (`Valid`) |
| DoublePendulum.Scene.DoublePendulumMotion | doublePendulum.js:17-95 | the builder stores the arguments, appends bobs, strings, ground and mouse constraint, and empties the trail |
| DoublePendulum.Scene.UpdateTrail | doublePendulum.js:98-111 | with bob 2 present the trail becomes Push(trail, point); without it nothing changes; at most 150 points are kept; once the script has loaded bob 2 is always present, so the point is always recorded |
| DoublePendulum.Scene.ResetScene | doublePendulum.js:140-153 | rebuilds from the globals (world, both bobs, both strings, empty trail) and resyncs the mirror, leaving isPlaying unchanged |
| DoublePendulum.Scene.ResetParams | doublePendulum.js:155-167 | clears isPlaying and rebuilds world, bobs, strings and an empty trail from the unchanged globals |
| DoublePendulum.Scene.OnAngle1Change | doublePendulum.js:178-185 | writes angle 1 and rebuilds world, bobs, strings and an empty trail |
| DoublePendulum.Scene.OnAngle2Change | doublePendulum.js:187-194 | writes angle 2 and rebuilds world, bobs, strings and an empty trail |
| DoublePendulum.Scene.OnLength1Change | doublePendulum.js:196-203 | writes length 1 and rebuilds world, bobs, strings and an empty trail |
| DoublePendulum.Scene.OnLength2Change | doublePendulum.js:205-212 | writes length 2 and rebuilds world, bobs, strings and an empty trail |
| DoublePendulum.Scene.ResetGUI | doublePendulum.js:214-227 | the mirror holds the four globals |
| ConservationOfMomentumEnergy.Row | conservation_of_momentum_energy.js:27-41 | the first loop makes exactly ballCount balls (none for a non-positive count), ball i at x_i |
| ConservationOfMomentumEnergy.Strings | conservation_of_momentum_energy.js:44-56 | the second loop makes exactly ballCount strings, string i for ball i |
| ConservationOfMomentumEnergy.LiftFirst | conservation_of_momentum_energy.js:89-101 | liftFirstBall moves only ball 0, to (startX - 100, startY + L), and does nothing with no balls |
| ConservationOfMomentumEnergy.RowSymmetricAndSpaced | conservation_of_momentum_energy.js:19-31 | balls i and n-1-i mirror about x = 400, and neighbouring surfaces are exactly 2 apart |
| ConservationOfMomentumEnergy.SumXClosedForm | conservation_of_momentum_energy.js:19-31 | closed form of the sum of the first k ball x positions |
| ConservationOfMomentumEnergy.RowCentred | conservation_of_momentum_energy.js:19-31 | the mean x of the row is 400 |
| ConservationOfMomentumEnergy.StringsAtRest | conservation_of_momentum_energy.js:44-56 | string i joins (x_i, 150) to ball i with length L and hangs straight at rest, except ball 0's, which starts stretched to distance² 100² + L² |
| ConservationOfMomentumEnergy.MassesAndRestitution | conservation_of_momentum_energy.js:29-33 | ball 0 has the orange mass, every other ball ballMass, and all have restitution = elasticity |
| ConservationOfMomentumEnergy.Scene.constructor | conservation_of_momentum_energy.js:5-12 | loading the script builds the 5-ball cradle |
| ConservationOfMomentumEnergy.Scene.ConservationOfMomentumEnergy | conservation_of_momentum_energy.js:14-86 | after the build, balls and strings are the layout the globals describe, with ball 0 lifted, and the world holds them, the ground and the mouse |
| ConservationOfMomentumEnergy.Scene.LiftFirstBall | conservation_of_momentum_energy.js:89-102 | balls become LiftFirst(balls), and the world entry of the same ball moves with it |
| ConservationOfMomentumEnergy.Scene.ResetScene | conservation_of_momentum_energy.js:104-112 | rebuilds from the globals and resyncs the mirror, leaving isPlaying unchanged |
| ConservationOfMomentumEnergy.Scene.ResetParams | conservation_of_momentum_energy.js:114-121 | clears isPlaying and rebuilds from the unchanged globals |
| ConservationOfMomentumEnergy.Scene.OnBallCountChange | conservation_of_momentum_energy.js:133-137 | writes ballCount and rebuilds |
| ConservationOfMomentumEnergy.Scene.OnStringLengthChange | conservation_of_momentum_energy.js:139-143 | writes stringLength and rebuilds |
| ConservationOfMomentumEnergy.Scene.OnBallMassChange | conservation_of_momentum_energy.js:145-149 | writes ballMass and rebuilds |
| ConservationOfMomentumEnergy.Scene.OnOrangeBallMassChange | conservation_of_momentum_energy.js:151-155 | writes orangeBallMass and rebuilds |
| ConservationOfMomentumEnergy.Scene.OnElasticityChange | conservation_of_momentum_energy.js:157-161 | writes elasticity and rebuilds |
| ConservationOfMomentumEnergy.Scene.ResetGUI | conservation_of_momentum_energy.js:163-179 | the mirror holds the five globals |
| Shm.Anchors | shm.js:23-41 | a setup makes 1, 2 or 3 anchors for those choices and none otherwise |
| Shm.Springs | shm.js:52-77 | one spring per anchor, spring i for anchor i |
| Shm.SpringsMatchAnchors | shm.js:23-77 | there are as many springs as anchors (numSprings of them for 1..3); spring i joins anchor i to the block, and all springs share length and stiffness |
| Shm.OneSpringLayout | shm.js:24-59 | with one spring the block starts amplitude to the side of the anchor, and the spring grips the middle of its top edge |
| Shm.TwoSpringsBalanced | shm.js:26-61 | with two springs the anchors are level with the block, symmetric about it, and grip the side edges at equal distances |
| Shm.ThreeAnchorsOnCircle | shm.js:28-65 | with three springs every anchor is 150 from the block's centre, where all springs grip |
| Shm.Scene.constructor | shm.js:1-10 | loading the script runs setupSHM(2, 90, 0.008, 120) |
| Shm.Scene.SetupSHM | shm.js:13-96 | the lists are replaced, not extended: anchors, block and springs are exactly the layout of the arguments, the world holds them and the mouse, and gravity is 0 |
| Shm.Scene.ResetScene | shm.js:99-106 | rebuilds from the globals, gravity ends at 0 despite being set to 1, and the mirror is resynced |
| Shm.Scene.ResetParams | shm.js:109-116 | clears isPlaying and rebuilds, gravity ending at 0 |
| Shm.Scene.OnNumSpringsChange | shm.js:127-130 | writes numSprings and rebuilds |
| Shm.Scene.OnAmplitudeChange | shm.js:131-134 | writes amplitude and rebuilds |
| Shm.Scene.OnStiffnessChange | shm.js:135-138 | writes springStiffness and rebuilds |
| Shm.Scene.OnSpringLengthChange | shm.js:139-142 | writes springLength and rebuilds |
| Shm.Scene.ResetGUI | shm.js:144-150 | the mirror holds the four globals |
| Incline.BaseWidthRises | motion_inclined_plane.js:43 | base width · tan(angle) = 300, and the width is positive where tan is |
| Incline.TriangleIsRight | motion_inclined_plane.js:42-52 | on the slider range the vertices form a right triangle with a horizontal base, a vertical side of 300 and slope tan(angle) |
| Incline.PlaneReferenceMidway | motion_inclined_plane.js:40-67 | the reference point passed for the plane is 150 above the ground top and 150 below the mover's start, as the builder's comments intend |
| Incline.PlaneFloatsAboveGround | motion_inclined_plane.js:55 | as fromVertices places it, the triangle's base lies at y = 500 and its apex at y = 200: 50 above the ground top and 50 above the mover's start |
| Incline.IntendedPlaneRestsOnGround | motion_inclined_plane.js:41-55 | with the centroid one third of the height above the ground top, the base rests on the ground and the apex is level with the mover's start |
| Incline.ExternalForceMagnitude | motion_inclined_plane.js:100-101 | the applied force has magnitude appliedForce · 0.0002 |
| Incline.ExternalForceDirection | motion_inclined_plane.js:100-101 | the force points right for a positive cosine and up the canvas for a positive sine |
| MotionInclinedPlane.BlockMatchesPlane | motion_inclined_plane.js:55-75 | the block shares the plane's friction, is tilted to the plane angle, does not rotate, and starts at x = 200, 150 above the plane's reference point |
| MotionInclinedPlane.Scene.constructor | motion_inclined_plane.js:5-15 | loading the script runs motionInclinedPlane(0.3, 0, 0, 1, 30, 25) and registers one listener |
| MotionInclinedPlane.Scene.MotionInclinedPlane | motion_inclined_plane.js:22-95 | stores the six arguments, sets gravity, appends ground, plane and block, and registers one more beforeUpdate listener |
| MotionInclinedPlane.Scene.ApplyExternalForce | motion_inclined_plane.js:97-105 | a force is applied iff a block exists and appliedForce > 0, and it is the external force |
| MotionInclinedPlane.Scene.BeforeUpdateHandler | motion_inclined_plane.js:90-94 | a registered handler applies the force exactly under the same condition |
| MotionInclinedPlane.Scene.ResetScene | motion_inclined_plane.js:107-115 | clears isPlaying, rebuilds from the globals, adds one listener and resyncs the mirror |
| MotionInclinedPlane.Scene.ResetParams | motion_inclined_plane.js:117-124 | clears isPlaying and rebuilds from the unchanged globals |
| MotionInclinedPlane.Scene.OnFrictionChange | motion_inclined_plane.js:137-144 | writes friction and rebuilds |
| MotionInclinedPlane.Scene.OnAppliedForceChange | motion_inclined_plane.js:147-151 | writes only appliedForce; no rebuild |
| MotionInclinedPlane.Scene.OnForceAngleChange | motion_inclined_plane.js:154-160 | writes only forceAngle; no rebuild |
| MotionInclinedPlane.Scene.OnPlaneAngleChange | motion_inclined_plane.js:163-170 | writes planeAngle (10..60) and rebuilds |
| MotionInclinedPlane.Scene.OnBlockSizeChange | motion_inclined_plane.js:173-180 | writes blockSize and rebuilds |
| MotionInclinedPlane.Scene.ResetGUI | motion_inclined_plane.js:182-200 | the mirror holds the five globals |
| CircularBodyInclined.BallMatchesPlane | circular_body_inclined.js:55-80 | the ball of radius ballRadius shares the plane's friction, rotates freely, and starts at x = 200, 150 above the plane's reference point |
| CircularBodyInclined.Scene.constructor | circular_body_inclined.js:5-15 | loading the script runs circularMotionInclined(0.3, 0, 0, 1, 30, 25) |
| CircularBodyInclined.Scene.CircularMotionInclined | circular_body_inclined.js:22-94 | stores the six arguments, sets gravity, appends ground, plane and ball, and registers one more listener |
| CircularBodyInclined.Scene.ApplyExternalForce | circular_body_inclined.js:96-104 | a force is applied iff a ball exists and appliedForce > 0, and it is the external force |
| CircularBodyInclined.Scene.BeforeUpdateHandler | circular_body_inclined.js:89-93 | a registered handler applies the force exactly under the same condition |
| CircularBodyInclined.Scene.ResetScene | circular_body_inclined.js:106-114 | clears isPlaying, rebuilds, adds one listener and resyncs the mirror |
| CircularBodyInclined.Scene.ResetParams | circular_body_inclined.js:116-123 | clears isPlaying and rebuilds from the unchanged globals |
| CircularBodyInclined.Scene.OnFrictionChange | circular_body_inclined.js:136-143 | writes friction and rebuilds |
| CircularBodyInclined.Scene.OnAppliedForceChange | circular_body_inclined.js:146-150 | writes only appliedForce; no rebuild |
| CircularBodyInclined.Scene.OnForceAngleChange | circular_body_inclined.js:153-159 | writes only forceAngle; no rebuild |
| CircularBodyInclined.Scene.OnPlaneAngleChange | circular_body_inclined.js:162-169 | writes planeAngle (10..60) and rebuilds |
| CircularBodyInclined.Scene.OnBallRadiusChange | circular_body_inclined.js:172-179 | writes ballRadius and rebuilds |
| CircularBodyInclined.Scene.ResetGUI | circular_body_inclined.js:181-199 | the mirror holds the five globals |
| DampedOscillation.GroundOnce | Damped_oscillation.js:22-52 | the rebuilt world holds the module-level ground exactly once |
| DampedOscillation.StartsDisplaced | Damped_oscillation.js:28-48 | the block starts level with the anchor, amplitude to its right; the spring is at rest iff amplitude = 150 |
| DampedOscillation.DampingOnlyOnBlock | Damped_oscillation.js:28-50 | the block's mass and air friction are the arguments, anchor and ground are static and undamped, and the spring has rest length 150 and the given stiffness |
| DampedOscillation.Scene.constructor | Damped_oscillation.js:6-19 | loading the script adds the ground, then the initial resetScene leaves the runner running |
| DampedOscillation.Scene.DampedOscillation | Damped_oscillation.js:22-53 | the world becomes ground, anchor, block and spring for the arguments |
| DampedOscillation.Scene.ResetScene | Damped_oscillation.js:56-63 | rebuilds from the globals with a single ground, resyncs the mirror and restarts the runner |
| DampedOscillation.Scene.OnStiffnessChange | Damped_oscillation.js:75-79 | writes the stiffness and restarts through resetScene |
| DampedOscillation.Scene.OnDampingChange | Damped_oscillation.js:81-85 | writes the damping and restarts |
| DampedOscillation.Scene.OnDisplacementChange | Damped_oscillation.js:87-91 | writes the displacement and restarts |
| DampedOscillation.Scene.OnMassChange | Damped_oscillation.js:93-97 | writes the mass and restarts |
| DampedOscillation.Scene.ResetGUI | Damped_oscillation.js:100-109 | the mirror holds the four globals |
| MotionUnderGravity.HeightAboveGround | motion_under_gravity.js:12-26 | the object's bottom edge is exactly objectHeight above the ground top, over the ground's middle |
| MotionUnderGravity.PositiveMeansUpward | motion_under_gravity.js:37 | the object moves straight up iff the slider value is positive, and down iff it is negative |
| MotionUnderGravity.Scene.constructor | motion_under_gravity.js:5-19 | loading the script gives the world [ground, object] with gravity 1 |
| MotionUnderGravity.Scene.MotionUnderGravity | motion_under_gravity.js:21-40 | stores both arguments and appends only the object |
| MotionUnderGravity.Scene.ResetScene | motion_under_gravity.js:42-54 | clears isPlaying, gives the world [object, ground] and resyncs the mirror |
| MotionUnderGravity.Scene.ResetParams | motion_under_gravity.js:56-66 | clears isPlaying and gives the world [object, ground] |
| MotionUnderGravity.Scene.OnYVelocityChange | motion_under_gravity.js:75-82 | writes yVelocity and rebuilds |
| MotionUnderGravity.Scene.OnObjectHeightChange | motion_under_gravity.js:84-91 | writes objectHeight and rebuilds |
| MotionUnderGravity.Scene.ResetGUI | motion_under_gravity.js:93-100 | the mirror holds both globals |
| Projectile.Stacked | projectile.js:28-40 | the block rests on the ground, the ball rests on the block, both at x = 100, and the ball is launched at (xVel, yVel) |
| Projectile.Scene.constructor | projectile.js:5-20 | loading the script runs projectileMotion(100, 4, -4) |
| Projectile.Scene.ProjectileMotion | projectile.js:22-42 | stores the arguments and appends block, ball and the module-level ground |
| Projectile.Scene.ResetScene | projectile.js:44-52 | rebuilds and resyncs only the two velocities in the mirror, not blockHeight; isPlaying unchanged |
| Projectile.Scene.ResetParams | projectile.js:54-61 | clears isPlaying and rebuilds |
| Projectile.Scene.SetBodyVelocity | projectile.js:72 | setting the velocity of `body` changes the same ball in the world |
| Projectile.Scene.OnXVelocityChange | projectile.js:71-73 | writes xVelocity, rebuilds and sets the ball's x velocity |
| Projectile.Scene.OnYVelocityChange | projectile.js:75-77 | stores the negated value, rebuilds, and launches the ball with y velocity -value |
| Projectile.Scene.OnBlockHeightChange | projectile.js:79-80 | writes blockHeight and rebuilds |
| Projectile.Scene.ResetGUI | projectile.js:82-89 | the mirror gets both velocities as stored; blockHeight is left as it was |
| Projectile.Scene.YSliderThenReset | projectile.js:75-89 | moving the y slider to v and pressing reset leaves the slider showing -v while the ball launches at y velocity -v |
| Projectile.Scene.ResetGUIUpwardPositive | projectile.js:82-89 | a corrected ResetGUI: the mirror shows the negated stored y velocity, in the slider handler's convention |
| Projectile.Scene.ResetSceneUpwardPositive | projectile.js:44-52 | resetScene with the corrected ResetGUI: rebuilds and shows the y velocity upward-positive |
| Projectile.Scene.YSliderThenResetUpwardPositive | projectile.js:75-89 | with the corrected display, moving the y slider to v and pressing reset shows v again, with launch velocity -v |
| Projectile.SameSliderValueOppositeLaunch | projectile.js:63-77 | at load the slider shows -4 with launch y velocity -4, and moving it to that same -4 launches at +4 |
| Projectile.SameSliderValueSameLaunch | projectile.js:63-77 | with the mirror in the handler's convention at load (4), choosing the shown value keeps the launch at -4 |
| Pendulum.AngleRoundTrip | pendulum.js:83-108 | degrees to radians and back is the identity in both orders (π ≠ 0) |
| Pendulum.BobOnString | pendulum.js:15-30 | the bob starts exactly one string length from the pivot, and below it when the cosine is positive |
| Pendulum.Scene.constructor | pendulum.js:4-11 | loading the script builds the pendulum at π/6 with length 200; the mirror shows the angle as 30 degrees |
| Pendulum.Scene.CreatePendulum | pendulum.js:13-61 | builds from the globals only and appends ball, string, ground and mouse constraint |
| Pendulum.Scene.ResetScene | pendulum.js:63-71 | rebuilds and resyncs both controls, the angle in degrees |
| Pendulum.Scene.ResetParams | pendulum.js:73-80 | clears isPlaying and rebuilds |
| Pendulum.Scene.OnAngleChange | pendulum.js:89-96 | stores the slider's degrees as radians and rebuilds |
| Pendulum.Scene.OnLengthChange | pendulum.js:98-105 | writes the length and rebuilds |
| Pendulum.Scene.ResetGUI | pendulum.js:107-114 | the mirror shows the angle converted to degrees and the length |
| Pendulum.Scene.AngleSliderThenReset | pendulum.js:89-114 | moving the angle slider to v and pressing reset stores v in radians, rebuilds, and shows v again |
| VerticalBounce.BallAboveGround | verticalBounce.js:8-32 | the ball starts at (400, 400) moving (0, yVel), 130 above the frictionless ground, with restitution = elasticity |
| VerticalBounce.SliderNeverThrowsDown | verticalBounce.js:64 | on the slider's range -20..0 the ball never starts downwards |
| VerticalBounce.Scene.constructor | verticalBounce.js:4-9 | loading the script stores the globals and builds nothing |
| VerticalBounce.Scene.ProjectileMotion | verticalBounce.js:11-36 | stores both arguments and appends exactly ball and ground |
| VerticalBounce.Scene.OnDomContentLoaded | verticalBounce.js:95-117 | the globals are unchanged; with the engine present, builds ball and ground and adds the mouse constraint; otherwise ball, ground and world are unchanged |
| VerticalBounce.Scene.ResetScene | verticalBounce.js:38-46 | rebuilds without the mouse constraint and resyncs the mirror |
| VerticalBounce.Scene.ResetParams | verticalBounce.js:48-55 | clears isPlaying and rebuilds without the mouse constraint |
| VerticalBounce.Scene.OnYVelocityChange | verticalBounce.js:64-74 | writes the y velocity, rebuilds and sets it on the ball again |
| VerticalBounce.Scene.OnElasticityChange | verticalBounce.js:76-83 | writes the elasticity and rebuilds |
| VerticalBounce.Scene.ResetGUI | verticalBounce.js:85-92 | the mirror holds both globals |

## Findings

Both discrepancies come from reading the code; nothing was executed. The scenes model the code as written. The corrected members stand beside them.

| source | as written | input that shows it | evidently intended | confidence | as-written member | corrected member |
|---|---|---|---|---|---|---|
| motion_inclined_plane.js:41-55 | `fromVertices(250, 550 - 300/2, ...)`: the centroid of the triangle, one third up its vertical side, is put at y = 400 | any plane angle, in both incline scripts (circular_body_inclined.js has the same lines): the base lies at y = 500 and the apex at y = 200 | the base on the ground top (y = 550) and the apex level with the mover's start (y = 250), as the comments on lines 41 and 47 say; that needs the centroid at 550 - 300/3 | medium, not executed | Incline.PlaneFloatsAboveGround | Incline.IntendedPlaneRestsOnGround |
| projectile.js:63-89 | the mirror starts at the stored y velocity -4 and `ResetGUI` copies the stored value, but the slider handler stores the negated slider value | load (slider -4, launch -4, upwards), then choose -4 on the slider: the launch becomes +4, downwards | one convention for the slider: upward-positive, the handler's, also at load and in `ResetGUI` | high, not executed | Projectile.SameSliderValueOppositeLaunch, Projectile.Scene.YSliderThenReset | Projectile.SameSliderValueSameLaunch, Projectile.Scene.YSliderThenResetUpwardPositive |

## Left out

- Matter.js itself is not modelled: stepping, collisions, constraint solving, and the effect over time of `Body.applyForce` and of the velocities set. Bodies and constraints are plain records. `World.clear(world, false)` empties the world.
- `Bodies.fromVertices` re-centres a polygon on its centroid. A body record keeps the requested position and the vertex list as given; `PlacedTriangle` gives where a triangle's corners end up. For the incline that is a base at y = 500 and an apex at y = 200 (see Findings). Only triangles are placed; the general polygon centroid and decomposition are left out.
- Sines, cosines, tangents and π are not computed. `MathLib` stands for them. The hypotheses are sin² + cos² = 1 at an angle, tan positive on the incline slider's range 10..60, and π ≠ 0. Arithmetic is over exact reals; floating-point rounding is not modelled.
- worldcreation.js is not part of this model. Each `Scene` starts from an empty world. The initial `isPlaying` and runner state are constructor parameters.
- lil.GUI internals are not modelled: clamping, stepping, menus, layout, and the `onChange` that `setValue` can fire again. A slider change writes its `guiParams` field and then runs its handler. `ResetGUI` writes the mirror only.
- The DOM readout panel of horizontal_motion.js (`createInfoDisplay`, `updateInfoDisplay`), `console.log` and the play/pause button HTML are left out. They only touch the page.
- The canvas drawing loop in `updateTrail` is left out. The fade of one segment is `FadeAlpha`. `Date.now()` is a parameter (`now`, or the elapsed time).
- Mouse and MouseConstraint objects and `render.mouse` are left out. The world records only where a mouse constraint is added.
- `Events.on` dispatch is left out. The inclined-plane scenes count their registered `beforeUpdate` handlers. `BeforeUpdateHandler` is what one handler does.
- The horizontal-motion acceleration force (`applyForce` in `updateMotion`) and `distanceTraveled` beyond its reset are left out, because they act only through the engine.
- Render options (colours, line widths, visibility) are left out.
- HorizontalMotion.Scene.UpdateGround: requires the scene invariant, under which the ball exists. The source's no-ball branch is a no-op that cannot occur once the script has loaded.
- MotionInclinedPlane.Scene.MotionInclinedPlane: requires tan(angle) ≠ 0 rather than modelling the division by zero (Infinity in JavaScript). The incline slider cannot reach such an angle.
- CircularBodyInclined.Scene.CircularMotionInclined: requires tan(angle) ≠ 0, for the same reason.
- Pendulum.Scene.ResetGUI: requires π ≠ 0 for the conversion to degrees.
