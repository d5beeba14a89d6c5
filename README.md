# Machine bookkeeping around Box2D, in Dafny

This project models the core of MachineLib, the C++ library behind an
animated "Rube Goldberg" machine. The physics itself (Box2D) is opaque.
What is modelled is the bookkeeping around it:

- **Components.** A `Machine` owns an ordered list of components and one
  physics world. `Update` advances every component and then steps the
  world. `Reset` builds a new world and a new contact listener and
  installs every component into them, in list order.
- **Frame replay.** The `ActualMachineSystem` seeks the machine to any
  frame. Going back resets the machine and replays from frame 0. Going
  forward updates one frame at a time. The time is then set from the
  frame reached.
- **Drivetrain.** A `RotationSource` passes a (rotation, speed) pair to
  its sinks, in registration order:
  - a `Pulley` feeds its own source, takes the rotation, then drives the
    pulley it is belted to;
  - a `Conveyor` latches a non-zero rotation's speed and pushes whatever
    touches it;
  - a `Body` spins at the speed.
- **Hamster motor.** A `Hamster` turns its wheel while running, wraps
  the rotation into one turn, feeds `(rotation, -speed)` to its source
  and picks an animation frame from the wheel angle.
- **Scoring.** A `BasketballGoal` adds two points to its `Scoreboard`
  on every contact with its target. The board shows the score padded
  to two digits.
- **Factory.** `HamsterAndConveyorFactory` appends a hamster, a
  conveyor and two belted pulleys to a machine, wired so that the
  hamster drives the belt. It can also drop a ball onto the belt.

Each C++ class whose fields change in place is a Dafny `class` with the
same fields. Its methods carry `modifies` clauses and state the new
state. The C++ virtual-call hierarchy (`Component`, `RotationSink`)
becomes a tagged variant:
- a `Component` wraps a `Part` naming the concrete object;
- a source's sink list holds `Sink` values.

The drivetrain's wiring is also described by a value, `Wiring`. It holds:
- each source's sink list;
- a rank per source that decreases along every edge, which makes the
  wiring acyclic;
- the pulley each pulley drives;
- the conveyors and bodies a delivery may reach.

`Wired(w)` ties the objects' fields to that value. `StateOf(w)` is the
state a delivery can change: each body's spin, each pulley's rotation
and each conveyor's belt (speed and contacts). Every delivery method
states:
- the `Rotate` calls it makes, in the order they take effect. A sink is
  listed when its own state changes, so a pulley comes after the sinks
  of its own source, which its `Rotate` serves first. Heap-free
  functions (`Fanout`, `RotateTrace`, `BeltTrace`) give that sequence
  for a given wiring;
- the new `StateOf(w)`: `Effect` of those calls, served in order from
  the old state;
- for `SetRotation`, `Deliver` and `Hamster.Update`: every sink on the
  list ends `Delivered`. A body spins at the speed, a pulley sits at the
  rotation, and a conveyor has turned exactly once, even when it is
  served twice.

Lemmas prove that:
- every registered sink is reached;
- every call passes the arguments on unchanged;
- in the factory's chain the conveyor is called exactly twice per hamster
  update. The hamster's update leaves both pulleys at the new rotation
  and the conveyor turned once (`ChainEffect`).

The frame replay states the calls the system makes on its machine
(`Replayed`). Lemmas about it:
- a backward seek resets exactly once and before any update;
- a forward seek never resets;
- every update is one frame of `1 / frameRate` seconds.

Files, one module each:
- `physics.dfy` (`Physics`): points, vectors, and stand-ins for the
  Box2D world, contacts and the contact listener.
- `drivetrain.dfy` (`Drivetrain`): sources, pulleys, conveyors and bodies.
- `hamster.dfy` (`Hamsters`): the hamster motor.
- `scoring.dfy` (`Scoring`): the goal and its scoreboard.
- `machine.dfy` (`MachineSystem`): components, the machine and the
  machine system. They share one module because they point at each
  other.
- `factory.dfy` (`Factories`): the hamster-and-conveyor factory.

The model follows the code; note that:
- `SetMachineNumber` does not reset the frame counter.
- The rule "seeking forward never resets" holds only for targets that are
  not negative. A negative target leaves the counter at 0, so a later,
  larger negative target seeks back and resets again. `MonotonicSeek` and
  `NegativeSeeksResetTwice` state this.

## Model

| member | source | states |
|---|---|---|
| Physics.World.CreateBody | MachineLib/Body.cpp:31-34 | installing a polygon adds exactly one body to the world |
| Physics.World.Advance | MachineLib/Machine.cpp:85 | a world step appends exactly one step record (elapsed, velocity and position iterations) to the world's history |
| Physics.ContactListener.Add | MachineLib/Conveyor.cpp:67 | registering an observer appends it to the listener's registrations, after all earlier ones |
| Drivetrain.RotationSource.constructor | MachineLib/RotationSource.cpp:13-16 | a new source records its owning component and has no sinks |
| Drivetrain.RotationSource.AddSink | MachineLib/RotationSource.cpp:22-26 | the sink is appended to the sink list (no duplicate check) and records this source as its driver |
| Drivetrain.RotationSource.SetRotation | MachineLib/RotationSource.cpp:33-39 | the Rotate calls made are exactly `Fanout` of this source: every sink served in registration order, each with its own cascade. The new drivetrain state is `Effect` of those calls on the old one. Every sink on the list ends `Delivered`: a body spins at s, a pulley is at r, a conveyor has turned once. The wiring is unchanged |
| Drivetrain.RotationSource.Serve | MachineLib/RotationSource.cpp:35-38 | one turn of the loop serves the next sink-list entry: the calls so far grow to the fan-out of one more entry, and the state stays their `Effect` |
| Drivetrain.Deliver | MachineLib/RotationSource.cpp:37 | serving one sink-list entry makes exactly that entry's cascade of calls (`SinkTrace`). The new drivetrain state is their `Effect`, and the entry's sink ends `Delivered` |
| Drivetrain.TurnBelt | MachineLib/Conveyor.cpp:87-103 | a delivery to a conveyor is one call, and the state changes by exactly that call |
| Drivetrain.Spin | MachineLib/Body.cpp:41-44 | a delivery to a body is one call, and the state changes by exactly that call |
| Drivetrain.FanoutReachesEverySink | MachineLib/RotationSource.cpp:35-38 | every registered sink receives (r, s) when its source turns, duplicates included |
| Drivetrain.FanoutPrefixReaches | MachineLib/RotationSource.cpp:35-38 | every one of the first n sink-list entries is called by the fan-out of those n entries |
| Drivetrain.SinkTraceReachesSink | MachineLib/Pulley.cpp:67-76 | serving a sink entry calls that sink's own Rotate |
| Drivetrain.FanoutPasses | MachineLib/RotationSource.cpp:37 | every call in a source's cascade carries the rotation and speed the source was given |
| Drivetrain.FanoutPrefixPasses | MachineLib/RotationSource.cpp:37 | the same for the fan-out of a prefix of the sink list |
| Drivetrain.RotateTracePasses | MachineLib/Pulley.cpp:67-76 | every call a pulley's Rotate makes carries its own arguments unchanged |
| Drivetrain.BeltTracePasses | MachineLib/Pulley.cpp:73-74 | every call made through a belt carries the driving pulley's arguments unchanged |
| Drivetrain.FanoutOfLeaves | MachineLib/RotationSource.cpp:35-38 | a source whose sinks are all conveyors or bodies calls exactly those sinks, once per registration, in registration order |
| Drivetrain.FanoutOfNoSinks | MachineLib/RotationSource.cpp:35-38 | a source with no sinks makes no call |
| Drivetrain.Latched | MachineLib/Conveyor.cpp:89-92 | the belt speed takes the delivered speed exactly when the rotation is non-zero, and is kept otherwise |
| Drivetrain.Pushed | MachineLib/Conveyor.cpp:96-99 | a touching contact's other body gets linear velocity (v, 0); a non-touching one is left alone |
| Drivetrain.Conveyed | MachineLib/Conveyor.cpp:93-102 | every entry of the contact list is pushed, in place; the list keeps its length and order |
| Drivetrain.ConveyedIdempotent | MachineLib/Conveyor.cpp:93-102 | pushing the contacts twice at the same velocity is pushing them once |
| Drivetrain.Turned | MachineLib/Conveyor.cpp:87-103 | a delivery latches the belt speed (`Latched`) and pushes every contact at (-speed, 0), keeping the contact list's length and order |
| Drivetrain.TurnedIdempotent | MachineLib/Conveyor.cpp:87-103 | delivering the same (rotation, speed) twice to a conveyor leaves it as one delivery does |
| Drivetrain.EffectAppend | MachineLib/RotationSource.cpp:35-38 | serving two runs of calls one after the other leaves the state that serving their concatenation does |
| Drivetrain.EffectOne | MachineLib/RotationSource.cpp:37 | serving a single call is that call's own effect on its sink |
| Drivetrain.SpinAfterRun | MachineLib/Body.cpp:41-44 | after calls that all carry (r, s), a body spins at s if one of them reached it, and keeps its spin otherwise |
| Drivetrain.RotationAfterRun | MachineLib/Pulley.cpp:70 | after calls that all carry (r, s), a pulley sits at r if one of them reached it, and keeps its rotation otherwise |
| Drivetrain.BeltAfterRun | MachineLib/Conveyor.cpp:87-103 | after calls that all carry (r, s), a conveyor reached by them has turned exactly once, however often it was reached, and keeps its belt otherwise |
| Drivetrain.RunDelivers | MachineLib/RotationSource.cpp:35-38 | calls that all carry (r, s) and include one to a sink leave that sink `Delivered` |
| Drivetrain.SinkTraceDelivers | MachineLib/RotationSource.cpp:37 | serving one sink-list entry leaves that sink `Delivered` |
| Drivetrain.FanoutDelivers | MachineLib/RotationSource.cpp:35-38 | when a source turns with (r, s), every sink registered with it ends `Delivered`, duplicates included |
| Drivetrain.Pulley.constructor | MachineLib/Pulley.cpp:13-19 | a new pulley has the given radius, rotation 0, no driver and no driven pulley, and its own empty source owned by it |
| Drivetrain.Pulley.SetPosition | MachineLib/Pulley.cpp:57-60 | the location becomes the point |
| Drivetrain.Pulley.GetPosition | MachineLib/Pulley.h:77 | the pulley reports its own location |
| Drivetrain.Pulley.Drive | MachineLib/Pulley.cpp:82-85 | the pulley belts to the given pulley, replacing any earlier one |
| Drivetrain.Pulley.SetSource | MachineLib/Pulley.h:89 | the pulley records its driving source |
| Drivetrain.Pulley.SetPhysic | MachineLib/Pulley.h:69 | installing a pulley only resets its rotation to 0 |
| Drivetrain.Pulley.Rotate | MachineLib/Pulley.cpp:67-76 | the calls made are `RotateTrace`: its own source's sinks, then the pulley takes the rotation, then the belted pulley's source and cascade. The new drivetrain state is `Effect` of those calls; the pulley ends at the rotation |
| Drivetrain.Pulley.Settle | MachineLib/Pulley.cpp:70-75 | the pulley takes the rotation, then the belted pulley (if any) receives its whole belt cascade. The new drivetrain state is `Effect` of those calls |
| Drivetrain.Pulley.Take | MachineLib/Pulley.cpp:70 | the pulley takes the rotation: one call to itself, and the state changes by exactly that call |
| Drivetrain.Pulley.Pass | MachineLib/Pulley.cpp:71-75 | with a belted pulley, that pulley's whole belt cascade runs; without one nothing happens |
| Drivetrain.Pulley.TakeBelt | MachineLib/Pulley.cpp:73-74 | a belted pulley's source is fed first, then the belted pulley rotates (`BeltTrace`) and ends at the rotation. The new drivetrain state is `Effect` of those calls |
| Drivetrain.Conveyor.constructor | MachineLib/Conveyor.h:24-33 | a new belt has no driver, speed 0 and no contacts |
| Drivetrain.Conveyor.SetPosition | MachineLib/Conveyor.cpp:43-47 | the location becomes the point, and the shaft sits 48 right of and 4 above it |
| Drivetrain.Conveyor.GetPosition | MachineLib/Conveyor.h:56 | the belt reports its own location |
| Drivetrain.Conveyor.GetShaftPosition | MachineLib/Conveyor.cpp:53-57 | the shaft is the location offset by (48, 4) |
| Drivetrain.Conveyor.SetSource | MachineLib/Conveyor.h:63 | the belt records its driving source |
| Drivetrain.Conveyor.SetPhysic | MachineLib/Conveyor.cpp:64-70 | two bodies are installed, the belt is registered with the listener once, and the belt stops and touches nothing |
| Drivetrain.Conveyor.PreSolve | MachineLib/Conveyor.cpp:77-80 | a contact with the belt gets tangent speed -speed |
| Drivetrain.Conveyor.Rotate | MachineLib/Conveyor.cpp:87-103 | the speed is latched (`Latched`), then every touching contact is pushed at (-speed, 0) (`Conveyed`) |
| Drivetrain.Body.constructor | MachineLib/Body.cpp:12-15 | a new body has no driver, no spin, and starts static at the origin |
| Drivetrain.Body.SetInitialPosition | MachineLib/HamsterAndConveyorFactory.cpp:64 | the body's physics polygon starts at the point |
| Drivetrain.Body.SetDynamic | MachineLib/HamsterAndConveyorFactory.cpp:65 | the body becomes dynamic |
| Drivetrain.Body.SetSource | MachineLib/Body.h:50 | the body records its driving source |
| Drivetrain.Body.SetPhysic | MachineLib/Body.cpp:31-34 | one body is installed and no contact observer is registered |
| Drivetrain.Body.Rotate | MachineLib/Body.cpp:41-44 | the body's angular velocity becomes the delivered speed, whatever the rotation |
| Hamsters.Advanced | MachineLib/Hamster.cpp:152-164 | a sleeping hamster's wheel, inside one turn, keeps its rotation; a wheel inside one turn stays strictly inside one turn after a step of at most one turn |
| Hamsters.AdvancedStaysInTurn | MachineLib/Hamster.cpp:152-164 | over any run of running and idle updates the wheel rotation stays strictly between -1 and 1, as long as no single step exceeds one turn |
| Hamsters.Degree | MachineLib/Hamster.cpp:166-176 | the wheel angle is not negative exactly when the rotation is not positive for a forward hamster, and exactly when it is not negative otherwise; a rotation of magnitude under 1 gives an angle of magnitude under 57.3 degrees |
| Hamsters.ImageIndex | MachineLib/Hamster.cpp:181-199 | a sleeping hamster shows image 0; a running one shows image 1, 2 or 3, and image 1 on a zero-length update |
| Hamsters.Hamster.constructor | MachineLib/Hamster.h:27-39 | a new hamster sleeps, with rotation 0, speed 1 and image 0, and owns an empty source |
| Hamsters.Hamster.SetPosition | MachineLib/Hamster.cpp:121-125 | the location and the cage's initial position become (x, y) |
| Hamsters.Hamster.GetShaftPosition | MachineLib/Hamster.cpp:206-210 | the shaft is the location offset by (25, 40) |
| Hamsters.Hamster.SetSpeed | MachineLib/Hamster.h:82 | the speed becomes the argument |
| Hamsters.Hamster.BeginContact | MachineLib/Hamster.cpp:140-143 | any contact with the cage sets the hamster running |
| Hamsters.Hamster.SetInitiallyRunning | MachineLib/Hamster.cpp:216-224 | running and the initial-run flag both take the argument; starting to run shows image 1 |
| Hamsters.Hamster.SetPhysic | MachineLib/Hamster.cpp:102-114 | the wheel stops; a hamster not running from the start sleeps with image 0; two bodies are installed and the hamster registers once |
| Hamsters.Hamster.TurnWheel | MachineLib/Hamster.cpp:152-164 | the new rotation is `Advanced` of the old rotation, running flag and speed |
| Hamsters.Hamster.Update | MachineLib/Hamster.cpp:149-200 | the wheel advances (`Advanced`); the source is fed (rotation, -speed), making exactly `Fanout`'s calls. The drivetrain's new state is their `Effect`, and every sink of the source ends `Delivered`. The image is `ImageIndex` of the new wheel angle |
| Hamsters.Hamster.Animate | MachineLib/Hamster.cpp:152-199 | the wheel advances (`Advanced`) and the image is `ImageIndex` of the new angle; the drivetrain is untouched |
| Hamsters.Hamster.PickImage | MachineLib/Hamster.cpp:181-199 | the image becomes `ImageIndex` of the current wheel angle |
| Scoring.DigitChar | MachineLib/Scoreboard.cpp:59-61 | a digit's character is the decimal digit with that value |
| Scoring.Decimal | MachineLib/Scoreboard.cpp:59-61 | the numeral of n is made of digits, has no leading zero, and has one digit exactly when n < 10 |
| Scoring.ScoreText | MachineLib/Scoreboard.cpp:59-61 | the board text has at least two characters and exactly two digits for a score from 0 to 99; a score of 10 or more gets no padding '0', and a negative score starts with '-' and a non-zero digit |
| Scoring.DecimalValue | MachineLib/Scoreboard.cpp:59-61 | the numeral of n reads back as n |
| Scoring.LeadingZeroValue | MachineLib/Scoreboard.cpp:59-61 | a leading '0' of padding does not change a numeral's value |
| Scoring.ScoreTextRoundTrip | MachineLib/Scoreboard.cpp:59-61 | the padded board text of any score, negative included, reads back as that score |
| Scoring.NegativeScoreText | MachineLib/Scoreboard.cpp:59-61 | a negative score is shown as '-' followed by the digits of its magnitude, which read back as the score |
| Scoring.ScoreTextDigits | MachineLib/Scoreboard.cpp:59-61 | a score that is not negative is shown as digits only, which read back as the score |
| Scoring.ScoreTextExamples | MachineLib/Scoreboard.cpp:59-61 | 0, 4, 12, 100 and -3 are shown as "00", "04", "12", "100" and "-3" |
| Scoring.Scoreboard.constructor | MachineLib/Scoreboard.cpp:36-39 | a new board shows the given score and belongs to no goal |
| Scoring.Scoreboard.GetScore | MachineLib/Scoreboard.h:39 | the board reports its score |
| Scoring.Scoreboard.SetScore | MachineLib/Scoreboard.h:45 | the score becomes the argument and is reported back |
| Scoring.Scoreboard.SetGoal | MachineLib/Scoreboard.cpp:80-83 | the board records its goal |
| Scoring.Scoreboard.Board | MachineLib/Scoreboard.cpp:49-53 | the board is drawn at the goal's location offset by (5, 280), 30 by 20 |
| Scoring.BasketballGoal.constructor | MachineLib/BasketballGoal.cpp:40-53 | a new goal's board starts at 0 and belongs to the goal |
| Scoring.BasketballGoal.SetPosition | MachineLib/BasketballGoal.cpp:60-67 | the location becomes (x, y); the post starts at offset (22, 0) from it and the target at (-12, 165) |
| Scoring.BasketballGoal.GetPosition | MachineLib/BasketballGoal.h:51 | the goal reports its own location |
| Scoring.BasketballGoal.BeginContact | MachineLib/BasketballGoal.cpp:86-92 | every contact adds exactly 2 to the board, and a board holding a whole number of baskets still does |
| Scoring.BasketballGoal.PreSolve | MachineLib/BasketballGoal.cpp:101-104 | contacts with the target are disabled, so balls pass through |
| Scoring.BasketballGoal.StartScoreboard | MachineLib/BasketballGoal.cpp:131-135 | the board is cleared to 0 and attached to this goal |
| Scoring.BasketballGoal.SetPhysic | MachineLib/BasketballGoal.cpp:111-117 | two bodies are installed, the goal registers once, and the board is cleared |
| MachineSystem.RegistrationsListen | MachineLib/Machine.cpp:100-104 | every registration the listener holds after installing a list was made by the part of one of its components, and there are at most as many registrations as components |
| MachineSystem.Component.constructor | MachineLib/Component.cpp:13-16 | a new component belongs to no machine |
| MachineSystem.Component.SetMachine | MachineLib/Component.cpp:40-43 | the component records its machine |
| MachineSystem.Component.GetPosition | MachineLib/Component.cpp:49-52 | hamsters and bodies report their machine's location (the base-class default); pulleys, conveyors and goals report their own |
| MachineSystem.Component.Update | MachineLib/Component.cpp:31-34 | only a hamster changes anything when time advances. Its wheel advances one step (`Advanced`) and its image is `ImageIndex` of the new angle. The calls made are `Fed`, its source's fan-out of the new rotation and -speed, and the drivetrain's new state is their `Effect`. Every other part makes no call and changes nothing |
| MachineSystem.Component.SetPhysic | MachineLib/Component.h:45 | the part's own install runs: its registrations and bodies are appended and it is left `Installed` (wheel, pulley and belt stopped, belt touching nothing, board at 0, a hamster not running from the start asleep on image 0); a goal's board points back to that goal |
| MachineSystem.Machine.constructor | MachineLib/Machine.cpp:27-30 | a new machine has a fresh world with gravity (0, -9.8), no components, no listener, and number 1 |
| MachineSystem.Machine.SetMachineNumber | MachineLib/Machine.h:63 | the number becomes the argument |
| MachineSystem.Machine.GetNumber | MachineLib/Machine.h:69 | the machine reports its number |
| MachineSystem.Machine.SetSystem | MachineLib/Machine.cpp:59-62 | the machine records its system |
| MachineSystem.Machine.GetLocation | MachineLib/Machine.cpp:68-71 | the machine's location is its system's location |
| MachineSystem.Machine.AddComponent | MachineLib/Machine.cpp:49-53 | the component is appended, without a duplicate check, and records this machine as its owner |
| MachineSystem.Machine.Draw | MachineLib/Machine.cpp:36-43 | every component is drawn exactly once, in list order |
| MachineSystem.Machine.Update | MachineLib/Machine.cpp:77-86 | the world is stepped exactly once, by `elapsed` with 6 velocity and 2 position iterations; the wiring is kept. The calls made are what each component fed, concatenated in list order, and the drivetrain's new state is their `Effect` (`Updated`). When no hamster is listed twice: each component's entry is `Fed` of its hamster's new rotation, every wheel has advanced one step (`Advanced`) and every hamster shows `ImageIndex` of its new angle |
| MachineSystem.Machine.Reset | MachineLib/Machine.cpp:91-106 | a fresh world with gravity (0, -9.8) and no steps, and a fresh listener, hold exactly the registrations and bodies of every component installed in list order; every component is left `Installed` |
| MachineSystem.UpdateAll | MachineLib/Machine.cpp:80-83 | the components are updated in list order. The calls made are what each fed, concatenated, and the drivetrain's new state is their `Effect`. When no hamster is listed twice, each entry is `Fed` of the hamster's new rotation, every wheel has advanced one step and every hamster shows `ImageIndex` of its new angle |
| MachineSystem.Install | MachineLib/Machine.cpp:100-104 | installing a list of components appends their registrations and bodies in list order and leaves every component `Installed` |
| MachineSystem.Frames | MachineLib/ActualMachineSystem.cpp:64-68 | n forward steps are n updates of `elapsed` each |
| MachineSystem.Steps | MachineLib/Machine.cpp:85 | n updates leave n world steps, each of `elapsed` with 6 velocity and 2 position iterations |
| MachineSystem.Seek | MachineLib/ActualMachineSystem.cpp:58-68 | the counter lands on the target, except that a negative target below the counter lands on 0; a backward seek never lands below 0 |
| MachineSystem.Replayed | MachineLib/ActualMachineSystem.cpp:56-68 | a seek's calls begin with a reset exactly when the target is below the counter, and every call after the first is an update of `elapsed` |
| MachineSystem.SeekLands | MachineLib/ActualMachineSystem.cpp:56-70 | from a frame that is not negative, a seek lands on the target, or on 0 for a negative target; a forward seek lands on its target |
| MachineSystem.ReplayedCalls | MachineLib/ActualMachineSystem.cpp:56-70 | a backward seek resets exactly once, first, then updates once per frame from 0; a forward seek only updates, once per frame in between |
| MachineSystem.MonotonicSeek | MachineLib/ActualMachineSystem.cpp:56-70 | after a seek, a second seek to a later target that is not negative never resets; one that lands below the counter resets first |
| MachineSystem.NegativeSeeksResetTwice | MachineLib/ActualMachineSystem.cpp:56-62 | seeking from 5 to -3 and then to -1 resets the machine both times |
| MachineSystem.ReplayedStill | MachineLib/ActualMachineSystem.cpp:56-70 | seeking to the current frame calls nothing and keeps the frame |
| MachineSystem.ActualMachineSystem.constructor | MachineLib/ActualMachineSystem.cpp:16-19 | a new system holds a fresh machine 1 that points back to it and has been reset once |
| MachineSystem.ActualMachineSystem.SetLocation | MachineLib/ActualMachineSystem.cpp:25-28 | the location becomes the argument and is reported back |
| MachineSystem.ActualMachineSystem.GetLocation | MachineLib/ActualMachineSystem.cpp:34-37 | the system reports its location |
| MachineSystem.ActualMachineSystem.SetFrameRate | MachineLib/ActualMachineSystem.cpp:76-79 | the frame rate becomes the argument |
| MachineSystem.ActualMachineSystem.SetMachineTime | MachineLib/ActualMachineSystem.cpp:118-121 | the time becomes the argument and is reported back |
| MachineSystem.ActualMachineSystem.GetMachineTime | MachineLib/ActualMachineSystem.cpp:127-130 | the system reports its time |
| MachineSystem.ActualMachineSystem.SetMachineNumber | MachineLib/ActualMachineSystem.cpp:85-103 | number 1 selects machine 1 and any other number machine 2; the new machine points back to the system and is reset once; the frame counter and time are left as they are |
| MachineSystem.ActualMachineSystem.GetMachineNumber | MachineLib/ActualMachineSystem.cpp:109-112 | the system reports its machine's number |
| MachineSystem.ActualMachineSystem.SetMachineFrame | MachineLib/ActualMachineSystem.cpp:56-70 | the frame lands on `Seek`; the machine gets exactly the calls `Replayed` lists; it is reset once exactly when the target is below the counter; the world holds one step of 1 / frameRate per update replayed, after the old steps or, after a reset, alone; the time is the frame over the frame rate |
| MachineSystem.ActualMachineSystem.Rewind | MachineLib/ActualMachineSystem.cpp:58-62 | a backward seek resets the machine exactly once into a fresh world, keeping its wiring |
| MachineSystem.ActualMachineSystem.PlayTo | MachineLib/ActualMachineSystem.cpp:64-68 | the machine is updated one frame of 1 / frameRate at a time until the counter reaches the target, or not at all when it is already there; each update appends one world step of 1 / frameRate |
| Factories.Truncate | MachineLib/HamsterAndConveyorFactory.cpp:63 | converting the placement to whole units drops the fraction toward zero |
| Factories.ChainSound | MachineLib/HamsterAndConveyorFactory.cpp:39-48 | the factory's wiring is acyclic and stays inside its hamster, conveyor and two pulleys |
| Factories.ChainDeliveries | MachineLib/HamsterAndConveyorFactory.cpp:39-48 | one turn of the hamster's source makes calls that take effect in this order: pulley 1, the conveyor, the conveyor again, then pulley 2, all with the same arguments |
| Factories.ChainConveyorTwice | MachineLib/HamsterAndConveyorFactory.cpp:39-48 | per hamster update the conveyor is called exactly twice with the same arguments, and from its current speed and contacts ends as one call leaves it |
| Factories.ChainEffect | MachineLib/HamsterAndConveyorFactory.cpp:39-48 | from any state of the chain's objects, one turn of the hamster's source leaves both pulleys at the rotation, the conveyor turned exactly once, and everything else as it was; with `Hamster.Update` this is the chain's state after a hamster update |
| Factories.ChainRun | MachineLib/HamsterAndConveyorFactory.cpp:39-48 | the chain's four calls (pulley 1, conveyor, conveyor, pulley 2), served in order, leave that same state |
| Factories.HamsterAndConveyorFactory.constructor | MachineLib/HamsterAndConveyorFactory.h:46-47 | a new factory adds to the given machine and has built nothing yet |
| Factories.HamsterAndConveyorFactory.GetHamster | MachineLib/HamsterAndConveyorFactory.h:66 | the factory reports the hamster it built last |
| Factories.HamsterAndConveyorFactory.GetConveyor | MachineLib/HamsterAndConveyorFactory.h:72 | the factory reports the conveyor it built last |
| Factories.HamsterAndConveyorFactory.Create | MachineLib/HamsterAndConveyorFactory.cpp:19-49 | exactly four components are appended: hamster, conveyor, pulley 1, pulley 2; the pulleys have radius 10 and sit on the hamster's and the conveyor's shafts; the objects are wired as `Chain`; the getters return the new hamster and conveyor |
| Factories.HamsterAndConveyorFactory.Connect | MachineLib/HamsterAndConveyorFactory.cpp:39-48 | the hamster's source feeds pulley 1, pulley 1 drives pulley 2, and pulley 2's source feeds the conveyor; each sink records its source |
| Factories.HamsterAndConveyorFactory.AddBall | MachineLib/HamsterAndConveyorFactory.cpp:57-70 | exactly one new dynamic body is appended, starting at the conveyor's position offset by (placement truncated, 26) |

## Left out

- Drawing: `Draw` of every component, `ActualMachineSystem::DrawMachine`, and the pixel scale. `Machine.Draw` only records the order in which components are drawn. The scoreboard keeps only its text and its rectangle.
- Box2D: a world counts installed bodies and records steps; a contact list is a sequence the engine owns. Collision detection, contact dispatch from the engine, and every polygon's shape, image and material are not modelled. This covers the ball's circle of radius 12 and its density 2, friction 0.5 and restitution 0.1 in `AddBall`.
- `GetPolygon` of every component: it only hands out a drawing or physics polygon.
- `ActualMachineSystem::SetFlag`: its body is empty.
- `Component::SetRotation`: a virtual no-op that no class in the core overrides or calls.
- The scene factories `Machine1Factory` and `Machine2Factory` are not part of this model. `SetMachineNumber` builds an empty machine 1 or 2 in their place.
- Image directories and file names.
- Floating point: `double` and `float` are modelled as `real`. `M_PI` is the decimal literal 3.141592653589793. Rounding is not modelled.
- Scoring.BasketballGoal.BeginContact: the C++ `int` score can overflow; the model's score is unbounded.
- Hamsters.Hamster.Update: the C++ code picks the image after feeding the source. The model picks it first. A delivery only turns pulleys, belts and bodies, never the hamster, so the resulting state is the same.
- Drivetrain.RotationSource.SetRotation: requires `Wired(w)`, a ranked and acyclic wiring. The C++ code would recurse forever on a cyclic wiring. Delivery methods take this wiring as a ghost argument. The same precondition is on every method that delivers: `Hamster.Update`, `Component.Update`, `Machine.Update`, `SetMachineFrame`.
- MachineSystem.Machine.Update: the per-hamster facts (each entry of what was fed, each wheel's new rotation, each image) are stated only when no hamster is listed twice. A hamster listed twice is updated twice per machine update, and the model does not state that double step. The drivetrain's new state is stated in every case.
- MachineSystem.UpdateAndStep: the C++ code steps the world after updating the components. The model steps it first. A step only appends to the world's step record, which no component update reads or writes, so the final state is the same.
- MachineSystem.Install: the link from a goal's board back to its goal, which `Component.SetPhysic` states, is not carried through the loop. Two goals could share one board, and then a later install re-points it. `Machine.Reset` inherits this.
- Physics.World.Advance: a world step only records the step. Box2D moves bodies and updates contacts during a step; in the model a conveyor's contact list changes only through `Conveyor.Rotate` and `Conveyor.SetPhysic`.
- MachineSystem.ActualMachineSystem.SetMachineFrame: states the frame, the time, the calls made on the machine, the world's steps and the reset count. The components' resulting state is not stated. It requires a non-zero frame rate: the C++ code divides by the rate, and a zero rate gives an infinite step there.
- MachineSystem.ActualMachineSystem.constructor: the C++ constructor leaves the frame counter, frame rate and time uninitialised. The model takes them as arguments.
- Factories.HamsterAndConveyorFactory.Create: registers pulley 1 with the hamster's source after pulley 2 is added, not before. The two steps touch disjoint state.
