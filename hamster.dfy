/** The hamster motor: a wheel that turns while the hamster runs and drives a
    rotation source with its rotation, once per update. */
module Hamsters {
  import opened Physics
  import opened Drivetrain

  /** Offset of the output shaft from the bottom centre of the cage. */
  const HamsterShaftOffset: Point := Point(25, 40)

  /** The wheel rotation after one update that would turn it by `turn`
      (-speed * elapsed): only a running hamster turns it, and one wrap step
      then moves a value that reached a whole turn back by one turn. */
  function Advanced(rotation: real, running: bool, speed: real, elapsed: real): (r: real)
    ensures -1.0 < rotation < 1.0 && -1.0 <= speed * elapsed <= 1.0 ==> -1.0 < r < 1.0
    ensures !running && -1.0 < rotation < 1.0 ==> r == rotation
  {
    var turned := if running then rotation + -speed * elapsed else rotation;
    if turned <= -1.0 then turned + 1.0
    else if turned >= 1.0 then turned - 1.0
    else turned
  }

  /** The wheel angle in degrees the animation frame is chosen from; it is
      mirrored for a hamster running backwards.  The divisor is M_PI to
      double precision, written as a literal so that the division stays
      linear arithmetic. */
  function Degree(rotation: real, speed: real): (d: real)
    ensures speed > 0.0 ==> (0.0 <= d <==> rotation <= 0.0)
    ensures speed <= 0.0 ==> (0.0 <= d <==> 0.0 <= rotation)
    ensures -1.0 < rotation < 1.0 ==> -57.3 < d < 57.3
  {
    if speed > 0.0 then (-rotation * 180.0) / 3.141592653589793 else (rotation * 180.0) / 3.141592653589793
  }

  /** The hamster image: 0 is the sleeping hamster, 1 to 3 the running
      frames, chosen from bands of the wheel angle; a zero-length update
      shows frame 1. */
  function ImageIndex(running: bool, degree: real, elapsed: real): (i: int)
    ensures !running ==> i == 0
    ensures running ==> 1 <= i <= 3
    ensures running && elapsed == 0.0 ==> i == 1
  {
    if !running then 0
    else if (0.0 <= degree < 3.75) || (15.0 <= degree < 18.75) || (30.0 <= degree < 33.75)
         || (45.0 <= degree < 48.75) || elapsed == 0.0 then 1
    // the second band ends at 26.5 where the others are 3.75 wide, as in the source
    else if (7.5 <= degree < 11.25) || (22.5 <= degree < 26.5) || (37.5 <= degree < 41.25)
         || (52.5 <= degree < 56.25) then 3
    else 2
  }

  /** Updates keep the wheel rotation strictly inside one turn either way,
      whatever the order of running and idle steps, as long as no single
      step turns it by more than a whole turn. */
  lemma {:induction false} AdvancedStaysInTurn(rotation: real, running: seq<bool>, speed: real, elapsed: seq<real>)
    requires |running| == |elapsed|
    requires -1.0 < rotation < 1.0
    requires forall k :: 0 <= k < |elapsed| ==> -1.0 <= speed * elapsed[k] <= 1.0
    ensures -1.0 < AdvancedAll(rotation, running, speed, elapsed) < 1.0
    decreases |running|
  {
    if running != [] {
      AdvancedStaysInTurn(Advanced(rotation, running[0], speed, elapsed[0]), running[1..], speed, elapsed[1..]);
    }
  }

  /** The wheel rotation after a run of updates. */
  function AdvancedAll(rotation: real, running: seq<bool>, speed: real, elapsed: seq<real>): real
    requires |running| == |elapsed|
    decreases |running|
  {
    if running == [] then rotation
    else AdvancedAll(Advanced(rotation, running[0], speed, elapsed[0]), running[1..], speed, elapsed[1..])
  }

  class Hamster {
    /** The source the wheel drives. */
    const source: RotationSource
    var rotation: real
    var speed: real
    /** The animation frame shown (hamsterIndex). */
    var index: int
    /** Whether the hamster runs when the machine starts. */
    var initialRun: bool
    /** Whether the hamster is running (isAsleep in the C++ code). */
    var running: bool
    var location: Point
    /** The initial position of the cage's physics polygon. */
    var cage: Point

    constructor ()
      ensures rotation == 0.0 && speed == 1.0 && index == 0
      ensures !initialRun && !running
      ensures location == Point(0, 0) && cage == Point(0, 0)
      ensures fresh(source) && source.component == this && source.sinks == []
    {
      source := new RotationSource(null);
      rotation := 0.0;
      speed := 1.0;
      index := 0;
      initialRun := false;
      running := false;
      location := Point(0, 0);
      cage := Point(0, 0);
      new;
      source.component := this;
    }

    method SetPosition(x: int, y: int)
      modifies this`location, this`cage
      ensures location == Point(x, y) && cage == location
    {
      location := Point(x, y);
      cage := location;
    }

    /** Where a pulley driven by this hamster sits. */
    function GetShaftPosition(): (p: Point)
      reads this`location
      ensures p.x - location.x == HamsterShaftOffset.x && p.y - location.y == HamsterShaftOffset.y
    {
      location.Plus(HamsterShaftOffset)
    }

    method SetSpeed(speed: real)
      modifies this`speed
      ensures this.speed == speed
    {
      this.speed := speed;
    }

    /** Anything touching the cage wakes the hamster. */
    method BeginContact()
      modifies this`running
      ensures running
    {
      running := true;
    }

    /** Choose whether the hamster runs from the start; a running hamster
        shows its first running frame. */
    method SetInitiallyRunning(run: bool)
      modifies this`running, this`initialRun, this`index
      ensures running == run && initialRun == run
      ensures index == if run then 1 else old(index)
    {
      running := run;
      initialRun := run;
      if run {
        index := 1;
      }
    }

    /** Install the cage (twice, as the source does), register the hamster
        for the cage's contacts and stop the wheel; a hamster not running
        from the start goes back to sleep. */
    method SetPhysic(listen: ContactListener, world: World)
      modifies this`running, this`index, this`rotation, listen`observers, world`bodies
      ensures rotation == 0.0
      ensures !initialRun ==> !running && index == 0
      ensures initialRun ==> running == old(running) && index == old(index)
      ensures listen.observers == old(listen.observers) + [this]
      ensures world.bodies == old(world.bodies) + 2
    {
      if !initialRun {
        running := false;
        index := 0;
      }
      world.CreateBody();
      listen.Add(this);
      world.CreateBody();
      rotation := 0.0;
    }

    /** Turn the wheel if the hamster runs, then wrap it once. */
    method TurnWheel(elapsed: real)
      modifies this`rotation
      ensures rotation == Advanced(old(rotation), old(running), old(speed), elapsed)
    {
      if running {
        rotation := rotation + -speed * elapsed;
      }
      if rotation <= -1.0 {
        rotation := rotation + 1.0;
      } else if rotation >= 1.0 {
        rotation := rotation - 1.0;
      }
    }

    /** Advance the wheel, feed (rotation, -speed) through the source and
        pick the animation frame.  The C++ code picks the frame after the
        delivery; a delivery cannot reach the hamster (it only turns pulleys,
        belts and bodies), so the frame is picked first here. */
    method Update(elapsed: real, ghost w: Wiring) returns (ghost calls: seq<Delivery>)
      requires Wired(w) && source in w.sinks
      modifies this`rotation, this`index
      modifies w.Below(w.rank[source])`rotation, w.conveyors`speed, w.conveyors`contacts, w.bodies`angularVelocity
      ensures rotation == Advanced(old(rotation), old(running), old(speed), elapsed)
      ensures calls == Fanout(source, rotation, -speed, w)
      ensures StateOf(w) == Effect(old(StateOf(w)), calls)
      ensures forall i :: 0 <= i < |w.sinks[source]| ==>
        Delivered(old(StateOf(w)), StateOf(w), w.sinks[source][i], rotation, -speed)
      ensures Wired(w)
      ensures index == ImageIndex(running, Degree(rotation, speed), elapsed)
    {
      Animate(elapsed, w);
      var r, s, src, k := rotation, -speed, source, index;
      calls := src.SetRotation(r, s, w);
      assert rotation == r && speed == -s && source == src && index == k;
    }

    /** Turn the wheel and pick its frame; the drivetrain is untouched. */
    method Animate(elapsed: real, ghost w: Wiring)
      modifies this`rotation, this`index
      ensures rotation == Advanced(old(rotation), old(running), old(speed), elapsed)
      ensures index == ImageIndex(running, Degree(rotation, speed), elapsed)
      ensures StateOf(w) == old(StateOf(w))
    {
      TurnWheel(elapsed);
      PickImage(elapsed);
    }

    /** Pick the animation frame for the wheel's angle. */
    method PickImage(elapsed: real)
      modifies this`index
      ensures index == ImageIndex(running, Degree(rotation, speed), elapsed)
    {
      var degree := Degree(rotation, speed);
      index := ImageIndex(running, degree, elapsed);
    }
  }
}
