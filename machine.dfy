/** A machine is an ordered list of components sharing one physics world; the
    machine system owns the current machine and replays it frame by frame.

    The C++ components derive from a Component base class and override its
    virtual hooks.  Here a `Component` object carries the base-class state
    (the back-reference to its machine) and a `Part` naming the concrete
    object the hooks dispatch to. */
module MachineSystem {
  import opened Physics
  import opened Drivetrain
  import opened Hamsters
  import opened Scoring

  /** Gravity in metres per second squared, pointing down. */
  const Gravity: real := -9.8
  /** Solver iterations of every world step. */
  const VelocityIterations := 6
  const PositionIterations := 2

  /** The concrete component behind a Component. */
  datatype Part =
    | HamsterPart(hamster: Hamster)
    | ConveyorPart(conveyor: Conveyor)
    | PulleyPart(pulley: Pulley)
    | BodyPart(body: Body)
    | GoalPart(goal: BasketballGoal)
  {
    /** Who SetPhysic registers with the contact listener. */
    function Observers(): seq<object> {
      match this
      case HamsterPart(h) => [h]
      case ConveyorPart(c) => [c]
      case GoalPart(g) => [g]
      case _ => []
    }

    /** How many bodies SetPhysic installs into the world. */
    function Installs(): nat {
      match this
      case HamsterPart(_) => 2
      case ConveyorPart(_) => 2
      case PulleyPart(_) => 0
      case BodyPart(_) => 1
      case GoalPart(_) => 2
    }

    /** The part's state right after SetPhysic installs it: wheels, belts
        and pulleys stopped, a belt touching nothing, a board at 0, and a
        hamster not running from the start asleep on image 0. */
    ghost predicate Installed()
      reads Hamsters()`rotation, Hamsters()`initialRun, Hamsters()`running, Hamsters()`index
      reads Conveyors()`speed, Conveyors()`contacts, Pulleys()`rotation, Scoreboards()`score
    {
      match this
      case HamsterPart(h) => h.rotation == 0.0 && (!h.initialRun ==> !h.running && h.index == 0)
      case ConveyorPart(c) => c.speed == 0.0 && c.contacts == []
      case PulleyPart(p) => p.rotation == 0.0
      case BodyPart(_) => true
      case GoalPart(g) => g.scoreboard.score == 0
    }

    function Hamsters(): set<Hamster> { if HamsterPart? then {hamster} else {} }
    function Conveyors(): set<Conveyor> { if ConveyorPart? then {conveyor} else {} }
    function Pulleys(): set<Pulley> { if PulleyPart? then {pulley} else {} }
    function Scoreboards(): set<Scoreboard> { if GoalPart? then {goal.scoreboard} else {} }

    /** What the part's Update may turn through the drivetrain `w`. */
    ghost function Turns(w: Wiring): set<Pulley> { if HamsterPart? then w.driven.Keys else {} }
    ghost function Belts(w: Wiring): set<Conveyor> { if HamsterPart? then w.conveyors else {} }
    ghost function Spins(w: Wiring): set<Body> { if HamsterPart? then w.bodies else {} }
  }

  /** Everyone the listener hears about after `cs` are installed, in order. */
  function Registrations(cs: seq<Component>): seq<object> {
    if cs == [] then [] else Registrations(cs[..|cs| - 1]) + cs[|cs| - 1].part.Observers()
  }

  /** The bodies a world holds after `cs` are installed into it. */
  function Installations(cs: seq<Component>): nat {
    if cs == [] then 0 else Installations(cs[..|cs| - 1]) + cs[|cs| - 1].part.Installs()
  }

  /** Only goals, hamsters and conveyors listen for contacts, each once per
      entry in the component list and in list order. */
  lemma {:induction false} RegistrationsListen(cs: seq<Component>)
    ensures forall o :: o in Registrations(cs) ==>
      exists i :: 0 <= i < |cs| && o in cs[i].part.Observers()
    ensures |Registrations(cs)| <= |cs|
  {
    if cs != [] {
      RegistrationsListen(cs[..|cs| - 1]);
      forall o | o in Registrations(cs)
        ensures exists i :: 0 <= i < |cs| && o in cs[i].part.Observers()
      {
        if o in Registrations(cs[..|cs| - 1]) {
          var i :| 0 <= i < |cs| - 1 && o in cs[..|cs| - 1][i].part.Observers();
          assert cs[..|cs| - 1][i] == cs[i];
        } else {
          assert o in cs[|cs| - 1].part.Observers();
        }
      }
    }
  }

  /** The component hooks: the base class's defaults and the overrides of
      the part behind them. */
  class Component {
    const part: Part
    var machine: Machine?

    constructor (part: Part)
      ensures this.part == part && machine == null
    {
      this.part := part;
      machine := null;
    }

    method SetMachine(machine: Machine)
      modifies this`machine
      ensures this.machine == machine
    {
      this.machine := machine;
    }

    /** Hamsters and bodies use the default position, their machine's
        location; pulleys, conveyors and goals report their own. */
    function GetPosition(): (p: Point)
      requires (part.HamsterPart? || part.BodyPart?) ==> machine != null && machine.system != null
      reads this`machine, if machine != null then {machine} else {}
      reads if machine != null && machine.system != null then {machine.system} else {}
      reads part.Pulleys()`location, part.Conveyors()`location
      reads if part.GoalPart? then {part.goal} else {}
      ensures (part.HamsterPart? || part.BodyPart?) ==> p == machine.system.location
      ensures part.PulleyPart? ==> p == part.pulley.location
      ensures part.ConveyorPart? ==> p == part.conveyor.location
      ensures part.GoalPart? ==> p == part.goal.location
    {
      match part
      case PulleyPart(p) => p.GetPosition()
      case ConveyorPart(c) => c.GetPosition()
      case GoalPart(g) => g.GetPosition()
      case _ => machine.GetLocation()
    }

    /** Only a hamster does anything when time advances. */
    method Update(elapsed: real, ghost w: Wiring) returns (ghost calls: seq<Delivery>)
      requires Wired(w) && (part.HamsterPart? ==> part.hamster.source in w.sinks)
      modifies part.Hamsters()`rotation, part.Hamsters()`index
      modifies part.Turns(w)`rotation, part.Belts(w)`speed, part.Belts(w)`contacts, part.Spins(w)`angularVelocity
      ensures part.HamsterPart? ==>
        var h := part.hamster;
        h.rotation == Advanced(old(h.rotation), old(h.running), old(h.speed), elapsed)
      ensures part.HamsterPart? ==>
        var h := part.hamster;
        h.index == ImageIndex(h.running, Degree(h.rotation, h.speed), elapsed)
      ensures calls == Fed(part, w)
      ensures StateOf(w) == Effect(old(StateOf(w)), calls)
      ensures Wired(w)
    {
      match part {
        case HamsterPart(h) =>
          calls := h.Update(elapsed, w);
        case _ =>
          calls := [];
      }
    }

    /** Install the part into a world and a listener. */
    method SetPhysic(listen: ContactListener, world: World)
      modifies listen`observers, world`bodies
      modifies part.Hamsters()`running, part.Hamsters()`index, part.Hamsters()`rotation
      modifies part.Conveyors()`speed, part.Conveyors()`contacts, part.Pulleys()`rotation
      modifies part.Scoreboards()`score, part.Scoreboards()`goal
      ensures listen.observers == old(listen.observers) + part.Observers()
      ensures world.bodies == old(world.bodies) + part.Installs()
      ensures part.Installed()
      ensures part.GoalPart? ==> part.goal.scoreboard.goal == part.goal
    {
      match part {
        case HamsterPart(h) => h.SetPhysic(listen, world);
        case ConveyorPart(c) => c.SetPhysic(listen, world);
        case PulleyPart(p) => p.SetPhysic(listen, world);
        case BodyPart(b) => b.SetPhysic(listen, world);
        case GoalPart(g) => g.SetPhysic(listen, world);
      }
    }
  }

  class Machine {
    var world: World
    var listener: ContactListener?
    var system: ActualMachineSystem?
    var components: seq<Component>
    var number: int
    /** How many times the machine has been reset. */
    ghost var resets: nat

    /** The `number` argument is not used: every machine starts as
        machine 1. */
    constructor (number: int)
      ensures fresh(world) && world.gravity == Vec2(0.0, Gravity) && world.bodies == 0 && world.steps == []
      ensures listener == null && system == null && components == []
      ensures this.number == 1 && resets == 0
    {
      world := new World(Vec2(0.0, Gravity));
      listener := null;
      system := null;
      components := [];
      this.number := 1;
      resets := 0;
    }

    /** The drivetrain `w` is wired as the objects are, and every hamster of
        the machine feeds a source of it. */
    ghost predicate Drives(w: Wiring)
      reads this`components, w.sinks.Keys`sinks, w.driven.Keys`driven
    {
      Wired(w) && Feeds(components, w)
    }

    method SetMachineNumber(number: int)
      modifies this`number
      ensures this.number == number && GetNumber() == number
    {
      this.number := number;
    }

    function GetNumber(): (n: int)
      reads this`number
      ensures n == number
    {
      number
    }

    method SetSystem(system: ActualMachineSystem)
      modifies this`system
      ensures this.system == system
    {
      this.system := system;
    }

    function GetLocation(): (p: Point)
      requires system != null
      reads this`system, system`location
      ensures p == system.location
    {
      system.GetLocation()
    }

    /** Append a component and make this machine its owner. */
    method AddComponent(component: Component)
      modifies this`components, component`machine
      ensures components == old(components) + [component]
      ensures component.machine == this
    {
      components := components + [component];
      component.SetMachine(this);
    }

    /** Draw every component once, in list order; `drawn` lists them in
        the order they were drawn. */
    method Draw() returns (ghost drawn: seq<Component>)
      ensures drawn == components
    {
      drawn := [];
      var i := 0;
      while i < |components|
        invariant 0 <= i <= |components|
        invariant drawn == components[..i]
      {
        drawn := drawn + [components[i]];
        i := i + 1;
      }
    }

    /** Advance every component by `elapsed`, in list order, then step the
        world once.  `fed` holds what each component's update fed the
        drivetrain, in list order, and `calls` is their concatenation. */
    method Update(elapsed: real, ghost w: Wiring) returns (ghost calls: seq<Delivery>, ghost fed: seq<seq<Delivery>>)
      requires Drives(w)
      modifies HamstersOf(components)`rotation, HamstersOf(components)`index
      modifies w.driven.Keys`rotation, w.conveyors`speed, w.conveyors`contacts, w.bodies`angularVelocity
      modifies world`steps
      ensures world.steps == old(world.steps) + [Step(elapsed, VelocityIterations, PositionIterations)]
      ensures Drives(w)
      ensures Updated(components, elapsed, w, old(StateOf(w)), old(Rotations(components)), old(Runnings(components)),
                      old(Speeds(components)), calls, fed)
    {
      calls, fed := UpdateAndStep(components, world, elapsed, w);
    }

    /** Start over in a new world with a new contact listener, installing
        every component in list order. */
    method Reset()
      modifies this`world, this`listener, this`resets
      modifies HamstersOf(components)`running, HamstersOf(components)`index, HamstersOf(components)`rotation
      modifies ConveyorsOf(components)`speed, ConveyorsOf(components)`contacts, PulleysOf(components)`rotation
      modifies ScoreboardsOf(components)`score, ScoreboardsOf(components)`goal
      ensures fresh(world) && world.gravity == Vec2(0.0, Gravity) && world.steps == []
      ensures listener != null && fresh(listener)
      ensures listener.observers == Registrations(components)
      ensures world.bodies == Installations(components)
      ensures forall i :: 0 <= i < |components| ==> components[i].part.Installed()
      ensures resets == old(resets) + 1
    {
      world := new World(Vec2(0.0, Gravity));
      listener := new ContactListener();
      Install(components, listener, world);
      resets := resets + 1;
    }
  }

  /** Install every component of `cs` into `world` and `listen`, in list
      order. */
  method Install(cs: seq<Component>, listen: ContactListener, world: World)
    modifies listen`observers, world`bodies
    modifies HamstersOf(cs)`running, HamstersOf(cs)`index, HamstersOf(cs)`rotation
    modifies ConveyorsOf(cs)`speed, ConveyorsOf(cs)`contacts, PulleysOf(cs)`rotation
    modifies ScoreboardsOf(cs)`score, ScoreboardsOf(cs)`goal
    ensures listen.observers == old(listen.observers) + Registrations(cs)
    ensures world.bodies == old(world.bodies) + Installations(cs)
    ensures forall j :: 0 <= j < |cs| ==> cs[j].part.Installed()
  {
    ghost var observers, bodies := listen.observers, world.bodies;
    var i := 0;
    while i < |cs|
      invariant 0 <= i <= |cs|
      invariant listen.observers == observers + Registrations(cs[..i])
      invariant world.bodies == bodies + Installations(cs[..i])
      invariant InstalledTo(cs, i)
    {
      InstallNext(cs, i, listen, world);
      InstalledPrefix(cs, i);
      i := i + 1;
    }
    assert cs[..i] == cs;
  }

  /** Install `cs[i]`, keeping the parts installed before it installed. */
  method InstallNext(cs: seq<Component>, i: nat, listen: ContactListener, world: World)
    requires i < |cs|
    requires InstalledTo(cs, i)
    modifies listen`observers, world`bodies
    modifies cs[i].part.Hamsters()`running, cs[i].part.Hamsters()`index, cs[i].part.Hamsters()`rotation
    modifies cs[i].part.Conveyors()`speed, cs[i].part.Conveyors()`contacts, cs[i].part.Pulleys()`rotation
    modifies cs[i].part.Scoreboards()`score, cs[i].part.Scoreboards()`goal
    ensures listen.observers == old(listen.observers) + cs[i].part.Observers()
    ensures world.bodies == old(world.bodies) + cs[i].part.Installs()
    ensures InstalledTo(cs, i + 1)
  {
    cs[i].SetPhysic(listen, world);
  }

  /** The first `n` components of `cs` are in their installed state. */
  ghost predicate InstalledTo(cs: seq<Component>, n: nat)
    requires n <= |cs|
    reads HamstersOf(cs)`rotation, HamstersOf(cs)`initialRun, HamstersOf(cs)`running, HamstersOf(cs)`index
    reads ConveyorsOf(cs)`speed, ConveyorsOf(cs)`contacts, PulleysOf(cs)`rotation, ScoreboardsOf(cs)`score
  {
    forall j :: 0 <= j < n ==> cs[j].part.Installed()
  }

  /** Installing one more component adds its own registrations and bodies. */
  lemma InstalledPrefix(cs: seq<Component>, i: nat)
    requires i < |cs|
    ensures Registrations(cs[..i + 1]) == Registrations(cs[..i]) + cs[i].part.Observers()
    ensures Installations(cs[..i + 1]) == Installations(cs[..i]) + cs[i].part.Installs()
  {
    assert cs[..i + 1][..i] == cs[..i];
  }

  /** The hamsters, conveyors, pulleys and scoreboards among `cs`: what
      updating and installing those components may change. */
  ghost function HamstersOf(cs: seq<Component>): set<Hamster> {
    set i | 0 <= i < |cs| && cs[i].part.HamsterPart? :: cs[i].part.hamster
  }

  ghost function ConveyorsOf(cs: seq<Component>): set<Conveyor> {
    set i | 0 <= i < |cs| && cs[i].part.ConveyorPart? :: cs[i].part.conveyor
  }

  ghost function PulleysOf(cs: seq<Component>): set<Pulley> {
    set i | 0 <= i < |cs| && cs[i].part.PulleyPart? :: cs[i].part.pulley
  }

  ghost function ScoreboardsOf(cs: seq<Component>): set<Scoreboard> {
    set i | 0 <= i < |cs| && cs[i].part.GoalPart? :: cs[i].part.goal.scoreboard
  }

  /** The body of Machine.Update: update every component of `cs` and step
      the world once.  The C++ code steps the world after the components;
      the world's step record and the components share no state, so the
      step is taken first here. */
  method UpdateAndStep(cs: seq<Component>, world: World, elapsed: real, ghost w: Wiring)
    returns (ghost calls: seq<Delivery>, ghost fed: seq<seq<Delivery>>)
    requires Wired(w) && Feeds(cs, w)
    modifies HamstersOf(cs)`rotation, HamstersOf(cs)`index
    modifies w.driven.Keys`rotation, w.conveyors`speed, w.conveyors`contacts, w.bodies`angularVelocity
    modifies world`steps
    ensures world.steps == old(world.steps) + [Step(elapsed, VelocityIterations, PositionIterations)]
    ensures Wired(w)
    ensures Updated(cs, elapsed, w, old(StateOf(w)), old(Rotations(cs)), old(Runnings(cs)), old(Speeds(cs)), calls, fed)
  {
    ghost var d, rot0, run, spd := StateOf(w), Rotations(cs), Runnings(cs), Speeds(cs);
    world.Advance(elapsed, VelocityIterations, PositionIterations);
    assert StateOf(w) == d && Rotations(cs) == rot0 && Runnings(cs) == run && Speeds(cs) == spd;
    calls, fed := UpdateAll(cs, elapsed, w);
  }

  /** Update every component of `cs` by `elapsed`, in list order.  `fed`
      holds what each update fed the drivetrain and `calls` is their
      concatenation.  When no hamster is listed twice, each entry is the
      fan-out of the rotation that component's update left, and every
      hamster's wheel has advanced by one step. */
  method UpdateAll(cs: seq<Component>, elapsed: real, ghost w: Wiring)
    returns (ghost calls: seq<Delivery>, ghost fed: seq<seq<Delivery>>)
    requires Wired(w) && Feeds(cs, w)
    modifies HamstersOf(cs)`rotation, HamstersOf(cs)`index
    modifies w.driven.Keys`rotation, w.conveyors`speed, w.conveyors`contacts, w.bodies`angularVelocity
    ensures Wired(w)
    ensures Updated(cs, elapsed, w, old(StateOf(w)), old(Rotations(cs)), old(Runnings(cs)), old(Speeds(cs)), calls, fed)
  {
    ghost var rot0, rot1, run, spd := Rotations(cs), Stepped(cs, elapsed), Runnings(cs), Speeds(cs);
    Snapshots(cs, elapsed);
    calls, fed := UpdateFrom(cs, elapsed, w, rot0, rot1, run, spd);
    Completed(cs, elapsed, w, old(StateOf(w)), rot0, rot1, run, spd, calls, fed);
  }

  /** Once every component is updated, the progress made is that of one
      update of them all. */
  lemma Completed(cs: seq<Component>, elapsed: real, w: Wiring, d: DriveState,
                  rot0: seq<real>, rot1: seq<real>, run: seq<bool>, spd: seq<real>,
                  calls: seq<Delivery>, fed: seq<seq<Delivery>>)
    requires Progress(cs, |cs|, elapsed, w, d, rot0, rot1, run, spd, calls, fed)
    ensures Updated(cs, elapsed, w, d, rot0, run, spd, calls, fed)
  {
  }

  /** The components `cs` have each been updated once by `elapsed`, in list
      order, from drivetrain state `before` and hamster rotations `rot0`:
      `fed` holds what each update fed the drivetrain, `calls` is their
      concatenation and the drivetrain is in the state those deliveries
      leave.  When no hamster is listed twice, each entry of `fed` is the
      fan-out of the rotation that component's update left, every wheel has
      advanced by one step from `rot0` and every hamster shows the frame of
      its wheel's new angle. */
  ghost predicate Updated(cs: seq<Component>, elapsed: real, w: Wiring, before: DriveState,
                          rot0: seq<real>, run: seq<bool>, spd: seq<real>, calls: seq<Delivery>, fed: seq<seq<Delivery>>)
    reads HamstersOf(cs)`rotation, HamstersOf(cs)`index, HamstersOf(cs)`running, HamstersOf(cs)`speed
    reads w.bodies`angularVelocity, w.driven.Keys`rotation, w.conveyors`speed, w.conveyors`contacts
  {
    && w.Sound() && Feeds(cs, w) && |rot0| == |cs| && |run| == |cs| && |spd| == |cs| && |fed| == |cs|
    && calls == Flatten(fed)
    && StateOf(w) == Effect(before, calls)
    && (HamstersOnce(cs) ==>
      && (forall i :: 0 <= i < |cs| ==> fed[i] == FedAt(cs[i].part, Advanced(rot0[i], run[i], spd[i], elapsed), spd[i], w))
      && (forall i :: 0 <= i < |cs| && cs[i].part.HamsterPart? ==>
            cs[i].part.hamster.rotation == Advanced(rot0[i], run[i], spd[i], elapsed))
      && Pictured(cs, |cs|, elapsed))
  }

  /** The snapshots taken before the updates start meet UpdateFrom's
      needs. */
  lemma Snapshots(cs: seq<Component>, elapsed: real)
    ensures Rotated(cs, 0, Rotations(cs), Stepped(cs, elapsed))
    ensures Moving(cs, Runnings(cs), Speeds(cs))
    ensures Targets(cs, Rotations(cs), Stepped(cs, elapsed), Runnings(cs), Speeds(cs), elapsed)
  {
  }

  /** The loop of UpdateAll: the hamster of component `j`, whose speed is
      `spd[j]`, turns from rotation `rot0[j]` to `rot1[j]`. */
  method UpdateFrom(cs: seq<Component>, elapsed: real, ghost w: Wiring,
                    ghost rot0: seq<real>, ghost rot1: seq<real>, ghost run: seq<bool>, ghost spd: seq<real>)
    returns (ghost calls: seq<Delivery>, ghost fed: seq<seq<Delivery>>)
    requires Wired(w) && Feeds(cs, w) && |rot0| == |cs| && |rot1| == |cs| && |run| == |cs| && |spd| == |cs|
    requires Rotated(cs, 0, rot0, rot1) && Moving(cs, run, spd) && Targets(cs, rot0, rot1, run, spd, elapsed)
    modifies HamstersOf(cs)`rotation, HamstersOf(cs)`index
    modifies w.driven.Keys`rotation, w.conveyors`speed, w.conveyors`contacts, w.bodies`angularVelocity
    ensures Progress(cs, |cs|, elapsed, w, old(StateOf(w)), rot0, rot1, run, spd, calls, fed)
  {
    calls, fed := [], [];
    ghost var d := StateOf(w);
    for i := 0 to |cs|
      invariant Progress(cs, i, elapsed, w, d, rot0, rot1, run, spd, calls, fed)
    {
      var next := UpdateNext(cs, i, elapsed, w, d, rot0, rot1, run, spd, calls, fed);
      calls, fed := calls + next, fed + [next];
    }
  }

  /** The first `i` components of `cs` have been updated, in list order,
      from drivetrain state `d`: `fed` holds what each fed the drivetrain,
      `calls` is their concatenation and the drivetrain is in the state
      those deliveries leave.  When no hamster is listed twice, each
      updated hamster has turned from `rot0[j]` to `rot1[j]` and shows the
      frame of its new angle, and the others are still at `rot0[j]`. */
  ghost predicate Progress(cs: seq<Component>, i: nat, elapsed: real, w: Wiring, d: DriveState,
                           rot0: seq<real>, rot1: seq<real>, run: seq<bool>, spd: seq<real>,
                           calls: seq<Delivery>, fed: seq<seq<Delivery>>)
    reads HamstersOf(cs)`rotation, HamstersOf(cs)`index, HamstersOf(cs)`running, HamstersOf(cs)`speed
    reads w.sinks.Keys`sinks, w.driven.Keys`driven
    reads w.bodies`angularVelocity, w.driven.Keys`rotation, w.conveyors`speed, w.conveyors`contacts
  {
    && i <= |cs| && |rot0| == |cs| && |rot1| == |cs| && |run| == |cs| && |spd| == |cs|
    && Wired(w) && Feeds(cs, w) && Targets(cs, rot0, rot1, run, spd, elapsed)
    && calls == Flatten(fed) && FedTo(cs, i, fed, rot1, spd, w) && Rotated(cs, i, rot0, rot1)
    && Pictured(cs, i, elapsed) && StateOf(w) == Effect(d, calls)
  }

  /** Update component `i` of `cs`, one step of UpdateFrom. */
  method UpdateNext(cs: seq<Component>, i: nat, elapsed: real, ghost w: Wiring, ghost d: DriveState,
                    ghost rot0: seq<real>, ghost rot1: seq<real>, ghost run: seq<bool>, ghost spd: seq<real>,
                    ghost calls: seq<Delivery>, ghost fed: seq<seq<Delivery>>)
    returns (ghost next: seq<Delivery>)
    requires i < |cs| && Progress(cs, i, elapsed, w, d, rot0, rot1, run, spd, calls, fed)
    requires Moving(cs, run, spd)
    modifies cs[i].part.Hamsters()`rotation, cs[i].part.Hamsters()`index
    modifies w.driven.Keys`rotation, w.conveyors`speed, w.conveyors`contacts, w.bodies`angularVelocity
    ensures Progress(cs, i + 1, elapsed, w, d, rot0, rot1, run, spd, calls + next, fed + [next])
  {
    next := UpdateKeeping(cs, i, elapsed, w, d, rot0, rot1, run, spd, calls, fed);
    FlattenNext(fed, next);
  }

  /** Update component `i` of `cs`, leaving the other components as they
      are. */
  method UpdateKeeping(cs: seq<Component>, i: nat, elapsed: real, ghost w: Wiring, ghost d: DriveState,
                       ghost rot0: seq<real>, ghost rot1: seq<real>, ghost run: seq<bool>, ghost spd: seq<real>,
                       ghost calls: seq<Delivery>, ghost fed: seq<seq<Delivery>>)
    returns (ghost next: seq<Delivery>)
    requires i < |cs| && |rot0| == |cs| && |rot1| == |cs| && |run| == |cs| && |spd| == |cs| && Wired(w) && Feeds(cs, w)
    requires FedTo(cs, i, fed, rot1, spd, w) && Rotated(cs, i, rot0, rot1)
    requires Pictured(cs, i, elapsed) && StateOf(w) == Effect(d, calls)
    requires cs[i].part.HamsterPart? ==>
      var h := cs[i].part.hamster;
      spd[i] == h.speed && rot1[i] == Advanced(rot0[i], h.running, h.speed, elapsed)
    modifies cs[i].part.Hamsters()`rotation, cs[i].part.Hamsters()`index
    modifies w.driven.Keys`rotation, w.conveyors`speed, w.conveyors`contacts, w.bodies`angularVelocity
    ensures Wired(w)
    ensures FedTo(cs, i + 1, fed + [next], rot1, spd, w)
    ensures Rotated(cs, i + 1, rot0, rot1)
    ensures Pictured(cs, i + 1, elapsed) && StateOf(w) == Effect(d, calls + next)
  {
    if HamstersOnce(cs) {
      Apart(cs, i);
    }
    next := UpdateOne(cs[i], elapsed, w, rot0[i], rot1[i], spd[i]);
    EffectAppend(d, calls, next);
  }

  /** Update one component whose hamster, if it has one, has speed `s` and
      is to turn from rotation `r0` to `r1`. */
  method UpdateOne(c: Component, elapsed: real, ghost w: Wiring, ghost r0: real, ghost r1: real, ghost s: real)
    returns (ghost next: seq<Delivery>)
    requires Wired(w) && (c.part.HamsterPart? ==> c.part.hamster.source in w.sinks)
    requires c.part.HamsterPart? ==>
      var h := c.part.hamster;
      s == h.speed && r1 == Advanced(r0, h.running, h.speed, elapsed)
    modifies c.part.Hamsters()`rotation, c.part.Hamsters()`index
    modifies w.driven.Keys`rotation, w.conveyors`speed, w.conveyors`contacts, w.bodies`angularVelocity
    ensures Wired(w)
    ensures (c.part.HamsterPart? ==> old(c.part.hamster.rotation) == r0) ==> next == FedAt(c.part, r1, s, w)
    ensures c.part.HamsterPart? && old(c.part.hamster.rotation) == r0 ==> c.part.hamster.rotation == r1
    ensures c.part.HamsterPart? ==>
      var h := c.part.hamster;
      h.index == ImageIndex(h.running, Degree(h.rotation, h.speed), elapsed)
    ensures StateOf(w) == Effect(old(StateOf(w)), next)
  {
    next := c.Update(elapsed, w);
  }

  /** The wheel rotation of each component's hamster (0 for other parts). */
  ghost function Rotations(cs: seq<Component>): (r: seq<real>)
    reads HamstersOf(cs)`rotation
    ensures |r| == |cs|
    ensures forall j :: 0 <= j < |cs| ==> r[j] == if cs[j].part.HamsterPart? then cs[j].part.hamster.rotation else 0.0
  {
    if cs == [] then []
    else
      var c := cs[|cs| - 1];
      Rotations(cs[..|cs| - 1]) + [if c.part.HamsterPart? then c.part.hamster.rotation else 0.0]
  }

  /** The speed of each component's hamster (0 for other parts). */
  ghost function Speeds(cs: seq<Component>): (r: seq<real>)
    reads HamstersOf(cs)`speed
    ensures |r| == |cs|
    ensures forall j :: 0 <= j < |cs| && cs[j].part.HamsterPart? ==> r[j] == cs[j].part.hamster.speed
  {
    if cs == [] then []
    else
      var c := cs[|cs| - 1];
      Speeds(cs[..|cs| - 1]) + [if c.part.HamsterPart? then c.part.hamster.speed else 0.0]
  }

  /** The wheel rotation each component's hamster has after one update of
      `elapsed` (0 for other parts). */
  ghost function Stepped(cs: seq<Component>, elapsed: real): (r: seq<real>)
    reads HamstersOf(cs)`rotation, HamstersOf(cs)`running, HamstersOf(cs)`speed
    ensures |r| == |cs|
    ensures forall j :: 0 <= j < |cs| ==>
      r[j] == if cs[j].part.HamsterPart? then
        var h := cs[j].part.hamster;
        Advanced(h.rotation, h.running, h.speed, elapsed)
      else 0.0
  {
    if cs == [] then []
    else
      var c := cs[|cs| - 1];
      Stepped(cs[..|cs| - 1], elapsed) +
      [if c.part.HamsterPart? then Advanced(c.part.hamster.rotation, c.part.hamster.running, c.part.hamster.speed, elapsed) else 0.0]
  }

  /** When no hamster is listed twice, the hamsters of the first `i`
      components of `cs` show the animation frame of their wheel's angle
      after an update of `elapsed`. */
  ghost predicate Pictured(cs: seq<Component>, i: nat, elapsed: real)
    reads HamstersOf(cs)`rotation, HamstersOf(cs)`index, HamstersOf(cs)`running, HamstersOf(cs)`speed
  {
    HamstersOnce(cs) ==> forall j :: 0 <= j < i && j < |cs| && cs[j].part.HamsterPart? ==>
      var h := cs[j].part.hamster;
      h.index == ImageIndex(h.running, Degree(h.rotation, h.speed), elapsed)
  }

  /** Whether each component's hamster runs (false for other parts). */
  ghost function Runnings(cs: seq<Component>): (r: seq<bool>)
    reads HamstersOf(cs)`running
    ensures |r| == |cs|
    ensures forall j :: 0 <= j < |cs| && cs[j].part.HamsterPart? ==> r[j] == cs[j].part.hamster.running
  {
    if cs == [] then []
    else
      var c := cs[|cs| - 1];
      Runnings(cs[..|cs| - 1]) + [c.part.HamsterPart? && c.part.hamster.running]
  }

  /** Each component's hamster runs as `run[j]` says, at speed `spd[j]`. */
  ghost predicate Moving(cs: seq<Component>, run: seq<bool>, spd: seq<real>)
    requires |run| == |cs| && |spd| == |cs|
    reads HamstersOf(cs)`running, HamstersOf(cs)`speed
  {
    forall j :: 0 <= j < |cs| && cs[j].part.HamsterPart? ==>
      var h := cs[j].part.hamster;
      run[j] == h.running && spd[j] == h.speed
  }

  /** One update of `elapsed` turns the wheel of each component's hamster,
      running as `run[j]` says at speed `spd[j]`, from `rot0[j]` to
      `rot1[j]`. */
  ghost predicate Targets(cs: seq<Component>, rot0: seq<real>, rot1: seq<real>, run: seq<bool>, spd: seq<real>,
                          elapsed: real)
    requires |rot0| == |cs| && |rot1| == |cs| && |run| == |cs| && |spd| == |cs|
  {
    forall j :: 0 <= j < |cs| && cs[j].part.HamsterPart? ==> rot1[j] == Advanced(rot0[j], run[j], spd[j], elapsed)
  }

  /** The first `i` components of `cs` have been updated: `fed` holds what
      each fed the drivetrain, which when no hamster is listed twice is the
      fan-out of rotation `rot1[j]` at speed `spd[j]`. */
  ghost predicate FedTo(cs: seq<Component>, i: nat, fed: seq<seq<Delivery>>, rot1: seq<real>, spd: seq<real>,
                        w: Wiring)
    requires i <= |cs| && |rot1| == |cs| && |spd| == |cs| && w.Sound() && Feeds(cs, w)
  {
    |fed| == i && (HamstersOnce(cs) ==> forall j :: 0 <= j < i ==> fed[j] == FedAt(cs[j].part, rot1[j], spd[j], w))
  }

  /** What updating a part feeds the drivetrain when the update leaves a
      hamster with rotation `r` and speed `s`. */
  ghost function FedAt(p: Part, r: real, s: real, w: Wiring): seq<Delivery>
    requires w.Sound() && (p.HamsterPart? ==> p.hamster.source in w.sinks)
  {
    if p.HamsterPart? then Fanout(p.hamster.source, r, -s, w) else []
  }

  /** When no hamster is listed twice, the hamsters of the first `i`
      components of `cs` have rotation `rot1[j]` and the others still have
      rotation `rot0[j]`. */
  ghost predicate Rotated(cs: seq<Component>, i: nat, rot0: seq<real>, rot1: seq<real>)
    requires |rot0| == |cs| && |rot1| == |cs|
    reads HamstersOf(cs)`rotation
  {
    HamstersOnce(cs) ==> forall j :: 0 <= j < |cs| && cs[j].part.HamsterPart? ==>
      cs[j].part.hamster.rotation == if j < i then rot1[j] else rot0[j]
  }

  /** When no hamster is listed twice, no other component of `cs` holds the
      hamster of component `i`. */
  lemma Apart(cs: seq<Component>, i: nat)
    requires i < |cs| && HamstersOnce(cs)
    ensures forall j :: 0 <= j < |cs| && j != i && cs[j].part.HamsterPart? ==> cs[j].part.hamster !in cs[i].part.Hamsters()
  {
  }

  /** No hamster is listed twice among `cs`: each is listed first where it
      is listed. */
  ghost predicate HamstersOnce(cs: seq<Component>) {
    forall i :: 0 <= i < |cs| && cs[i].part.HamsterPart? ==> HamsterIndex(cs, cs[i].part.hamster) == i
  }

  /** Where hamster `h` is first listed in `cs`, or |cs| when it is not. */
  function HamsterIndex(cs: seq<Component>, h: Hamster): (k: nat)
    ensures k <= |cs|
    ensures k < |cs| ==> cs[k].part == HamsterPart(h)
    ensures forall i :: 0 <= i < k ==> cs[i].part != HamsterPart(h)
  {
    if cs == [] then 0 else if cs[0].part == HamsterPart(h) then 0 else 1 + HamsterIndex(cs[1..], h)
  }

  /** What updating a part feeds the drivetrain, given the state its update
      left: a hamster's fan-out of (rotation, -speed); nothing otherwise. */
  ghost function Fed(p: Part, w: Wiring): seq<Delivery>
    requires w.Sound() && (p.HamsterPart? ==> p.hamster.source in w.sinks)
    reads p.Hamsters()`rotation, p.Hamsters()`speed
  {
    if p.HamsterPart? then FedAt(p, p.hamster.rotation, p.hamster.speed, w) else []
  }

  /** The concatenation of `ds`, in order. */
  function Flatten(ds: seq<seq<Delivery>>): (r: seq<Delivery>)
    ensures |ds| == 1 ==> r == ds[0]
  {
    if ds == [] then [] else Flatten(ds[..|ds| - 1]) + ds[|ds| - 1]
  }

  /** Flattening one more entry appends it. */
  lemma FlattenNext(ds: seq<seq<Delivery>>, d: seq<Delivery>)
    ensures Flatten(ds + [d]) == Flatten(ds) + d
  {
    assert (ds + [d])[..|ds|] == ds;
  }

  /** Every hamster among `cs` feeds a source of the drivetrain `w`. */
  ghost predicate Feeds(cs: seq<Component>, w: Wiring) {
    forall i :: 0 <= i < |cs| && cs[i].part.HamsterPart? ==> cs[i].part.hamster.source in w.sinks
  }

  /** A call the machine system makes on its machine. */
  datatype Replay = ResetCall | UpdateCall(elapsed: real)

  /** `n` updates of one frame each, of `elapsed` seconds. */
  function Frames(n: nat, elapsed: real): (r: seq<Replay>)
    ensures |r| == n && forall i :: 0 <= i < n ==> r[i] == UpdateCall(elapsed)
  {
    if n == 0 then [] else Frames(n - 1, elapsed) + [UpdateCall(elapsed)]
  }

  /** The world steps of `n` updates of `elapsed` seconds each. */
  function Steps(n: nat, elapsed: real): (r: seq<Step>)
    ensures |r| == n && forall i :: 0 <= i < n ==> r[i] == Step(elapsed, VelocityIterations, PositionIterations)
  {
    if n == 0 then [] else Steps(n - 1, elapsed) + [Step(elapsed, VelocityIterations, PositionIterations)]
  }

  /** The frame counter after seeking from `current` to `target`. */
  function Seek(current: int, target: int): (n: int)
    ensures n == target || (target < current && target < 0 && n == 0)
    ensures target < current ==> 0 <= n
  {
    if target < current then (if 0 < target then target else 0) else target
  }

  /** The calls on the machine when seeking from `current` to `target`:
      going back resets the machine and replays from frame 0; going
      forward only plays the frames in between. */
  function Replayed(current: int, target: int, elapsed: real): (r: seq<Replay>)
    ensures (0 < |r| && r[0] == ResetCall) <==> target < current
    ensures forall i :: 0 < i < |r| ==> r[i] == UpdateCall(elapsed)
  {
    if target < current then [ResetCall] + Frames(Seek(current, target), elapsed)
    else Frames(target - current, elapsed)
  }

  /** Seeking from a frame that is not negative lands on the target, or on
      frame 0 for a negative target. */
  lemma SeekLands(current: int, target: int)
    ensures current >= 0 ==> Seek(current, target) == if target > 0 then target else 0
    ensures target < current && target < 0 ==> Seek(current, target) == 0
    ensures target >= current ==> Seek(current, target) == target
  {
  }

  /** A backward seek resets the machine exactly once, before any update,
      then plays every frame from 0 to the target; a forward seek never
      resets and plays the frames in between; every update advances one
      frame. */
  lemma ReplayedCalls(current: int, target: int, elapsed: real)
    ensures var r := Replayed(current, target, elapsed);
      && (target < current ==>
            && r[0] == ResetCall
            && |r| == 1 + Seek(current, target)
            && forall i :: 1 <= i < |r| ==> r[i] == UpdateCall(elapsed))
      && (target >= current ==>
            && |r| == target - current
            && forall i :: 0 <= i < |r| ==> r[i] == UpdateCall(elapsed))
  {
    if target < current {
      var r := Replayed(current, target, elapsed);
      assert r[1..] == Frames(Seek(current, target), elapsed);
    }
  }

  /** Of two seeks in a row, the second goes to a later or equal target.
      It never resets the machine when its target is not negative.  A
      negative target still resets when the first seek left the counter
      above it, since a negative seek leaves the counter at 0. */
  lemma MonotonicSeek(current: int, first: int, second: int, elapsed: real)
    requires first <= second
    ensures 0 <= second ==> ResetCall !in Replayed(Seek(current, first), second, elapsed)
    ensures second < Seek(current, first) ==> Replayed(Seek(current, first), second, elapsed)[0] == ResetCall
  {
    var r := Replayed(Seek(current, first), second, elapsed);
    if 0 <= second {
      assert second >= Seek(current, first);
      assert forall i :: 0 <= i < |r| ==> r[i] == UpdateCall(elapsed);
    }
  }

  /** Seeking from frame 5 to frame -3 and then to frame -1 resets the
      machine both times. */
  lemma NegativeSeeksResetTwice(elapsed: real)
    ensures Replayed(5, -3, elapsed) == [ResetCall]
    ensures Replayed(Seek(5, -3), -1, elapsed) == [ResetCall]
  {
  }

  /** Seeking to the current frame calls nothing on the machine. */
  lemma ReplayedStill(current: int, elapsed: real)
    ensures Replayed(current, current, elapsed) == []
    ensures Seek(current, current) == current
  {
  }

  class ActualMachineSystem {
    var machine: Machine
    var location: Point
    /** The current frame, the frame rate and the machine time.  The C++
        constructor leaves all three uninitialised; here they are given. */
    var frame: int
    var frameRate: real
    var time: real

    /** A new system holds machine 1. */
    constructor (frame: int, frameRate: real, time: real)
      ensures this.frame == frame && this.frameRate == frameRate && this.time == time
      ensures location == Point(0, 0)
      ensures fresh(machine) && machine.number == 1 && machine.system == this
      ensures machine.components == [] && machine.resets == 1
    {
      this.frame := frame;
      this.frameRate := frameRate;
      this.time := time;
      location := Point(0, 0);
      machine := new Machine(1);
      new;
      SetMachineNumber(1);
    }

    method SetLocation(location: Point)
      modifies this`location
      ensures this.location == location && GetLocation() == location
    {
      this.location := location;
    }

    function GetLocation(): (p: Point)
      reads this`location
      ensures p == location
    {
      location
    }

    method SetFrameRate(rate: real)
      modifies this`frameRate
      ensures frameRate == rate
    {
      frameRate := rate;
    }

    method SetMachineTime(time: real)
      modifies this`time
      ensures this.time == time && GetMachineTime() == time
    {
      this.time := time;
    }

    function GetMachineTime(): (t: real)
      reads this`time
      ensures t == time
    {
      time
    }

    /** Build machine 1 for 1 and machine 2 for any other number, attach
        it to this system and reset it.  The frame counter and the time are
        left as they are. */
    method SetMachineNumber(number: int)
      modifies this`machine
      ensures fresh(machine) && machine.system == this
      ensures machine.number == (if number == 1 then 1 else 2)
      ensures GetMachineNumber() == machine.number
      ensures machine.components == [] && machine.resets == 1
      ensures machine.listener != null && fresh(machine.listener) && fresh(machine.world)
    {
      if number == 1 {
        machine := new Machine(1);
        machine.SetMachineNumber(1);
        machine.SetSystem(this);
        machine.Reset();
      } else {
        machine := new Machine(2);
        machine.SetMachineNumber(2);
        machine.SetSystem(this);
        machine.Reset();
      }
    }

    function GetMachineNumber(): (n: int)
      reads this`machine, machine`number
      ensures n == machine.number
    {
      machine.GetNumber()
    }

    /** Seek the machine to frame `target`: reset it and start from frame 0
        when going back, then update it one frame at a time up to the target,
        and set the time from the frame reached. */
    method SetMachineFrame(target: int, ghost w: Wiring) returns (ghost calls: seq<Replay>)
      requires frameRate != 0.0
      requires machine.Drives(w)
      modifies this`frame, this`time
      modifies machine`world, machine`listener, machine`resets, machine.world`steps
      modifies HamstersOf(machine.components)`running, HamstersOf(machine.components)`index, HamstersOf(machine.components)`rotation
      modifies ConveyorsOf(machine.components)`speed, ConveyorsOf(machine.components)`contacts, PulleysOf(machine.components)`rotation
      modifies ScoreboardsOf(machine.components)`score, ScoreboardsOf(machine.components)`goal
      modifies w.driven.Keys`rotation, w.conveyors`speed, w.conveyors`contacts, w.bodies`angularVelocity
      ensures frame == Seek(old(frame), target)
      ensures calls == Replayed(old(frame), target, 1.0 / frameRate)
      ensures time == frame as real / frameRate
      ensures machine.world.steps == (if target < old(frame) then [] else old(machine.world.steps))
        + Steps(frame - (if target < old(frame) then 0 else old(frame)), 1.0 / frameRate)
      ensures machine.resets == old(machine.resets) + (if target < old(frame) then 1 else 0)
    {
      calls := [];
      if target < frame {
        Rewind(w);
        frame := 0;
        calls := [ResetCall];
      }
      var played := PlayTo(target, w);
      calls := calls + played;
      SetMachineTime(frame as real / frameRate);
    }

    /** The reset of a backward seek. */
    method Rewind(ghost w: Wiring)
      requires machine.Drives(w)
      modifies machine`world, machine`listener, machine`resets
      modifies HamstersOf(machine.components)`running, HamstersOf(machine.components)`index, HamstersOf(machine.components)`rotation
      modifies ConveyorsOf(machine.components)`speed, ConveyorsOf(machine.components)`contacts, PulleysOf(machine.components)`rotation
      modifies ScoreboardsOf(machine.components)`score, ScoreboardsOf(machine.components)`goal
      ensures fresh(machine.world) && machine.world.steps == [] && machine.Drives(w)
      ensures machine.resets == old(machine.resets) + 1
    {
      machine.Reset();
    }

    /** Update the machine one frame at a time until the frame counter
        reaches `target`.  The counter is advanced in a local and stored
        once at the end; nothing between reads it. */
    method PlayTo(target: int, ghost w: Wiring) returns (ghost calls: seq<Replay>)
      requires frameRate != 0.0
      requires machine.Drives(w)
      modifies this`frame, machine.world`steps
      modifies HamstersOf(machine.components)`index, HamstersOf(machine.components)`rotation
      modifies w.driven.Keys`rotation, w.conveyors`speed, w.conveyors`contacts, w.bodies`angularVelocity
      ensures frame == if old(frame) < target then target else old(frame)
      ensures calls == Frames(frame - old(frame), 1.0 / frameRate)
      ensures machine.world.steps == old(machine.world.steps) + Steps(frame - old(frame), 1.0 / frameRate)
    {
      var m, elapsed, start := machine, 1.0 / frameRate, frame;
      ghost var steps := m.world.steps;
      var f := start;
      calls := [];
      while f < target
        invariant f == start || start < f <= target
        invariant calls == Frames(f - start, elapsed)
        invariant m.world.steps == steps + Steps(f - start, elapsed)
        invariant m.Drives(w)
      {
        var _, _ := m.Update(elapsed, w);
        calls := calls + [UpdateCall(elapsed)];
        f := f + 1;
      }
      frame := f;
    }
  }
}
