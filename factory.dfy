/** The factory that adds a hamster-driven conveyor to a machine: a hamster, a
    conveyor and two pulleys, belted so that the hamster's wheel drives the
    belt. */
module Factories {
  import opened Physics
  import opened Drivetrain
  import opened Hamsters
  import opened MachineSystem

  /** Radius of both pulleys of the belt. */
  const PulleyRadius: real := 10.0
  /** How far above the conveyor's location a ball starts. */
  const BallHeight := 26

  /** A C++ double converted to int: the fraction is dropped, toward zero. */
  function Truncate(x: real): (n: int)
    ensures 0.0 <= x ==> 0 <= n && n as real <= x < n as real + 1.0
    ensures x < 0.0 ==> n <= 0 && n as real - 1.0 < x <= n as real
  {
    if x >= 0.0 then x.Floor else -((-x).Floor)
  }

  /** The drivetrain Create wires, as a value: the hamster's source feeds
      pulley 1, pulley 1 drives pulley 2 by a belt, and pulley 2's source
      feeds the conveyor.  The ranks count down along the chain. */
  ghost function Chain(h: Hamster, c: Conveyor, p1: Pulley, p2: Pulley): Wiring {
    Wiring(map[h.source := [PulleySink(p1)], p1.source := [], p2.source := [ConveyorSink(c)]],
           map[h.source := 3, p1.source := 2, p2.source := 1],
           map[p1 := p2, p2 := null], {c}, {})
  }

  /** The parts of a factory's chain are distinct objects with distinct
      sources. */
  ghost predicate Distinct(h: Hamster, p1: Pulley, p2: Pulley) {
    h.source != p1.source && h.source != p2.source && p1.source != p2.source && p1 != p2
  }

  /** The chain is acyclic and stays inside its four objects. */
  lemma ChainSound(h: Hamster, c: Conveyor, p1: Pulley, p2: Pulley)
    requires Distinct(h, p1, p2)
    ensures Chain(h, c, p1, p2).Sound()
  {
    var w := Chain(h, c, p1, p2);
    assert w.sinks[h.source] == [PulleySink(p1)];
    assert w.sinks[p2.source] == [ConveyorSink(c)];
  }

  /** One turn of the hamster's source makes four deliveries.  In the order
      they take effect: pulley 1 (its own source feeds nothing), the
      conveyor through pulley 2's source, the conveyor again when pulley 2
      rotates and feeds its source a second time, then pulley 2 itself,
      which takes the rotation only after its source is served.  The calls
      are entered in the order pulley 1, conveyor, pulley 2, conveyor. */
  lemma {:induction false} ChainDeliveries(h: Hamster, c: Conveyor, p1: Pulley, p2: Pulley, r: real, s: real)
    requires Distinct(h, p1, p2)
    ensures Chain(h, c, p1, p2).Sound()
    ensures Fanout(h.source, r, s, Chain(h, c, p1, p2)) ==
      [Delivery(PulleySink(p1), r, s), Delivery(ConveyorSink(c), r, s),
       Delivery(ConveyorSink(c), r, s), Delivery(PulleySink(p2), r, s)]
  {
    ChainSound(h, c, p1, p2);
    var w := Chain(h, c, p1, p2);
    var conveyed := [Delivery(ConveyorSink(c), r, s)];
    assert Fanout(p1.source, r, s, w) == [] by {
      assert w.sinks[p1.source] == [];
    }
    assert Fanout(p2.source, r, s, w) == conveyed by {
      assert w.sinks[p2.source] == [ConveyorSink(c)];
      assert FanoutPrefix(p2.source, 1, r, s, w) == FanoutPrefix(p2.source, 0, r, s, w) + conveyed;
    }
    assert RotateTrace(p2, r, s, w) == conveyed + [Delivery(PulleySink(p2), r, s)];
    assert BeltTrace(p2, r, s, w) == conveyed + conveyed + [Delivery(PulleySink(p2), r, s)];
    assert RotateTrace(p1, r, s, w) == [Delivery(PulleySink(p1), r, s)] + BeltTrace(p2, r, s, w);
    assert Fanout(h.source, r, s, w) == RotateTrace(p1, r, s, w) by {
      assert w.sinks[h.source] == [PulleySink(p1)];
      assert FanoutPrefix(h.source, 1, r, s, w) == FanoutPrefix(h.source, 0, r, s, w) + SinkTrace(PulleySink(p1), r, s, w);
    }
  }

  /** The number of calls in `ds` that go to `k`. */
  function Hits(ds: seq<Delivery>, k: Sink): (n: nat)
    ensures n == 0 <==> forall i :: 0 <= i < |ds| ==> ds[i].sink != k
  {
    if ds == [] then 0 else (if ds[0].sink == k then 1 else 0) + Hits(ds[1..], k)
  }

  /** The conveyor of a chain is turned twice per hamster update, with the
      same arguments both times, and from its current state ends as it
      would after one turn. */
  lemma ChainConveyorTwice(h: Hamster, c: Conveyor, p1: Pulley, p2: Pulley, r: real, s: real)
    requires Distinct(h, p1, p2)
    ensures Chain(h, c, p1, p2).Sound()
    ensures Hits(Fanout(h.source, r, s, Chain(h, c, p1, p2)), ConveyorSink(c)) == 2
    ensures var b := Belt(c.speed, c.contacts); Turned(Turned(b, r, s), r, s) == Turned(b, r, s)
  {
    ChainDeliveries(h, c, p1, p2, r, s);
    var k := ConveyorSink(c);
    var conveyed, last := Delivery(k, r, s), Delivery(PulleySink(p2), r, s);
    assert Hits([last], k) == 0;
    assert Hits([conveyed, last], k) == 1 by {
      assert [conveyed, last][1..] == [last];
    }
    assert Hits([conveyed, conveyed, last], k) == 2 by {
      assert [conveyed, conveyed, last][1..] == [conveyed, last];
    }
    assert [Delivery(PulleySink(p1), r, s), conveyed, conveyed, last][1..] == [conveyed, conveyed, last];
    TurnedIdempotent(Belt(c.speed, c.contacts), r, s);
  }

  /** What one turn of the hamster's source leaves, from any state `d` of
      the chain's objects: both pulleys at the rotation and the conveyor
      turned once, although it is served twice.  With Hamster.Update, whose
      new drivetrain state is this effect of its fan-out, this is the state
      the chain is in after the hamster updates. */
  lemma ChainEffect(h: Hamster, c: Conveyor, p1: Pulley, p2: Pulley, r: real, s: real, d: DriveState)
    requires Distinct(h, p1, p2) && Covers(d, Chain(h, c, p1, p2))
    ensures Chain(h, c, p1, p2).Sound()
    ensures Effect(d, Fanout(h.source, r, s, Chain(h, c, p1, p2))) ==
      d.(rotations := d.rotations[p1 := r][p2 := r], belts := d.belts[c := Turned(d.belts[c], r, s)])
  {
    ChainDeliveries(h, c, p1, p2, r, s);
    ChainRun(c, p1, p2, r, s, d);
  }

  /** The four deliveries of a chain, served in order from state `d`. */
  lemma {:induction false} ChainRun(c: Conveyor, p1: Pulley, p2: Pulley, r: real, s: real, d: DriveState)
    requires c in d.belts && p1 in d.rotations && p2 in d.rotations
    ensures Effect(d, [Delivery(PulleySink(p1), r, s), Delivery(ConveyorSink(c), r, s),
                       Delivery(ConveyorSink(c), r, s), Delivery(PulleySink(p2), r, s)]) ==
      d.(rotations := d.rotations[p1 := r][p2 := r], belts := d.belts[c := Turned(d.belts[c], r, s)])
  {
    var x1, x2, x4 := Delivery(PulleySink(p1), r, s), Delivery(ConveyorSink(c), r, s), Delivery(PulleySink(p2), r, s);
    var e1 := d.(rotations := d.rotations[p1 := r]);
    var e2 := e1.(belts := d.belts[c := Turned(d.belts[c], r, s)]);
    assert Effect(d, [x1]) == e1 by {
      assert [x1][..0] == [];
    }
    assert Effect(d, [x1, x2]) == e2 by {
      assert [x1, x2][..1] == [x1];
    }
    assert Effect(d, [x1, x2, x2]) == e2 by {
      assert [x1, x2, x2][..2] == [x1, x2];
      TurnedIdempotent(d.belts[c], r, s);
    }
    assert [x1, x2, x2, x4][..3] == [x1, x2, x2];
  }

  class HamsterAndConveyorFactory {
    /** The machine the parts are added to. */
    const machine: Machine
    /** The hamster and the conveyor of the latest Create. */
    var hamster: Hamster?
    var conveyor: Conveyor?

    constructor (machine: Machine)
      ensures this.machine == machine && hamster == null && conveyor == null
    {
      this.machine := machine;
      hamster := null;
      conveyor := null;
    }

    function GetHamster(): (h: Hamster?)
      reads this`hamster
      ensures h == hamster
    {
      hamster
    }

    function GetConveyor(): (c: Conveyor?)
      reads this`conveyor
      ensures c == conveyor
    {
      conveyor
    }

    /** Wrap a part in a component and append it to the machine. */
    method Add(part: Part) returns (ghost added: Component)
      modifies machine`components
      ensures fresh(added) && added.part == part && added.machine == machine
      ensures machine.components == old(machine.components) + [added]
    {
      var component := new Component(part);
      machine.AddComponent(component);
      added := component;
    }

    /** A hamster at `position`, appended to the machine. */
    method AddHamster(position: Point) returns (h: Hamster, ghost added: Component)
      modifies this`hamster, machine`components
      ensures fresh(h) && fresh(h.source) && hamster == h
      ensures h.location == position && h.source.sinks == []
      ensures fresh(added) && added.part == HamsterPart(h)
      ensures machine.components == old(machine.components) + [added]
    {
      h := new Hamster();
      hamster := h;
      h.SetPosition(position.x, position.y);
      added := Add(HamsterPart(h));
    }

    /** A conveyor at `position`, appended to the machine. */
    method AddConveyor(position: Point) returns (c: Conveyor, ghost added: Component)
      modifies this`conveyor, machine`components
      ensures fresh(c) && conveyor == c && c.location == position
      ensures fresh(added) && added.part == ConveyorPart(c)
      ensures machine.components == old(machine.components) + [added]
    {
      c := new Conveyor();
      conveyor := c;
      c.SetPosition(position);
      added := Add(ConveyorPart(c));
    }

    /** A pulley of the belt at `position`, appended to the machine. */
    method AddPulley(position: Point) returns (p: Pulley, ghost added: Component)
      modifies machine`components
      ensures fresh(p) && fresh(p.source) && p.radius == PulleyRadius
      ensures p.location == position && p.source.sinks == [] && p.driven == null
      ensures fresh(added) && added.part == PulleyPart(p)
      ensures machine.components == old(machine.components) + [added]
    {
      p := new Pulley(PulleyRadius);
      p.SetPosition(position);
      added := Add(PulleyPart(p));
    }

    /** Add a hamster, a conveyor and the two pulleys between them, in that
        order; the pulleys sit on the hamster's and the conveyor's shafts,
        and the drivetrain is wired as `Chain` says.  `added` are the new
        components, `p1` and `p2` the pulleys. */
    method Create(hamsterPosition: Point, conveyorPosition: Point)
      returns (ghost added: seq<Component>, ghost p1: Pulley, ghost p2: Pulley)
      modifies this`hamster, this`conveyor, machine`components
      ensures hamster != null && conveyor != null && fresh(hamster) && fresh(conveyor)
      ensures GetHamster() == hamster && GetConveyor() == conveyor
      ensures hamster.location == hamsterPosition && conveyor.location == conveyorPosition
      ensures fresh(p1) && fresh(p2) && p1.radius == PulleyRadius && p2.radius == PulleyRadius
      ensures p1.location == hamster.GetShaftPosition() && p2.location == conveyor.GetShaftPosition()
      ensures machine.components == old(machine.components) + added && |added| == 4
      ensures added[0].part == HamsterPart(hamster) && added[1].part == ConveyorPart(conveyor)
      ensures added[2].part == PulleyPart(p1) && added[3].part == PulleyPart(p2)
      ensures Distinct(hamster, p1, p2)
      ensures Wired(Chain(hamster, conveyor, p1, p2))
    {
      var h, a0 := AddHamster(hamsterPosition);
      var c, a1 := AddConveyor(conveyorPosition);
      var pulley1, a2 := AddPulley(h.GetShaftPosition());
      var pulley2, a3 := AddPulley(c.GetShaftPosition());
      Connect(h, c, pulley1, pulley2);
      added, p1, p2 := [a0, a1, a2, a3], pulley1, pulley2;
    }

    /** Belt the parts of a chain together: the hamster's source feeds
        pulley 1, pulley 1 drives pulley 2, pulley 2's source feeds the
        conveyor.  The C++ code registers pulley 1 before it creates pulley
        2; the two steps touch disjoint state, so the order is immaterial. */
    static method Connect(h: Hamster, c: Conveyor, p1: Pulley, p2: Pulley)
      requires Distinct(h, p1, p2)
      requires h.source.sinks == [] && p1.source.sinks == [] && p2.source.sinks == []
      requires p1.driven == null && p2.driven == null
      modifies h.source`sinks, p1`upstream, p1`driven, p2.source`sinks, c`upstream
      ensures Wired(Chain(h, c, p1, p2))
      ensures p1.upstream == h.source && c.upstream == p2.source
    {
      h.source.AddSink(PulleySink(p1));
      p1.Drive(p2);
      p2.source.AddSink(ConveyorSink(c));
      ChainSound(h, c, p1, p2);
    }

    /** A dynamic ball appended to the machine, starting `placement` to the
        right of the conveyor's location (truncated to whole units) and
        BallHeight above it. */
    method AddBall(placement: real) returns (ball: Body, ghost added: Component)
      requires conveyor != null
      modifies machine`components
      ensures fresh(ball) && ball.dynamic
      ensures ball.position == conveyor.GetPosition().Plus(Point(Truncate(placement), BallHeight))
      ensures fresh(added) && added.part == BodyPart(ball)
      ensures machine.components == old(machine.components) + [added]
    {
      ball := new Body();
      var point := conveyor.GetPosition().Plus(Point(Truncate(placement), BallHeight));
      ball.SetInitialPosition(point);
      ball.SetDynamic();
      added := Add(BodyPart(ball));
    }
  }
}
