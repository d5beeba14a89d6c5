/** The rotation drivetrain: a RotationSource fans a (rotation, speed) pair out
    to the RotationSinks registered with it, in registration order.  The sinks
    are pulleys (which own a source of their own and may drive a second
    pulley), conveyor belts and free bodies.

    The C++ sinks are reached through a `RotationSink` interface; here a
    `Sink` value names the concrete object.  The delivery methods return,
    as a ghost result, the Rotate calls they made (sink and arguments), in
    the order they take effect: a sink is listed when its own state changes,
    so a pulley comes after the sinks of its own source, which its Rotate
    serves first.  The "trace" functions below say what that sequence is for a
    given wiring.  Each delivery method also states the new state of every
    object of the wiring (`StateOf`): the calls served in order (`Effect`)
    from the old state. */
module Drivetrain {
  import opened Physics

  /** Offset of a conveyor's drive shaft from the bottom centre of the belt. */
  const ConveyorShaftOffset: Point := Point(48, 4)

  /** An entry of a source's sink list. */
  datatype Sink = PulleySink(pulley: Pulley) | ConveyorSink(conveyor: Conveyor) | BodySink(body: Body)
  {
    /** The object whose Rotate receives the delivery. */
    function Target(): object {
      match this
      case PulleySink(p) => p
      case ConveyorSink(c) => c
      case BodySink(b) => b
    }

    function Pulleys(): set<Pulley> { if PulleySink? then {pulley} else {} }
    function Conveyors(): set<Conveyor> { if ConveyorSink? then {conveyor} else {} }
    function Bodies(): set<Body> { if BodySink? then {body} else {} }
  }

  /** One RotationSink::Rotate call: the sink and its arguments. */
  datatype Delivery = Delivery(sink: Sink, rotation: real, speed: real)

  /** The wiring of a drivetrain as a value: the sink list of every source,
      the pulley every pulley drives, and the conveyors and bodies a delivery
      may reach.  `rank` orders the sources; `Sound` says the wiring stays
      inside these objects and is well ranked, so that it has no cycle and
      every delivery ends. */
  datatype Wiring = Wiring(sinks: map<RotationSource, seq<Sink>>, rank: map<RotationSource, nat>,
                           driven: map<Pulley, Pulley?>, conveyors: set<Conveyor>, bodies: set<Body>)
  {
    predicate Holds(k: Sink) {
      match k
      case PulleySink(p) => p in driven
      case ConveyorSink(c) => c in conveyors
      case BodySink(b) => b in bodies
    }

    ghost predicate Sound() {
      && sinks.Keys == rank.Keys
      && (forall p :: p in driven ==> p.source in sinks)
      && (forall p {:trigger driven[p]} :: p in driven && driven[p] != null ==>
            driven[p] in driven && rank[driven[p].source] < rank[p.source])
      && (forall src, i :: src in sinks && 0 <= i < |sinks[src]| ==>
            && Holds(sinks[src][i])
            && 0 < rank[src]
            && (sinks[src][i].PulleySink? ==> rank[sinks[src][i].pulley.source] < rank[src]))
    }

    /** The pulleys whose own source ranks below `n`: what a delivery
        starting below rank `n` may turn. */
    ghost function Below(n: nat): set<Pulley> {
      set q | q in driven && q.source in rank && rank[q.source] < n
    }

    /** The rank a delivery to `k` starts from. */
    ghost function Height(k: Sink): nat
      requires Sound() && Holds(k)
    {
      if k.PulleySink? then rank[k.pulley.source] else 0
    }
  }

  /** The objects match the wiring `w`. */
  ghost predicate Wired(w: Wiring)
    reads w.sinks.Keys`sinks, w.driven.Keys`driven
  {
    && w.Sound()
    && (forall src {:trigger src.sinks} :: src in w.sinks ==> src.sinks == w.sinks[src])
    && (forall p {:trigger p.driven} :: p in w.driven ==> p.driven == w.driven[p])
  }

  /** The deliveries `p.Rotate` makes, in the order they take effect:
      everything the pulley's own source feeds, the pulley itself (it takes
      the rotation after its source has fed its sinks), then, when it drives
      a second pulley, everything that pulley's source feeds followed by that
      pulley's own cascade. */
  ghost function RotateTrace(p: Pulley, r: real, s: real, w: Wiring): seq<Delivery>
    requires w.Sound() && p in w.driven
    decreases w.rank[p.source], 2, 0
  {
    Fanout(p.source, r, s, w) + ([Delivery(PulleySink(p), r, s)] + (if w.driven[p] == null then [] else BeltTrace(w.driven[p], r, s, w)))
  }

  /** The deliveries a pulley receives through a belt from the pulley
      driving it: its own source's, then its own cascade. */
  ghost function BeltTrace(p: Pulley, r: real, s: real, w: Wiring): seq<Delivery>
    requires w.Sound() && p in w.driven
    decreases w.rank[p.source], 3, 0
  {
    Fanout(p.source, r, s, w) + RotateTrace(p, r, s, w)
  }

  /** The sinks whose Rotate runs when `src.SetRotation` runs, in the order
      they take effect. */
  ghost function Fanout(src: RotationSource, r: real, s: real, w: Wiring): seq<Delivery>
    requires w.Sound() && src in w.sinks
    decreases w.rank[src], 1, 0
  {
    FanoutPrefix(src, |w.sinks[src]|, r, s, w)
  }

  /** The same for the first `n` entries of the sink list. */
  ghost function FanoutPrefix(src: RotationSource, n: nat, r: real, s: real, w: Wiring): seq<Delivery>
    requires w.Sound() && src in w.sinks && n <= |w.sinks[src]|
    decreases w.rank[src], 0, n
  {
    if n == 0 then [] else FanoutPrefix(src, n - 1, r, s, w) + SinkTrace(w.sinks[src][n - 1], r, s, w)
  }

  /** The sinks whose Rotate runs when one entry of a sink list is served. */
  ghost function SinkTrace(k: Sink, r: real, s: real, w: Wiring): seq<Delivery>
    requires w.Sound() && w.Holds(k)
    decreases w.Height(k), 3, 0
  {
    if k.PulleySink? then RotateTrace(k.pulley, r, s, w) else [Delivery(k, r, s)]
  }

  /** Serving an entry of a sink list calls that entry's own Rotate. */
  lemma SinkTraceReachesSink(k: Sink, r: real, s: real, w: Wiring)
    requires w.Sound() && w.Holds(k)
    ensures Delivery(k, r, s) in SinkTrace(k, r, s, w)
  {
    if k.PulleySink? {
      assert RotateTrace(k.pulley, r, s, w)[|Fanout(k.pulley.source, r, s, w)|] == Delivery(k, r, s);
    }
  }

  /** Every entry of the first `n` of a sink list is called by the fan-out,
      duplicates included. */
  lemma {:induction false} FanoutPrefixReaches(src: RotationSource, n: nat, r: real, s: real, w: Wiring)
    requires w.Sound() && src in w.sinks && n <= |w.sinks[src]|
    ensures forall i :: 0 <= i < n ==> Delivery(w.sinks[src][i], r, s) in FanoutPrefix(src, n, r, s, w)
    decreases n
  {
    if n > 0 {
      FanoutPrefixReaches(src, n - 1, r, s, w);
      SinkTraceReachesSink(w.sinks[src][n - 1], r, s, w);
    }
  }

  /** Every registered sink receives (r, s) when its source turns. */
  lemma FanoutReachesEverySink(src: RotationSource, r: real, s: real, w: Wiring)
    requires w.Sound() && src in w.sinks
    ensures forall i :: 0 <= i < |w.sinks[src]| ==> Delivery(w.sinks[src][i], r, s) in Fanout(src, r, s, w)
  {
    FanoutPrefixReaches(src, |w.sinks[src]|, r, s, w);
  }

  /** Every call of a cascade passes the arguments on unchanged. */
  predicate Passes(ds: seq<Delivery>, r: real, s: real) {
    forall i :: 0 <= i < |ds| ==> ds[i].rotation == r && ds[i].speed == s
  }

  lemma {:induction false} RotateTracePasses(p: Pulley, r: real, s: real, w: Wiring)
    requires w.Sound() && p in w.driven
    ensures Passes(RotateTrace(p, r, s, w), r, s)
    decreases w.rank[p.source], 2, 0
  {
    FanoutPasses(p.source, r, s, w);
    if w.driven[p] != null {
      BeltTracePasses(w.driven[p], r, s, w);
    }
  }

  lemma {:induction false} BeltTracePasses(p: Pulley, r: real, s: real, w: Wiring)
    requires w.Sound() && p in w.driven
    ensures Passes(BeltTrace(p, r, s, w), r, s)
    decreases w.rank[p.source], 3, 0
  {
    FanoutPasses(p.source, r, s, w);
    RotateTracePasses(p, r, s, w);
  }

  lemma {:induction false} FanoutPasses(src: RotationSource, r: real, s: real, w: Wiring)
    requires w.Sound() && src in w.sinks
    ensures Passes(Fanout(src, r, s, w), r, s)
    decreases w.rank[src], 1, 0
  {
    FanoutPrefixPasses(src, |w.sinks[src]|, r, s, w);
  }

  lemma {:induction false} FanoutPrefixPasses(src: RotationSource, n: nat, r: real, s: real, w: Wiring)
    requires w.Sound() && src in w.sinks && n <= |w.sinks[src]|
    ensures Passes(FanoutPrefix(src, n, r, s, w), r, s)
    decreases w.rank[src], 0, n
  {
    if n > 0 {
      FanoutPrefixPasses(src, n - 1, r, s, w);
      var k := w.sinks[src][n - 1];
      if k.PulleySink? {
        RotateTracePasses(k.pulley, r, s, w);
      }
    }
  }

  /** A source whose sinks are all conveyors or bodies calls exactly those
      sinks, each once per registration, in registration order. */
  lemma {:induction false} FanoutOfLeaves(src: RotationSource, n: nat, r: real, s: real, w: Wiring)
    requires w.Sound() && src in w.sinks && n <= |w.sinks[src]|
    requires forall i :: 0 <= i < n ==> !w.sinks[src][i].PulleySink?
    ensures |FanoutPrefix(src, n, r, s, w)| == n
    ensures forall i :: 0 <= i < n ==> FanoutPrefix(src, n, r, s, w)[i] == Delivery(w.sinks[src][i], r, s)
  {
    if n > 0 {
      FanoutOfLeaves(src, n - 1, r, s, w);
    }
  }

  /** A source with no sinks delivers nothing. */
  lemma FanoutOfNoSinks(src: RotationSource, r: real, s: real, w: Wiring)
    requires w.Sound() && src in w.sinks && w.sinks[src] == []
    ensures Fanout(src, r, s, w) == []
  {
  }

  // ----- The state a delivery changes -----

  /** A conveyor's belt speed and the contact list of its body. */
  datatype Belt = Belt(speed: real, contacts: seq<ContactEdge>)

  /** The belt speed after a delivery: a zero rotation leaves the speed
      as it was, any other rotation latches the delivered speed. */
  function Latched(speed: real, r: real, s: real): (v: real)
    ensures r != 0.0 ==> v == s
    ensures r == 0.0 ==> v == speed
  {
    if r != 0.0 then s else speed
  }

  /** One contact-list entry after the conveyor pushes it: a touching
      contact's other body takes linear velocity (v, 0). */
  function Pushed(e: ContactEdge, v: real): (r: ContactEdge)
    ensures r.touching == e.touching
    ensures e.touching ==> r.otherVelocity == Vec2(v, 0.0)
    ensures !e.touching ==> r == e
  {
    if e.touching then ContactEdge(true, Vec2(v, 0.0)) else e
  }

  /** A contact list after the conveyor pushes every entry; the order and
      the number of entries are kept. */
  function Conveyed(cs: seq<ContactEdge>, v: real): (r: seq<ContactEdge>)
    ensures |r| == |cs|
    ensures forall i :: 0 <= i < |cs| ==> r[i] == Pushed(cs[i], v)
  {
    if cs == [] then [] else [Pushed(cs[0], v)] + Conveyed(cs[1..], v)
  }

  /** A conveyor's state after one delivery. */
  function Turned(b: Belt, r: real, s: real): (t: Belt)
    ensures t.speed == Latched(b.speed, r, s)
    ensures |t.contacts| == |b.contacts|
    ensures forall i :: 0 <= i < |b.contacts| ==> t.contacts[i] == Pushed(b.contacts[i], -t.speed)
  {
    var speed := Latched(b.speed, r, s);
    Belt(speed, Conveyed(b.contacts, -speed))
  }

  /** Pushing twice at the same velocity is pushing once. */
  lemma ConveyedIdempotent(cs: seq<ContactEdge>, v: real)
    ensures Conveyed(Conveyed(cs, v), v) == Conveyed(cs, v)
  {
  }

  /** Delivering the same (rotation, speed) twice to a conveyor is delivering
      it once. */
  lemma TurnedIdempotent(b: Belt, r: real, s: real)
    ensures Turned(Turned(b, r, s), r, s) == Turned(b, r, s)
  {
    ConveyedIdempotent(b.contacts, -Latched(b.speed, r, s));
  }

  /** The state a delivery can change, for every object of a wiring: the
      spin of each body, the rotation of each pulley and the belt of each
      conveyor. */
  datatype DriveState = DriveState(spins: map<Body, real>, rotations: map<Pulley, real>, belts: map<Conveyor, Belt>)

  /** The current state of the objects of `w`. */
  ghost function StateOf(w: Wiring): DriveState
    reads w.bodies`angularVelocity, w.driven.Keys`rotation, w.conveyors`speed, w.conveyors`contacts
  {
    DriveState(SpinsOf(w), RotationsOf(w), BeltsOf(w))
  }

  ghost function SpinsOf(w: Wiring): map<Body, real>
    reads w.bodies`angularVelocity
  {
    map b | b in w.bodies :: b.angularVelocity
  }

  ghost function RotationsOf(w: Wiring): map<Pulley, real>
    reads w.driven.Keys`rotation
  {
    map p | p in w.driven :: p.rotation
  }

  ghost function BeltsOf(w: Wiring): map<Conveyor, Belt>
    reads w.conveyors`speed, w.conveyors`contacts
  {
    map c | c in w.conveyors :: Belt(c.speed, c.contacts)
  }

  /** The state after one Rotate call: a body spins at the speed, a pulley
      takes the rotation, a conveyor turns. */
  function Served(d: DriveState, x: Delivery): DriveState
  {
    match x.sink
    case BodySink(b) => if b in d.spins then d.(spins := d.spins[b := x.speed]) else d
    case PulleySink(p) => if p in d.rotations then d.(rotations := d.rotations[p := x.rotation]) else d
    case ConveyorSink(c) => if c in d.belts then d.(belts := d.belts[c := Turned(d.belts[c], x.rotation, x.speed)]) else d
  }

  /** The state after the calls `calls`, served in order. */
  function Effect(d: DriveState, calls: seq<Delivery>): DriveState
  {
    if calls == [] then d else Served(Effect(d, calls[..|calls| - 1]), calls[|calls| - 1])
  }

  /** Serving two runs of calls one after the other is serving their
      concatenation. */
  lemma {:induction false} EffectAppend(d: DriveState, a: seq<Delivery>, b: seq<Delivery>)
    ensures Effect(Effect(d, a), b) == Effect(d, a + b)
    decreases |b|
  {
    if b != [] {
      EffectAppend(d, a, b[..|b| - 1]);
      assert (a + b)[..|a + b| - 1] == a + b[..|b| - 1];
      assert (a + b)[|a + b| - 1] == b[|b| - 1];
    } else {
      assert a + b == a;
    }
  }

  /** Serving a single call. */
  lemma EffectOne(d: DriveState, x: Delivery)
    ensures Effect(d, [x]) == Served(d, x)
  {
    assert [x][..0] == [];
  }

  /** Calls that all carry (r, s) leave a body spinning at s when they
      reach it, and keep its spin otherwise. */
  lemma {:induction false} SpinAfterRun(d: DriveState, calls: seq<Delivery>, r: real, s: real, b: Body)
    requires Passes(calls, r, s) && b in d.spins
    ensures b in Effect(d, calls).spins && Effect(d, calls).spins[b] == if Delivery(BodySink(b), r, s) in calls then s else d.spins[b]
    decreases |calls|
  {
    if calls != [] {
      var front := calls[..|calls| - 1];
      assert calls == front + [calls[|calls| - 1]];
      SpinAfterRun(d, front, r, s, b);
    }
  }

  /** Calls that all carry (r, s) leave a pulley at rotation r when they
      reach it, and keep its rotation otherwise. */
  lemma {:induction false} RotationAfterRun(d: DriveState, calls: seq<Delivery>, r: real, s: real, p: Pulley)
    requires Passes(calls, r, s) && p in d.rotations
    ensures p in Effect(d, calls).rotations && Effect(d, calls).rotations[p] == if Delivery(PulleySink(p), r, s) in calls then r else d.rotations[p]
    decreases |calls|
  {
    if calls != [] {
      var front := calls[..|calls| - 1];
      assert calls == front + [calls[|calls| - 1]];
      RotationAfterRun(d, front, r, s, p);
    }
  }

  /** Calls that all carry (r, s) leave a conveyor turned once when they
      reach it, however often they do, and keep its belt otherwise. */
  lemma {:induction false} BeltAfterRun(d: DriveState, calls: seq<Delivery>, r: real, s: real, c: Conveyor)
    requires Passes(calls, r, s) && c in d.belts
    ensures c in Effect(d, calls).belts && Effect(d, calls).belts[c] == if Delivery(ConveyorSink(c), r, s) in calls then Turned(d.belts[c], r, s) else d.belts[c]
    decreases |calls|
  {
    if calls != [] {
      var front := calls[..|calls| - 1];
      assert calls == front + [calls[|calls| - 1]];
      BeltAfterRun(d, front, r, s, c);
      TurnedIdempotent(d.belts[c], r, s);
    }
  }

  /** `d` holds a state for every object of `w`. */
  predicate Covers(d: DriveState, w: Wiring) {
    d.spins.Keys == w.bodies && d.rotations.Keys == w.driven.Keys && d.belts.Keys == w.conveyors
  }

  /** From state `d`, state `e` holds what one delivery of (r, s) leaves in
      sink `k`: a body spins at s, a pulley is at rotation r, a conveyor
      has turned once. */
  predicate Delivered(d: DriveState, e: DriveState, k: Sink, r: real, s: real) {
    match k
    case BodySink(b) => b in e.spins && e.spins[b] == s
    case PulleySink(p) => p in e.rotations && e.rotations[p] == r
    case ConveyorSink(c) => c in d.belts && c in e.belts && e.belts[c] == Turned(d.belts[c], r, s)
  }

  /** Calls that all carry (r, s) and include a delivery to `k` leave `k`
      delivered. */
  lemma RunDelivers(d: DriveState, calls: seq<Delivery>, k: Sink, r: real, s: real, w: Wiring)
    requires Covers(d, w) && w.Holds(k) && Passes(calls, r, s) && Delivery(k, r, s) in calls
    ensures Delivered(d, Effect(d, calls), k, r, s)
  {
    match k
    case BodySink(b) => SpinAfterRun(d, calls, r, s, b);
    case PulleySink(p) => RotationAfterRun(d, calls, r, s, p);
    case ConveyorSink(c) => BeltAfterRun(d, calls, r, s, c);
  }

  /** Serving one entry of a sink list leaves that sink delivered. */
  lemma SinkTraceDelivers(d: DriveState, k: Sink, r: real, s: real, w: Wiring)
    requires w.Sound() && w.Holds(k) && Covers(d, w)
    ensures Delivered(d, Effect(d, SinkTrace(k, r, s, w)), k, r, s)
  {
    SinkTraceReachesSink(k, r, s, w);
    if k.PulleySink? {
      RotateTracePasses(k.pulley, r, s, w);
    }
    RunDelivers(d, SinkTrace(k, r, s, w), k, r, s, w);
  }

  /** When a source turns with (r, s), every sink registered with it ends
      delivered, duplicates included. */
  lemma FanoutDelivers(d: DriveState, e: DriveState, src: RotationSource, r: real, s: real, w: Wiring)
    requires w.Sound() && src in w.sinks && Covers(d, w) && e == Effect(d, Fanout(src, r, s, w))
    ensures forall i :: 0 <= i < |w.sinks[src]| ==> Delivered(d, e, w.sinks[src][i], r, s)
  {
    FanoutReachesEverySink(src, r, s, w);
    FanoutPasses(src, r, s, w);
    forall i | 0 <= i < |w.sinks[src]|
      ensures Delivered(d, e, w.sinks[src][i], r, s)
    {
      RunDelivers(d, Fanout(src, r, s, w), w.sinks[src][i], r, s, w);
    }
  }

  // ----- The classes -----

  /** RotationSource: the sinks it drives, in registration order, and the
      component that owns it. */
  class RotationSource {
    var component: object?
    var sinks: seq<Sink>

    constructor (component: object?)
      ensures this.component == component && sinks == []
    {
      this.component := component;
      sinks := [];
    }

    /** Register a sink and tell it who drives it.  No duplicate check. */
    method AddSink(k: Sink)
      modifies this`sinks, k.Pulleys()`upstream, k.Conveyors()`upstream, k.Bodies()`upstream
      ensures sinks == old(sinks) + [k]
      ensures match k
        case PulleySink(p) => p.upstream == this
        case ConveyorSink(c) => c.upstream == this
        case BodySink(b) => b.upstream == this
    {
      sinks := sinks + [k];
      match k {
        case PulleySink(p) => p.SetSource(this);
        case ConveyorSink(c) => c.SetSource(this);
        case BodySink(b) => b.SetSource(this);
      }
    }

    /** Deliver (r, s) to every registered sink, in order.  `calls` lists
        the sinks whose Rotate ran, in the order they took effect. */
    method SetRotation(r: real, s: real, ghost w: Wiring) returns (ghost calls: seq<Delivery>)
      requires Wired(w) && this in w.sinks
      modifies w.Below(w.rank[this])`rotation, w.conveyors`speed, w.conveyors`contacts, w.bodies`angularVelocity
      ensures calls == Fanout(this, r, s, w)
      ensures StateOf(w) == Effect(old(StateOf(w)), calls)
      ensures forall i :: 0 <= i < |w.sinks[this]| ==> Delivered(old(StateOf(w)), StateOf(w), w.sinks[this][i], r, s)
      ensures Wired(w)
      decreases w.rank[this], 1
    {
      calls := [];
      var i := 0;
      while i < |sinks|
        invariant 0 <= i <= |sinks| == |w.sinks[this]|
        invariant calls == FanoutPrefix(this, i, r, s, w)
        invariant StateOf(w) == Effect(old(StateOf(w)), calls)
        invariant Wired(w)
      {
        var more := Serve(i, r, s, w, old(StateOf(w)), calls);
        calls := calls + more;
        i := i + 1;
      }
      FanoutDelivers(old(StateOf(w)), StateOf(w), this, r, s, w);
    }

    /** One turn of SetRotation's loop: serve entry `i` of the sink list,
        after `calls` took the state of the wiring from `d`. */
    method Serve(i: nat, r: real, s: real, ghost w: Wiring, ghost d: DriveState, ghost calls: seq<Delivery>)
      returns (ghost more: seq<Delivery>)
      requires Wired(w) && this in w.sinks && i < |w.sinks[this]|
      requires calls == FanoutPrefix(this, i, r, s, w) && StateOf(w) == Effect(d, calls)
      modifies w.Below(w.rank[this])`rotation, w.conveyors`speed, w.conveyors`contacts, w.bodies`angularVelocity
      ensures calls + more == FanoutPrefix(this, i + 1, r, s, w) && StateOf(w) == Effect(d, calls + more)
      ensures Wired(w)
      decreases w.rank[this], 0
    {
      more := Deliver(sinks[i], r, s, w, w.rank[this]);
      EffectAppend(d, calls, more);
    }
  }

  /** Serve one entry of a sink list: the virtual call RotationSink::Rotate. */
  method Deliver(k: Sink, r: real, s: real, ghost w: Wiring, ghost n: nat) returns (ghost calls: seq<Delivery>)
    requires Wired(w) && w.Holds(k) && w.Height(k) < n
    modifies w.Below(n)`rotation, w.conveyors`speed, w.conveyors`contacts, w.bodies`angularVelocity
    ensures calls == SinkTrace(k, r, s, w)
    ensures StateOf(w) == Effect(old(StateOf(w)), calls)
    ensures Delivered(old(StateOf(w)), StateOf(w), k, r, s)
    ensures Wired(w)
    decreases w.Height(k), 3
  {
    match k {
      case PulleySink(p) =>
        calls := p.Rotate(r, s, w);
      case ConveyorSink(c) =>
        calls := TurnBelt(c, r, s, w);
      case BodySink(b) =>
        calls := Spin(b, r, s, w);
    }
    SinkTraceDelivers(old(StateOf(w)), k, r, s, w);
  }

  /** A delivery to a conveyor of the wiring. */
  method TurnBelt(c: Conveyor, r: real, s: real, ghost w: Wiring) returns (ghost calls: seq<Delivery>)
    requires Wired(w) && c in w.conveyors
    modifies c`speed, c`contacts
    ensures calls == [Delivery(ConveyorSink(c), r, s)]
    ensures StateOf(w) == Effect(old(StateOf(w)), calls)
    ensures Wired(w)
  {
    c.Rotate(r, s);
    calls := [Delivery(ConveyorSink(c), r, s)];
    EffectOne(old(StateOf(w)), calls[0]);
  }

  /** A delivery to a body of the wiring. */
  method Spin(b: Body, r: real, s: real, ghost w: Wiring) returns (ghost calls: seq<Delivery>)
    requires Wired(w) && b in w.bodies
    modifies b`angularVelocity
    ensures calls == [Delivery(BodySink(b), r, s)]
    ensures StateOf(w) == Effect(old(StateOf(w)), calls)
    ensures Wired(w)
  {
    b.Rotate(r, s);
    calls := [Delivery(BodySink(b), r, s)];
    EffectOne(old(StateOf(w)), calls[0]);
  }

  /** A pulley: a rotation sink that owns a rotation source and may drive a
      second pulley by a belt. */
  class Pulley {
    /** The source this pulley drives its own sinks through. */
    const source: RotationSource
    /** The source this pulley is registered with. */
    var upstream: RotationSource?
    /** The pulley this one drives by belt. */
    var driven: Pulley?
    const radius: real
    var rotation: real
    var location: Point

    constructor (radius: real)
      ensures this.radius == radius && rotation == 0.0 && location == Point(0, 0)
      ensures upstream == null && driven == null
      ensures fresh(source) && source.component == this && source.sinks == []
    {
      this.radius := radius;
      source := new RotationSource(null);
      upstream := null;
      driven := null;
      rotation := 0.0;
      location := Point(0, 0);
      new;
      source.component := this;
    }

    method SetPosition(point: Point)
      modifies this`location
      ensures location == point
    {
      location := point;
    }

    function GetPosition(): (p: Point)
      reads this`location
      ensures p == location
    {
      location
    }

    /** Belt this pulley to `pulley`; a later call replaces the earlier. */
    method Drive(pulley: Pulley)
      modifies this`driven
      ensures driven == pulley
    {
      driven := pulley;
    }

    method SetSource(src: RotationSource)
      modifies this`upstream
      ensures upstream == src
    {
      upstream := src;
    }

    /** Installing a pulley into a world only resets its rotation. */
    method SetPhysic(listen: ContactListener, world: World)
      modifies this`rotation
      ensures rotation == 0.0
    {
      rotation := 0.0;
    }

    /** Feed (r, s) through this pulley's own source, take rotation r, then
        feed the driven pulley's source and rotate the driven pulley. */
    method Rotate(r: real, s: real, ghost w: Wiring) returns (ghost calls: seq<Delivery>)
      requires Wired(w) && this in w.driven
      modifies w.Below(w.rank[source] + 1)`rotation, w.conveyors`speed, w.conveyors`contacts, w.bodies`angularVelocity
      ensures calls == RotateTrace(this, r, s, w)
      ensures StateOf(w) == Effect(old(StateOf(w)), calls)
      ensures rotation == r && Wired(w)
      decreases w.rank[source], 2
    {
      var fed := source.SetRotation(r, s, w);
      var rest := Settle(r, s, w);
      EffectAppend(old(StateOf(w)), fed, rest);
      calls := fed + rest;
    }

    /** The second half of Rotate: take rotation r, then drive the belted
        pulley, if any. */
    method Settle(r: real, s: real, ghost w: Wiring) returns (ghost calls: seq<Delivery>)
      requires Wired(w) && this in w.driven
      modifies this`rotation, w.Below(w.rank[source])`rotation, w.conveyors`speed, w.conveyors`contacts, w.bodies`angularVelocity
      ensures calls == [Delivery(PulleySink(this), r, s)] + (if w.driven[this] == null then [] else BeltTrace(w.driven[this], r, s, w))
      ensures StateOf(w) == Effect(old(StateOf(w)), calls)
      ensures rotation == r && Wired(w)
      decreases w.rank[source], 1
    {
      calls := Take(r, s, w);
      var belt := Pass(r, s, w);
      EffectAppend(old(StateOf(w)), calls, belt);
      calls := calls + belt;
    }

    /** Drive the belted pulley, if any. */
    method Pass(r: real, s: real, ghost w: Wiring) returns (ghost calls: seq<Delivery>)
      requires Wired(w) && this in w.driven
      modifies w.Below(w.rank[source])`rotation, w.conveyors`speed, w.conveyors`contacts, w.bodies`angularVelocity
      ensures calls == if w.driven[this] == null then [] else BeltTrace(w.driven[this], r, s, w)
      ensures StateOf(w) == Effect(old(StateOf(w)), calls)
      ensures Wired(w)
      decreases w.rank[source], 0
    {
      calls := [];
      if driven != null {
        calls := driven.TakeBelt(r, s, w);
      }
    }

    /** Take rotation r: the pulley's own delivery. */
    method Take(r: real, s: real, ghost w: Wiring) returns (ghost calls: seq<Delivery>)
      requires Wired(w) && this in w.driven
      modifies this`rotation
      ensures calls == [Delivery(PulleySink(this), r, s)]
      ensures StateOf(w) == Effect(old(StateOf(w)), calls)
      ensures rotation == r && Wired(w)
    {
      rotation := r;
      calls := [Delivery(PulleySink(this), r, s)];
      EffectOne(old(StateOf(w)), calls[0]);
    }

    /** What a driving pulley does to the pulley it drives: feed that
        pulley's source, then rotate that pulley. */
    method TakeBelt(r: real, s: real, ghost w: Wiring) returns (ghost calls: seq<Delivery>)
      requires Wired(w) && this in w.driven
      modifies w.Below(w.rank[source] + 1)`rotation, w.conveyors`speed, w.conveyors`contacts, w.bodies`angularVelocity
      ensures calls == BeltTrace(this, r, s, w)
      ensures StateOf(w) == Effect(old(StateOf(w)), calls)
      ensures rotation == r && Wired(w)
      decreases w.rank[source], 3
    {
      calls := source.SetRotation(r, s, w);
      var cascade := Rotate(r, s, w);
      EffectAppend(old(StateOf(w)), calls, cascade);
      calls := calls + cascade;
    }
  }

  /** A conveyor belt: a rotation sink that moves what lies on it. */
  class Conveyor {
    var upstream: RotationSource?
    var location: Point
    /** Belt speed; contacts are pushed at -speed. */
    var speed: real
    /** The contact list of the belt's physics body, owned by the engine. */
    var contacts: seq<ContactEdge>

    constructor ()
      ensures upstream == null && location == Point(0, 0) && speed == 0.0 && contacts == []
    {
      upstream := null;
      location := Point(0, 0);
      speed := 0.0;
      contacts := [];
    }

    /** Place the belt; the physics polygon starts at the same point. */
    method SetPosition(point: Point)
      modifies this`location
      ensures location == point
      ensures GetShaftPosition() == Point(point.x + 48, point.y + 4)
    {
      location := point;
    }

    function GetPosition(): (p: Point)
      reads this`location
      ensures p == location
    {
      location
    }

    /** Where a pulley driving this belt sits. */
    function GetShaftPosition(): (p: Point)
      reads this`location
      ensures p.x - location.x == ConveyorShaftOffset.x && p.y - location.y == ConveyorShaftOffset.y
    {
      location.Plus(ConveyorShaftOffset)
    }

    method SetSource(src: RotationSource)
      modifies this`upstream
      ensures upstream == src
    {
      upstream := src;
    }

    /** Install the belt body (twice, as the source does), register the belt
        with the contact listener, and stop the belt.  The new body touches
        nothing until the world steps. */
    method SetPhysic(listen: ContactListener, world: World)
      modifies this`speed, this`contacts, listen`observers, world`bodies
      ensures speed == 0.0 && contacts == []
      ensures listen.observers == old(listen.observers) + [this]
      ensures world.bodies == old(world.bodies) + 2
    {
      world.CreateBody();
      contacts := [];
      listen.Add(this);
      world.CreateBody();
      speed := 0.0;
    }

    /** Contact callback: whatever touches the belt slides at -speed. */
    method PreSolve(contact: Contact)
      modifies contact`tangentSpeed
      ensures contact.tangentSpeed == -speed
    {
      contact.tangentSpeed := -speed;
    }

    /** A delivery: latch the speed when the rotation is non-zero, then push
        every touching contact at (-speed, 0). */
    method Rotate(r: real, s: real)
      modifies this`speed, this`contacts
      ensures speed == Latched(old(speed), r, s)
      ensures contacts == Conveyed(old(contacts), -speed)
    {
      if r != 0.0 {
        speed := s;
      }
      ghost var cs := contacts;
      var i := 0;
      while i < |contacts|
        invariant 0 <= i <= |contacts| == |cs|
        invariant speed == Latched(old(speed), r, s)
        invariant forall j :: 0 <= j < i ==> contacts[j] == Pushed(cs[j], -speed)
        invariant forall j :: i <= j < |cs| ==> contacts[j] == cs[j]
      {
        if contacts[i].touching {
          contacts := contacts[i := ContactEdge(true, Vec2(-speed, 0.0))];
        }
        i := i + 1;
      }
      assert contacts == Conveyed(cs, -speed);
    }
  }

  /** A free body: a rotation sink that takes the delivered speed as its
      angular velocity. */
  class Body {
    var upstream: RotationSource?
    var angularVelocity: real
    /** The initial position of the body's physics polygon. */
    var position: Point
    var dynamic: bool

    constructor ()
      ensures upstream == null && angularVelocity == 0.0 && position == Point(0, 0) && !dynamic
    {
      upstream := null;
      angularVelocity := 0.0;
      position := Point(0, 0);
      dynamic := false;
    }

    method SetInitialPosition(point: Point)
      modifies this`position
      ensures position == point
    {
      position := point;
    }

    method SetDynamic()
      modifies this`dynamic
      ensures dynamic
    {
      dynamic := true;
    }

    method SetSource(src: RotationSource)
      modifies this`upstream
      ensures upstream == src
    {
      upstream := src;
    }

    /** Install the body's polygon; bodies register no contact callbacks. */
    method SetPhysic(listen: ContactListener, world: World)
      modifies world`bodies
      ensures world.bodies == old(world.bodies) + 1
      ensures listen.observers == old(listen.observers)
    {
      world.CreateBody();
    }

    /** A delivery: the body spins at the delivered speed. */
    method Rotate(r: real, s: real)
      modifies this`angularVelocity
      ensures angularVelocity == s
    {
      angularVelocity := s;
    }
  }
}
