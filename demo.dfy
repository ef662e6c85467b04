/** The circuit wired by hand in `main`: IN1 and IN2 feed an OR gate (IN1
    directly, IN2 through a NOT gate), the OR gate and IN2 feed an AND gate,
    and the AND gate drives the OUT buffer. Since (a || !b) && b == a && b,
    the OUT buffer ends up holding IN1 && IN2. */
module Demo {
  import opened Netlist
  import opened Propagation
  import opened PropagationProperties
  import opened Engine

  // Gates in the order `main` declares them.
  const GateAnd: nat := 0
  const GateNot: nat := 1
  const GateOr: nat := 2
  const InBuff1: nat := 3
  const InBuff2: nat := 4
  const OutBuff: nat := 5

  /** Pins `pin_1` to `pin_6` are 0 to 5, wires `wire_1` to `wire_5` are 0 to 4.
      The levels are OUT 0, AND 1, OR 2, NOT 3, IN2 4 and IN1 5: IN1 sits
      above IN2 so that driving IN2 provably leaves IN1 alone. */
  function DemoNet(): (net: Net)
    ensures |net.owner| == 6 && |net.gates| == 6 && |net.wires| == 5
    ensures forall p :: 0 <= p < |net.owner| ==> net.owner[p] < |net.gates| && p in net.gates[net.owner[p]].pins
  {
    Net(
      [GateOr, GateOr, GateNot, GateAnd, GateAnd, OutBuff],
      [ Gate(AND, [3, 4], Some(4)),
        Gate(NOT, [2], Some(2)),
        Gate(OR, [0, 1], Some(3)),
        Gate(IN, [], Some(0)),
        Gate(IN, [], Some(1)),
        Gate(OUT, [5], None) ],
      [Wire([0]), Wire([2, 4]), Wire([1]), Wire([3]), Wire([5])],
      [1, 3, 2, 5, 4, 0])
  }

  /** Every record starts out false. */
  function DemoStart(): (start: State)
    ensures Fits(DemoNet(), start)
    ensures forall p :: 0 <= p < |start.pin| ==> !start.pin[p]
    ensures forall g :: 0 <= g < |start.gate| ==> !start.gate[g]
    ensures forall x :: 0 <= x < |start.wire| ==> !start.wire[x]
  {
    State(seq(6, _ => false), seq(6, _ => false), seq(5, _ => false))
  }

  lemma DemoWellFormed()
    ensures WellFormed(DemoNet())
  {
    DemoLinked();
    DemoArity();
    DemoAcyclic();
  }

  lemma DemoLinked()
    ensures Linked(DemoNet())
  {
    var net := DemoNet();
    assert forall g, k :: 0 <= g < |net.gates| && 0 <= k < |net.gates[g].pins| ==> net.gates[g].pins[k] < |net.owner|;
  }

  lemma DemoArity()
    ensures Arity(DemoNet())
  {
  }

  lemma DemoAcyclic()
    ensures Linked(DemoNet()) && Acyclic(DemoNet())
  {
    var net := DemoNet();
    DemoLinked();
    forall g, k | 0 <= g < |net.gates| && net.gates[g].out.Some? && 0 <= k < |net.wires[net.gates[g].out.value].transmit|
      ensures net.level[net.owner[net.wires[net.gates[g].out.value].transmit[k]]] < net.level[g]
    {
      if g == GateAnd {
      } else if g == GateNot {
      } else if g == GateOr {
      } else if g == InBuff1 {
      } else {
        assert g == InBuff2;
        assert k < 2;
      }
    }
  }

  lemma DemoWireLevels()
    ensures WellFormed(DemoNet())
    ensures WireLevel(DemoNet(), 0) == 3 && WireLevel(DemoNet(), 1) == 4 && WireLevel(DemoNet(), 2) == 3
    ensures WireLevel(DemoNet(), 3) == 2 && WireLevel(DemoNet(), 4) == 1
  {
    DemoWellFormed();
  }

  /** No pin of the demo is fed by two wires. */
  lemma DemoSoleDrivers(w: nat)
    requires w < 5
    ensures WellFormed(DemoNet()) && SoleDriver(DemoNet(), w)
  {
    DemoWellFormed();
  }

  /** `wire_5` drives the OUT buffer: whatever it carries ends up in OUT's state. */
  lemma OutFollowsWire5(s: State, d: bool)
    requires Fits(DemoNet(), s)
    ensures WellFormed(DemoNet())
    ensures PushWire(DemoNet(), s, 4, d).gate[OutBuff] == d
  {
    var net := DemoNet();
    DemoWellFormed();
    assert net.wires[4] == Wire([5]) && net.owner[5] == OutBuff && net.gates[OutBuff].kind == OUT;
    SingleDelivery(net, s, 4, d);
    DispatchResult(net, s.(wire := s.wire[4 := d]), 5, d);
  }

  /** A value arriving on `pin_5` makes the AND gate combine it with `pin_4`
      and pass the result on to OUT. */
  lemma AndStage(s: State, v: bool)
    requires Fits(DemoNet(), s)
    ensures WellFormed(DemoNet())
    ensures PushPin(DemoNet(), s, 4, v).gate[OutBuff] == (s.pin[3] && v)
  {
    var net := DemoNet();
    DemoWellFormed();
    assert net.owner[4] == GateAnd && net.gates[GateAnd] == Gate(AND, [3, 4], Some(4));
    AndDispatch(net, s, 4, v);
    var g := net.owner[4];
    var s1 := s.(pin := s.pin[4 := v]);
    var c := s1.pin[net.gates[g].pins[0]] && s1.pin[net.gates[g].pins[1]];
    OutFollowsWire5(s1.(gate := s1.gate[g := c]), c);
  }

  /** A value arriving on `pin_2` makes the OR gate combine it with `pin_1`
      and push the result on `wire_4`, which leaves it on `pin_4`, the AND
      gate's first input. */
  lemma OrStage(s: State, v: bool)
    requires Fits(DemoNet(), s)
    ensures WellFormed(DemoNet())
    ensures PushPin(DemoNet(), s, 1, v).pin[3] == (s.pin[0] || v)
  {
    var net := DemoNet();
    DemoWellFormed();
    assert net.owner[1] == GateOr && net.gates[GateOr] == Gate(OR, [0, 1], Some(3));
    OrDispatch(net, s, 1, v);
    var g := net.owner[1];
    var s1 := s.(pin := s.pin[1 := v]);
    var c := s1.pin[net.gates[g].pins[0]] || s1.pin[net.gates[g].pins[1]];
    var w := net.gates[g].out.value;
    DemoSoleDrivers(w);
    SoleDriverSuffices(net, w);
    FanOut(net, s1.(gate := s1.gate[g := c]), w, c);
    assert 3 in net.wires[w].transmit;
  }

  /** A value `b` arriving on `pin_3` goes through NOT and OR, leaving
      `pin_1 || !b` on `pin_4`, and does not disturb `wire_2`. */
  lemma NotStage(s: State, b: bool)
    requires Fits(DemoNet(), s)
    ensures WellFormed(DemoNet())
    ensures PushPin(DemoNet(), s, 2, b).pin[3] == (s.pin[0] || !b)
    ensures PushPin(DemoNet(), s, 2, b).wire[1] == s.wire[1]
  {
    var net := DemoNet();
    DemoWireLevels();
    assert net.owner[2] == GateNot && net.gates[GateNot] == Gate(NOT, [2], Some(2)) && net.wires[2] == Wire([1]);
    NotDispatch(net, s, 2, b);
    var g := net.owner[2];
    var s1 := s.(pin := s.pin[2 := b]);
    var c := !s1.pin[net.gates[g].pins[0]];
    var w := net.gates[g].out.value;
    var s2 := s1.(gate := s1.gate[g := c]);
    SingleDelivery(net, s2, w, c);
    OrStage(s2.(wire := s2.wire[w := c]), c);
  }

  /** `in_buff2.update_state(b)`: `wire_2` delivers to `pin_3` (the NOT gate)
      first and to `pin_5` (the AND gate) second, after which OUT holds
      `(pin_1 || !b) && b`. */
  lemma In2Stage(s: State, b: bool)
    requires Fits(DemoNet(), s)
    ensures WellFormed(DemoNet())
    ensures SetBuffer(DemoNet(), s, InBuff2, b).gate[OutBuff] == ((s.pin[0] || !b) && b)
    ensures
      var s1 := s.(gate := s.gate[InBuff2 := b]);
      var s2 := s1.(wire := s1.wire[1 := b]);
      var d1 := DeliverPrefix(DemoNet(), s2, 1, 1);
      d1 == PushPin(DemoNet(), s2, 2, b) && d1.pin[3] == (s.pin[0] || !b) &&
      SetBuffer(DemoNet(), s, InBuff2, b) == PushPin(DemoNet(), d1, 4, b)
  {
    var net := DemoNet();
    DemoWellFormed();
    assert net.gates[InBuff2].out == Some(1) && net.wires[1] == Wire([2, 4]);
    BufferDispatch(net, s, InBuff2, b);
    var s1 := s.(gate := s.gate[InBuff2 := b]);
    var s2 := s1.(wire := s1.wire[1 := b]);
    assert DeliverPrefix(net, s2, 1, 0) == s2;
    var d1 := DeliverPrefix(net, s2, 1, 1);
    assert d1 == PushPin(net, s2, 2, b);
    NotStage(s2, b);
    assert PushWire(net, s1, 1, b) == PushPin(net, d1, 4, b);
    AndStage(d1, b);
  }

  /** `in_buff1.update_state(a)`: `wire_1` leaves `a` on `pin_1`. */
  lemma In1Stage(s: State, a: bool)
    requires Fits(DemoNet(), s)
    ensures WellFormed(DemoNet())
    ensures SetBuffer(DemoNet(), s, InBuff1, a).pin[0] == a
  {
    var net := DemoNet();
    DemoWellFormed();
    assert net.gates[InBuff1].out == Some(0) && net.wires[0] == Wire([0]);
    BufferDispatch(net, s, InBuff1, a);
    DemoSoleDrivers(0);
    SoleDriverSuffices(net, 0);
    FanOut(net, s.(gate := s.gate[InBuff1 := a]), 0, a);
    assert 0 in net.wires[0].transmit;
  }

  /** Driving IN1 with `a` and then IN2 with `b`, from any state, leaves `a`
      in IN1, `b` in IN2 and `a && b` in the OUT buffer. */
  lemma DemoComputesAnd(s: State, a: bool, b: bool)
    requires Fits(DemoNet(), s)
    ensures WellFormed(DemoNet())
    ensures
      var r := SetBuffer(DemoNet(), SetBuffer(DemoNet(), s, InBuff1, a), InBuff2, b);
      r.gate[InBuff1] == a && r.gate[InBuff2] == b && r.gate[OutBuff] == (a && b)
  {
    In1Stage(s, a);
    In2Stage(SetBuffer(DemoNet(), s, InBuff1, a), b);
    assert DemoNet().level[InBuff1] > DemoNet().level[InBuff2];
  }

  /** One line of the demo's printout: both inputs and the output. */
  datatype Reading = Reading(in1: bool, in2: bool, out: bool)

  /** One round of `main`: drive IN1 with `a`, then IN2 with `b`, then read
      both inputs and the OUT buffer. */
  method DriveAndRead(c: Circuit, a: bool, b: bool) returns (r: Reading)
    requires c.Valid() && c.net == DemoNet()
    modifies c
    ensures c.Valid() && r == Reading(a, b, a && b)
    ensures c.Snapshot() == SetBuffer(DemoNet(), SetBuffer(DemoNet(), old(c.Snapshot()), InBuff1, a), InBuff2, b)
  {
    ghost var s := c.Snapshot();
    c.UpdateState(InBuff1, a);
    c.UpdateState(InBuff2, b);
    DemoComputesAnd(s, a, b);
    var in1 := c.GetState(InBuff1);
    var in2 := c.GetState(InBuff2);
    var out := c.GetState(OutBuff);
    r := Reading(in1, in2, out);
  }

  /** `main`: builds the circuit with every record false and prints the four
      input pairs in the order false/false, false/true, true/false, true/true;
      the output follows the AND truth table. */
  method RunDemo() returns (readings: seq<Reading>)
    ensures readings == [Reading(false, false, false), Reading(false, true, false),
                         Reading(true, false, false), Reading(true, true, true)]
  {
    DemoWellFormed();
    var c := new Circuit(DemoNet(), DemoStart());
    var r1 := DriveAndRead(c, false, false);
    var r2 := DriveAndRead(c, false, true);
    var r3 := DriveAndRead(c, true, false);
    var r4 := DriveAndRead(c, true, true);
    readings := [r1, r2, r3, r4];
  }
}
