/** The simulator's records updated in place: one circuit object owns the state
    of every pin, gate and wire, and its methods are the Go methods
    `wire_report_state`, `pin_report_state`, `get_state`, `update_state` and
    `report_state_NOT/AND/OR`. Each method is proved to leave exactly the
    state the matching function of `Propagation` describes. */
module Engine {
  import opened Netlist
  import opened Propagation

  class Circuit {
    const net: Net
    var pinState: seq<bool>
    var gateState: seq<bool>
    var wireState: seq<bool>

    ghost predicate Valid()
      reads this
    {
      WellFormed(net) && Fits(net, Snapshot())
    }

    /** The current `p_state`, `g_state` and `w_state` of every record. */
    function Snapshot(): (snap: State)
      reads this
    {
      State(pinState, gateState, wireState)
    }

    constructor (net: Net, init: State)
      requires WellFormed(net) && Fits(net, init)
      ensures Valid() && this.net == net && Snapshot() == init
    {
      this.net := net;
      pinState := init.pin;
      gateState := init.gate;
      wireState := init.wire;
    }

    /** `Wire.wire_report_state`. */
    method WireReportState(w: nat, v: bool)
      requires Valid() && w < |net.wires|
      modifies this
      ensures Valid() && Snapshot() == PushWire(net, old(Snapshot()), w, v)
      decreases WireLevel(net, w), 2, 0
    {
      wireState := wireState[w := v];
      ghost var start := Snapshot();
      var transmit := net.wires[w].transmit;
      var i := 0;
      while i < |transmit|
        invariant 0 <= i <= |transmit|
        invariant Valid() && Snapshot() == DeliverPrefix(net, start, w, i)
      {
        var next := i + 1;
        DeliveryDescends(net, w, i);
        DeliverOneMore(net, start, w, i, next);
        PinReportState(transmit[i], wireState[w]);
        i := next;
      }
    }

    /** `Pin.pin_report_state`; the unknown-type branch only prints, so it changes nothing. */
    method PinReportState(p: nat, v: bool)
      requires Valid() && p < |net.owner|
      modifies this
      ensures Valid() && Snapshot() == PushPin(net, old(Snapshot()), p, v)
      decreases net.level[net.owner[p]], 4, 0
    {
      pinState := pinState[p := v];
      var g := net.owner[p];
      match net.gates[g].kind
      case IN => UpdateState(g, pinState[p]);
      case OUT => UpdateState(g, pinState[p]);
      case NOT => ReportStateNot(g);
      case AND => ReportStateAnd(g);
      case OR => ReportStateOr(g);
      case Unknown(_) =>
    }

    /** `Gate.get_state`: a read that changes nothing. */
    method GetState(g: nat) returns (b: bool)
      requires Valid() && g < |net.gates|
      ensures b == Snapshot().gate[g]
    {
      b := gateState[g];
    }

    /** `Gate.update_state`. */
    method UpdateState(g: nat, v: bool)
      requires Valid() && g < |net.gates|
      modifies this
      ensures Valid() && Snapshot() == SetBuffer(net, old(Snapshot()), g, v)
      decreases net.level[g], 3, 0
    {
      gateState := gateState[g := v];
      if net.gates[g].out.Some? {
        OutputDescends(net, g);
        WireReportState(net.gates[g].out.value, gateState[g]);
      }
    }

    /** `Gate.report_state_AND`. */
    method ReportStateAnd(g: nat)
      requires Valid() && g < |net.gates| && |net.gates[g].pins| >= 2
      modifies this
      ensures Valid() && Snapshot() == PushAnd(net, old(Snapshot()), g)
      decreases net.level[g], 3, 0
    {
      var pins := net.gates[g].pins;
      if net.gates[g].out.Some? {
        gateState := gateState[g := pinState[pins[0]] && pinState[pins[1]]];
        OutputDescends(net, g);
        WireReportState(net.gates[g].out.value, gateState[g]);
      } else {
        gateState := gateState[g := pinState[pins[0]]];
      }
    }

    /** `Gate.report_state_OR`. */
    method ReportStateOr(g: nat)
      requires Valid() && g < |net.gates| && |net.gates[g].pins| >= 2
      modifies this
      ensures Valid() && Snapshot() == PushOr(net, old(Snapshot()), g)
      decreases net.level[g], 3, 0
    {
      var pins := net.gates[g].pins;
      if net.gates[g].out.Some? {
        gateState := gateState[g := pinState[pins[0]] || pinState[pins[1]]];
        OutputDescends(net, g);
        WireReportState(net.gates[g].out.value, gateState[g]);
      } else {
        gateState := gateState[g := pinState[pins[0]]];
      }
    }

    /** `Gate.report_state_NOT`. */
    method ReportStateNot(g: nat)
      requires Valid() && g < |net.gates| && |net.gates[g].pins| >= 1
      modifies this
      ensures Valid() && Snapshot() == PushNot(net, old(Snapshot()), g)
      decreases net.level[g], 3, 0
    {
      gateState := gateState[g := !pinState[net.gates[g].pins[0]]];
      if net.gates[g].out.Some? {
        OutputDescends(net, g);
        WireReportState(net.gates[g].out.value, gateState[g]);
      }
    }
  }
}
