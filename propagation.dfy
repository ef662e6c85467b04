/** What each step of the push-based propagation does to the circuit state, as
    functions on `State` values. Each function mirrors one Go method: the value
    it returns is the whole state after that method (and everything it calls)
    has returned. */
module Propagation {
  import opened Netlist

  /** No wire at level `lvl` or below delivers to pin `q`. */
  ghost predicate Undriven(net: Net, q: nat, lvl: int)
    requires WellFormed(net)
  {
    forall x :: 0 <= x < |net.wires| && WireLevel(net, x) <= lvl ==> q !in net.wires[x].transmit
  }

  /** `r` agrees with `s` on every gate above level `lvl`, on every wire above
      level `lvl`, and on every pin that no wire at level `pinLvl` or below
      delivers to. A push that starts at level `lvl` only reaches what lies
      below it, so this is what such a push leaves alone. */
  ghost predicate AgreeAbove(net: Net, s: State, r: State, lvl: int, pinLvl: int)
    requires WellFormed(net) && Fits(net, s) && Fits(net, r)
  {
    (forall g :: 0 <= g < |net.gates| && net.level[g] > lvl ==> r.gate[g] == s.gate[g]) &&
    (forall x :: 0 <= x < |net.wires| && WireLevel(net, x) > lvl ==> r.wire[x] == s.wire[x]) &&
    (forall q :: 0 <= q < |net.owner| && Undriven(net, q, pinLvl) ==> r.pin[q] == s.pin[q])
  }

  /** `Wire.wire_report_state`: store `v` on wire `w`, then deliver the wire's
      state to each of its pins in order. Afterwards the wire still holds `v`,
      and nothing at or above the wire's level has changed except the wire
      and the pins it delivers to. */
  function PushWire(net: Net, s: State, w: nat, v: bool): (r: State)
    requires WellFormed(net) && Fits(net, s) && w < |net.wires|
    ensures Fits(net, r)
    ensures r.wire[w] == v
    ensures AgreeAbove(net, s.(wire := s.wire[w := v]), r, WireLevel(net, w) - 1, WireLevel(net, w))
    decreases WireLevel(net, w), 2, 0
  {
    DeliverPrefix(net, s.(wire := s.wire[w := v]), w, |net.wires[w].transmit|)
  }

  /** The state after the first `n` rounds of the delivery loop over
      `w.transmit`; each round hands the wire's current state to the next pin. */
  function DeliverPrefix(net: Net, s: State, w: nat, n: nat): (r: State)
    requires WellFormed(net) && Fits(net, s) && w < |net.wires| && n <= |net.wires[w].transmit|
    ensures Fits(net, r)
    ensures AgreeAbove(net, s, r, WireLevel(net, w) - 1, WireLevel(net, w))
    decreases WireLevel(net, w), 1, n
  {
    if n == 0 then s
    else
      var prev := DeliverPrefix(net, s, w, n - 1);
      var p := net.wires[w].transmit[n - 1];
      DeliveryDescends(net, w, n - 1);
      assert p in net.wires[w].transmit;
      PushPin(net, prev, p, prev.wire[w])
  }

  /** Round `n = m + 1` of the delivery loop hands the wire's state to pin `m`. */
  lemma DeliverOneMore(net: Net, s: State, w: nat, m: nat, n: nat)
    requires WellFormed(net) && Fits(net, s) && w < |net.wires| && n == m + 1 <= |net.wires[w].transmit|
    ensures DeliverPrefix(net, s, w, n) ==
      PushPin(net, DeliverPrefix(net, s, w, m), net.wires[w].transmit[m], DeliverPrefix(net, s, w, m).wire[w])
  {
  }

  /** `Pin.pin_report_state`: store `v` on pin `p`, then run the evaluator of the
      owning gate's type; a gate of unknown type is left alone. Nothing above
      the owner's level changes except pin `p` itself. */
  function PushPin(net: Net, s: State, p: nat, v: bool): (r: State)
    requires WellFormed(net) && Fits(net, s) && p < |net.owner|
    ensures Fits(net, r)
    ensures AgreeAbove(net, s.(pin := s.pin[p := v]), r, net.level[net.owner[p]], net.level[net.owner[p]])
    ensures net.gates[net.owner[p]].kind.Unknown? ==> r == s.(pin := s.pin[p := v])
    decreases net.level[net.owner[p]], 4, 0
  {
    var s1 := s.(pin := s.pin[p := v]);
    var g := net.owner[p];
    match net.gates[g].kind
    case IN => SetBuffer(net, s1, g, s1.pin[p])
    case OUT => SetBuffer(net, s1, g, s1.pin[p])
    case NOT => PushNot(net, s1, g)
    case AND => PushAnd(net, s1, g)
    case OR => PushOr(net, s1, g)
    case Unknown(_) => s1
  }

  /** `Gate.update_state` (the IN and OUT buffers): the gate takes `v`; with an
      output wire, exactly `v` is pushed on it, and without one nothing else
      changes. */
  function SetBuffer(net: Net, s: State, g: nat, v: bool): (r: State)
    requires WellFormed(net) && Fits(net, s) && g < |net.gates|
    ensures Fits(net, r)
    ensures r.gate[g] == v
    ensures net.gates[g].out.Some? ==> r.wire[net.gates[g].out.value] == v
    ensures net.gates[g].out.None? ==> r == s.(gate := s.gate[g := v])
    ensures AgreeAbove(net, s, r, net.level[g], net.level[g])
    decreases net.level[g], 3, 0
  {
    var s1 := s.(gate := s.gate[g := v]);
    match net.gates[g].out
    case None => s1
    case Some(w) =>
      OutputDescends(net, g);
      PushWire(net, s1, w, s1.gate[g])
  }

  /** `Gate.report_state_NOT`: the gate takes the negation of its first pin and
      pushes it on its output wire, if it has one. */
  function PushNot(net: Net, s: State, g: nat): (r: State)
    requires WellFormed(net) && Fits(net, s) && g < |net.gates| && |net.gates[g].pins| >= 1
    ensures Fits(net, r)
    ensures r.gate[g] == !s.pin[net.gates[g].pins[0]]
    ensures net.gates[g].out.Some? ==> r.wire[net.gates[g].out.value] == r.gate[g]
    ensures net.gates[g].out.None? ==> r == s.(gate := s.gate[g := !s.pin[net.gates[g].pins[0]]])
    ensures AgreeAbove(net, s, r, net.level[g], net.level[g])
    decreases net.level[g], 3, 0
  {
    var s1 := s.(gate := s.gate[g := !s.pin[net.gates[g].pins[0]]]);
    match net.gates[g].out
    case None => s1
    case Some(w) =>
      OutputDescends(net, g);
      PushWire(net, s1, w, s1.gate[g])
  }

  /** `Gate.report_state_AND`: with an output wire, the gate takes the
      conjunction of its first two pins and pushes it; without one, it copies
      its first pin and nothing else changes. */
  function PushAnd(net: Net, s: State, g: nat): (r: State)
    requires WellFormed(net) && Fits(net, s) && g < |net.gates| && |net.gates[g].pins| >= 2
    ensures Fits(net, r)
    ensures net.gates[g].out.Some? ==>
      r.gate[g] == (s.pin[net.gates[g].pins[0]] && s.pin[net.gates[g].pins[1]]) &&
      r.wire[net.gates[g].out.value] == r.gate[g]
    ensures net.gates[g].out.None? ==> r == s.(gate := s.gate[g := s.pin[net.gates[g].pins[0]]])
    ensures AgreeAbove(net, s, r, net.level[g], net.level[g])
    decreases net.level[g], 3, 0
  {
    var pins := net.gates[g].pins;
    match net.gates[g].out
    case None => s.(gate := s.gate[g := s.pin[pins[0]]])
    case Some(w) =>
      var s1 := s.(gate := s.gate[g := s.pin[pins[0]] && s.pin[pins[1]]]);
      OutputDescends(net, g);
      PushWire(net, s1, w, s1.gate[g])
  }

  /** `Gate.report_state_OR`: with an output wire, the gate takes the
      disjunction of its first two pins and pushes it; without one, it copies
      its first pin and nothing else changes. */
  function PushOr(net: Net, s: State, g: nat): (r: State)
    requires WellFormed(net) && Fits(net, s) && g < |net.gates| && |net.gates[g].pins| >= 2
    ensures Fits(net, r)
    ensures net.gates[g].out.Some? ==>
      r.gate[g] == (s.pin[net.gates[g].pins[0]] || s.pin[net.gates[g].pins[1]]) &&
      r.wire[net.gates[g].out.value] == r.gate[g]
    ensures net.gates[g].out.None? ==> r == s.(gate := s.gate[g := s.pin[net.gates[g].pins[0]]])
    ensures AgreeAbove(net, s, r, net.level[g], net.level[g])
    decreases net.level[g], 3, 0
  {
    var pins := net.gates[g].pins;
    match net.gates[g].out
    case None => s.(gate := s.gate[g := s.pin[pins[0]]])
    case Some(w) =>
      var s1 := s.(gate := s.gate[g := s.pin[pins[0]] || s.pin[pins[1]]]);
      OutputDescends(net, g);
      PushWire(net, s1, w, s1.gate[g])
  }
}

/** Properties of the propagation functions that relate several calls. */
module PropagationProperties {
  import opened Netlist
  import opened Propagation

  /** No other wire delivers to any pin of wire `w`. */
  ghost predicate SoleDriver(net: Net, w: nat)
    requires WellFormed(net) && w < |net.wires|
  {
    forall x, q :: 0 <= x < |net.wires| && x != w && q in net.wires[w].transmit ==> q !in net.wires[x].transmit
  }

  /** No wire below the level of wire `w` delivers to any pin of `w`. Wires at
      or above that level may share pins with `w`: a push on `w` never reaches them. */
  ghost predicate NoLowerDriver(net: Net, w: nat)
    requires WellFormed(net) && w < |net.wires|
  {
    forall q :: q in net.wires[w].transmit ==> Undriven(net, q, WireLevel(net, w) - 1)
  }

  /** A wire that is the only one feeding its pins has no lower driver. */
  lemma SoleDriverSuffices(net: Net, w: nat)
    requires WellFormed(net) && w < |net.wires| && SoleDriver(net, w)
    ensures NoLowerDriver(net, w)
  {
    forall q, x | q in net.wires[w].transmit && 0 <= x < |net.wires| && WireLevel(net, x) <= WireLevel(net, w) - 1
      ensures q !in net.wires[x].transmit
    {
      assert x != w;
    }
  }

  /** Each of the first `n` pins on wire `w`'s transmit list holds `v` in `r`. */
  ghost predicate PinsHold(net: Net, r: State, w: nat, n: nat, v: bool)
    requires WellFormed(net) && Fits(net, r) && w < |net.wires| && n <= |net.wires[w].transmit|
  {
    forall k :: 0 <= k < n ==> r.pin[net.wires[w].transmit[k]] == v
  }

  /** After the first `n` rounds of the delivery loop, each of the first `n`
      pins holds the wire's state: no later round, and nothing those rounds
      push downstream, overwrites a pin that no lower wire drives. */
  lemma {:induction false} DeliveredPinsHold(net: Net, s: State, w: nat, n: nat)
    requires WellFormed(net) && Fits(net, s) && w < |net.wires| && n <= |net.wires[w].transmit|
    requires NoLowerDriver(net, w)
    ensures PinsHold(net, DeliverPrefix(net, s, w, n), w, n, s.wire[w])
  {
    if n > 0 {
      var m: nat := n - 1;
      DeliveredPinsHold(net, s, w, m);
      DeliverStep(net, s, w, m, n);
    }
  }

  /** Round `n = m + 1` of the delivery loop keeps the pins delivered so far and adds pin `m`. */
  lemma DeliverStep(net: Net, s: State, w: nat, m: nat, n: nat)
    requires WellFormed(net) && Fits(net, s) && w < |net.wires| && n == m + 1 <= |net.wires[w].transmit|
    requires NoLowerDriver(net, w)
    requires PinsHold(net, DeliverPrefix(net, s, w, m), w, m, s.wire[w])
    ensures PinsHold(net, DeliverPrefix(net, s, w, n), w, n, s.wire[w])
  {
    DeliveryDescends(net, w, m);
    PrefixKeepsWire(net, s, w, m);
    DeliverOneMore(net, s, w, m, n);
    DeliverStepHolds(net, w, m, DeliverPrefix(net, s, w, m), DeliverPrefix(net, s, w, n), s.wire[w]);
  }

  /** The delivery loop never changes the wire it delivers from. */
  lemma PrefixKeepsWire(net: Net, s: State, w: nat, n: nat)
    requires WellFormed(net) && Fits(net, s) && w < |net.wires| && n <= |net.wires[w].transmit|
    ensures DeliverPrefix(net, s, w, n).wire[w] == s.wire[w]
  {
  }

  /** One round of the delivery loop keeps the pins delivered so far and adds the next one. */
  lemma DeliverStepHolds(net: Net, w: nat, m: nat, prev: State, r: State, v: bool)
    requires WellFormed(net) && Fits(net, prev) && w < |net.wires|
    requires m < |net.wires[w].transmit| && NoLowerDriver(net, w)
    requires net.level[net.owner[net.wires[w].transmit[m]]] < WireLevel(net, w)
    requires PinsHold(net, prev, w, m, v)
    requires r == PushPin(net, prev, net.wires[w].transmit[m], v)
    ensures PinsHold(net, r, w, m + 1, v)
  {
    var t := net.wires[w].transmit;
    var lvl := net.level[net.owner[t[m]]];
    var stored := prev.(pin := prev.pin[t[m] := v]);
    forall k | 0 <= k < m + 1
      ensures r.pin[t[k]] == v
    {
      assert stored.pin[t[k]] == v;
      LowerUndriven(net, w, k, lvl);
    }
  }

  /** A pin of wire `w` that no lower wire drives is undriven below the wire's level. */
  lemma LowerUndriven(net: Net, w: nat, k: nat, lvl: int)
    requires WellFormed(net) && w < |net.wires| && k < |net.wires[w].transmit|
    requires NoLowerDriver(net, w) && lvl < WireLevel(net, w)
    ensures Undriven(net, net.wires[w].transmit[k], lvl)
  {
    assert net.wires[w].transmit[k] in net.wires[w].transmit;
  }

  /** Wire fan-out: after `wire_report_state(v)` the wire holds `v`, and so does
      every pin on its transmit list, provided no wire the push can reach
      delivers to that pin afterwards. */
  lemma FanOut(net: Net, s: State, w: nat, v: bool)
    requires WellFormed(net) && Fits(net, s) && w < |net.wires|
    requires NoLowerDriver(net, w)
    ensures PushWire(net, s, w, v).wire[w] == v
    ensures forall q :: q in net.wires[w].transmit ==> PushWire(net, s, w, v).pin[q] == v
  {
    var t := net.wires[w].transmit;
    DeliveredPinsHold(net, s.(wire := s.wire[w := v]), w, |t|);
    forall q | q in t
      ensures PushWire(net, s, w, v).pin[q] == v
    {
      var k :| 0 <= k < |t| && t[k] == q;
    }
  }

  /** What a report to pin `p` leaves in the owning gate `g`, by gate type: an
      IN or OUT buffer takes the reported value, NOT negates its first pin,
      AND and OR combine their first two pins when they have an output wire
      and copy the first one when they do not; a gate of a known type that has
      an output wire leaves its new state on that wire; a gate of unknown type
      changes nothing but the pin. */
  lemma DispatchResult(net: Net, s: State, p: nat, v: bool)
    requires WellFormed(net) && Fits(net, s) && p < |net.owner|
    ensures
      var g := net.owner[p];
      var gate := net.gates[g];
      var s1 := s.(pin := s.pin[p := v]);
      var r := PushPin(net, s, p, v);
      (gate.kind == IN || gate.kind == OUT ==> r.gate[g] == v) &&
      (gate.kind == NOT ==> r.gate[g] == !s1.pin[gate.pins[0]]) &&
      (gate.kind == AND && gate.out.Some? ==> r.gate[g] == (s1.pin[gate.pins[0]] && s1.pin[gate.pins[1]])) &&
      (gate.kind == OR && gate.out.Some? ==> r.gate[g] == (s1.pin[gate.pins[0]] || s1.pin[gate.pins[1]])) &&
      ((gate.kind == AND || gate.kind == OR) && gate.out.None? ==> r.gate[g] == s1.pin[gate.pins[0]]) &&
      (!gate.kind.Unknown? && gate.out.Some? ==> r.wire[gate.out.value] == r.gate[g]) &&
      (gate.kind.Unknown? ==> r == s1)
  {
  }

  /** A report to a pin of an OR gate with an output wire: the gate takes the
      disjunction of its first two pins, the report included, and pushes it. */
  lemma OrDispatch(net: Net, s: State, p: nat, v: bool)
    requires WellFormed(net) && Fits(net, s) && p < |net.owner|
    requires net.gates[net.owner[p]].kind == OR && net.gates[net.owner[p]].out.Some?
    ensures
      var g := net.owner[p];
      var s1 := s.(pin := s.pin[p := v]);
      var c := s1.pin[net.gates[g].pins[0]] || s1.pin[net.gates[g].pins[1]];
      PushPin(net, s, p, v) == PushWire(net, s1.(gate := s1.gate[g := c]), net.gates[g].out.value, c)
  {
  }

  /** A report to a pin of an AND gate with an output wire: the gate takes
      the conjunction of its first two pins, the report included, and pushes it. */
  lemma AndDispatch(net: Net, s: State, p: nat, v: bool)
    requires WellFormed(net) && Fits(net, s) && p < |net.owner|
    requires net.gates[net.owner[p]].kind == AND && net.gates[net.owner[p]].out.Some?
    ensures
      var g := net.owner[p];
      var s1 := s.(pin := s.pin[p := v]);
      var c := s1.pin[net.gates[g].pins[0]] && s1.pin[net.gates[g].pins[1]];
      PushPin(net, s, p, v) == PushWire(net, s1.(gate := s1.gate[g := c]), net.gates[g].out.value, c)
  {
  }

  /** A report to the pin of a NOT gate with an output wire: the gate takes
      the negation of its first pin and pushes it. */
  lemma NotDispatch(net: Net, s: State, p: nat, v: bool)
    requires WellFormed(net) && Fits(net, s) && p < |net.owner|
    requires net.gates[net.owner[p]].kind == NOT && net.gates[net.owner[p]].out.Some?
    ensures
      var g := net.owner[p];
      var s1 := s.(pin := s.pin[p := v]);
      var c := !s1.pin[net.gates[g].pins[0]];
      PushPin(net, s, p, v) == PushWire(net, s1.(gate := s1.gate[g := c]), net.gates[g].out.value, c)
  {
  }

  /** A buffer with an output wire pushes exactly the value it takes. */
  lemma BufferDispatch(net: Net, s: State, g: nat, v: bool)
    requires WellFormed(net) && Fits(net, s) && g < |net.gates| && net.gates[g].out.Some?
    ensures SetBuffer(net, s, g, v) == PushWire(net, s.(gate := s.gate[g := v]), net.gates[g].out.value, v)
  {
  }

  /** A wire with a single pin hands its new value to that pin. */
  lemma SingleDelivery(net: Net, s: State, w: nat, v: bool)
    requires WellFormed(net) && Fits(net, s) && w < |net.wires| && |net.wires[w].transmit| == 1
    ensures PushWire(net, s, w, v) == PushPin(net, s.(wire := s.wire[w := v]), net.wires[w].transmit[0], v)
  {
    var s1 := s.(wire := s.wire[w := v]);
    assert DeliverPrefix(net, s1, w, 0) == s1;
    assert PushWire(net, s, w, v) == DeliverPrefix(net, s1, w, 1);
  }

  /** Pin dispatch: the reported pin keeps its new value. Every wire that
      delivers to the pin sits above the pin's gate, so nothing the dispatch
      sets off reaches back to it. */
  lemma PinHolds(net: Net, s: State, p: nat, v: bool)
    requires WellFormed(net) && Fits(net, s) && p < |net.owner|
    ensures PushPin(net, s, p, v).pin[p] == v
  {
    forall x | 0 <= x < |net.wires| && p in net.wires[x].transmit
      ensures net.level[net.owner[p]] < WireLevel(net, x)
    {
      var k :| 0 <= k < |net.wires[x].transmit| && net.wires[x].transmit[k] == p;
      DeliveryDescends(net, x, k);
    }
    assert Undriven(net, p, net.level[net.owner[p]]);
  }
}
