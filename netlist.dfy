/** The circuit graph of the simulator as an arena: pins, gates and wires live in
    indexed sequences and refer to each other by index instead of by reference. */
module Netlist {

  datatype Option<T> = None | Some(value: T)

  /** The gate types of the `TGate` enumeration (numbered from 0 by `iota`); any
      other number is a type the dispatcher does not know. */
  datatype GateType = IN | OUT | NOT | AND | OR | Unknown(code: int)

  /** The gate types a `TGate` number can stand for: an unknown type never
      carries one of the five numbers the enumeration gives a name. */
  type Kind = t: GateType | !t.Unknown? || t.code < 0 || 4 < t.code witness IN

  /** The number a gate type stands for in the enumeration. */
  function Code(t: GateType): (c: int)
  {
    match t
    case IN => 0
    case OUT => 1
    case NOT => 2
    case AND => 3
    case OR => 4
    case Unknown(c) => c
  }

  /** Reads a `TGate` number: 0 to 4 are the five known types, everything else is unknown. */
  function Decode(code: int): (t: Kind)
    ensures Code(t) == code
    ensures t.Unknown? <==> code < 0 || 4 < code
  {
    if code == 0 then IN
    else if code == 1 then OUT
    else if code == 2 then NOT
    else if code == 3 then AND
    else if code == 4 then OR
    else Unknown(code)
  }

  /** Reading back the number of a gate type gives the same type. */
  lemma CodeRoundTrip(k: Kind)
    ensures Decode(Code(k)) == k
  {
    match k
    case IN =>
    case OUT =>
    case NOT =>
    case AND =>
    case OR =>
    case Unknown(c) =>
  }

  /** A gate: its type, the pins it reads (in order) and the wire it drives, if any. */
  datatype Gate = Gate(kind: Kind, pins: seq<nat>, out: Option<nat>)

  /** A wire: the pins it delivers to, in delivery order. */
  datatype Wire = Wire(transmit: seq<nat>)

  /** The fixed wiring. `owner[p]` is the gate pin `p` reports to. `level` gives
      each gate a rank such that every gate fed by a gate's output wire has a
      lower rank: it is the witness that the wiring is acyclic. */
  datatype Net = Net(owner: seq<nat>, gates: seq<Gate>, wires: seq<Wire>, level: seq<nat>)

  /** The changing part of the circuit: one boolean per pin, gate and wire. */
  datatype State = State(pin: seq<bool>, gate: seq<bool>, wire: seq<bool>)

  predicate Fits(net: Net, s: State)
  {
    |s.pin| == |net.owner| && |s.gate| == |net.gates| && |s.wire| == |net.wires|
  }

  /** Every index refers to an existing entity. */
  ghost predicate Linked(net: Net)
  {
    |net.level| == |net.gates| &&
    (forall p :: 0 <= p < |net.owner| ==> net.owner[p] < |net.gates|) &&
    (forall g, k :: 0 <= g < |net.gates| && 0 <= k < |net.gates[g].pins| ==> net.gates[g].pins[k] < |net.owner|) &&
    (forall g :: 0 <= g < |net.gates| && net.gates[g].out.Some? ==> net.gates[g].out.value < |net.wires|) &&
    (forall x, k :: 0 <= x < |net.wires| && 0 <= k < |net.wires[x].transmit| ==> net.wires[x].transmit[k] < |net.owner|)
  }

  /** The pins a gate's evaluator reads exist: `pins[0]` for NOT, `pins[0]` and
      `pins[1]` for AND and OR. */
  ghost predicate Arity(net: Net)
  {
    forall g :: 0 <= g < |net.gates| ==>
      (net.gates[g].kind == NOT ==> |net.gates[g].pins| >= 1) &&
      (net.gates[g].kind in {AND, OR} ==> |net.gates[g].pins| >= 2)
  }

  /** Every pin on a gate's output wire belongs to a gate of lower level. */
  ghost predicate Acyclic(net: Net)
    requires Linked(net)
  {
    forall g, k :: 0 <= g < |net.gates| && net.gates[g].out.Some? && 0 <= k < |net.wires[net.gates[g].out.value].transmit| ==>
      net.level[net.owner[net.wires[net.gates[g].out.value].transmit[k]]] < net.level[g]
  }

  ghost predicate WellFormed(net: Net)
  {
    Linked(net) && Arity(net) && Acyclic(net)
  }

  /** Every pin of `ps` exists and belongs to an existing gate. */
  predicate Owned(net: Net, ps: seq<nat>)
  {
    forall k :: 0 <= k < |ps| ==> ps[k] < |net.owner| && net.owner[ps[k]] < |net.gates|
  }

  /** One more than the highest level among the owners of `ps` (0 when `ps` is empty). */
  function Rank(net: Net, ps: seq<nat>): (rank: nat)
    requires |net.level| == |net.gates|
    requires Owned(net, ps)
  {
    if ps == [] then 0
    else
      var here := net.level[net.owner[ps[0]]] + 1;
      var rest := Rank(net, ps[1..]);
      if here < rest then rest else here
  }

  /** The level of a wire: above every gate it delivers to. */
  function WireLevel(net: Net, w: nat): (lvl: nat)
    requires WellFormed(net) && w < |net.wires|
  {
    Rank(net, net.wires[w].transmit)
  }

  lemma {:induction false} RankAbove(net: Net, ps: seq<nat>, k: nat)
    requires |net.level| == |net.gates|
    requires Owned(net, ps)
    requires k < |ps|
    ensures net.level[net.owner[ps[k]]] < Rank(net, ps)
  {
    if k > 0 {
      RankAbove(net, ps[1..], k - 1);
    }
  }

  lemma {:induction false} RankAtMost(net: Net, ps: seq<nat>, bound: nat)
    requires |net.level| == |net.gates|
    requires Owned(net, ps)
    requires forall k :: 0 <= k < |ps| ==> net.level[net.owner[ps[k]]] < bound
    ensures Rank(net, ps) <= bound
  {
    if ps != [] {
      RankAtMost(net, ps[1..], bound);
    }
  }

  /** Every gate a wire delivers to sits below the wire's level. */
  lemma DeliveryDescends(net: Net, w: nat, k: nat)
    requires WellFormed(net) && w < |net.wires| && k < |net.wires[w].transmit|
    ensures net.level[net.owner[net.wires[w].transmit[k]]] < WireLevel(net, w)
  {
    RankAbove(net, net.wires[w].transmit, k);
  }

  /** A gate's output wire sits at or below the gate's own level. */
  lemma OutputDescends(net: Net, g: nat)
    requires WellFormed(net) && g < |net.gates| && net.gates[g].out.Some?
    ensures WireLevel(net, net.gates[g].out.value) <= net.level[g]
  {
    var w := net.gates[g].out.value;
    RankAtMost(net, net.wires[w].transmit, net.level[g]);
  }
}
