# Push-based logic simulator core, in Dafny

This project models the propagation engine of a small combinational logic
simulator written in Go (`test.go`). The circuit is a graph of three kinds of
record:

- a **pin** holds a boolean and belongs to one gate;
- a **gate** has a type (IN, OUT, NOT, AND, OR), a boolean state, its input
  pins, and at most one output wire;
- a **wire** holds a boolean and delivers it, in order, to the pins on its
  `transmit` list.

Changing an input sets off a depth-first chain of calls:
`update_state` → `wire_report_state` → `pin_report_state` → a gate evaluator →
`wire_report_state` … . The chain stops when it reaches a gate without an
output wire.

The model has six modules:

- `Netlist` is the circuit as an arena. Pins, gates and wires are indexed
  sequences, and the references between Go records become indices. `WellFormed` says every
  index is in range, every gate has the pins its evaluator reads, and the
  wiring is acyclic. A `level` per gate witnesses acyclicity: every gate fed
  by a gate's output wire has a lower level.
- `Propagation` holds one function per method of the push chain
  (`wire_report_state`, `pin_report_state`, `update_state` and the three
  evaluators), plus `DeliverPrefix` for the delivery loop inside
  `wire_report_state`. Each returns the whole state once that method (or
  that many rounds of the loop) and everything it calls have returned. The
  functions recurse into each other exactly as the Go methods do, and they
  terminate on the levels. `get_state` is `Engine.Circuit.GetState` and
  `NewComponent` is in `Components`.
  - Each function states what its method sets.
  - Each also states what it leaves alone (`AgreeAbove`). A push that starts
    at a gate changes no gate or wire strictly above that gate's level. A
    push that starts at a wire changes no other gate or wire at or above the
    wire's level. In both cases every pin that no wire at or below that level
    drives keeps its value, apart from the pin a report stores itself.
- `PropagationProperties` proves wire fan-out over the delivery loop and the
  dispatch facts that relate several calls.
- `Engine` holds the imperative version. A `Circuit` object has the pin,
  gate and wire states as fields, and its methods update them in place, as
  the Go methods do. Each method is proved to leave exactly the state its
  `Propagation` function describes. `WireReportState` keeps the Go `for`
  loop with a loop invariant.
- `Components` has `NewComponent` and the component counter. The counter
  lives in an explicit `Registry` object instead of a global variable.
- `Demo` is the circuit `main` wires by hand: IN1 → OR, IN2 → NOT → OR,
  OR and IN2 → AND → OUT. For every starting state, driving IN1 with `a`
  and then IN2 with `b` leaves `a && b` in OUT. `RunDemo` replays `main`'s
  four input pairs and returns what `main` prints.

Quirks of the code that the model keeps as written:

- An AND or OR gate without an output wire copies its first pin instead of
  computing the conjunction or disjunction.
- A gate of unknown type changes nothing beyond the pin that was reported.
- The delivery loop re-reads the wire's state before each delivery.
- IN and OUT buffers reached through a pin take that pin's new state.

This version of the code has no XOR gate type, no connection routine, no pin
"connected" flag and no component composition; none of these is modelled.

## Model

| member | source | states |
|---|---|---|
| `Netlist.Decode` | test.go:9-15 | the `TGate` numbers 0..4 are IN, OUT, NOT, AND, OR and round-trip through `Code`; every other number is an unknown type |
| `Netlist.CodeRoundTrip` | test.go:9-15 | every gate type a gate can carry reads back as itself from its `TGate` number; an unknown type never takes one of the five named numbers |
| `Propagation.PushWire` | test.go:62-67 | after `wire_report_state(v)` the wire holds `v`; gates and wires above the wire's level are unchanged, and so are the pins no wire at or below that level drives |
| `Propagation.DeliverPrefix` | test.go:64-66 | the first `n` rounds of the delivery loop change nothing above the wire's level except the pins the wire drives |
| `Propagation.PushPin` | test.go:70-86 | the pin stores `v` and the owning gate is dispatched on; nothing above the gate's level changes; for an unknown type, nothing but the pin changes |
| `Propagation.SetBuffer` | test.go:94-99 | the gate takes `v`; with an output wire, the wire ends up holding exactly `v`; without one, only the gate's state changes |
| `Propagation.PushNot` | test.go:122-127 | the gate takes the negation of its first pin; with an output wire that value is pushed; without one, only the gate's state changes |
| `Propagation.PushAnd` | test.go:102-109 | with an output wire, the gate takes `pins[0] && pins[1]` and the wire ends up holding it; without one, the gate copies `pins[0]` and nothing else changes |
| `Propagation.PushOr` | test.go:112-119 | with an output wire, the gate takes the disjunction of `pins[0]` and `pins[1]` and the wire ends up holding it; without one, the gate copies `pins[0]` and nothing else changes |
| `PropagationProperties.DeliveredPinsHold` | test.go:64-66 | after `n` rounds of delivery, each of the first `n` pins holds the wire's value, when no wire below this one drives them |
| `PropagationProperties.DeliverStep` | test.go:64-66 | one more round of delivery keeps the pins delivered so far and adds the next one |
| `PropagationProperties.DeliverStepHolds` | test.go:65 | pushing the wire's value into one pin keeps every earlier pin of the same wire intact |
| `PropagationProperties.PrefixKeepsWire` | test.go:64-66 | the delivery loop never changes the wire it delivers from |
| `PropagationProperties.FanOut` | test.go:62-67 | after `wire_report_state(v)`, the wire and every pin on its `transmit` list hold `v`, when no wire below this one (the only wires the push can reach) drives those pins |
| `PropagationProperties.SoleDriverSuffices` | test.go:64-66 | a wire that is the only one feeding its pins meets the fan-out proviso: no lower wire drives them |
| `PropagationProperties.PinHolds` | test.go:70-71 | over any well-formed wiring, a reported pin still holds its new value after the dispatch it sets off |
| `PropagationProperties.DispatchResult` | test.go:70-86 | after `pin_report_state(v)` the owning gate holds, by type: `v` for IN and OUT; the negation of `pins[0]` for NOT; `pins[0] && pins[1]` for AND and the disjunction for OR when they have an output wire, `pins[0]` when they do not; a known-type gate with an output wire leaves its state on that wire; an unknown type changes nothing but the pin |
| `Engine.Circuit.constructor` | test.go:164-184 | the circuit is built over well-formed wiring with the given initial states |
| `Engine.Circuit.WireReportState` | test.go:62-67 | the in-place loop leaves exactly the state `PushWire` describes |
| `Engine.Circuit.PinReportState` | test.go:70-86 | the in-place dispatch leaves exactly the state `PushPin` describes |
| `Engine.Circuit.GetState` | test.go:89-91 | returns the gate's state and modifies nothing |
| `Engine.Circuit.UpdateState` | test.go:94-99 | leaves exactly the state `SetBuffer` describes |
| `Engine.Circuit.ReportStateAnd` | test.go:102-109 | leaves exactly the state `PushAnd` describes |
| `Engine.Circuit.ReportStateOr` | test.go:112-119 | leaves exactly the state `PushOr` describes |
| `Engine.Circuit.ReportStateNot` | test.go:122-127 | leaves exactly the state `PushNot` describes |
| `Components.Registry.constructor` | test.go:17 | the component counter starts at 0 |
| `Components.Registry.NewComponent` | test.go:56-59 | the counter goes up by exactly one; the new component has the given name, the new counter value as its number, and `number_of_inputs` empty exposed inputs |
| `Demo.DemoNet` | test.go:164-184 | `main`'s six gates, six pins and five wires, index for index, with a level per gate; every pin is listed by the gate it reports to |
| `Demo.DemoStart` | test.go:160-184 | every pin, gate and wire starts out false, sized to the demo wiring |
| `Demo.DemoWellFormed` | test.go:164-184 | the demo wiring is well formed and acyclic |
| `Demo.DemoSoleDrivers` | test.go:180-184 | no pin of the demo is fed by two wires |
| `Demo.OutFollowsWire5` | test.go:184 | whatever `wire_5` carries ends up in OUT's state |
| `Demo.AndStage` | test.go:167 | a value reaching `pin_5` leaves `pin_4 && value` in OUT |
| `Demo.OrStage` | test.go:169 | a value reaching `pin_2` leaves the disjunction of `pin_1` and the value on `pin_4` |
| `Demo.NotStage` | test.go:168 | a value `b` reaching `pin_3` leaves the disjunction of `pin_1` and `!b` on `pin_4` and does not disturb `wire_2` |
| `Demo.In2Stage` | test.go:181 | driving IN2 with `b` stores `b` on `wire_2`; the first delivery, to `pin_3`, runs NOT and OR and leaves the disjunction of `pin_1` and `!b` on `pin_4`; the final state is that state followed by the delivery to `pin_5`; OUT ends with that disjunction conjoined with `b` |
| `Demo.In1Stage` | test.go:180 | driving IN1 with `a` leaves `a` on `pin_1` |
| `Demo.DemoComputesAnd` | test.go:187-188 | from any state, driving IN1 with `a` and then IN2 with `b` leaves `a`, `b` and `a && b` in IN1, IN2 and OUT |
| `Demo.DriveAndRead` | test.go:194-200 | one round of `main` drives IN1 and then IN2, leaving exactly the state the two buffer updates describe, and reads back `(a, b, a && b)` |
| `Demo.RunDemo` | test.go:129-216 | `main` reads the AND truth table in the order false/false, false/true, true/false, true/true |

## Left out

- Console output: every `fmt.Print`/`fmt.Println`. The unknown-type branch of `pin_report_state` only prints, so it is a no-op here. `RunDemo` returns what `main` prints as values.
- The counters `gate_counter`, `pin_counter` and `wire_counter`: they are declared but never used.
- The `number` fields of `Pin`, `Gate` and `Wire`: nothing reads or sets them.
- The `Component` fields `gates`, `pins`, `wires` and `exposed_out`: nothing reads or fills them. The component is a value holding only `name`, `number` and `exposed_in`.
- Cyclic wiring: the model requires the whole wiring to be acyclic, witnessed by a level per gate; the Go records have no levels. Go's recursion only diverges (and exhausts the stack) when a push actually enters a cycle, so the model also excludes nets whose cycles no push ever reaches, such as a NOT gate whose output wire feeds its own pin while no driven gate leads to it; Go runs those normally.
- Records no push reaches: `Linked` and `Arity` constrain every pin, gate and wire, including ones Go never touches because no push or direct call reaches them. So the model also excludes, for example, a NOT, AND or OR gate with no pins that no pin reports to, and a wire that is never pushed but lists a nil pin; Go runs such circuits normally.
- Nil references and missing pins: Go panics when a pin has no gate, a wire lists a nil pin, or an evaluator reads a pin the gate lacks. `WellFormed` requires all of these away.
- Wirings Go runs without panicking that `WellFormed` still excludes, on purpose, because it fixes the arity per gate type: an AND or OR gate with fewer than two pins and no output wire (Go reads only `pins[0]` there); a one-pin AND gate with an output wire while `pins[0]` is false, and a one-pin OR gate with an output wire while `pins[0]` is true (Go's `&&` and `||` at lines 104 and 114 skip `pins[1]` then, set the gate's state and push it); a nil entry in a gate's pin list that no evaluator reads, such as a second pin of an OUT gate; and a cycle through the output wire of a gate of unknown type, which never pushes.
- Gate types: a gate of unknown type carries a number outside 0 to 4 (the `Kind` type); a number from 0 to 4 is always the named type it stands for, as in Go.
- Aliasing: one `Circuit` object owns all the state, and a pin, gate or wire is an index into it. In `main` every record is a distinct variable, so no two records share storage there either.
- Components.Registry.NewComponent: does not model the 64-bit wrap-around of `component_counter`, because it needs more than 2^63 components. A negative `number_of_inputs`, on which Go's `make` panics, is excluded by the `nat` parameter.
- A connection routine, the XOR gate and component composition: they do not exist in this version of the code.
