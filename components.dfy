/** Named components and the counter that numbers them. The counter is a
    process-wide variable in the source; here it is a field of an explicit
    registry object. */
module Components {
  import opened Netlist

  /** A component's name, its number and its exposed input pins (each one a
      pin reference, `None` until something fills it in). */
  datatype Component = Component(name: string, number: int, exposedIn: seq<Option<nat>>)

  class Registry {
    var componentCounter: int

    constructor ()
      ensures componentCounter == 0
    {
      componentCounter := 0;
    }

    /** `NewComponent`: bumps the counter by one and numbers the new component
        with the new counter value; its exposed inputs are `numberOfInputs`
        empty pin references. */
    method NewComponent(name: string, numberOfInputs: nat) returns (c: Component)
      modifies this
      ensures componentCounter == old(componentCounter) + 1
      ensures c.name == name && c.number == componentCounter
      ensures |c.exposedIn| == numberOfInputs
      ensures forall i :: 0 <= i < |c.exposedIn| ==> c.exposedIn[i] == None
    {
      componentCounter := componentCounter + 1;
      c := Component(name, componentCounter, seq(numberOfInputs, _ => None));
    }
  }
}
