/** The piston (src/manufacturing_components/piston.rs): a named actuator
    whose state is only ever set at construction and read by its snapshot. */
module Piston {
  import opened Results
  import opened Gpio
  import opened Serde

  datatype PistonState = Steady | Depressed

  /** `PistonStates::default()`. */
  const DefaultState: PistonState := Steady

  datatype Piston = Piston(name: string, line: u32, state: PistonState)

  /** `Piston::new`. */
  function New(name: string, line: u32): (p: Piston)
    ensures p.name == name && p.line == line
    ensures p.state == Steady
  {
    Piston(name, line, DefaultState)
  }

  /** The serde rename label of a state. */
  function Label(s: PistonState): (text: string)
    ensures LabelState(text) == Some(s)
  {
    match s
    case Steady => "steady"
    case Depressed => "depressed"
  }

  /** Reading a label back: the inverse of `Label`. */
  function LabelState(text: string): Option<PistonState>
  {
    if text == "steady" then Some(Steady)
    else if text == "depressed" then Some(Depressed)
    else None
  }

  /** The snapshot `serialize` emits, given the clock reading `now` (RFC 3339 text). */
  function Snapshot(p: Piston, now: string): (fields: seq<Field>)
    ensures Keys(fields) == ["name", "state", "updateTimestamp"]
    ensures Lookup(fields, "name") == Some(JString(p.name))
    ensures Lookup(fields, "state") == Some(JString(Label(p.state)))
    ensures Lookup(fields, "updateTimestamp") == Some(JString(now))
  {
    var fields := [Field("name", JString(p.name)), Field("state", JString(Label(p.state))), Field("updateTimestamp", JString(now))];
    assert Lookup(fields[2..], "updateTimestamp") == Some(JString(now));
    fields
  }

  /** A freshly built piston reports itself steady. */
  lemma NewSnapshotIsSteady(name: string, line: u32, now: string)
    ensures Lookup(Snapshot(New(name, line), now), "state") == Some(JString("steady"))
  {
  }
}
