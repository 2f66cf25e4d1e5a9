/** The robot's track position tracker (src/manufacturing_components/robot.rs):
    every rising edge on its line moves it to the next of three positions. */
module Robot {
  import opened Results
  import opened Gpio
  import opened Serde

  datatype RobotPosition = Position1 | Position15 | Position66

  /** `RobotPosition::default()`. */
  const DefaultPosition: RobotPosition := Position1

  /** The position reached on the next edge. */
  function Succ(p: RobotPosition): (q: RobotPosition)
    ensures q != p
  {
    match p
    case Position1 => Position15
    case Position15 => Position66
    case Position66 => Position1
  }

  /** The position reached from `p` after `k` edges. */
  function AdvanceBy(p: RobotPosition, k: nat): RobotPosition
  {
    if k == 0 then p else Succ(AdvanceBy(p, k - 1))
  }

  /** Three edges bring every position back to itself, and fewer do not. */
  lemma SuccPeriod(p: RobotPosition)
    ensures Succ(Succ(p)) != p
    ensures Succ(Succ(Succ(p))) == p
    ensures AdvanceBy(p, 3) == p
  {
    match p
    case Position1 =>
    case Position15 =>
    case Position66 =>
  }

  /** The cycle has period exactly three: only a multiple of three edges
      brings the robot back to where it started. */
  lemma {:induction false} AdvanceByPeriod(p: RobotPosition, k: nat)
    ensures AdvanceBy(p, k) == AdvanceBy(p, k % 3)
    ensures AdvanceBy(p, k) == p <==> k % 3 == 0
    decreases k
  {
    if k >= 3 {
      AdvanceByPeriod(p, k - 3);
      AdvanceByShift(p, k - 3);
    } else {
      SuccPeriod(p);
    }
  }

  lemma {:induction false} AdvanceByShift(p: RobotPosition, k: nat)
    ensures AdvanceBy(p, k + 3) == AdvanceBy(p, k)
    decreases k
  {
    if k == 0 {
      SuccPeriod(p);
    } else {
      AdvanceByShift(p, k - 1);
    }
  }

  /** The serde rename label of a position. */
  function Label(p: RobotPosition): (text: string)
    ensures "position " <= text
    ensures LabelPosition(text) == Some(p)
  {
    match p
    case Position1 => "position 1"
    case Position15 => "position 15"
    case Position66 => "position 66"
  }

  /** Reading a label back: the inverse of `Label`. */
  function LabelPosition(text: string): Option<RobotPosition>
  {
    if text == "position 1" then Some(Position1)
    else if text == "position 15" then Some(Position15)
    else if text == "position 66" then Some(Position66)
    else None
  }

  /** Distinct positions serialise to distinct labels. */
  lemma LabelInjective(p: RobotPosition, q: RobotPosition)
    requires Label(p) == Label(q)
    ensures p == q
  {
    assert LabelPosition(Label(p)) == Some(p);
  }

  class Robot {
    var name: string
    var position: RobotPosition
    /** The rising-edge events requested on the robot's line. */
    var stream: EdgeStream
    /** The line offset. */
    const line: u32

    /** `Robot::new`: the line will report the edges `edges`. */
    constructor (name: string, line: u32, edges: seq<Edge>)
      ensures this.name == name && this.line == line && stream == EdgeStream(edges, 0)
      ensures position == DefaultPosition == Position1
    {
      this.name := name;
      this.line := line;
      position := DefaultPosition;
      stream := EdgeStream(edges, 0);
    }

    /** `async_next_event`: wait for one edge and advance, or return if the
        stream ended; it always succeeds. */
    method AsyncNextEvent() returns (r: Outcome<()>)
      modifies this
      ensures r == Pass && name == old(name)
      ensures stream.edges == old(stream).edges && stream.read >= old(stream).read
      ensures position == AdvanceBy(old(position), stream.read - old(stream).read)
      ensures !old(stream).Ended() ==> stream.read == old(stream).read + 1 && position == Succ(old(position))
      ensures old(stream).Ended() ==> stream == old(stream) && position == old(position)
    {
      var polled := stream.Next();
      stream := polled.1;
      if polled.0.Some? {
        match position
        case Position1 => position := Position15;
        case Position15 => position := Position66;
        case Position66 => position := Position1;
      }
      r := Pass;
    }

    /** The snapshot `serialize` emits, given the clock reading `now` (RFC 3339 text). */
    function Snapshot(now: string): (fields: seq<Field>)
      reads this
      ensures Keys(fields) == ["name", "position", "updateTimestamp"]
      ensures Lookup(fields, "name") == Some(JString(name))
      ensures Lookup(fields, "position") == Some(JString(Label(position)))
      ensures Lookup(fields, "updateTimestamp") == Some(JString(now))
    {
      var fields := [Field("name", JString(name)), Field("position", JString(Label(position))), Field("updateTimestamp", JString(now))];
      assert Lookup(fields[2..], "updateTimestamp") == Some(JString(now));
      fields
    }
  }
}
