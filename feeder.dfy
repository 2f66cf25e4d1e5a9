/** The material feeder (src/manufacturing_components/feeder.rs): a supply
    counter that goes down by one for every rising edge seen on its input
    line, and that refuses to wait once the supply is used up. */
module Feeder {
  import opened Results
  import opened Gpio
  import opened Serde

  /** `feeder::Error`. */
  datatype FeederError = NoMoreSupply

  /** How `Error` displays. */
  function Display(e: FeederError): (text: string)
    ensures text == "Error: There are no more supply in the feeder"
  {
    match e
    case NoMoreSupply => "Error: There are no more supply in the feeder"
  }

  /** The value of a feeder: its name, its remaining supply and its edge stream. */
  datatype FeederState = FeederState(name: string, count: u32, stream: EdgeStream)

  /** One `async_next_event` on a feeder in state `s`: what it returns and
      the state it leaves. */
  function Next(s: FeederState): (Outcome<FeederError>, FeederState)
  {
    if s.count == 0 then (Fail(NoMoreSupply), s)
    else
      var (edge, rest) := s.stream.Next();
      (Pass, FeederState(s.name, if edge.Some? then s.count - 1 else s.count, rest))
  }

  /** What `async_next_event` promises. */
  lemma NextContract(s: FeederState)
    ensures var (r, t) := Next(s);
      && t.name == s.name && t.stream.edges == s.stream.edges
      // the refusal happens exactly when the supply is used up, and touches
      // neither the counter nor the edge stream
      && (r.Fail? <==> s.count == 0)
      && (r.Fail? ==> r.error == NoMoreSupply && t == s)
      // the counter goes down by exactly the number of edges read, at most one
      && s.count - t.count == t.stream.read - s.stream.read <= 1
      && t.stream.read >= s.stream.read
      // an edge is read whenever there is supply and the stream has not ended
      && (s.count > 0 && !s.stream.Ended() ==> t.stream.read == s.stream.read + 1)
      // an ended stream leaves the feeder as it was
      && (s.stream.Ended() ==> t == s)
  {
  }

  /** The snapshot `serialize` emits, given the clock reading `now` (RFC 3339 text). */
  function Snapshot(s: FeederState, now: string): (fields: seq<Field>)
    ensures Keys(fields) == ["name", "count", "updateTimestamp"]
    ensures Lookup(fields, "name") == Some(JString(s.name))
    ensures Lookup(fields, "count") == Some(JNumber(s.count))
    ensures Lookup(fields, "updateTimestamp") == Some(JString(now))
  {
    var fields := [Field("name", JString(s.name)), Field("count", JNumber(s.count)), Field("updateTimestamp", JString(now))];
    assert Lookup(fields[2..], "updateTimestamp") == Some(JString(now));
    fields
  }

  class Feeder {
    var name: string
    var count: u32
    /** The rising-edge events requested on the feeder's line. */
    var stream: EdgeStream
    /** The line offset. */
    const line: u32

    function State(): (s: FeederState)
      reads this
      ensures s.name == name && s.count == count && s.stream == stream
    {
      FeederState(name, count, stream)
    }

    /** `Feeder::new`: the line will report the edges `edges`. */
    constructor (name: string, count: u32, line: u32, edges: seq<Edge>)
      ensures this.name == name && this.count == count && this.line == line
      ensures stream == EdgeStream(edges, 0)
    {
      this.name := name;
      this.count := count;
      this.line := line;
      stream := EdgeStream(edges, 0);
    }

    /** `async_next_event`: refuse on an empty feeder before waiting;
        otherwise wait for one edge and count it, or return if the stream ended. */
    method AsyncNextEvent() returns (r: Outcome<FeederError>)
      modifies this
      ensures (r, State()) == Next(old(State()))
      ensures name == old(name)
      ensures old(count) == 0 ==> r == Fail(NoMoreSupply) && count == 0 && stream == old(stream)
      ensures old(count) > 0 && !old(stream).Ended() ==>
        r == Pass && count == old(count) - 1 && stream == old(stream).(read := old(stream).read + 1)
      ensures old(count) > 0 && old(stream).Ended() ==> r == Pass && count == old(count) && stream == old(stream)
    {
      if count == 0 {
        return Fail(NoMoreSupply);
      }
      var polled := stream.Next();
      stream := polled.1;
      if polled.0.Some? {
        count := count - 1;
      }
      r := Pass;
    }
  }
}
