/** The manufacturing program (src/manufacturing_components/program.rs):
    `SimplifiedScenario2` drives one GPIO output line, high to start the
    program and low to stop it. */
module Program {
  import opened Results
  import opened Gpio

  /** What the driver reports for one `set_value` request. */
  type IoResult = Outcome<GpioError>

  /** The output value a `set_value(level)` request leaves on a line that
      held `value`, given what the driver reports. */
  function SetValue(value: int, level: int, io: IoResult): int
  {
    if io.Pass? then level else value
  }

  /** Asking twice for the same level leaves the line where asking once does. */
  lemma SetValueIdempotent(value: int, level: int, io1: IoResult, io2: IoResult)
    requires io1.Pass?
    ensures SetValue(SetValue(value, level, io1), level, io2) == SetValue(value, level, io1) == level
  {
  }

  class SimplifiedScenario2 {
    /** The output line offset. */
    const line: u32
    /** The value the line handle currently drives. */
    var value: int
    /** Every level requested of the line handle, in order. */
    ghost var requests: seq<int>

    /** `SimplifiedScenario2::new`: the line is requested as an output with initial value 0. */
    constructor (line: u32)
      ensures this.line == line && value == 0 && requests == []
    {
      this.line := line;
      value := 0;
      requests := [];
    }

    /** `start`: drive the line to 1; a driver failure is passed back unchanged. */
    method Start(io: IoResult) returns (r: IoResult)
      modifies this
      ensures r == io
      ensures value == SetValue(old(value), 1, io)
      ensures io.Pass? ==> value == 1
      ensures io.Fail? ==> value == old(value)
      ensures requests == old(requests) + [1]
    {
      if io.Pass? {
        value := 1;
      }
      requests := requests + [1];
      r := io;
    }

    /** `stop`: drive the line to 0; a driver failure is passed back unchanged. */
    method Stop(io: IoResult) returns (r: IoResult)
      modifies this
      ensures r == io
      ensures value == SetValue(old(value), 0, io)
      ensures io.Pass? ==> value == 0
      ensures io.Fail? ==> value == old(value)
      ensures requests == old(requests) + [0]
    {
      if io.Pass? {
        value := 0;
      }
      requests := requests + [0];
      r := io;
    }
  }
}
