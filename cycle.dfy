/** The cycle controller (`simplified_scenario2_cycle`, src/main.rs): start
    the program, then for each requested pick wait for a pickup on the
    feeder, send a token for it, and wait for the push; finally stop the
    program. Every error returns at once, with no cleanup. */
module Cycle {
  import opened Results
  import opened Gpio
  import opened Feeder
  import opened Program

  /** The token sent on the outbound channel for each pickup. */
  datatype FeederEvent = MaterialPickedUp

  /** The errors a cycle can return. */
  datatype CycleError = ProgramError(gpio: GpioError) | SupplyError(feeder: FeederError)

  /** `count` tokens, in the order the iterations send them. */
  function Pickups(count: nat): seq<FeederEvent>
  {
    seq(count, _ => MaterialPickedUp)
  }

  lemma PickupsConcat(a: nat, b: nat)
    ensures Pickups(a) + Pickups(b) == Pickups(a + b)
  {
  }

  /** The sending half of the unbounded channel: what has been sent so far. */
  class Sender {
    var sent: seq<FeederEvent>

    constructor ()
      ensures sent == []
    {
      sent := [];
    }

    method Send(event: FeederEvent)
      modifies this
      ensures sent == old(sent) + [event]
    {
      sent := sent + [event];
    }
  }

  /** Where the loop of a cycle stands: the feeder, the number of tokens
      sent, and the feeder error that ended it early, if any. */
  datatype Progress = Progress(feeder: FeederState, sent: nat, failure: Option<FeederError>)

  /** One iteration on feeder `s`: wait for the pickup, send its token,
      wait for the push. */
  function Iteration(s: FeederState): (p: Progress)
  {
    var picked := Next(s);
    if picked.0.Fail? then Progress(picked.1, 0, Some(picked.0.error))
    else
      var pushed := Next(picked.1);
      Progress(pushed.1, 1, if pushed.0.Fail? then Some(pushed.0.error) else None)
  }

  /** What one iteration keeps: the token is sent exactly when the pickup
      wait succeeds, a failure only comes from an empty feeder, and the
      supply goes down by exactly the number of edges read. */
  lemma IterationContract(s: FeederState)
    ensures var p := Iteration(s);
      && p.feeder.name == s.name && p.feeder.stream.edges == s.stream.edges
      && p.sent == (if s.count > 0 then 1 else 0) && p.feeder.count <= s.count
      && (p.failure.None? ==> p.sent == 1)
      && (p.failure.Some? ==> p.failure == Some(NoMoreSupply) && p.feeder.count == 0)
      && s.count - p.feeder.count == p.feeder.stream.read - s.stream.read
  {
    NextContract(s);
    NextContract(Next(s).1);
  }

  /** One iteration when every wait it makes receives an edge: it takes
      two from a supply of at least two, and otherwise uses up the supply. */
  lemma IterationWithEdges(f: FeederState)
    ensures f.count >= 2 && f.stream.read + 2 <= |f.stream.edges| ==>
      Iteration(f) == Progress(FeederState(f.name, f.count - 2, f.stream.(read := f.stream.read + 2)), 1, None)
    ensures f.count == 1 && f.stream.read + 1 <= |f.stream.edges| ==>
      Iteration(f) == Progress(FeederState(f.name, 0, f.stream.(read := f.stream.read + 1)), 1, Some(NoMoreSupply))
    ensures f.count == 0 ==> Iteration(f) == Progress(f, 0, Some(NoMoreSupply))
  {
  }

  /** The first `n` iterations of the loop, started on feeder `s`. */
  function Loop(n: nat, s: FeederState): Progress
    decreases n
  {
    if n == 0 then Progress(s, 0, None)
    else
      var prev := Loop(n - 1, s);
      if prev.failure.Some? then prev
      else
        var step := Iteration(prev.feeder);
        Progress(step.feeder, prev.sent + step.sent, step.failure)
  }

  /** What every prefix of the loop keeps: the feeder's name and edges,
      at most one token per iteration and one per iteration when none failed,
      failure only on an empty feeder, and a supply that went down by
      exactly the number of edges read. */
  lemma {:induction false} LoopInvariant(n: nat, s: FeederState)
    ensures var p := Loop(n, s);
      && p.feeder.name == s.name && p.feeder.stream.edges == s.stream.edges
      && p.sent <= n && p.feeder.count <= s.count
      && (p.failure.None? ==> p.sent == n)
      && (p.failure.Some? ==> p.failure == Some(NoMoreSupply) && p.feeder.count == 0)
      && s.count - p.feeder.count == p.feeder.stream.read - s.stream.read
    decreases n
  {
    if n > 0 {
      LoopInvariant(n - 1, s);
      IterationContract(Loop(n - 1, s).feeder);
    }
  }

  /** Once an iteration fails, later iterations never run. */
  lemma {:induction false} LoopStopsAtFailure(k: nat, m: nat, s: FeederState)
    requires k <= m && Loop(k, s).failure.Some?
    ensures Loop(m, s) == Loop(k, s)
    decreases m
  {
    if k < m {
      LoopStopsAtFailure(k, m - 1, s);
    }
  }

  /** When every wait receives an edge and the supply holds at least 2n,
      each of the n iterations takes exactly two from it. */
  lemma {:induction false} LoopWithEnoughEdges(n: nat, s: FeederState)
    requires 2 * n <= s.count && s.stream.read + 2 * n <= |s.stream.edges|
    ensures Loop(n, s) == Progress(FeederState(s.name, s.count - 2 * n, s.stream.(read := s.stream.read + 2 * n)), n, None)
    decreases n
  {
    if n > 0 {
      LoopWithEnoughEdges(n - 1, s);
      IterationWithEdges(Loop(n - 1, s).feeder);
    }
  }

  /** When every wait receives an edge, a supply c < 2n runs out inside the
      loop: after c / 2 complete iterations, the next one fails, having sent
      its token when one unit was left; ceil(c / 2) tokens in all. */
  lemma LoopRunsOut(n: nat, s: FeederState)
    requires s.count < 2 * n && s.stream.read + s.count <= |s.stream.edges|
    ensures Loop(n, s) == Progress(FeederState(s.name, 0, s.stream.(read := s.stream.read + s.count)), (s.count + 1) / 2, Some(NoMoreSupply))
  {
    var k := s.count / 2;
    LoopWithEnoughEdges(k, s);
    IterationWithEdges(Loop(k, s).feeder);
    LoopStopsAtFailure(k + 1, n, s);
  }

  /** When every wait receives an edge, each iteration takes two from the
      supply; a supply of `c` < 2n runs out inside the loop, after
      ceil(c / 2) tokens have been sent. */
  lemma LoopWithEveryEdge(n: nat, s: FeederState)
    requires s.stream.read + 2 * n <= |s.stream.edges| || s.stream.read + s.count <= |s.stream.edges|
    ensures 2 * n <= s.count ==>
      Loop(n, s) == Progress(FeederState(s.name, s.count - 2 * n, s.stream.(read := s.stream.read + 2 * n)), n, None)
    ensures 2 * n > s.count ==>
      Loop(n, s) == Progress(FeederState(s.name, 0, s.stream.(read := s.stream.read + s.count)), (s.count + 1) / 2, Some(NoMoreSupply))
  {
    if 2 * n <= s.count {
      LoopWithEnoughEdges(n, s);
    } else {
      LoopRunsOut(n, s);
    }
  }

  /** On a feeder whose edge stream has ended, every wait returns without
      counting, so the loop runs to the end and sends every token. */
  lemma {:induction false} LoopOnEndedStream(n: nat, s: FeederState)
    requires s.stream.Ended() && s.count > 0
    ensures Loop(n, s) == Progress(s, n, None)
    decreases n
  {
    if n > 0 {
      LoopOnEndedStream(n - 1, s);
    }
  }

  /** What a whole cycle does: its result, the feeder it leaves, the number
      of tokens it sent, the value it leaves on the program line and the
      levels it requested of that line. */
  datatype Run = Run(result: Result<u32, CycleError>, feeder: FeederState, sent: nat, line: int, writes: seq<int>)

  /** `simplified_scenario2_cycle(count, ...)` on feeder `s` and a program
      line holding `line`, where the driver answers `startIo` to the start
      request and `stopIo` to the stop request. */
  function Cycle(count: u32, s: FeederState, line: int, startIo: IoResult, stopIo: IoResult): (r: Run)
    // success returns the requested count, after one token per iteration
    // and with the line driven low again
    ensures r.result.Ok? ==> r.result.value == count && r.sent == count && r.line == 0
    ensures r.result.Ok? <==> startIo.Pass? && Loop(count, s).failure.None? && stopIo.Pass?
    // a failed start returns its error before touching the feeder or the channel
    ensures startIo.Fail? ==> r == Run(Err(ProgramError(startIo.error)), s, 0, line, [1])
    // start is requested once, first; stop once, last, and only after the loop completed
    ensures r.writes == [1] || r.writes == [1, 0]
    ensures r.writes == [1, 0] <==> startIo.Pass? && Loop(count, s).failure.None?
    // an error after a successful start leaves the line high: there is no cleanup
    ensures r.result.Err? && startIo.Pass? ==> r.line == 1
    ensures r.feeder.name == s.name && r.feeder.stream.edges == s.stream.edges
    ensures r.feeder.count <= s.count && r.sent <= count
    // after a successful start the feeder and the tokens are those the loop leaves
    ensures startIo.Pass? ==> r.feeder == Loop(count, s).feeder && r.sent == Loop(count, s).sent
    // feeder exhaustion inside the loop reaches the caller
    ensures startIo.Pass? && Loop(count, s).failure.Some? ==> r.result == Err(SupplyError(NoMoreSupply))
    // so does a failed stop, once the loop has completed
    ensures startIo.Pass? && Loop(count, s).failure.None? && stopIo.Fail? ==> r.result == Err(ProgramError(stopIo.error))
  {
    if startIo.Fail? then Run(Err(ProgramError(startIo.error)), s, 0, line, [1])
    else
      LoopInvariant(count, s);
      var p := Loop(count, s);
      if p.failure.Some? then Run(Err(SupplyError(p.failure.value)), p.feeder, p.sent, 1, [1])
      else if stopIo.Fail? then Run(Err(ProgramError(stopIo.error)), p.feeder, p.sent, 1, [1, 0])
      else Run(Ok(count), p.feeder, p.sent, 0, [1, 0])
  }

  /** A cycle of zero picks only starts and stops the program. */
  lemma CycleOfZero(s: FeederState, line: int, startIo: IoResult, stopIo: IoResult)
    requires startIo.Pass? && stopIo.Pass?
    ensures Cycle(0, s, line, startIo, stopIo) == Run(Ok(0), s, 0, 0, [1, 0])
  {
  }

  /** With enough supply and an edge for every wait, a cycle of `count`
      picks succeeds, sends `count` tokens and lowers the supply by exactly
      2 * count. */
  lemma CycleWithEnoughSupply(count: u32, s: FeederState, line: int, startIo: IoResult, stopIo: IoResult)
    requires startIo.Pass? && stopIo.Pass?
    requires 2 * count <= s.count && s.stream.read + 2 * count <= |s.stream.edges|
    ensures Cycle(count, s, line, startIo, stopIo)
         == Run(Ok(count), FeederState(s.name, s.count - 2 * count, s.stream.(read := s.stream.read + 2 * count)), count, 0, [1, 0])
  {
    LoopWithEveryEdge(count, s);
  }

  /** With fewer than 2 * count in supply and an edge for every wait, the
      cycle fails with `NoMoreSupply` once the supply is used up, having
      sent ceil(supply / 2) tokens, and leaves the program line high. */
  lemma CycleWithShortSupply(count: u32, s: FeederState, line: int, startIo: IoResult, stopIo: IoResult)
    requires startIo.Pass?
    requires s.count < 2 * count && s.stream.read + s.count <= |s.stream.edges|
    ensures Cycle(count, s, line, startIo, stopIo)
         == Run(Err(SupplyError(NoMoreSupply)), FeederState(s.name, 0, s.stream.(read := s.stream.read + s.count)), (s.count + 1) / 2, 1, [1])
  {
    LoopWithEveryEdge(count, s);
  }

  /** A cycle asked for as many picks as the feeder holds fails: each pick
      takes two feeder events. Three picks from a supply of three fail
      after two tokens. */
  lemma CycleOfThreeFromThree(name: string, edges: seq<Edge>, line: int, startIo: IoResult, stopIo: IoResult)
    requires startIo.Pass? && |edges| >= 6
    ensures Cycle(3, FeederState(name, 3, EdgeStream(edges, 0)), line, startIo, stopIo)
         == Run(Err(SupplyError(NoMoreSupply)), FeederState(name, 0, EdgeStream(edges, 3)), 2, 1, [1])
  {
    CycleWithShortSupply(3, FeederState(name, 3, EdgeStream(edges, 0)), line, startIo, stopIo);
  }

  /** On a feeder whose edge stream has ended, a cycle reports every pick
      done and sends every token though the supply never went down. */
  lemma CycleOnEndedStream(count: u32, s: FeederState, line: int, startIo: IoResult, stopIo: IoResult)
    requires startIo.Pass? && stopIo.Pass?
    requires s.stream.Ended() && s.count > 0
    ensures Cycle(count, s, line, startIo, stopIo) == Run(Ok(count), s, count, 0, [1, 0])
  {
    LoopOnEndedStream(count, s);
  }

  /** One more iteration after `i` successful ones out of `count`: either
      the loop goes on with one more token sent, or it has reached its
      final state. */
  lemma LoopStep(i: nat, count: nat, s: FeederState, here: FeederState)
    requires i < count && Loop(i, s) == Progress(here, i, None)
    ensures var step := Iteration(here);
      && (step.failure.None? ==> step.sent == 1 && Loop(i + 1, s) == Progress(step.feeder, i + 1, None))
      && (step.failure.Some? ==> Loop(count, s) == Progress(step.feeder, i + step.sent, step.failure))
  {
    IterationContract(here);
    if Iteration(here).failure.Some? {
      LoopStopsAtFailure(i + 1, count, s);
    }
  }

  /** The body of the cycle's loop: wait for a pickup, send its token,
      wait for the push; a feeder error returns at once. */
  method PickAndPush(feeder: Feeder, tx: Sender) returns (r: Outcome<FeederError>)
    modifies feeder, tx
    ensures var step := Iteration(old(feeder.State()));
      && feeder.State() == step.feeder
      && tx.sent == old(tx.sent) + Pickups(step.sent)
      && r == if step.failure.Some? then Fail(step.failure.value) else Pass
  {
    // the pickup: its token goes out before the push is awaited
    var picked := feeder.AsyncNextEvent();
    if picked.Fail? {
      return picked;
    }
    tx.Send(MaterialPickedUp);
    // the push
    r := feeder.AsyncNextEvent();
  }

  /** The loop of the cycle: `count` iterations of `PickAndPush`, stopping
      at the first feeder error. */
  method PickAndPushAll(count: u32, feeder: Feeder, tx: Sender) returns (r: Outcome<FeederError>)
    modifies feeder, tx
    ensures var p := Loop(count, old(feeder.State()));
      && feeder.State() == p.feeder
      && tx.sent == old(tx.sent) + Pickups(p.sent)
      && r == if p.failure.Some? then Fail(p.failure.value) else Pass
  {
    ghost var s0 := feeder.State();
    for i := 0 to count
      invariant Loop(i, s0) == Progress(feeder.State(), i, None)
      invariant tx.sent == old(tx.sent) + Pickups(i)
    {
      ghost var before := feeder.State();
      var picked := PickAndPush(feeder, tx);
      PickupsConcat(i, Iteration(before).sent);
      LoopStep(i, count, s0, before);
      if picked.Fail? {
        return picked;
      }
    }
    r := Pass;
  }

  /** `simplified_scenario2_cycle`. The `assert!(!feeder.is_empty())` at the
      head of each iteration calls a probe the feeder does not define; it is
      taken to pass. */
  method SimplifiedScenario2Cycle(count: u32, feeder: Feeder, program: SimplifiedScenario2, tx: Sender,
                                  startIo: IoResult, stopIo: IoResult)
    returns (r: Result<u32, CycleError>)
    modifies feeder, program, tx
    ensures var run := Cycle(count, old(feeder.State()), old(program.value), startIo, stopIo);
      && r == run.result
      && feeder.State() == run.feeder
      && tx.sent == old(tx.sent) + Pickups(run.sent)
      && program.value == run.line
      && program.requests == old(program.requests) + run.writes
  {
    var started := program.Start(startIo);
    if started.Fail? {
      return Err(ProgramError(started.error));
    }
    var picked := PickAndPushAll(count, feeder, tx);
    if picked.Fail? {
      return Err(SupplyError(picked.error));
    }
    var stopped := program.Stop(stopIo);
    if stopped.Fail? {
      return Err(ProgramError(stopped.error));
    }
    r := Ok(count);
  }
}
