# tvilling manufacturing cell — a Dafny model

tvilling bridges a small manufacturing cell to a cloud endpoint. This project
models the cell side:

- **Feeder** (`feeder.dfy`). A named supply counter watching one GPIO input
  line. `async_next_event` refuses with `NoMoreSupply` when the counter is 0,
  before it touches the line. Otherwise it waits for one rising edge and
  counts it down. When the edge stream has ended it returns `Ok` and changes
  nothing.
- **Robot** (`robot.dfy`). A track position that moves on each rising edge
  through Position1 → Position15 → Position66 → Position1.
- **Piston** (`piston.dfy`). A name, a line and a state, `Steady` or
  `Depressed`. The state is only set when the piston is built.
- **SimplifiedScenario2** (`program.dfy`). The manufacturing program. It
  drives one output line: `start` sets it to 1 and `stop` sets it to 0.
- **`simplified_scenario2_cycle`** (`cycle.dfy`). The cycle controller. It
  starts the program. Then, for each of `count` iterations, it waits for a
  pickup on the feeder, sends one token on the outbound channel, and waits
  for the push. Finally it stops the program and returns `count`. Every
  error returns at once, with no cleanup.
- **Serialisation** (`serde.dfy`). Each component's snapshot is the ordered
  list of JSON fields its `Serialize` implementation emits.
- **Shared types.** `gpio.dfy` holds the GPIO vocabulary: `u32`, edges, the
  edge stream and driver errors. `results.dfy` holds `Option`, `Result` and
  `Outcome`.

Modelling choices:

- **Edge stream.** A line's edge stream is the finite sequence of edges the
  line reports during a run, plus a cursor. Once every edge has been read,
  the stream has ended: `next()` yields `None` from then on.
- **Output line.** The program's output line is an integer field, `value`.
  A ghost log records every level requested of the line.
- **Driver answers.** What the driver answers to a `set_value` request is a
  parameter of the operation.
- **Channel.** The unbounded channel is a `Sender` whose `sent` sequence is
  appended to.
- **Feeder and Robot** are classes whose methods update their fields.
- **Piston** is a value, because nothing ever changes it.

Feeder and Robot each have two forms:

- a pure state function: `Feeder.Next` for the feeder, and
  `Robot.AdvanceBy` for the robot's position;
- a class method. Its `ensures` ties the new fields to that function.

The cycle follows the same pattern:

- `Cycle.Iteration` is one loop body.
- `Cycle.Loop` is the first `n` iterations.
- `Cycle.Cycle` is the whole run. It returns its result, the feeder it
  leaves, the number of tokens sent, the program line's final value and the
  levels requested.
- The method `Cycle.SimplifiedScenario2Cycle` is proved equal to
  `Cycle.Cycle`.
- Lemmas state what that run does:
  - with enough supply;
  - with too little supply;
  - with zero picks;
  - on an ended stream.

Each iteration of the cycle calls `async_next_event` twice, at
`src/main.rs:105` and `src/main.rs:111`, and each call uses one unit of the
feeder's supply. So `count` picks need `2*count` supply. With an edge for
every wait, a cycle of 3 picks on a feeder holding 3 fails with
`NoMoreSupply` after 2 tokens and leaves the program line high: see
`Cycle.CycleOfThreeFromThree` and `Cycle.CycleWithShortSupply`.

## Model

| member | source | states |
|---|---|---|
| Feeder.Display | src/manufacturing_components/feeder.rs:23-29 | `NoMoreSupply` displays as "Error: There are no more supply in the feeder" |
| Feeder.Next | src/manufacturing_components/feeder.rs:68-78 | one `async_next_event` on a feeder value: no contract of its own; its properties are stated by `Feeder.NextContract` |
| Feeder.NextContract | src/manufacturing_components/feeder.rs:68-78 | one wait keeps the name and the edges; it fails exactly when the counter is 0, and then with `NoMoreSupply`, reading no edge and changing nothing; otherwise the cursor only moves forward and the counter drops by exactly the number of edges read, at most one, so it never underflows or rises; with supply and a stream that has not ended, exactly one edge is read; an ended stream leaves the feeder unchanged |
| Feeder.Snapshot | src/manufacturing_components/feeder.rs:33-46 | the snapshot's fields are `name`, `count`, `updateTimestamp` in that order, carrying the name, the current counter and the clock reading |
| Feeder.Feeder.constructor | src/manufacturing_components/feeder.rs:49-66 | a new feeder stores the given name, count and line unchanged and has read no edge |
| Feeder.Feeder.AsyncNextEvent | src/manufacturing_components/feeder.rs:68-78 | the result and the new fields are those of `Next` on the old fields; the name never changes; counter 0 → `NoMoreSupply`, nothing consumed, counter stays 0; an edge arrives → `Ok` and the counter drops by exactly 1; stream ended → `Ok` and nothing changes |
| Robot.Succ | src/manufacturing_components/robot.rs:60-64 | an edge always moves the robot to a different position |
| Robot.AdvanceBy | src/manufacturing_components/robot.rs:58-68 | the position after `k` edges: no contract of its own; its properties are stated by `Robot.AdvanceByShift`, `Robot.AdvanceByPeriod` and `Robot.Robot.AsyncNextEvent` |
| Robot.SuccPeriod | src/manufacturing_components/robot.rs:60-64 | two edges never bring a position back to itself; three edges always do |
| Robot.AdvanceByShift | src/manufacturing_components/robot.rs:60-64 | three more edges do not change where `k` edges lead |
| Robot.AdvanceByPeriod | src/manufacturing_components/robot.rs:58-68 | after `k` edges the position depends only on `k mod 3`, and the robot is back where it started exactly when `k` is a multiple of 3 |
| Robot.Label | src/manufacturing_components/robot.rs:11-23 | positions serialise to "position 1", "position 15", "position 66", and the label reads back as the same position |
| Robot.LabelInjective | src/manufacturing_components/robot.rs:11-23 | distinct positions serialise to distinct labels |
| Robot.Robot.constructor | src/manufacturing_components/robot.rs:39-56 | a new robot stores the given name and line, has read no edge, and stands at the default position, Position1 |
| Robot.Robot.AsyncNextEvent | src/manufacturing_components/robot.rs:58-68 | always returns `Ok` and keeps the name; the new position is the old one advanced by the number of edges read; an edge moves it to its successor, and an ended stream leaves it unchanged |
| Robot.Robot.Snapshot | src/manufacturing_components/robot.rs:71-83 | the snapshot's fields are `name`, `position`, `updateTimestamp` in that order, the position given by its label |
| Piston.New | src/manufacturing_components/piston.rs:54-73 | a new piston stores the given name and line unchanged and is `Steady` |
| Piston.Label | src/manufacturing_components/piston.rs:9-17 | states serialise to "steady" and "depressed", and the label reads back as the same state |
| Piston.Snapshot | src/manufacturing_components/piston.rs:32-46 | the snapshot's fields are `name`, `state`, `updateTimestamp` in that order, the state given by its label |
| Piston.NewSnapshotIsSteady | src/manufacturing_components/piston.rs:19-23 | a freshly built piston reports "steady" |
| Program.SetValueIdempotent | src/manufacturing_components/program.rs:31-37 | asking twice for a level leaves the line where asking once does, so `start` twice leaves 1 and `stop` twice leaves 0 |
| Program.SimplifiedScenario2.constructor | src/manufacturing_components/program.rs:17-25 | the line is requested as an output with initial value 0, and no level has been requested yet |
| Program.SimplifiedScenario2.Start | src/manufacturing_components/program.rs:31-33 | `start` requests level 1 once, drives the line to 1 when the driver accepts and leaves it as it was when the driver rejects, and returns the driver's answer unchanged |
| Program.SimplifiedScenario2.Stop | src/manufacturing_components/program.rs:35-37 | `stop` requests level 0 once, drives the line to 0 when the driver accepts and leaves it as it was when the driver rejects, and returns the driver's answer unchanged |
| Cycle.Sender.Send | src/main.rs:108 | sending appends the token to what has been sent, in order |
| Gpio.EdgeStream.Next | src/manufacturing_components/feeder.rs:73 | `event_handle.next().await`: no contract of its own; what a wait reads is stated by `Feeder.NextContract` and `Robot.Robot.AsyncNextEvent` |
| Cycle.Iteration | src/main.rs:104-111 | one loop body on a feeder value: no contract of its own; its properties are stated by `Cycle.IterationContract` |
| Cycle.Loop | src/main.rs:102-112 | the first `n` iterations, stopping at the first feeder error: no contract of its own; its properties are stated by `Cycle.LoopInvariant`, `Cycle.LoopStopsAtFailure` and `Cycle.LoopWithEveryEdge` |
| Cycle.IterationContract | src/main.rs:102-112 | one iteration sends a token exactly when the first wait succeeds; a failure is always `NoMoreSupply` on an empty feeder; the supply drops by exactly the number of edges read |
| Cycle.LoopInvariant | src/main.rs:102-112 | after `n` iterations, the name and edges are kept; at most `n` tokens were sent, and exactly `n` when no iteration failed; a failure leaves the counter at 0; the supply dropped by exactly the number of edges read |
| Cycle.LoopStopsAtFailure | src/main.rs:105-111 | once an iteration fails, no later iteration runs |
| Cycle.LoopStep | src/main.rs:102-112 | after `i` successful iterations, the next one either succeeds with one more token or fixes the loop's final state |
| Cycle.IterationWithEdges | src/main.rs:104-111 | when every wait gets an edge, one iteration takes two from a supply of at least two and goes on; from a supply of one it sends its token and then fails with `NoMoreSupply`; from an empty feeder it fails at once, reading nothing |
| Cycle.LoopWithEnoughEdges | src/main.rs:102-112 | when every wait gets an edge and the supply holds at least `2n`, `n` iterations all succeed, send `n` tokens and take exactly `2n` |
| Cycle.LoopRunsOut | src/main.rs:102-112 | when every wait gets an edge and the supply `c` is below `2n`, the loop stops with `NoMoreSupply` once the supply is used up, after `ceil(c/2)` tokens |
| Cycle.LoopWithEveryEdge | src/main.rs:102-112 | when every wait gets an edge, `n` iterations take exactly `2n` from a supply of at least `2n`; a smaller supply `c` runs out inside the loop after `ceil(c/2)` tokens |
| Cycle.LoopOnEndedStream | src/main.rs:102-112 | on an ended stream with supply left, every iteration succeeds without counting anything |
| Cycle.Cycle | src/main.rs:94-117 | success returns exactly `count`, after `count` tokens, with the line back at 0; it succeeds iff start, every wait and stop succeed; a failed start returns its error before any feeder event or token; after a successful start the feeder and the tokens are those the loop leaves, feeder exhaustion in the loop returns `SupplyError(NoMoreSupply)`, and a failed stop after a completed loop returns the driver's error; start is requested first and once; stop is requested once, last, and only after the loop completed; any error after a successful start leaves the line at 1 |
| Cycle.CycleOfZero | src/main.rs:100-116 | with `count == 0` the cycle only starts and stops the program, touches no feeder event, sends nothing and returns 0 |
| Cycle.CycleWithEnoughSupply | src/main.rs:102-116 | with a supply of at least `2*count` and an edge for every wait, the cycle returns `count`, sends `count` tokens and lowers the supply by exactly `2*count` |
| Cycle.CycleWithShortSupply | src/main.rs:102-112 | with a supply below `2*count` and an edge for every wait, the cycle fails with `NoMoreSupply` once the supply is used up; it has sent `ceil(supply/2)` tokens, never called stop, and left the line at 1 |
| Cycle.CycleOfThreeFromThree | src/main.rs:102-112 | 3 picks from a supply of 3 fail after 2 tokens with the supply used up |
| Cycle.CycleOnEndedStream | src/main.rs:102-116 | on an ended stream, a cycle reports every pick done and sends every token, though the supply never went down |
| Cycle.PickAndPush | src/main.rs:104-111 | one loop body leaves the feeder, the channel and the result that `Iteration` gives: pickup, its token, then push; an error returns before anything further |
| Cycle.PickAndPushAll | src/main.rs:102-112 | the loop leaves the feeder, the channel (one token per completed pickup, in order) and the result that `Loop(count)` gives; it stops at the first feeder error |
| Cycle.SimplifiedScenario2Cycle | src/main.rs:94-117 | the result, the feeder, the tokens sent, the program line and the levels requested are those of `Cycle` on the old state |

## Left out

- GPIO acquisition is not modelled. Opening a chip, `get_line`, `async_events` and `request` are foreign calls. The errors they raise in each `new` are not modelled, so every constructor succeeds.
- A stream item that carries a driver error counts like an edge in `async_next_event`. The model's edge sequence stands for every item the stream yields, and an edge's payload is never read.
- `updateTimestamp` values are not modelled. The wall-clock read and its RFC 3339 formatting (`src/utils.rs`) are not part of this model, so each snapshot takes the clock reading as a parameter `now`. Serialiser failures are not modelled.
- Cycle.SimplifiedScenario2Cycle: the `assert!(!feeder.is_empty())` at `src/main.rs:103` calls a probe that the feeder does not define. The model takes it to pass and derives no behaviour from it.
- Cycle.SimplifiedScenario2Cycle: `src/main.rs:7` imports a `feeder::Event` that does not exist, and `async_next_event` returns `()`. The value sent at `src/main.rs:108` is therefore one opaque token, `MaterialPickedUp`.
- Cycle.Sender.Send: the `unwrap` on a closed channel, which would panic, is not modelled. The receiver is taken to be alive, as the source's comment assumes.
- Cycle.PickAndPush and Cycle.PickAndPushAll split the source's loop into its body and the loop itself. Both are internal to `simplified_scenario2_cycle`.
- Program.SimplifiedScenario2: only the line's value is modelled, not the line handle. A rejected `set_value` is taken to leave the value as it was.
- The `ManufacturingProgram` trait (`src/manufacturing_components/program.rs:5-10`) is modelled by its one implementer, `SimplifiedScenario2`. Its associated types are fixed to a driver error and `()`.
- The `PistonActions` trait (`src/manufacturing_components/piston.rs:48-52`) is declared but never implemented, so no actuation is modelled.
- The piston's and robot's line handles are not modelled. The piston never reads its handle. The robot's handle is modelled as its edge stream.
- Concurrency is not modelled. The async runtime, task spawning and the channel's receiving task in `main()` are left out: the model is sequential, and each `.await` is one step.
- The rest of `src/main.rs` is not part of this model: `main()`, the environment variables and the sleep-based test.
- `src/gcp_iot/mod.rs` and `src/gcp_iot/message.rs` are not part of this model. They cover the MQTT/TLS session, JWT minting and request decoding. The requested `count` is taken as a `u32`.
- `src/manufacturing_components.rs` is not part of this model. It is an earlier draft of the piston and track positions and is not wired to the component modules.
- A `replenish` operation is not modelled. The feeder does not define one.
