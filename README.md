# Resource limiter of a WebAssembly sandbox

The sandbox runs one exported function of an untrusted WebAssembly module
under fixed resource budgets. Whenever the guest asks to grow a linear memory
or a table, the runtime asks the store's resource limiter first. The limiter
is `SandboxState`, a struct whose only field is `max_memory_bytes`. It
implements two hooks:

- `memory_growing` allows a grow to `desired` bytes exactly when
  `desired <= max_memory_bytes`;
- `table_growing` allows a grow to `desired` entries exactly when
  `desired <= 1000`.

Both hooks ignore the current size and the maximum the module declares. Both
always answer `Ok`. Both take `&mut self` but write no field.

This project models that policy in Dafny and proves its properties:

- `wrappers.dfy` (module `Wrappers`): `Option` and `anyhow::Result`.
- `limiter.dfy` (module `Limiter`): the datatype `SandboxState` and the two
  hooks. Each hook is a function that returns the state after the call
  together with its answer. This is how the model states that `&mut self` is
  left unchanged.
- `session.dfy` (module `Session`): one store consulting its limiter over its
  whole lifetime. A session is a sequence of grow requests, answered in order,
  with the state threaded from each call into the next. Over a session the
  model proves three things. The ceilings never change. Nothing past a ceiling
  is ever allowed. The same request always gets the same answer.

`usize` is modelled as the integers from 0 to 2^64 - 1, as on a 64-bit
target. Comparisons do not wrap, so the width matters in one place only. When
`max_memory_bytes` is `usize::MAX`, there is no larger `usize` to refuse, and
every memory request is allowed.

The comments in `src/limiter.rs` say "less than". The code compares with
`<=`, so a request for exactly the ceiling is allowed. This model follows the
code.

## Model

| member | source | states |
|---|---|---|
| `Limiter.MemoryGrowing` | src/limiter.rs:9-11 | always `Ok`; the answer is `true` exactly when `desired` is within the byte ceiling; the state after the call is the state before |
| `Limiter.TableGrowing` | src/limiter.rs:13-15 | always `Ok`; the answer is `true` exactly when `desired <= 1000`; the state after the call is the state before |
| `Limiter.MemoryIgnoresCurrentAndMaximum` | src/limiter.rs:9-10 | for a fixed `desired`, any current size and any declared maximum give the same answer and the same state |
| `Limiter.TableIgnoresEverythingButDesired` | src/limiter.rs:13-14 | the table answer depends on `desired` alone, not on the current count, the declared maximum or the byte ceiling |
| `Limiter.MemoryBoundaryInclusive` | src/limiter.rs:10 | growing to exactly the byte ceiling is allowed; one byte more is refused whenever that size is still a `usize` |
| `Limiter.TableBoundaryInclusive` | src/limiter.rs:14 | 1000 table entries are allowed and 1001 are refused |
| `Limiter.MemoryUnboundedAtUsizeMax` | src/limiter.rs:5-10 | a byte ceiling of `usize::MAX` allows every memory request |
| `Limiter.MemoryDownwardClosed` | src/limiter.rs:10 | any size below an allowed memory size is allowed too, whatever the current size and the declared maximum |
| `Limiter.TableDownwardClosed` | src/limiter.rs:14 | any entry count below an allowed one is allowed too |
| `Limiter.MemoryMonotoneInCeiling` | src/limiter.rs:10 | a larger byte ceiling allows everything a smaller one allows |
| `Limiter.RepeatedCallsAgree` | src/limiter.rs:9-15 | calling either hook again on the state the first call left behind gives the same answer and the same state |
| `Session.Consult` | src/limiter.rs:8-16 | routing a request to its resource's hook leaves the state unchanged and gives `Ok(desired <= ceiling of that resource)` |
| `Session.Replay` | src/limiter.rs:9-15 | over any sequence of hook calls against one store's limiter, the final state is the initial state, and the answer at each position is `Ok` of that request's ceiling test |
| `Session.ReplayConcat` | src/limiter.rs:9-15 | a session split at any point gives the answers of its two halves, the second half replayed on the state the first left behind |
| `Session.NoGrowthPastCeiling` | src/limiter.rs:10-14 | anywhere in a session, a request past its resource's ceiling is answered `Ok(false)` |
| `Session.SameRequestSameAnswer` | src/limiter.rs:9-15 | two requests in one session for the same resource and the same desired size get the same answer, whatever came between them |

## Left out

- `run_wasm` in `src/executor.rs`: a chain of calls into the wasmtime runtime, with errors passed up by `?`. It creates the engine, compiles the module, builds the store, seeds fuel, instantiates, looks up the function and calls it. None of that logic is visible. The function also does not do what its parameters suggest:
  - it compiles the fixed file `add.wasm` and ignores `file_path`;
  - it seeds 10000 fuel and ignores `fuel_limit`;
  - it discards the call's result and returns `Ok(0)`;
  - it builds `SandboxState` with a field `max_memory`, which the struct does not have.
  
  The model therefore builds no execution report and does no fuel accounting. The fuel-consumed arithmetic exists in that file only as commented-out code.
- What the runtime does after the limiter answers is not modelled. That includes growing the memory or the table, turning a refusal into a trap, fuel metering and trap classification. This behaviour lives inside wasmtime, whose code is not part of this model.
- `src/cli.rs` holds only argument declarations. It has no logic, and nothing in the visible code converts the megabyte value to bytes.
- `src/main.rs` is a driver with fixed values and printing. It passes a tuple where a `Vec<i32>` is expected.
- Wall-clock timing, I/O and logging are not modelled.
- The `Err` case of `Result` is part of the hooks' return type, but no hook ever produces it.
