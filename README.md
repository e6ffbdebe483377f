# Tail-call dispatch VM (tce_tiny) in Dafny

`tce_tiny.cpp` is a tiny virtual machine built to show guaranteed tail-call
dispatch. A table `OPARRAY` of 100005 handler pointers is indexed by the
instruction pointer `IP`. Two more registers, `SP` (set to the last table
index, 100004) and `FLAGS` (bits `ZR` and `CY`), are reserved: no handler
touches them. The three step handlers `func1`, `func2` and `func3` each bump
their own counter, pre-increment `IP` and tail-call `OPARRAY[IP]`. The loop
guard `func4` bumps `f4`. Once `f4` exceeds `PGM_LOOPS` it returns, which
ends the run. Otherwise it sets `IP` back to 0 and tail-calls slot 0. `main`
fills slots `0 .. PGM_SIZE-1` with a fixed mod-17 / mod-13 pattern, puts the
guard at slot `PGM_SIZE`, starts at `IP = 0`, and reports `f1+f2+f3+f4`.

The model is one module, `TceTiny` (`tce_tiny.dfy`):

- `Op` (`Func1 .. Func4`) replaces the function pointers. The table is an
  `array<Option<Op>>` of 100005 slots, with `None` for a slot never loaded.
- `State` is a snapshot of the registers and counters. `Handle` is the pure
  effect of one handler. It returns `TailCall(next)` or `Return(last)`.
- The class `Machine` holds the table, `ip`, `sp`, `flags` and `f1 .. f4`.
  `PGM_SIZE` and `PGM_LOOPS` are the constructor parameters `pgmSize` and
  `pgmLoops`. `Step` performs one dispatch. `Run` is the trampoline: a
  `while` loop that calls `Step` until a handler returns. This loop replaces
  the native chain of tail calls.
- `Running` is the invariant of the trampoline. After `f4` passes, with the
  current pass at slot `ip`, every step counter equals its slot count times
  `f4` plus its slot count below `ip`. `Finished` describes the state after
  the guard returns.
- `RunProgram` is `main` without the clock and the printing. `RunShipped`
  runs it with the shipped constants 10000 and 100000.

The run ends with `IP == PGM_SIZE`, not 0, because `func4` returns before
it resets `IP` (`tce_tiny.cpp:76-78`). The guard first runs after a full
pass, so the step slots run `PGM_LOOPS + 1` times and the step counters sum
to `PGM_SIZE × (PGM_LOOPS + 1)`. The source comment at `tce_tiny.cpp:46-47`
calls the instruction count "the product of these two values". The exact
count is `(PGM_SIZE + 1) × (PGM_LOOPS + 1)`.

The model is deterministic: `RunProgram` fixes every final register and
counter as a function of `PGM_SIZE` and `PGM_LOOPS`.

## Model

| member | source | states |
|---|---|---|
| TceTiny.Handle | tce_tiny.cpp:57-79 | defines the effect of func1 .. func4 on the registers and counters; its contract says no handler writes SP or FLAGS and only func4 ever returns; HandleEffect states the rest |
| TceTiny.PatternAt | tce_tiny.cpp:88-91 | defines the loader's if-chain (func3 when i % 17 = 0, else func2 when i % 13 ≠ 0, else func1); its contract says the guard never appears among the step slots; Machine.Load states that the table holds it |
| TceTiny.OpAt | tce_tiny.cpp:88-93 | defines the loaded program, the step pattern followed by func4 at slot PGM_SIZE; its contract says a slot holds the guard exactly when it is at or past PGM_SIZE; Machine.Load states that the table holds it |
| TceTiny.HandleEffect | tce_tiny.cpp:57-79 | each handler adds exactly one to its own counter, leaves the other counters, SP and FLAGS unchanged; a step handler always tail-calls with IP + 1; the guard returns (IP unchanged) exactly when the incremented f4 exceeds the loop bound, and otherwise tail-calls with IP = 0 |
| TceTiny.HandleStep | tce_tiny.cpp:57-93 | from any running state of the loaded program, one dispatch either keeps the run going, with (f4, IP) lexicographically larger, or returns in the finished state: IP = PGM_SIZE, f4 = PGM_LOOPS + 1, each step counter = its slot count × (PGM_LOOPS + 1), SP and FLAGS at their initial values |
| TceTiny.Count | tce_tiny.cpp:88-92 | the number of loader slots below n given to an opcode is at most n |
| TceTiny.CountsPartition | tce_tiny.cpp:88-92 | func1, func2 and func3 share out all n step slots between them, and the guard gets none of them |
| TceTiny.CountFunc3 | tce_tiny.cpp:88-89 | func3 gets exactly the multiples of 17 below n, ⌈n / 17⌉ slots |
| TceTiny.CountFunc1 | tce_tiny.cpp:88-91 | func1 gets the multiples of 13 that are not multiples of 17: ⌈n / 13⌉ − ⌈n / 221⌉ slots |
| TceTiny.ShippedCounts | tce_tiny.cpp:50-92 | with PGM_SIZE = 10000 the loader gives 724 slots to func1, 8687 to func2 and 589 to func3 |
| TceTiny.TotalInstructions | tce_tiny.cpp:103 | at termination f1 + f2 + f3 = PGM_SIZE × (PGM_LOOPS + 1) and f1 + f2 + f3 + f4 = (PGM_SIZE + 1) × (PGM_LOOPS + 1) |
| TceTiny.Machine.constructor | tce_tiny.cpp:32-38 | the initial globals: every table slot empty, IP = 0, SP = 100004, FLAGS = 0, all counters 0 |
| TceTiny.Machine.Load | tce_tiny.cpp:88-93 | after loading, slot i < PGM_SIZE holds func3 if i % 17 = 0, else func2 if i % 13 ≠ 0, else func1; slot PGM_SIZE holds func4; the slots above are untouched |
| TceTiny.Machine.Step | tce_tiny.cpp:57-79 | one dispatch is only made to an in-range, loaded slot; registers and counters become those of the handler in that slot, the table is unchanged, and the result says whether the handler returned |
| TceTiny.Machine.Run | tce_tiny.cpp:74-97 | from a running state the trampoline terminates (measure (PGM_LOOPS + 1 − f4, PGM_SIZE − IP)), every dispatch stays inside the loaded slots 0 .. PGM_SIZE, and it ends in the finished state |
| TceTiny.RunProgram | tce_tiny.cpp:88-103 | loading, starting at IP = 0 and running ends with IP = PGM_SIZE, f4 = PGM_LOOPS + 1, each step counter = its slot count × (PGM_LOOPS + 1), SP = 100004, FLAGS = 0, and a reported total of (PGM_SIZE + 1) × (PGM_LOOPS + 1) |
| TceTiny.RunShipped | tce_tiny.cpp:50-103 | the shipped program ends with IP = 10000, f1 = 724 × 100001, f2 = 8687 × 100001, f3 = 589 × 100001, f4 = 100001 and a total of 1000110001, below 2^31 |

## Left out

- Timing with `std::chrono` and the instructions-per-second division (`tce_tiny.cpp:96-104`): wall-clock and floating point, observational only.
- `puts` and `printf` output (`tce_tiny.cpp:94`, `100-101`, `105`): I/O. `RunProgram` returns the values that are printed.
- Bounded native stack depth: whether the C++ compiler really eliminates the tail calls is a compiler and ABI property. The explicit loop in `Machine.Run` stands in for the chain of tail calls.
- Calling a null or out-of-range slot is undefined behaviour in the source. `Machine.Step` requires an in-range, loaded slot instead, and `Machine.Run` proves that every dispatch meets that requirement.
- Machine `int` width: registers and counters are unbounded integers. Counters only grow, so the final total bounds every value reached. `RunShipped` shows that this total stays below 2^31 for the shipped constants.
- The `FLAGS` bit names `ZR` and `CY` are declared as constants. No handler uses them.
