# BudgetChecker: a verified model of a Java PathFinder budget listener

`BudgetChecker` is a Java PathFinder (JPF) search listener that stops a
model-checking run when it goes over a configured budget. There are six
budgets:

- wall-clock time;
- heap growth;
- search depth;
- executed instructions;
- the state id reached;
- the number of new states found outside trace replay.

The listener reads the six ceilings and a throttle interval from the JPF
configuration. A ceiling of 0 or less means the budget is not set. The
listener records a start time, and a heap baseline when a heap ceiling is
set. It then reacts to two host callbacks:

- **`stateAdvanced`**: runs the time and heap checks as a short-circuited
  `||` on every call. Each trip reports "notify, terminate". Then, for a new
  state only:
  - it counts the state (unless the VM is replaying a trace);
  - it runs the states, depth and new-states checks, again short-circuited
    and reported the same way.
- **`instructionExecuted`**: counts every instruction. Only when the count
  is a multiple of the interval, it runs the time, heap and instruction
  checks. A trip reports "notify, break the current transition with reason
  `budgetConstraint`, terminate".

Each check compares strictly (`>`). On a trip it overwrites the `message`
field with a fixed prefix and the ceiling. Only the time and heap messages
also carry the observed value.

The repository holds two copies of the class:

- `BudgetChecker/src/BudgetChecker.java`, the working one;
- `BudgetChecker.java`, an older one that does not compile.

Apart from the throttle, both behave the same, so one model covers both.
The table below cites the working copy; the matching spans of the older
copy are:

| code | working copy | older copy |
|---|---|---|
| constructor | 143-168 | 103-127 |
| the six checks | 177-286 | 136-240 |
| heap message | 201-206 | 70, 159-162 |
| `stateAdvanced` | 296-314 | 254-269 |
| `instructionExecuted` | 334-348 | 287-299 |

See "## Left out" for the differences.

The project has six modules:

| module | file | content |
|---|---|---|
| `Decimal` | decimal.dfy | how Java prints a non-negative integer into a string; the matching parser and the round trip |
| `Budget` | budget.dfy | the model as values: ceilings, the six checks (`Violation`), their messages, the three short-circuit chains, Java's `%` (`JavaRem`), and the two hooks as step functions (`StateStep`, `InsnStep`) from counters to new counters plus host actions |
| `Listener` | listener.dfy | the class `BudgetChecker`, with the Java fields and methods, each method proved against the step functions |
| `Properties` | properties.dfy | lemmas about a single check or hook call |
| `Runs` | runs.dfy | folds over sequences of hook calls: counting, the throttle, and the instruction scenarios of `BudgetCheckerTest.java` |
| `Scenarios` | scenarios.dfy | the class driven through the state-budget scenarios of the tests |

The host is abstracted as follows:

- Everything the Java code asks the host is a parameter of the method that
  asks it: the clock, heap usage, search depth, state id, the new-state flag
  and the trace-replay flag.
- Every call the code makes back into the host is an element of the
  returned action list: `Notify(msg)`, `BreakTransition(reason)`,
  `Terminate`.

## Model

| member | source | states |
|---|---|---|
| Budget.Violation | BudgetChecker/src/BudgetChecker.java:177-286 | a check never trips when its ceiling is 0 or less; it never trips when the observed value is at most the ceiling, equality included; it always trips when the ceiling is positive and strictly below the observed value |
| Budget.FirstViolation | BudgetChecker/src/BudgetChecker.java:298 | a short-circuit chain of checks gives None exactly when no check trips; otherwise it gives the message of a check that trips and has none before it that trips |
| Budget.FirstOfTwo | BudgetChecker/src/BudgetChecker.java:298 | a two-check chain is the first check's outcome if it trips, otherwise the second's |
| Budget.FirstOfThree | BudgetChecker/src/BudgetChecker.java:308 | a three-check chain keeps the first tripping outcome, in order |
| Budget.JavaRemZero | BudgetChecker/src/BudgetChecker.java:339 | Java's truncating `%` gives 0 exactly when Dafny's Euclidean `%` does, for any sign of count and interval |
| Decimal.ParseDigitsOfDigits | BudgetChecker/src/BudgetChecker.java:225 | reading back the decimal text of a number, as string concatenation prints it, gives the number |
| Decimal.DigitsInjective | BudgetChecker/src/BudgetChecker.java:243 | two different ceilings never print the same text |
| Listener.BudgetChecker.constructor | BudgetChecker/src/BudgetChecker.java:143-168 | it keeps the six ceilings and the interval; the start time is the clock reading; the heap baseline is the heap in use when a heap ceiling is set, 0 otherwise; both counters are 0 and there is no message yet |
| Listener.BudgetChecker.TimeExceeded | BudgetChecker/src/BudgetChecker.java:177-187 | it answers whether the time check trips on the time elapsed since the start; the message is overwritten exactly when it trips (the new text may equal the old) |
| Listener.BudgetChecker.HeapExceeded | BudgetChecker/src/BudgetChecker.java:196-212 | the same, for heap growth over the baseline |
| Listener.BudgetChecker.DepthExceeded | BudgetChecker/src/BudgetChecker.java:221-231 | the same, for the search depth |
| Listener.BudgetChecker.InsnExceeded | BudgetChecker/src/BudgetChecker.java:240-248 | the same, for the instruction counter |
| Listener.BudgetChecker.StatesExceeded | BudgetChecker/src/BudgetChecker.java:257-269 | the same, for the state id |
| Listener.BudgetChecker.NewStatesExceeded | BudgetChecker/src/BudgetChecker.java:278-286 | the same, for the new-state counter |
| Listener.BudgetChecker.StateAdvanced | BudgetChecker/src/BudgetChecker.java:296-314 | the host actions and the new counters and message are exactly those of `StateStep`; the class invariant is kept |
| Listener.BudgetChecker.InstructionExecuted | BudgetChecker/src/BudgetChecker.java:334-348 | the host actions and the new counters and message are exactly those of `InsnStep`; the class invariant is kept. The older copy (BudgetChecker.java lines 287-299) is modelled with the interval read from the configured field |
| Properties.ViolationMonotone | BudgetChecker/src/BudgetChecker.java:180-280 | a check that trips at some value trips at every larger value; for depth, instructions, states and new states the message is the same |
| Properties.MessagePrefix | BudgetChecker/src/BudgetChecker.java:181-281 | every message starts with its check's fixed prefix |
| Properties.KindOfPrefixed | BudgetChecker/src/BudgetChecker.java:181-281 | the six prefixes are told apart by their text, so a message identifies its check |
| Properties.KindOfMessage | BudgetChecker/src/BudgetChecker.java:181-281 | every message names the check that produced it |
| Properties.CeilingInMessage | BudgetChecker/src/BudgetChecker.java:221-286 | after the prefix, the depth, instruction, states and new-states messages hold only the ceiling in decimal, and it reads back as the ceiling |
| Properties.HeapMessageInMegabytes | BudgetChecker.java:156-168 | the heap message shows the growth and the ceiling in whole megabytes of 1048576 bytes (the static `MEGABYTE` of line 70; a local constant at lines 201-206 of the working copy), rounded down; the ">=" it prints is true |
| Properties.ResourceCheckIsFirst | BudgetChecker/src/BudgetChecker.java:298 | the chain `timeExceeded()`, then `heapExceeded()`, is the first tripping check of [time, heap] |
| Properties.SearchCheckIsFirst | BudgetChecker/src/BudgetChecker.java:308 | the chain `statesExceeded()`, `depthExceeded()`, `newStatesExceeded()` is the first tripping check of [states, depth, new states] |
| Properties.InsnCheckIsFirst | BudgetChecker/src/BudgetChecker.java:341 | the chain `timeExceeded()`, `heapExceeded()`, `insnExceeded()` is the first tripping check of [time, heap, instructions] |
| Properties.ChainMessageKind | BudgetChecker/src/BudgetChecker.java:298-311 | a chain's message comes from its first tripping check and names that check |
| Properties.SearchMessageDiffers | BudgetChecker/src/BudgetChecker.java:298-311 | a message from the search chain is never the time/heap chain's message |
| Properties.StateStepCounters | BudgetChecker/src/BudgetChecker.java:303-307 | `stateAdvanced` leaves the instruction counter alone; it adds 1 to the new-state counter exactly for a new state outside trace replay, and 0 otherwise |
| Properties.StateStepActions | BudgetChecker/src/BudgetChecker.java:298-313 | the actions are the time/heap chain's report followed, for a new state only, by the search chain's report; a time or heap trip does not end the call. The message left behind is the search message if there is one, else the time/heap message, else the old one |
| Properties.StateStepShape | BudgetChecker/src/BudgetChecker.java:298-313 | one call makes 0, 2 or 4 host calls, alternating notify and terminate, and never a transition break. It makes 4 exactly when the time/heap chain trips and, for a new state, the search chain trips too: there is no return after the first report. When it notifies twice, the two messages differ |
| Properties.StateStepNamesFirstFailure | BudgetChecker/src/BudgetChecker.java:308 | for a new state with a search trip, the message left behind is that of the first of states, depth and new states that trips, and names it |
| Properties.InsnStepCounters | BudgetChecker/src/BudgetChecker.java:337 | `instructionExecuted` adds exactly 1 to the instruction counter and leaves the new-state counter alone |
| Properties.InsnStepActions | BudgetChecker/src/BudgetChecker.java:339-346 | the actions are either none or exactly notify(message), break("budgetConstraint"), terminate, in that order. They are there exactly when the new count is a multiple of the interval and the time/heap/instruction chain trips; the message then is the chain's message, written by this call. Without actions the message is unchanged |
| Properties.InsnStepNamesFirstFailure | BudgetChecker/src/BudgetChecker.java:341-342 | when the hook reports, it notifies with the message of the first of time, heap and instructions that tripped, in that order, and that message names the check |
| Properties.NoTrippedGating | BudgetChecker/src/BudgetChecker.java:296-348 | neither hook looks at the last message, so a budget still exceeded is reported again on every later check |
| Runs.RunStatesCounters | BudgetChecker/src/BudgetChecker.java:303-307 | over any run of `stateAdvanced` calls the instruction counter is unchanged, and the new-state counter grows by the number of new states met outside trace replay |
| Runs.ReplayRunKeepsNewStatesAtZero | BudgetChecker/src/BudgetChecker.java:305-306 | a run made only of trace replay leaves the new-state counter at 0 |
| Runs.RunInsnsCounters | BudgetChecker/src/BudgetChecker.java:337 | over any run of `instructionExecuted` calls the instruction counter grows by the number of calls, and the new-state counter is unchanged |
| Runs.FoldSplit | BudgetChecker/src/BudgetChecker.java:296-348 | any run of hook calls can be cut anywhere: the second part starts from the counters the first left, and the actions are the two parts' actions in order |
| Runs.RunInsnsSplit | BudgetChecker/src/BudgetChecker.java:334-348 | a run of instruction calls can be cut anywhere; the actions are those of the two parts, concatenated |
| Runs.QuietBetweenCheckpoints | BudgetChecker/src/BudgetChecker.java:339 | between two multiples of the interval the instruction hook makes no host call and keeps the message, whatever the budgets |
| Runs.QuietWithinInsnBudget | BudgetChecker/src/BudgetChecker.java:241-242 | with only an instruction ceiling, no call reports while the count stays at or below the ceiling |
| Runs.ReportAtCheckpoint | BudgetChecker/src/BudgetChecker.java:339-345 | at a multiple of the interval past the instruction ceiling, the call notifies with the instruction message, breaks, then terminates |
| Runs.CheckIntervalViolation | BudgetChecker/src/BudgetCheckerTest.java:630-651 | `max_insn=99` with interval 100: after 100 instructions the only actions are notify "max instruction count exceeded: 99", break "budgetConstraint", terminate |
| Runs.DefaultIntervalQuiet | BudgetChecker/src/BudgetCheckerTest.java:603-628 | with the default interval 10000, fewer than 10000 instructions cause no action, whatever the ceilings |
| Runs.InsnBudgetQuietBeforeCheckpoint | BudgetChecker/src/BudgetChecker.java:337-342 | with `max_insn=15000` and the default interval, the first 19999 instructions cause no action, although the ceiling is passed at 15001 |
| Runs.InsnBudgetReportedAtCheckpoint | BudgetChecker/src/BudgetChecker.java:337-345 | ... and the 20000th instruction notifies "max instruction count exceeded: 15000", breaks and terminates |
| Scenarios.MaxStateViolation | BudgetChecker/src/BudgetCheckerTest.java:474-495 | a fresh listener with `max_state=3`: states 1 to 3 cause no action; state 4 notifies "max states exceeded: 3" and terminates |
| Scenarios.MaxNewStatesViolation | BudgetChecker/src/BudgetCheckerTest.java:526-547 | a fresh listener with `max_new_states=3`: a replayed state and three new states cause no action; the fourth new state notifies "max new state count exceeded: 3" and terminates |

## Left out

- Configuration parsing (`conf.getDuration`, `getMemorySize`, `getInt`, `getLong`) is not modelled. The constructor takes the parsed values, with 0 meaning "not set" and 10000 as the default interval (`DEFAULT_CHECK_INTERVAL`).
- The `@JPFOptions` annotations are metadata and are not modelled. Their `defaultValue = "-1"` differs from the defaults the constructor passes to the configuration; the model follows the constructor.
- The clock (`System.currentTimeMillis`) and the heap reading (`MemoryMXBean.getHeapMemoryUsage`) are parameters of the hooks and of the constructor. Each hook reads each of them at most once per call, so one value per call is exact.
- `Publisher.formatHMS`, used in the time message, is a function passed to the constructor and is left uninterpreted. Nothing is proved about the text it produces.
- The JPF `Search`, `VM` and `ThreadInfo` objects are not modelled. Their queries are parameters; their effects are the returned `Action` list.
- The debug `System.out.println` lines do not affect behaviour and are left out.
- Concurrency is not modelled: JPF calls the hooks one at a time.
- Listener.BudgetChecker.constructor: requires a non-zero interval, because the Java code's `insnCount % checkInterval` throws on zero. A negative interval is allowed and behaves as its absolute value under Java's `%` (`JavaRem`). The Java code accepts zero and fails at the first instruction; the model does not cover that failure.
- Java's 32-bit `int` and 64-bit `long` overflow is not modelled: counters, durations and ceilings are unbounded integers. The `int` state counter `newStates` would wrap only after 2^31 new states.
- The older copy `BudgetChecker.java` does not compile. It has a missing comma at line 44, a missing semicolon at line 115, and throttles on an undeclared `CHECK_INTERVAL` at line 290. The model reads the configured `checkInterval` there, as the working copy does; `DefaultIntervalQuiet` covers the value 10000.
- The test harness (`verifyNoPropertyViolation`, stdout capture, the test programs) is not modelled. The scenario members state, on the model, the outcomes the tests expect.
- The two methods of module `Scenarios` use state ids 1 to 5 for the states the test program generates. The host's real numbering is not part of this model.
