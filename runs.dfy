/** Sequences of hook calls over one search run: how the counters add up,
    when the throttled instruction checks can report, and the scenarios the
    listener's tests drive. */
module Runs {
  import opened Decimal
  import opened Budget

  /** The state a listener starts a run in. */
  function Fresh(): Counters {
    Counters(0, 0, None)
  }

  /** One hook call per sample, in order: each call starts from the counters
      the previous one left, and the host actions of all calls are
      concatenated. */
  function Fold<E(!new)>(step: (Counters, E) --> Step, c: Counters, samples: seq<E>): Step
    requires forall d: Counters, e: E :: step.requires(d, e)
    decreases |samples|
  {
    if samples == [] then Step([], c)
    else
      var first := step(c, samples[0]);
      var rest := Fold(step, first.after, samples[1..]);
      Step(first.actions + rest.actions, rest.after)
  }

  /** A run can be cut anywhere: the second part starts where the first
      ended, and the actions are those of the two parts in order. */
  lemma {:induction false} FoldSplit<E(!new)>(step: (Counters, E) --> Step, c: Counters, a: seq<E>, b: seq<E>)
    requires forall d: Counters, e: E :: step.requires(d, e)
    ensures var first := Fold(step, c, a);
            var second := Fold(step, first.after, b);
            Fold(step, c, a + b) == Step(first.actions + second.actions, second.after)
    decreases |a|
  {
    if a == [] {
      assert a + b == b;
    } else {
      var head := step(c, a[0]);
      assert (a + b)[0] == a[0];
      assert (a + b)[1..] == a[1..] + b;
      FoldSplit(step, head.after, a[1..], b);
      var rest := Fold(step, head.after, a[1..]);
      var second := Fold(step, rest.after, b);
      assert head.actions + (rest.actions + second.actions) == (head.actions + rest.actions) + second.actions;
    }
  }

  function InsnHook(s: Setup): (Counters, InsnSample) --> Step {
    (d: Counters, e: InsnSample) requires s.checkInterval != 0 => InsnStep(s, d, e)
  }

  function StateHook(s: Setup): (Counters, StateSample) --> Step {
    (d: Counters, e: StateSample) => StateStep(s, d, e)
  }

  /** `instructionExecuted` once per sample. */
  function RunInsns(s: Setup, c: Counters, samples: seq<InsnSample>): Step
    requires s.checkInterval != 0
  {
    Fold(InsnHook(s), c, samples)
  }

  /** `stateAdvanced` once per sample. */
  function RunStates(s: Setup, c: Counters, samples: seq<StateSample>): Step {
    Fold(StateHook(s), c, samples)
  }

  /** How many samples the new-state counter should count. */
  function CountedStates(samples: seq<StateSample>): nat {
    if samples == [] then 0
    else (if samples[0].isNewState && !samples[0].isTraceReplay then 1 else 0) + CountedStates(samples[1..])
  }

  /** Over a run of `stateAdvanced` calls the instruction counter is
      untouched and the new-state counter grows by exactly the number of new
      states met outside trace replay. */
  lemma {:induction false} RunStatesCounters(s: Setup, c: Counters, samples: seq<StateSample>)
    ensures RunStates(s, c, samples).after.insnCount == c.insnCount
    ensures RunStates(s, c, samples).after.newStates == c.newStates + CountedStates(samples)
    decreases |samples|
  {
    if samples != [] {
      RunStatesCounters(s, StateStep(s, c, samples[0]).after, samples[1..]);
    }
  }

  /** A run made entirely of trace replay never counts a new state. */
  lemma {:induction false} ReplayCountsNothing(samples: seq<StateSample>)
    requires forall i :: 0 <= i < |samples| ==> samples[i].isTraceReplay
    ensures CountedStates(samples) == 0
  {
    if samples != [] {
      ReplayCountsNothing(samples[1..]);
    }
  }

  /** So the new-state counter of a listener that only replays stays at 0. */
  lemma ReplayRunKeepsNewStatesAtZero(s: Setup, samples: seq<StateSample>)
    requires forall i :: 0 <= i < |samples| ==> samples[i].isTraceReplay
    ensures RunStates(s, Fresh(), samples).after.newStates == 0
  {
    RunStatesCounters(s, Fresh(), samples);
    ReplayCountsNothing(samples);
  }

  /** Over a run of `instructionExecuted` calls the instruction counter grows
      by one per call and the new-state counter is untouched. */
  lemma {:induction false} RunInsnsCounters(s: Setup, c: Counters, samples: seq<InsnSample>)
    requires s.checkInterval != 0
    ensures RunInsns(s, c, samples).after.insnCount == c.insnCount + |samples|
    ensures RunInsns(s, c, samples).after.newStates == c.newStates
    decreases |samples|
  {
    if samples != [] {
      RunInsnsCounters(s, InsnStep(s, c, samples[0]).after, samples[1..]);
    }
  }

  lemma RunInsnsSplit(s: Setup, c: Counters, a: seq<InsnSample>, b: seq<InsnSample>)
    requires s.checkInterval != 0
    ensures var first := RunInsns(s, c, a);
            var second := RunInsns(s, first.after, b);
            RunInsns(s, c, a + b) == Step(first.actions + second.actions, second.after)
  {
    FoldSplit(InsnHook(s), c, a, b);
  }

  /** Between two checkpoints the instruction hook calls nothing on the host
      and leaves the message alone, whatever the budgets: the throttle. */
  lemma {:induction false} QuietBetweenCheckpoints(s: Setup, c: Counters, samples: seq<InsnSample>)
    requires s.checkInterval != 0
    requires forall n :: c.insnCount < n <= c.insnCount + |samples| ==> !IsCheckpoint(s, n)
    ensures RunInsns(s, c, samples) == Step([], Counters(c.insnCount + |samples|, c.newStates, c.message))
    decreases |samples|
  {
    if samples != [] {
      QuietBetweenCheckpoints(s, InsnStep(s, c, samples[0]).after, samples[1..]);
    }
  }

  /** With no time or heap ceiling, the instruction hook stays quiet as long
      as the count has not passed the instruction ceiling. */
  lemma {:induction false} QuietWithinInsnBudget(s: Setup, c: Counters, samples: seq<InsnSample>)
    requires s.checkInterval != 0
    requires s.limits.maxTime <= 0 && s.limits.maxHeap <= 0
    requires c.insnCount + |samples| <= s.limits.maxInsn
    ensures RunInsns(s, c, samples) == Step([], Counters(c.insnCount + |samples|, c.newStates, c.message))
    decreases |samples|
  {
    if samples != [] {
      QuietWithinInsnBudget(s, InsnStep(s, c, samples[0]).after, samples[1..]);
    }
  }

  /** Only the instruction ceiling set, as in the tests of the throttle. */
  function InsnBudget(maxInsn: int, checkInterval: int, formatHMS: int -> string): Setup {
    Setup(Limits(0, 0, 0, maxInsn, 0, 0), checkInterval, 0, 0, formatHMS)
  }

  /** At a checkpoint past the instruction ceiling, with no time or heap
      ceiling, the hook reports the instruction budget. */
  lemma ReportAtCheckpoint(s: Setup, c: Counters, sample: InsnSample)
    requires s.checkInterval != 0
    requires s.limits.maxTime <= 0 && s.limits.maxHeap <= 0
    requires IsCheckpoint(s, c.insnCount + 1) && 0 < s.limits.maxInsn < c.insnCount + 1
    ensures RunInsns(s, c, [sample]).actions ==
            [Notify(Prefix(Insn) + Digits(s.limits.maxInsn)), BreakTransition(BREAK_REASON), Terminate]
  {
    var count := c.insnCount + 1;
    var st := InsnStep(s, c, sample);
    assert InsnCheck(s, sample.now, sample.heapUsed, count) == Some(Prefix(Insn) + Digits(s.limits.maxInsn));
    assert st.actions == [Notify(Prefix(Insn) + Digits(s.limits.maxInsn)), BreakTransition(BREAK_REASON), Terminate];
    assert InsnHook(s)(c, sample) == st;
    assert [sample][1..] == [];
    assert Fold(InsnHook(s), st.after, []).actions == [];
  }

  /** The two instruction-budget messages of the scenarios below, spelt out. */
  lemma InsnMessage99()
    ensures Prefix(Insn) + Digits(99) == "max instruction count exceeded: 99"
  {
    assert Digits(99) == Digits(9) + [DigitChar(9)];
  }

  lemma InsnMessage15000()
    ensures Prefix(Insn) + Digits(15000) == "max instruction count exceeded: 15000"
  {
    assert Digits(15) == Digits(1) + [DigitChar(5)];
    assert Digits(150) == Digits(15) + [DigitChar(0)];
    assert Digits(1500) == Digits(150) + [DigitChar(0)];
    assert Digits(15000) == Digits(1500) + [DigitChar(0)];
  }

  /** `budget.max_insn=99` with `budget.check_interval=100`: the 100th
      instruction is a checkpoint past the ceiling, so the run reports, once,
      with the three host calls in order. */
  lemma CheckIntervalViolation(samples: seq<InsnSample>, formatHMS: int -> string)
    requires |samples| == 100
    ensures RunInsns(InsnBudget(99, 100, formatHMS), Fresh(), samples).actions ==
            [Notify("max instruction count exceeded: 99"), BreakTransition("budgetConstraint"), Terminate]
  {
    var s := InsnBudget(99, 100, formatHMS);
    var a, last := samples[..99], samples[99];
    assert samples == a + [last];
    RunInsnsSplit(s, Fresh(), a, [last]);
    QuietWithinInsnBudget(s, Fresh(), a);
    assert RunInsns(s, Fresh(), a).after == Counters(99, 0, None);
    assert JavaRem(100, 100) == 0;
    ReportAtCheckpoint(s, Counters(99, 0, None), last);
    InsnMessage99();
  }

  /** With the default interval, fewer than 10000 instructions never reach a
      checkpoint, so no budget is reported from this hook, whatever the ceilings. */
  lemma DefaultIntervalQuiet(limits: Limits, tStart: int, mStart: int, formatHMS: int -> string,
                             samples: seq<InsnSample>)
    requires |samples| < DEFAULT_CHECK_INTERVAL
    ensures RunInsns(Setup(limits, DEFAULT_CHECK_INTERVAL, tStart, mStart, formatHMS), Fresh(), samples).actions == []
  {
    var s := Setup(limits, DEFAULT_CHECK_INTERVAL, tStart, mStart, formatHMS);
    forall n | 0 < n <= |samples| ensures !IsCheckpoint(s, n) {
      assert JavaRem(n, DEFAULT_CHECK_INTERVAL) == n;
    }
    QuietBetweenCheckpoints(s, Fresh(), samples);
  }

  /** With the default interval and only `budget.max_insn=15000`, the
      first 19999 instructions are quiet: up to 15000 the ceiling holds, and
      instructions 15001 to 19999 are over it but not checkpoints. */
  lemma InsnBudgetQuietBeforeCheckpoint(samples: seq<InsnSample>, formatHMS: int -> string)
    requires |samples| == 19999
    ensures RunInsns(InsnBudget(15000, DEFAULT_CHECK_INTERVAL, formatHMS), Fresh(), samples) ==
            Step([], Counters(19999, 0, None))
  {
    var s := InsnBudget(15000, DEFAULT_CHECK_INTERVAL, formatHMS);
    var a, b := samples[..15000], samples[15000..];
    assert samples == a + b;
    QuietWithinInsnBudget(s, Fresh(), a);
    forall n | 15000 < n <= 19999 ensures !IsCheckpoint(s, n) {
      assert JavaRem(n, DEFAULT_CHECK_INTERVAL) == n - 10000;
    }
    QuietBetweenCheckpoints(s, Counters(15000, 0, None), b);
    RunInsnsSplit(s, Fresh(), a, b);
  }

  /** ... and the 20000th, a checkpoint, reports the instruction budget. */
  lemma InsnBudgetReportedAtCheckpoint(samples: seq<InsnSample>, formatHMS: int -> string)
    requires |samples| == 20000
    ensures RunInsns(InsnBudget(15000, DEFAULT_CHECK_INTERVAL, formatHMS), Fresh(), samples[..19999]).actions == []
    ensures RunInsns(InsnBudget(15000, DEFAULT_CHECK_INTERVAL, formatHMS), Fresh(), samples).actions ==
            [Notify("max instruction count exceeded: 15000"), BreakTransition("budgetConstraint"), Terminate]
  {
    var s := InsnBudget(15000, DEFAULT_CHECK_INTERVAL, formatHMS);
    var a, last := samples[..19999], samples[19999];
    assert samples == a + [last];
    InsnBudgetQuietBeforeCheckpoint(a, formatHMS);
    RunInsnsSplit(s, Fresh(), a, [last]);
    assert JavaRem(20000, DEFAULT_CHECK_INTERVAL) == 0;
    ReportAtCheckpoint(s, Counters(19999, 0, None), last);
    InsnMessage15000();
  }
}
