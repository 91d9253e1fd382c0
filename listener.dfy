/** The BudgetChecker listener as an object: the configured ceilings and
    baselines are fixed at construction, the two counters and the last
    message are updated in place by the hooks. Each host query the Java code
    makes (clock, heap usage, search depth, state id, new-state and
    trace-replay flags) is a parameter of the method that makes it, and the
    host calls a hook makes are its returned list of actions. */
module Listener {
  import opened Budget

  class BudgetChecker {
    const maxTime: int
    const maxHeap: int
    const maxDepth: int
    const maxInsn: int
    const maxState: int
    const maxNewStates: int
    const checkInterval: int

    /** Clock reading at construction. */
    const tStart: int
    /** Heap usage at construction; taken only when a heap ceiling is set. */
    const mStart: int
    /** The host's duration formatter for the time message. */
    const formatHMS: int -> string

    var insnCount: int
    var newStates: int
    var message: Option<string>

    ghost predicate Valid()
      reads this
    {
      checkInterval != 0 && insnCount >= 0 && newStates >= 0
    }

    function Settings(): Setup {
      Setup(Limits(maxTime, maxHeap, maxDepth, maxInsn, maxState, maxNewStates),
            checkInterval, tStart, mStart, formatHMS)
    }

    function Counts(): Counters
      reads this
    {
      Counters(insnCount, newStates, message)
    }

    /** Takes the already parsed configuration, the clock reading `now` and
        the heap usage `heapUsed` at construction time. A zero interval would
        make the instruction hook divide by zero, so it is excluded. */
    constructor (maxTime: int, maxHeap: int, maxDepth: int, maxInsn: int, maxState: int,
                 maxNewStates: int, checkInterval: int, now: int, heapUsed: int,
                 formatHMS: int -> string)
      requires checkInterval != 0
      ensures Valid()
      ensures Settings().limits == Limits(maxTime, maxHeap, maxDepth, maxInsn, maxState, maxNewStates)
      ensures this.checkInterval == checkInterval && tStart == now
      ensures mStart == if maxHeap > 0 then heapUsed else 0
      ensures this.formatHMS == formatHMS
      ensures Counts() == Counters(0, 0, None)
    {
      this.maxTime := maxTime;
      this.maxHeap := maxHeap;
      this.maxDepth := maxDepth;
      this.maxInsn := maxInsn;
      this.maxState := maxState;
      this.maxNewStates := maxNewStates;
      this.checkInterval := checkInterval;
      this.formatHMS := formatHMS;
      tStart := now;
      mStart := if maxHeap > 0 then heapUsed else 0;
      insnCount := 0;
      newStates := 0;
      message := None;
    }

    method TimeExceeded(now: int) returns (exceeded: bool)
      modifies this`message
      ensures exceeded == Violation(Settings(), Time, now - tStart).Some?
      ensures message == Latest(Violation(Settings(), Time, now - tStart), old(message))
    {
      if maxTime > 0 {
        var duration := now - tStart;
        if duration > maxTime {
          message := Some(Message(Settings(), Time, duration));
          return true;
        }
      }
      return false;
    }

    method HeapExceeded(heapUsed: int) returns (exceeded: bool)
      modifies this`message
      ensures exceeded == Violation(Settings(), Heap, heapUsed - mStart).Some?
      ensures message == Latest(Violation(Settings(), Heap, heapUsed - mStart), old(message))
    {
      if maxHeap > 0 {
        var used := heapUsed - mStart;
        if used > maxHeap {
          message := Some(Message(Settings(), Heap, used));
          return true;
        }
      }
      return false;
    }

    method DepthExceeded(depth: int) returns (exceeded: bool)
      modifies this`message
      ensures exceeded == Violation(Settings(), Depth, depth).Some?
      ensures message == Latest(Violation(Settings(), Depth, depth), old(message))
    {
      if maxDepth > 0 {
        if depth > maxDepth {
          message := Some(Message(Settings(), Depth, depth));
          return true;
        }
      }
      return false;
    }

    method InsnExceeded() returns (exceeded: bool)
      modifies this`message
      ensures exceeded == Violation(Settings(), Insn, insnCount).Some?
      ensures message == Latest(Violation(Settings(), Insn, insnCount), old(message))
    {
      if maxInsn > 0 {
        if insnCount > maxInsn {
          message := Some(Message(Settings(), Insn, insnCount));
          return true;
        }
      }
      return false;
    }

    method StatesExceeded(stateId: int) returns (exceeded: bool)
      modifies this`message
      ensures exceeded == Violation(Settings(), States, stateId).Some?
      ensures message == Latest(Violation(Settings(), States, stateId), old(message))
    {
      if maxState > 0 {
        if stateId > maxState {
          message := Some(Message(Settings(), States, stateId));
          return true;
        }
      }
      return false;
    }

    method NewStatesExceeded() returns (exceeded: bool)
      modifies this`message
      ensures exceeded == Violation(Settings(), NewStates, newStates).Some?
      ensures message == Latest(Violation(Settings(), NewStates, newStates), old(message))
    {
      if maxNewStates > 0 {
        if newStates > maxNewStates {
          message := Some(Message(Settings(), NewStates, newStates));
          return true;
        }
      }
      return false;
    }

    /** The search has moved to a state. */
    method StateAdvanced(now: int, heapUsed: int, depth: int, stateId: int,
                         isNewState: bool, isTraceReplay: bool)
      returns (actions: seq<Action>)
      requires Valid()
      modifies this`newStates, this`message
      ensures Valid()
      ensures Step(actions, Counts()) ==
        StateStep(Settings(), old(Counts()), StateSample(now, heapUsed, depth, stateId, isNewState, isTraceReplay))
    {
      ghost var s := Settings();
      ghost var before := Counts();
      ghost var first := ResourceCheck(s, now, heapUsed);
      var hit := TimeExceeded(now);
      if !hit {
        hit := HeapExceeded(heapUsed);
      }
      assert hit == first.Some? && message == Latest(first, before.message);
      actions := [];
      if hit {
        actions := actions + [Notify(message.value), Terminate];
      }
      assert actions == Report(first);

      if isNewState {
        if !isTraceReplay {
          newStates := newStates + 1;
        }
        ghost var msg := message;
        ghost var second := SearchCheck(s, stateId, depth, newStates);
        hit := StatesExceeded(stateId);
        if !hit {
          hit := DepthExceeded(depth);
          if !hit {
            hit := NewStatesExceeded();
          }
        }
        assert hit == second.Some? && message == Latest(second, msg);
        if hit {
          actions := actions + [Notify(message.value), Terminate];
        }
        assert actions == Report(first) + Report(second);
      }
    }

    /** The virtual machine has executed one instruction. */
    method InstructionExecuted(now: int, heapUsed: int) returns (actions: seq<Action>)
      requires Valid()
      modifies this`insnCount, this`message
      ensures Valid()
      ensures Step(actions, Counts()) == InsnStep(Settings(), old(Counts()), InsnSample(now, heapUsed))
    {
      ghost var s := Settings();
      ghost var before := Counts();
      actions := [];
      insnCount := insnCount + 1;
      if JavaRem(insnCount, checkInterval) == 0 {
        assert IsCheckpoint(s, before.insnCount + 1);
        ghost var v := InsnCheck(s, now, heapUsed, insnCount);
        var hit := TimeExceeded(now);
        if !hit {
          hit := HeapExceeded(heapUsed);
          if !hit {
            hit := InsnExceeded();
          }
        }
        assert hit == v.Some? && message == Latest(v, old(message));
        if hit {
          actions := [Notify(message.value), BreakTransition(BREAK_REASON), Terminate];
        }
        assert actions == ReportAndBreak(v);
        assert Counts() == Counters(before.insnCount + 1, before.newStates, Latest(v, before.message));
      } else {
        assert !IsCheckpoint(s, before.insnCount + 1);
        assert Counts() == Counters(before.insnCount + 1, before.newStates, before.message);
      }
    }
  }
}
