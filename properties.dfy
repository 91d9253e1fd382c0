/** What one check or one hook call guarantees: the threshold rule, what the
    messages say, the order of host actions, and how the counters move. */
module Properties {
  import opened Decimal
  import opened Budget

  /** The check a message belongs to, read off its fixed prefix. */
  function KindOf(msg: string): Option<Kind> {
    if Prefix(Time) <= msg then Some(Time)
    else if Prefix(Heap) <= msg then Some(Heap)
    else if Prefix(Depth) <= msg then Some(Depth)
    else if Prefix(Insn) <= msg then Some(Insn)
    else if Prefix(States) <= msg then Some(States)
    else if Prefix(NewStates) <= msg then Some(NewStates)
    else None
  }

  /** A check trips at every value above one where it trips: the budget is a
      threshold, and once crossed stays crossed for larger observations. */
  lemma ViolationMonotone(s: Setup, k: Kind, observed: int, larger: int)
    requires Violation(s, k, observed).Some? && observed <= larger
    ensures Violation(s, k, larger).Some?
    ensures k !in {Time, Heap} ==> Violation(s, k, larger) == Violation(s, k, observed)
  {
  }

  /** Every message starts with its check's prefix. */
  lemma MessagePrefix(s: Setup, k: Kind, observed: int)
    requires 0 < Ceiling(s.limits, k) < observed
    ensures Prefix(k) <= Message(s, k, observed)
  {
    var m := Message(s, k, observed);
    var rest := m[|Prefix(k)|..];
    assert m == Prefix(k) + rest;
  }

  /** A string that differs from `p` at some position of `p` does not start with `p`. */
  lemma NotPrefixAt(p: string, m: string, i: nat)
    requires i < |p| && i < |m| && p[i] != m[i]
    ensures !(p <= m)
  {
  }

  /** The six prefixes differ in their fifth character or, for the two that
      start with "max s", in the sixth; so a prefix decides the check. */
  lemma KindOfPrefixed(k: Kind, m: string)
    requires Prefix(k) <= m
    ensures KindOf(m) == Some(k)
  {
    match k
    case Time => KindOfTime(m);
    case Heap => KindOfHeap(m);
    case Depth => KindOfDepth(m);
    case Insn => KindOfInsn(m);
    case States => KindOfStates(m);
    case NewStates => KindOfNewStates(m);
  }

  lemma KindOfTime(m: string)
    requires Prefix(Time) <= m
    ensures KindOf(m) == Some(Time)
  {
  }

  lemma KindOfHeap(m: string)
    requires Prefix(Heap) <= m
    ensures KindOf(m) == Some(Heap)
  {
    NotPrefixAt(Prefix(Time), m, 4);
  }

  lemma KindOfDepth(m: string)
    requires Prefix(Depth) <= m
    ensures KindOf(m) == Some(Depth)
  {
    NotPrefixAt(Prefix(Time), m, 4);
    NotPrefixAt(Prefix(Heap), m, 4);
  }

  lemma KindOfInsn(m: string)
    requires Prefix(Insn) <= m
    ensures KindOf(m) == Some(Insn)
  {
    NotPrefixAt(Prefix(Time), m, 4);
    NotPrefixAt(Prefix(Heap), m, 4);
    NotPrefixAt(Prefix(Depth), m, 4);
  }

  lemma KindOfStates(m: string)
    requires Prefix(States) <= m
    ensures KindOf(m) == Some(States)
  {
    NotPrefixAt(Prefix(Time), m, 4);
    NotPrefixAt(Prefix(Heap), m, 4);
    NotPrefixAt(Prefix(Depth), m, 5);
    NotPrefixAt(Prefix(Insn), m, 4);
  }

  lemma KindOfNewStates(m: string)
    requires Prefix(NewStates) <= m
    ensures KindOf(m) == Some(NewStates)
  {
    NotPrefixAt(Prefix(Time), m, 4);
    NotPrefixAt(Prefix(Heap), m, 4);
    NotPrefixAt(Prefix(Depth), m, 4);
    NotPrefixAt(Prefix(Insn), m, 4);
    NotPrefixAt(Prefix(States), m, 4);
  }

  /** Every message names the check that produced it. */
  lemma KindOfMessage(s: Setup, k: Kind, observed: int)
    requires Violation(s, k, observed).Some?
    ensures KindOf(Violation(s, k, observed).value) == Some(k)
  {
    MessagePrefix(s, k, observed);
    KindOfPrefixed(k, Violation(s, k, observed).value);
  }

  /** The depth, instruction, states and new-states messages end with the
      ceiling in decimal, and nothing else. */
  lemma CeilingInMessage(s: Setup, k: Kind, observed: int)
    requires k in {Depth, Insn, States, NewStates}
    requires Violation(s, k, observed).Some?
    ensures var m := Violation(s, k, observed).value;
            && Prefix(k) <= m
            && AllDigits(m[|Prefix(k)|..])
            && |m| > |Prefix(k)|
            && ParseDigits(m[|Prefix(k)|..]) == Ceiling(s.limits, k)
  {
    var m := Violation(s, k, observed).value;
    var ceiling := Ceiling(s.limits, k);
    assert m == Prefix(k) + Digits(ceiling);
    assert m[|Prefix(k)|..] == Digits(ceiling);
    ParseDigitsOfDigits(ceiling);
  }

  /** The heap message gives the growth and the ceiling in whole megabytes,
      rounded down, and the ">=" it prints between them is true. */
  lemma HeapMessageInMegabytes(s: Setup, heapUsed: int)
    requires Violation(s, Heap, heapUsed - s.mStart).Some?
    ensures var growth := heapUsed - s.mStart;
            var a := growth / MEGABYTE;
            var b := s.limits.maxHeap / MEGABYTE;
            && Violation(s, Heap, growth).value == Prefix(Heap) + Digits(a) + "MB >= " + Digits(b) + "MB"
            && 0 <= b <= a
            && a * MEGABYTE <= growth < (a + 1) * MEGABYTE
            && b * MEGABYTE <= s.limits.maxHeap < (b + 1) * MEGABYTE
  {
    var growth := heapUsed - s.mStart;
    DivMonotone(s.limits.maxHeap, growth);
  }

  lemma DivMonotone(x: nat, y: nat)
    requires x <= y
    ensures x / MEGABYTE <= y / MEGABYTE
  {
    var a, b := x / MEGABYTE, y / MEGABYTE;
    assert a * MEGABYTE + x % MEGABYTE == x;
    assert b * MEGABYTE + y % MEGABYTE == y;
  }

  /** The three chains are short-circuited `||`: each equals the first
      tripping check of its list, in source order. */
  lemma ResourceCheckIsFirst(s: Setup, now: int, heapUsed: int)
    ensures ResourceCheck(s, now, heapUsed) == FirstViolation(s, ResourceProbes(s, now, heapUsed))
  {
    assert ResourceProbes(s, now, heapUsed) == [Probe(Time, now - s.tStart), Probe(Heap, heapUsed - s.mStart)];
    FirstOfTwo(s, Probe(Time, now - s.tStart), Probe(Heap, heapUsed - s.mStart));
  }

  lemma SearchCheckIsFirst(s: Setup, stateId: int, depth: int, newStates: int)
    ensures SearchCheck(s, stateId, depth, newStates) == FirstViolation(s, SearchProbes(stateId, depth, newStates))
  {
    FirstOfThree(s, Probe(States, stateId), Probe(Depth, depth), Probe(NewStates, newStates));
  }

  lemma InsnCheckIsFirst(s: Setup, now: int, heapUsed: int, insnCount: int)
    ensures InsnCheck(s, now, heapUsed, insnCount) ==
            FirstViolation(s, ResourceProbes(s, now, heapUsed) + [Probe(Insn, insnCount)])
  {
    assert ResourceProbes(s, now, heapUsed) + [Probe(Insn, insnCount)] ==
           [Probe(Time, now - s.tStart), Probe(Heap, heapUsed - s.mStart), Probe(Insn, insnCount)];
    FirstOfThree(s, Probe(Time, now - s.tStart), Probe(Heap, heapUsed - s.mStart), Probe(Insn, insnCount));
  }

  /** A chain's message names one of the chain's checks. */
  lemma ChainMessageKind(s: Setup, probes: seq<Probe>)
    requires FirstViolation(s, probes).Some?
    ensures exists i :: FirstTripAt(s, probes, i) && FirstViolation(s, probes) == Outcome(s, probes[i]) &&
                        KindOf(FirstViolation(s, probes).value) == Some(probes[i].kind)
  {
    var i :| FirstTripAt(s, probes, i) && FirstViolation(s, probes) == Outcome(s, probes[i]);
    KindOfMessage(s, probes[i].kind, probes[i].observed);
  }

  /** A message from the search chain is never one from the time/heap chain. */
  lemma SearchMessageDiffers(s: Setup, now: int, heapUsed: int, depth: int, stateId: int, newStates: int)
    requires SearchCheck(s, stateId, depth, newStates).Some?
    ensures SearchCheck(s, stateId, depth, newStates) != ResourceCheck(s, now, heapUsed)
  {
    SearchCheckIsFirst(s, stateId, depth, newStates);
    ResourceCheckIsFirst(s, now, heapUsed);
    ChainMessageKind(s, SearchProbes(stateId, depth, newStates));
    if ResourceCheck(s, now, heapUsed).Some? {
      ChainMessageKind(s, ResourceProbes(s, now, heapUsed));
    }
  }

  /** `stateAdvanced` never touches the instruction counter, and moves the
      new-state counter by one exactly for a new state outside trace replay. */
  lemma StateStepCounters(s: Setup, c: Counters, e: StateSample)
    ensures StateStep(s, c, e).after.insnCount == c.insnCount
    ensures StateStep(s, c, e).after.newStates ==
            c.newStates + (if e.isNewState && !e.isTraceReplay then 1 else 0)
  {
  }

  /** Two reports in a row: 0, 2 or 4 actions, notify and terminate
      alternating, the notifications carrying the two messages in order. */
  lemma TwoReports(v: Option<string>, w: Option<string>)
    ensures var a := Report(v) + Report(w);
            && |a| in {0, 2, 4}
            && (forall i :: 0 <= i < |a| ==> if i % 2 == 0 then a[i].Notify? else a[i] == Terminate)
            && (|a| == 4 <==> v.Some? && w.Some?)
            && (|a| == 0 <==> v.None? && w.None?)
            && (|a| == 4 ==> a[0] == Notify(v.value) && a[2] == Notify(w.value))
  {
    var a := Report(v) + Report(w);
    if v.Some? && w.Some? {
      assert a == [Notify(v.value), Terminate, Notify(w.value), Terminate];
    } else if v.Some? {
      assert a == [Notify(v.value), Terminate];
    } else if w.Some? {
      assert a == [Notify(w.value), Terminate];
    } else {
      assert a == [];
    }
  }

  /** The host calls of `stateAdvanced`: a notify/terminate pair for a time or
      heap trip, then, for a new state, another pair for a search trip. A time
      or heap trip does not end the call. The message left behind is the
      search message if there is one, else the time or heap message, else the
      old one. */
  lemma StateStepActions(s: Setup, c: Counters, e: StateSample)
    ensures var r := StateStep(s, c, e);
            var resource := ResourceCheck(s, e.now, e.heapUsed);
            var search := if e.isNewState then SearchCheck(s, e.stateId, e.depth, NewStatesAfter(c, e)) else None;
            && r.actions == Report(resource) + Report(search)
            && r.after.message == Latest(search, Latest(resource, c.message))
  {
    if !e.isNewState {
      assert Report(None) == [];
      assert Report(ResourceCheck(s, e.now, e.heapUsed)) + [] == Report(ResourceCheck(s, e.now, e.heapUsed));
    }
  }

  /** So one call makes 0, 2 or 4 host calls, alternating notify and
      terminate, and never breaks a transition. It makes 4 exactly when a
      time or heap check and then, for a new state, a search check both
      trip: the first trip does not end the call. When it notifies twice,
      the two messages differ. */
  lemma StateStepShape(s: Setup, c: Counters, e: StateSample)
    ensures var a := StateStep(s, c, e).actions;
            && |a| in {0, 2, 4}
            && (forall i :: 0 <= i < |a| ==> if i % 2 == 0 then a[i].Notify? else a[i] == Terminate)
            && (|a| == 4 ==> a[0] != a[2])
            && (|a| == 4 <==> && ResourceCheck(s, e.now, e.heapUsed).Some?
                              && e.isNewState
                              && SearchCheck(s, e.stateId, e.depth, NewStatesAfter(c, e)).Some?)
  {
    StateStepActions(s, c, e);
    var resource := ResourceCheck(s, e.now, e.heapUsed);
    var search := if e.isNewState then SearchCheck(s, e.stateId, e.depth, NewStatesAfter(c, e)) else None;
    TwoReports(resource, search);
    if resource.Some? && search.Some? {
      SearchMessageDiffers(s, e.now, e.heapUsed, e.depth, e.stateId, NewStatesAfter(c, e));
    }
  }

  /** For a new state, the message left behind names the first of states,
      depth and new-states that tripped, in that order; the later ones were
      not evaluated. */
  lemma StateStepNamesFirstFailure(s: Setup, c: Counters, e: StateSample)
    requires e.isNewState
    requires SearchCheck(s, e.stateId, e.depth, NewStatesAfter(c, e)).Some?
    ensures var probes := SearchProbes(e.stateId, e.depth, NewStatesAfter(c, e));
            var m := StateStep(s, c, e).after.message;
            exists i :: FirstTripAt(s, probes, i) && m == Outcome(s, probes[i]) &&
                        KindOf(m.value) == Some(probes[i].kind)
  {
    SearchCheckIsFirst(s, e.stateId, e.depth, NewStatesAfter(c, e));
    ChainMessageKind(s, SearchProbes(e.stateId, e.depth, NewStatesAfter(c, e)));
  }

  /** `instructionExecuted` counts every instruction and nothing else. */
  lemma InsnStepCounters(s: Setup, c: Counters, e: InsnSample)
    requires s.checkInterval != 0
    ensures InsnStep(s, c, e).after.insnCount == c.insnCount + 1
    ensures InsnStep(s, c, e).after.newStates == c.newStates
  {
  }

  /** The host calls of `instructionExecuted`: none, or exactly notify with
      the message, break the transition, terminate; and only at a checkpoint,
      i.e. when the new count is a multiple of the interval. */
  lemma InsnStepActions(s: Setup, c: Counters, e: InsnSample)
    requires s.checkInterval != 0
    ensures var r := InsnStep(s, c, e);
            var count := c.insnCount + 1;
            && (r.actions == [] || r.actions == [Notify(r.after.message.value), BreakTransition("budgetConstraint"), Terminate])
            && (r.actions != [] <==> count % s.checkInterval == 0 && InsnCheck(s, e.now, e.heapUsed, count).Some?)
            && (r.actions == [] ==> r.after.message == c.message)
            && (r.actions != [] ==> r.after.message == InsnCheck(s, e.now, e.heapUsed, count))
  {
    JavaRemZero(c.insnCount + 1, s.checkInterval);
  }

  /** When the instruction hook reports, the message it notifies with is the
      one just written by the first of time, heap and instructions that
      tripped, in that order, and it names that check. */
  lemma InsnStepNamesFirstFailure(s: Setup, c: Counters, e: InsnSample)
    requires s.checkInterval != 0
    requires InsnStep(s, c, e).actions != []
    ensures var probes := ResourceProbes(s, e.now, e.heapUsed) + [Probe(Insn, c.insnCount + 1)];
            var r := InsnStep(s, c, e);
            && r.actions[0] == Notify(r.after.message.value)
            && exists i :: FirstTripAt(s, probes, i) && r.after.message == Outcome(s, probes[i]) &&
                           KindOf(r.after.message.value) == Some(probes[i].kind)
  {
    var probes := ResourceProbes(s, e.now, e.heapUsed) + [Probe(Insn, c.insnCount + 1)];
    InsnCheckIsFirst(s, e.now, e.heapUsed, c.insnCount + 1);
    ChainMessageKind(s, probes);
  }

  /** Nothing remembers an earlier report: what a hook does depends on the
      configuration, the counters and the host's values, never on the last
      message, so a budget still exceeded is reported again on the next call. */
  lemma NoTrippedGating(s: Setup, c: Counters, m: Option<string>, e: StateSample, f: InsnSample)
    requires s.checkInterval != 0
    ensures StateStep(s, c, e).actions == StateStep(s, c.(message := m), e).actions
    ensures InsnStep(s, c, f).actions == InsnStep(s, c.(message := m), f).actions
  {
  }
}
