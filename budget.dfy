/** The budget rules of the BudgetChecker listener, as values: the six
    ceilings, the six threshold checks with their messages, and what each of
    the two hooks does to the listener's counters and which host actions it
    requests. The class in module Listener is proved against these. */
module Budget {
  import opened Decimal

  datatype Option<T> = None | Some(value: T)

  /** Bytes in a megabyte, used to print the heap message. */
  const MEGABYTE: int := 1048576

  /** `budget.check_interval` when it is not configured. */
  const DEFAULT_CHECK_INTERVAL: int := 10000

  /** The reason given to the host thread when an instruction-level check trips. */
  const BREAK_REASON: string := "budgetConstraint"

  /** The six budgets. */
  datatype Kind = Time | Heap | Depth | Insn | States | NewStates

  /** The configured ceilings; a value of 0 or less means "not set". */
  datatype Limits = Limits(
    maxTime: int,       // milliseconds
    maxHeap: int,       // bytes of heap growth
    maxDepth: int,
    maxInsn: int,
    maxState: int,
    maxNewStates: int)

  /** Everything fixed when the listener is constructed: the ceilings, the
      throttle interval, the two baselines, and the host's duration formatter
      (`Publisher.formatHMS`), which is not part of this model. */
  datatype Setup = Setup(
    limits: Limits,
    checkInterval: int,
    tStart: int,
    mStart: int,
    formatHMS: int -> string)

  /** The listener's mutable state; `message` is None while it is still null. */
  datatype Counters = Counters(insnCount: int, newStates: int, message: Option<string>)

  /** The calls a hook makes back into the host, in order. */
  datatype Action =
    | Notify(msg: string)              // search.notifySearchConstraintHit(msg)
    | BreakTransition(reason: string)  // current thread's breakTransition(reason)
    | Terminate                        // search.terminate()

  /** The effect of one hook call. */
  datatype Step = Step(actions: seq<Action>, after: Counters)

  /** One threshold check, with the value the host reported for it. */
  datatype Probe = Probe(kind: Kind, observed: int)

  function Ceiling(lim: Limits, k: Kind): int {
    match k
    case Time => lim.maxTime
    case Heap => lim.maxHeap
    case Depth => lim.maxDepth
    case Insn => lim.maxInsn
    case States => lim.maxState
    case NewStates => lim.maxNewStates
  }

  /** The fixed text each check's message starts with. */
  function Prefix(k: Kind): string {
    match k
    case Time => "max time exceeded: "
    case Heap => "max heap exceeded: "
    case Depth => "max search depth exceeded: "
    case Insn => "max instruction count exceeded: "
    case States => "max states exceeded: "
    case NewStates => "max new state count exceeded: "
  }

  /** The message a tripped check stores. Only the time and heap messages
      mention the observed value; the other four name the ceiling alone. */
  function Message(s: Setup, k: Kind, observed: int): string
    requires 0 < Ceiling(s.limits, k) < observed
  {
    var ceiling := Ceiling(s.limits, k);
    match k
    case Time => Prefix(k) + s.formatHMS(observed) + " >= " + s.formatHMS(ceiling)
    case Heap => Prefix(k) + Digits(observed / MEGABYTE) + "MB >= " + Digits(ceiling / MEGABYTE) + "MB"
    case _ => Prefix(k) + Digits(ceiling)
  }

  /** One threshold check: the message it stores when it trips, None when it
      does not. A check trips only when its ceiling is set (positive) and the
      observed value strictly exceeds it. */
  function Violation(s: Setup, k: Kind, observed: int): (r: Option<string>)
    ensures Ceiling(s.limits, k) <= 0 ==> r.None?
    ensures observed <= Ceiling(s.limits, k) ==> r.None?
    ensures 0 < Ceiling(s.limits, k) < observed ==> r.Some?
  {
    var ceiling := Ceiling(s.limits, k);
    if ceiling > 0 && observed > ceiling then Some(Message(s, k, observed)) else None
  }

  /** The outcome of one probe. */
  function Outcome(s: Setup, p: Probe): Option<string> {
    Violation(s, p.kind, p.observed)
  }

  /** Probe `i` is the first of `probes` that trips. */
  predicate FirstTripAt(s: Setup, probes: seq<Probe>, i: int) {
    && 0 <= i < |probes|
    && Outcome(s, probes[i]).Some?
    && forall j :: 0 <= j < i ==> Outcome(s, probes[j]).None?
  }

  /** The checks of a short-circuited `||` chain: the message of the first
      check that trips, None when none does. */
  function FirstViolation(s: Setup, probes: seq<Probe>): (r: Option<string>)
    ensures r.None? <==> forall i :: 0 <= i < |probes| ==> Outcome(s, probes[i]).None?
    ensures r.Some? ==> exists i :: FirstTripAt(s, probes, i) && r == Outcome(s, probes[i])
  {
    if probes == [] then None
    else if Outcome(s, probes[0]).Some? then
      assert FirstTripAt(s, probes, 0);
      Outcome(s, probes[0])
    else
      var r := FirstViolation(s, probes[1..]);
      assert r.Some? ==> exists i :: FirstTripAt(s, probes, i) && r == Outcome(s, probes[i]) by {
        if r.Some? {
          var i :| FirstTripAt(s, probes[1..], i) && r == Outcome(s, probes[1..][i]);
          assert FirstTripAt(s, probes, i + 1) by {
            forall j | 0 <= j < i + 1 ensures Outcome(s, probes[j]).None? {
              if j > 0 { assert probes[j] == probes[1..][j - 1]; }
            }
          }
        }
      }
      r
  }

  /** Unfolds a chain of two checks. */
  lemma FirstOfTwo(s: Setup, p: Probe, q: Probe)
    ensures FirstViolation(s, [p, q]) == Latest(Outcome(s, p), Outcome(s, q))
  {
    assert [p, q][1..] == [q];
    assert [q][1..] == [];
  }

  /** Unfolds a chain of three checks. */
  lemma FirstOfThree(s: Setup, p: Probe, q: Probe, r: Probe)
    ensures FirstViolation(s, [p, q, r]) == Latest(Outcome(s, p), Latest(Outcome(s, q), Outcome(s, r)))
  {
    assert [p, q, r][1..] == [q, r];
    FirstOfTwo(s, q, r);
  }

  /** Java's `%` on `long`: the remainder takes the sign of the dividend. */
  function JavaRem(a: int, b: int): int
    requires b != 0
  {
    var m := if b > 0 then b else -b;
    if a >= 0 then a % m else -((-a) % m)
  }

  /** Java's remainder is zero exactly when `b` divides `a`, whatever the
      signs, so the zero test agrees with Dafny's Euclidean `%`. */
  lemma JavaRemZero(a: int, b: int)
    requires b != 0
    ensures JavaRem(a, b) == 0 <==> a % b == 0
  {
    var m := if b > 0 then b else -b;
    if b < 0 {
      NegatedMultiple(a, b);
      NegatedMultiple(a, -b);
    }
    if a < 0 {
      NegatedMultiple(a, m);
      NegatedMultiple(-a, m);
    }
  }

  /** A multiple of `b` stays one when either operand changes sign. */
  lemma NegatedMultiple(a: int, b: int)
    requires b != 0
    ensures a % b == 0 ==> a % -b == 0 && (-a) % b == 0
  {
    if a % b == 0 {
      var q := a / b;
      assert a == b * q + a % b;
      MultipleRemZero(-b, -q);
      assert (-b) * (-q) == b * q;
      MultipleRemZero(b, -q);
      assert b * (-q) == -(b * q);
    }
  }

  /** A multiple of `b` leaves no remainder. */
  lemma MultipleRemZero(b: int, q: int)
    requires b != 0
    ensures (b * q) % b == 0
  {
    var a := b * q;
    var k := q - a / b;
    assert a % b == b * k by {
      assert a == b * (a / b) + a % b;
      assert b * q - b * (a / b) == b * k;
    }
    var m := if b > 0 then b else -b;
    var n := if k >= 0 then k else -k;
    assert (if b * k >= 0 then b * k else -(b * k)) == m * n;
    MulAtLeast(m, n);
  }

  lemma MulAtLeast(x: nat, y: nat)
    ensures y >= 1 ==> x * y >= x
  {
    if y >= 1 {
      assert x * y == x * (y - 1) + x;
    }
  }

  /** Whether the instruction hook runs its throttled checks at this count. */
  predicate IsCheckpoint(s: Setup, insnCount: int)
    requires s.checkInterval != 0
  {
    JavaRem(insnCount, s.checkInterval) == 0
  }

  /** The host actions for a tripped state-level check. */
  function Report(v: Option<string>): seq<Action> {
    if v.Some? then [Notify(v.value), Terminate] else []
  }

  /** The host actions for a tripped instruction-level check. */
  function ReportAndBreak(v: Option<string>): seq<Action> {
    if v.Some? then [Notify(v.value), BreakTransition(BREAK_REASON), Terminate] else []
  }

  /** The `message` field after a chain of checks: overwritten only on a trip. */
  function Latest(v: Option<string>, message: Option<string>): Option<string> {
    if v.Some? then v else message
  }

  /** What the host reports at one `stateAdvanced` call. */
  datatype StateSample = StateSample(
    now: int, heapUsed: int, depth: int, stateId: int, isNewState: bool, isTraceReplay: bool)

  /** What the host reports at one `instructionExecuted` call. */
  datatype InsnSample = InsnSample(now: int, heapUsed: int)

  function ResourceProbes(s: Setup, now: int, heapUsed: int): seq<Probe> {
    [Probe(Time, now - s.tStart), Probe(Heap, heapUsed - s.mStart)]
  }

  function SearchProbes(stateId: int, depth: int, newStates: int): seq<Probe> {
    [Probe(States, stateId), Probe(Depth, depth), Probe(NewStates, newStates)]
  }

  /** The `timeExceeded() || heapExceeded()` chain. */
  function ResourceCheck(s: Setup, now: int, heapUsed: int): Option<string> {
    Latest(Violation(s, Time, now - s.tStart), Violation(s, Heap, heapUsed - s.mStart))
  }

  /** The `statesExceeded() || depthExceeded() || newStatesExceeded()` chain. */
  function SearchCheck(s: Setup, stateId: int, depth: int, newStates: int): Option<string> {
    Latest(Violation(s, States, stateId), Latest(Violation(s, Depth, depth), Violation(s, NewStates, newStates)))
  }

  /** The `timeExceeded() || heapExceeded() || insnExceeded()` chain. */
  function InsnCheck(s: Setup, now: int, heapUsed: int, insnCount: int): Option<string> {
    Latest(Violation(s, Time, now - s.tStart), Latest(Violation(s, Heap, heapUsed - s.mStart), Violation(s, Insn, insnCount)))
  }

  /** The new-state counter after `stateAdvanced`: counted for a new state
      unless the host is replaying a trace. */
  function NewStatesAfter(c: Counters, e: StateSample): int {
    if e.isNewState && !e.isTraceReplay then c.newStates + 1 else c.newStates
  }

  /** `stateAdvanced`: the time and heap checks always; then, for a new
      state, the new-state counter (outside trace replay) and the states,
      depth and new-states checks. A time or heap trip does not stop the
      second part from running. */
  function StateStep(s: Setup, c: Counters, e: StateSample): Step {
    var first := ResourceCheck(s, e.now, e.heapUsed);
    var msg := Latest(first, c.message);
    if !e.isNewState then
      Step(Report(first), Counters(c.insnCount, c.newStates, msg))
    else
      var newStates := NewStatesAfter(c, e);
      var second := SearchCheck(s, e.stateId, e.depth, newStates);
      Step(Report(first) + Report(second), Counters(c.insnCount, newStates, Latest(second, msg)))
  }

  /** `instructionExecuted`: count the instruction; at a checkpoint run the
      time, heap and instruction checks. */
  function InsnStep(s: Setup, c: Counters, e: InsnSample): Step
    requires s.checkInterval != 0
  {
    var count := c.insnCount + 1;
    if IsCheckpoint(s, count) then
      var v := InsnCheck(s, e.now, e.heapUsed, count);
      Step(ReportAndBreak(v), Counters(count, c.newStates, Latest(v, c.message)))
    else
      Step([], Counters(count, c.newStates, c.message))
  }
}
