/** The listener object driven through the state-budget scenarios of its
    tests: a fresh listener, a run of new states, and the host calls the
    last transition causes. */
module Scenarios {
  import opened Decimal
  import opened Budget
  import opened Listener

  /** `budget.max_state=3`: states 1 to 3 pass, state 4 is over the ceiling,
      so the fourth transition notifies with the states message and
      terminates. */
  method MaxStateViolation(formatHMS: int -> string, now: int, heapUsed: int)
    returns (quiet: seq<Action>, last: seq<Action>)
    ensures quiet == []
    ensures last == [Notify("max states exceeded: 3"), Terminate]
  {
    var bc := new BudgetChecker(0, 0, 0, 0, 3, 0, DEFAULT_CHECK_INTERVAL, now, heapUsed, formatHMS);
    quiet := [];
    var id := 1;
    while id <= 3
      invariant 1 <= id <= 4
      invariant bc.Valid() && bc.Settings() == Setup(Limits(0, 0, 0, 0, 3, 0), DEFAULT_CHECK_INTERVAL, now, 0, formatHMS)
      invariant quiet == []
    {
      var a := bc.StateAdvanced(now, heapUsed, 1, id, true, false);
      quiet := quiet + a;
      id := id + 1;
    }
    last := bc.StateAdvanced(now, heapUsed, 1, 4, true, false);
    StatesMessage3();
  }

  /** `budget.max_new_states=3`: the fourth new state outside trace replay
      trips the new-state budget, while a replayed state before it is not
      counted. */
  method MaxNewStatesViolation(formatHMS: int -> string, now: int, heapUsed: int)
    returns (quiet: seq<Action>, last: seq<Action>)
    ensures quiet == []
    ensures last == [Notify("max new state count exceeded: 3"), Terminate]
  {
    var bc := new BudgetChecker(0, 0, 0, 0, 0, 3, DEFAULT_CHECK_INTERVAL, now, heapUsed, formatHMS);
    quiet := bc.StateAdvanced(now, heapUsed, 1, 1, true, true);
    var n := 0;
    while n < 3
      invariant 0 <= n <= 3
      invariant bc.Valid() && bc.newStates == n
      invariant bc.Settings() == Setup(Limits(0, 0, 0, 0, 0, 3), DEFAULT_CHECK_INTERVAL, now, 0, formatHMS)
      invariant quiet == []
    {
      var a := bc.StateAdvanced(now, heapUsed, 1, n + 2, true, false);
      quiet := quiet + a;
      n := n + 1;
    }
    last := bc.StateAdvanced(now, heapUsed, 1, 5, true, false);
    NewStatesMessage3();
  }

  lemma StatesMessage3()
    ensures Prefix(States) + Digits(3) == "max states exceeded: 3"
  {
    assert Digits(3) == [DigitChar(3)];
  }

  lemma NewStatesMessage3()
    ensures Prefix(NewStates) + Digits(3) == "max new state count exceeded: 3"
  {
    assert Digits(3) == [DigitChar(3)];
  }
}
