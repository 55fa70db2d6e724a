/** The state driver: a mutable object that fires events and logs every attempt a rule decided. */
module Driver {
  import opened Text
  import opened StateMachine

  /** "allowed", or "blocked by guard: ..." */
  datatype Decision = Allowed | BlockedBy(guard: string)

  datatype TransitionRecord = TransitionRecord(
    from: RunState, event: RunEvent, to: RunState, guardResults: map<string, bool>, decision: Decision)

  datatype TriggerError = InTerminalState | NoTransition | GuardRejected(guard: string)

  datatype TriggerResult = Moved(state: RunState) | Refused(error: TriggerError)

  datatype DriverState = DriverState(current: RunState, history: seq<TransitionRecord>)

  /** One invocation of `Trigger`; leaving the guard results out is the same as passing none. */
  datatype Call = Call(event: RunEvent, guards: map<string, bool> := map[])

  predicate Rejects(results: map<string, bool>, guard: string) {
    guard in results && !results[guard]
  }

  /** The first guard that the results explicitly map to false; a missing name does not block. */
  function FirstRejecting(guards: seq<string>, results: map<string, bool>): (g: Option<string>)
    ensures g.None? <==> forall n :: n in guards ==> !Rejects(results, n)
    ensures g.Some? ==> g.value in guards && Rejects(results, g.value)
    ensures forall i :: 0 <= i < |guards| && Rejects(results, guards[i])
                        && (forall j :: 0 <= j < i ==> !Rejects(results, guards[j]))
              ==> g == Some(guards[i])
  {
    if guards == [] then None
    else if Rejects(results, guards[0]) then Some(guards[0])
    else
      assert forall i :: 1 <= i < |guards| ==> guards[i] == guards[1..][i - 1];
      FirstRejecting(guards[1..], results)
  }

  /** What one call does to a driver of machine `m`. */
  function Step(m: Machine, st: DriverState, call: Call): (DriverState, TriggerResult) {
    if Terminal(m, st.current) then (st, Refused(InTerminalState))
    else
      match FindRule(m.rules, st.current, call.event)
      case None => (st, Refused(NoTransition))
      case Some(rule) =>
        match FirstRejecting(rule.guards, call.guards)
        case Some(g) =>
          var r := TransitionRecord(st.current, call.event, st.current, map[g := false], BlockedBy(g));
          (st.(history := st.history + [r]), Refused(GuardRejected(g)))
        case None =>
          var r := TransitionRecord(st.current, call.event, rule.to, call.guards, Allowed);
          (DriverState(rule.to, st.history + [r]), Moved(rule.to))
  }

  /** The events whose rules start in `s`, in the order of the rules; none in a terminal state. */
  function AvailableEvents(m: Machine, s: RunState): (es: seq<RunEvent>)
    ensures forall e :: e in es <==> !Terminal(m, s) && FindRule(m.rules, s, e).Some?
  {
    if Terminal(m, s) then [] else EventsFrom(m.rules, s)
  }

  function EventsFrom(rules: seq<Rule>, s: RunState): (es: seq<RunEvent>)
    ensures forall e :: e in es <==> FindRule(rules, s, e).Some?
    ensures UniquePairs(rules) ==> Distinct(es)
  {
    if rules == [] then []
    else
      var rest := EventsFrom(rules[1..], s);
      assert forall e :: FindRule(rules, s, e).Some? <==> Fits(rules[0], s, e) || FindRule(rules[1..], s, e).Some?;
      assert UniquePairs(rules) && Fits(rules[0], s, rules[0].event) ==> rules[0].event !in rest by {
        if i :| 0 <= i < |rules| - 1 && Fits(rules[1..][i], s, rules[0].event) {
          assert rules[i + 1] == rules[1..][i];
        }
      }
      if rules[0].from == s then [rules[0].event] + rest else rest
  }

  /** `at` are positions of rules that start in `s`, in rising order, and `es` their events. */
  predicate Offers(es: seq<RunEvent>, rules: seq<Rule>, s: RunState, at: seq<nat>) {
    && |at| == |es|
    && (forall k :: 0 <= k < |at| ==> at[k] < |rules| && rules[at[k]].from == s && rules[at[k]].event == es[k])
    && (forall j, k :: 0 <= j < k < |at| ==> at[j] < at[k])
  }

  predicate LeavesNoneOut(rules: seq<Rule>, s: RunState, at: seq<nat>) {
    forall i :: 0 <= i < |rules| && rules[i].from == s ==> i in at
  }

  /** The rules that start in a state offer their events, one each, in their own order. */
  ghost predicate InRuleOrder(es: seq<RunEvent>, rules: seq<Rule>, s: RunState) {
    exists at :: Offers(es, rules, s, at) && LeavesNoneOut(rules, s, at)
  }

  lemma {:induction false} OfferedAt(rules: seq<Rule>, s: RunState) returns (at: seq<nat>)
    ensures Offers(EventsFrom(rules, s), rules, s, at) && LeavesNoneOut(rules, s, at)
  {
    hide Offers, LeavesNoneOut;
    if rules == [] {
      at := [];
      NothingOffered(s);
    } else {
      var rest := OfferedAt(rules[1..], s);
      var later := seq(|rest|, k requires 0 <= k < |rest| => rest[k] + 1);
      at := if rules[0].from == s then [0] + later else later;
      OffersMore(rules, s, EventsFrom(rules[1..], s), rest, later);
      LeavesNoMoreOut(rules, s, rest, later);
    }
  }

  lemma NothingOffered(s: RunState)
    ensures Offers([], [], s, []) && LeavesNoneOut([], s, [])
  {
  }

  lemma OffersMore(rules: seq<Rule>, s: RunState, es: seq<RunEvent>, rest: seq<nat>, later: seq<nat>)
    requires rules != [] && Offers(es, rules[1..], s, rest)
    requires |later| == |rest| && forall k :: 0 <= k < |rest| ==> later[k] == rest[k] + 1
    ensures if rules[0].from == s then Offers([rules[0].event] + es, rules, s, [0] + later)
            else Offers(es, rules, s, later)
  {
    assert forall k :: 0 <= k < |rest| ==> rules[later[k]] == rules[1..][rest[k]];
  }

  lemma LeavesNoMoreOut(rules: seq<Rule>, s: RunState, rest: seq<nat>, later: seq<nat>)
    requires rules != [] && LeavesNoneOut(rules[1..], s, rest)
    requires |later| == |rest| && forall k :: 0 <= k < |rest| ==> later[k] == rest[k] + 1
    ensures LeavesNoneOut(rules, s, if rules[0].from == s then [0] + later else later)
  {
    forall i | 0 <= i < |rules| && rules[i].from == s ensures i in if rules[0].from == s then [0] + later else later {
      if i > 0 {
        assert rules[1..][i - 1] == rules[i];
        var k :| 0 <= k < |rest| && rest[k] == i - 1;
        assert later[k] in later;
      }
    }
  }

  /** Reading the rules in order, and no other way, gives the available events. */
  lemma AvailableInRuleOrder(m: Machine, s: RunState)
    ensures if Terminal(m, s) then AvailableEvents(m, s) == [] else InRuleOrder(AvailableEvents(m, s), m.rules, s)
  {
    hide Offers, LeavesNoneOut;
    var at := OfferedAt(m.rules, s);
  }

  class StateDriver {
    const machine: Machine
    var current: RunState
    var history: seq<TransitionRecord>

    ghost function State(): DriverState
      reads this
    {
      DriverState(current, history)
    }

    /** A new driver starts in Created, whatever the initial state of its machine is. */
    constructor (machine: Machine := DefaultMachine())
      ensures this.machine == machine && State() == DriverState(Created, [])
    {
      this.machine := machine;
      current := Created;
      history := [];
    }

    predicate IsTerminal()
      reads this
    {
      current in machine.terminals
    }

    method Available() returns (events: seq<RunEvent>)
      ensures events == AvailableEvents(machine, current)
      ensures if IsTerminal() then events == [] else InRuleOrder(events, machine.rules, current)
    {
      hide InRuleOrder;
      AvailableInRuleOrder(machine, current);
      events := [];
      if IsTerminal() {
        return;
      }
      for k := 0 to |machine.rules|
        invariant events + EventsFrom(machine.rules[k..], current) == EventsFrom(machine.rules, current)
      {
        if machine.rules[k].from == current {
          events := events + [machine.rules[k].event];
        }
      }
    }

    method Trigger(event: RunEvent, guards: map<string, bool> := map[]) returns (r: TriggerResult)
      modifies this
      ensures (State(), r) == Step(machine, old(State()), Call(event, guards))
    {
      if IsTerminal() {
        return Refused(InTerminalState);
      }
      var matches: seq<Rule> := [];
      for k := 0 to |machine.rules|
        invariant matches == [] ==> forall j :: 0 <= j < k ==> !Fits(machine.rules[j], current, event)
        invariant matches != [] ==> FindRule(machine.rules, current, event) == Some(matches[0])
      {
        if machine.rules[k].from == current && machine.rules[k].event == event {
          matches := matches + [machine.rules[k]];
        }
      }
      if matches == [] {
        return Refused(NoTransition);
      }
      var transition := matches[0];
      for k := 0 to |transition.guards|
        invariant unchanged(this)
        invariant forall j :: 0 <= j < k ==> !Rejects(guards, transition.guards[j])
      {
        var g := transition.guards[k];
        if g in guards && !guards[g] {
          history := history + [TransitionRecord(current, event, current, map[g := false], BlockedBy(g))];
          return Refused(GuardRejected(g));
        }
      }
      history := history + [TransitionRecord(current, event, transition.to, guards, Allowed)];
      current := transition.to;
      return Moved(current);
    }
  }
}
