/** Whole runs of a driver: any sequence of calls, legal or not, on any machine. */
module DriverRuns {
  import opened Text
  import opened StateMachine
  import opened Driver

  function Fresh(start: RunState := Created): DriverState {
    DriverState(start, [])
  }

  /** The driver after a sequence of calls; refused calls count too. */
  function Run(m: Machine, st: DriverState, calls: seq<Call>): DriverState {
    if calls == [] then st
    else Step(m, Run(m, st, calls[..|calls| - 1]), calls[|calls| - 1]).0
  }

  lemma StepOnlyWritesHistory(m: Machine, cur: RunState, h: seq<TransitionRecord>, k: seq<TransitionRecord>, c: Call)
    ensures var short := Step(m, DriverState(cur, k), c).0;
            Step(m, DriverState(cur, h + k), c).0 == DriverState(short.current, h + short.history)
  {
    var short := Step(m, DriverState(cur, k), c).0;
    if short.history != k {
      assert h + k + [short.history[|k|]] == h + short.history;
    }
  }

  /** The history is only written: what a run appends and where it ends depend on the current state alone. */
  lemma {:induction false} HistoryIsOnlyWritten(m: Machine, st: DriverState, calls: seq<Call>)
    ensures var alone := Run(m, Fresh(st.current), calls);
            Run(m, st, calls) == DriverState(alone.current, st.history + alone.history)
  {
    if calls != [] {
      var init := calls[..|calls| - 1];
      HistoryIsOnlyWritten(m, st, init);
      var alone := Run(m, Fresh(st.current), init);
      StepOnlyWritesHistory(m, alone.current, st.history, alone.history, calls[|calls| - 1]);
    }
  }

  // ---- which histories a run can produce ----

  /** What a record must satisfy to have been written in state `s`. */
  predicate LegalRecord(m: Machine, s: RunState, r: TransitionRecord) {
    && !Terminal(m, s)
    && r.from == s
    && var rule := FindRule(m.rules, s, r.event);
    && rule.Some?
    && match r.decision
       case Allowed => r.to == rule.value.to && forall g :: g in rule.value.guards ==> !Rejects(r.guardResults, g)
       case BlockedBy(g) => r.to == s && g in rule.value.guards && r.guardResults == map[g := false]
  }

  /** The state a history leads to. */
  function StateAfter(start: RunState, h: seq<TransitionRecord>): RunState {
    if h == [] then start else h[|h| - 1].to
  }

  /** Each record is legal in the state that the records before it lead to; so the records chain. */
  predicate LegalHistory(m: Machine, start: RunState, h: seq<TransitionRecord>) {
    h == [] ||
    (LegalHistory(m, start, h[..|h| - 1]) && LegalRecord(m, StateAfter(start, h[..|h| - 1]), h[|h| - 1]))
  }

  lemma {:induction false} LegalAt(m: Machine, start: RunState, h: seq<TransitionRecord>, i: nat)
    requires LegalHistory(m, start, h) && i < |h|
    ensures LegalHistory(m, start, h[..i]) && LegalRecord(m, StateAfter(start, h[..i]), h[i])
  {
    if i < |h| - 1 {
      LegalAt(m, start, h[..|h| - 1], i);
      assert h[..|h| - 1][..i] == h[..i];
    }
  }

  /** A call either leaves the driver alone or appends one legal record and follows it. */
  lemma StepIsLegal(m: Machine, st: DriverState, c: Call)
    ensures var next := Step(m, st, c).0;
            || next == st
            || (exists r: TransitionRecord ::
                  next == DriverState(r.to, st.history + [r]) && LegalRecord(m, st.current, r))
  {
    var next := Step(m, st, c).0;
    if next != st {
      var r := next.history[|st.history|];
      assert next == DriverState(r.to, st.history + [r]) && LegalRecord(m, st.current, r);
    }
  }

  /** Every run writes a legal history, which tells the current state. */
  lemma {:induction false} RunsAreLegal(m: Machine, start: RunState, calls: seq<Call>)
    ensures var st := Run(m, Fresh(start), calls);
            LegalHistory(m, start, st.history) && st.current == StateAfter(start, st.history)
  {
    if calls != [] {
      var before := Run(m, Fresh(start), calls[..|calls| - 1]);
      RunsAreLegal(m, start, calls[..|calls| - 1]);
      StepIsLegal(m, before, calls[|calls| - 1]);
      var after := Run(m, Fresh(start), calls);
      if r: TransitionRecord :|
        after == DriverState(r.to, before.history + [r]) && LegalRecord(m, before.current, r)
      {
        assert (before.history + [r])[..|before.history|] == before.history;
      }
    }
  }

  // ---- replay ----

  /** The calls a history records: each event with its recorded guard results. */
  function CallsOf(h: seq<TransitionRecord>): seq<Call> {
    seq(|h|, i requires 0 <= i < |h| => Call(h[i].event, h[i].guardResults))
  }

  /** A legal record is written again by its own event and guard results: a blocked one blocks on the same guard. */
  lemma RecordReplays(m: Machine, st: DriverState, r: TransitionRecord)
    requires LegalRecord(m, st.current, r)
    ensures Step(m, st, Call(r.event, r.guardResults)).0 == DriverState(r.to, st.history + [r])
  {
    var rule := FindRule(m.rules, st.current, r.event).value;
    var g := FirstRejecting(rule.guards, r.guardResults);
    if r.decision.BlockedBy? {
      assert Rejects(r.guardResults, r.decision.guard);
      assert g == Some(r.decision.guard);
    } else {
      assert g == None;
    }
  }

  /** Replaying a legal history reproduces it, blocked records included. */
  lemma {:induction false} LegalHistoriesReplay(m: Machine, start: RunState, h: seq<TransitionRecord>)
    requires LegalHistory(m, start, h)
    ensures Run(m, Fresh(start), CallsOf(h)) == DriverState(StateAfter(start, h), h)
  {
    if h != [] {
      var init, last := h[..|h| - 1], h[|h| - 1];
      LegalHistoriesReplay(m, start, init);
      RecordReplays(m, DriverState(StateAfter(start, init), init), last);
      assert CallsOf(h)[..|h| - 1] == CallsOf(init);
      assert init + [last] == h;
    }
  }

  /** Feeding a driver's own log to a fresh driver reproduces both the log and the current state. */
  lemma Replay(m: Machine, start: RunState, calls: seq<Call>)
    ensures var st := Run(m, Fresh(start), calls);
            Run(m, Fresh(start), CallsOf(st.history)) == st
  {
    RunsAreLegal(m, start, calls);
    LegalHistoriesReplay(m, start, Run(m, Fresh(start), calls).history);
  }

  /**
   * Replay decides genuineness: a log was written by some run exactly when it replays to itself,
   * exactly when its records are legal one by one.
   */
  lemma ReplayDecidesGenuineness(m: Machine, start: RunState, h: seq<TransitionRecord>)
    ensures (exists calls :: Run(m, Fresh(start), calls).history == h)
            <==> Run(m, Fresh(start), CallsOf(h)).history == h
    ensures Run(m, Fresh(start), CallsOf(h)).history == h <==> LegalHistory(m, start, h)
  {
    if calls :| Run(m, Fresh(start), calls).history == h {
      Replay(m, start, calls);
      RunsAreLegal(m, start, calls);
    }
    if LegalHistory(m, start, h) {
      LegalHistoriesReplay(m, start, h);
    }
  }

  // ---- counting moves ----

  datatype Query =
    | Moves | Of(event: RunEvent) | Into(to: RunState) | OutOf(from: RunState) | Edge(from: RunState, event: RunEvent)

  /** Only allowed records are moves. */
  predicate Hits(q: Query, r: TransitionRecord) {
    && r.decision.Allowed?
    && match q
       case Moves => true
       case Of(e) => r.event == e
       case Into(s) => r.to == s
       case OutOf(s) => r.from == s
       case Edge(s, e) => r.from == s && r.event == e
  }

  function Count(h: seq<TransitionRecord>, q: Query): nat {
    if h == [] then 0
    else Count(h[..|h| - 1], q) + if Hits(q, h[|h| - 1]) then 1 else 0
  }

  lemma CountAppend(h: seq<TransitionRecord>, r: TransitionRecord, q: Query)
    ensures Count(h + [r], q) == Count(h, q) + if Hits(q, r) then 1 else 0
  {
    assert (h + [r])[..|h|] == h;
  }

  function One(b: bool): nat { if b then 1 else 0 }

  /** Moves into a state, plus the start, balance moves out of it, plus the present. */
  lemma {:induction false} HistoryFlow(m: Machine, start: RunState, h: seq<TransitionRecord>, s: RunState)
    requires LegalHistory(m, start, h)
    ensures Count(h, Into(s)) + One(s == start) == Count(h, OutOf(s)) + One(s == StateAfter(start, h))
  {
    if h != [] {
      HistoryFlow(m, start, h[..|h| - 1], s);
    }
  }

  /** So they do for every run, refused and blocked calls included. */
  lemma {:induction false} FlowConservation(m: Machine, start: RunState, calls: seq<Call>, s: RunState)
    ensures var st := Run(m, Fresh(start), calls);
            Count(st.history, Into(s)) + One(s == start) == Count(st.history, OutOf(s)) + One(s == st.current)
  {
    RunsAreLegal(m, start, calls);
    HistoryFlow(m, start, Run(m, Fresh(start), calls).history, s);
  }

  /** No move leaves a terminal state. */
  lemma {:induction false} TerminalHasNoExit(m: Machine, start: RunState, h: seq<TransitionRecord>, s: RunState)
    requires LegalHistory(m, start, h) && Terminal(m, s)
    ensures Count(h, OutOf(s)) == 0
  {
    if h != [] {
      TerminalHasNoExit(m, start, h[..|h| - 1], s);
    }
  }

  /** Wherever a run is, but for its start, the last move brought it there; only blocked records follow. */
  lemma {:induction false} LastMove(m: Machine, start: RunState, h: seq<TransitionRecord>) returns (j: nat)
    requires LegalHistory(m, start, h) && StateAfter(start, h) != start
    ensures j < |h| && h[j].decision.Allowed? && h[j].to == StateAfter(start, h)
    ensures forall k :: j < k < |h| ==> h[k].decision.BlockedBy?
  {
    j := |h| - 1;
    if h[j].decision.BlockedBy? {
      j := LastMove(m, start, h[..|h| - 1]);
    }
  }

  // ---- progress ----

  /** When a call moves the driver, and what it writes when it does not. */
  lemma TriggerOutcome(m: Machine, st: DriverState, c: Call)
    ensures var (next, r) := Step(m, st, c);
            && (r.Moved? <==>
                c.event in AvailableEvents(m, st.current) &&
                forall g :: g in FindRule(m.rules, st.current, c.event).value.guards ==> !Rejects(c.guards, g))
            && (r == Refused(InTerminalState) <==> Terminal(m, st.current))
            && (r == Refused(NoTransition) <==> !Terminal(m, st.current) && c.event !in AvailableEvents(m, st.current))
            && (r.Refused? ==> next.current == st.current)
            && (next.history == st.history <==> r == Refused(InTerminalState) || r == Refused(NoTransition))
  {
    var next := Step(m, st, c).0;
    assert next.history != st.history ==> |next.history| == |st.history| + 1;
  }

  /** An event is available exactly when firing it without guard results succeeds; no event is offered twice. */
  lemma AvailableMeansFirable(m: Machine, st: DriverState, e: RunEvent)
    ensures e in AvailableEvents(m, st.current) <==> Step(m, st, Call(e)).1.Moved?
    ensures ValidMachine(m) ==> Distinct(AvailableEvents(m, st.current))
  {
    TriggerOutcome(m, st, Call(e));
  }

  /** A terminal driver never changes again. */
  lemma {:induction false} TerminalIsFinal(m: Machine, st: DriverState, calls: seq<Call>)
    requires Terminal(m, st.current)
    ensures Run(m, st, calls) == st
  {
    if calls != [] {
      TerminalIsFinal(m, st, calls[..|calls| - 1]);
    }
  }

  predicate Stuck(m: Machine, s: RunState) {
    !Terminal(m, s) && AvailableEvents(m, s) == []
  }

  lemma {:induction false} RunsStayInUse(m: Machine, start: RunState, calls: seq<Call>)
    requires Used(m, start)
    ensures Used(m, Run(m, Fresh(start), calls).current)
  {
    if calls != [] {
      RunsStayInUse(m, start, calls[..|calls| - 1]);
      var before := Run(m, Fresh(start), calls[..|calls| - 1]);
      var rule := FindRule(m.rules, before.current, calls[|calls| - 1].event);
      assert rule.Some? ==> Used(m, rule.value.to);
    }
  }

  lemma UsedIsNotStuck(m: Machine, s: RunState)
    requires ValidMachine(m) && Used(m, s)
    ensures !Stuck(m, s)
  {
    if !Terminal(m, s) {
      assert Outgoing(m, s);
      var r :| r in m.rules && r.from == s;
      assert Fits(r, s, r.event);
      assert r.event in AvailableEvents(m, s);
    }
  }

  /** A validated machine that starts in Created offers a new driver an event, and never leaves it stuck. */
  lemma StartsWhereItSays(m: Machine)
    requires ValidMachine(m) && m.initial == Created
    ensures NeverStuck(m) && AvailableEvents(m, Created) != []
  {
    ProgressIff(m);
    UsedIsNotStuck(m, Created);
  }

  lemma FirstIsMember(es: seq<RunEvent>)
    ensures es != [] ==> es[0] in es
  {
  }

  lemma UnusedIsStuck(m: Machine, s: RunState)
    requires !Used(m, s) && !Terminal(m, s)
    ensures Stuck(m, s)
  {
    var es := AvailableEvents(m, s);
    assert forall e :: FindRule(m.rules, s, e).None?;
    FirstIsMember(es);
  }

  /** No sequence of calls leaves a new driver stuck. */
  ghost predicate NeverStuck(m: Machine) {
    forall calls :: !Stuck(m, Run(m, Fresh(), calls).current)
  }

  /**
   * Progress. A driver starts in Created even when its validated machine starts elsewhere, so it is
   * safe from getting stuck exactly when Created is a terminal state or a used state of the machine.
   */
  lemma ProgressIff(m: Machine)
    requires ValidMachine(m)
    ensures NeverStuck(m) <==> Terminal(m, Created) || Used(m, Created)
  {
    if Terminal(m, Created) {
      forall calls ensures !Stuck(m, Run(m, Fresh(), calls).current) {
        TerminalIsFinal(m, Fresh(), calls);
      }
    } else if Used(m, Created) {
      forall calls ensures !Stuck(m, Run(m, Fresh(), calls).current) {
        RunsStayInUse(m, Created, calls);
        UsedIsNotStuck(m, Run(m, Fresh(), calls).current);
      }
    } else {
      UnusedIsStuck(m, Created);
      assert Run(m, Fresh(), []) == Fresh();
    }
  }

  /** A machine that passes every validator and leaves every new driver stuck at once. */
  lemma ValidMachineCanStrand()
    ensures var m := Machine("m", Verifying, [Succeeded], [Rule(Verifying, VerificationPassed, Succeeded)]);
            ValidMachine(m) && forall calls :: Run(m, Fresh(), calls) == Fresh() && Stuck(m, Created)
  {
    var rule := Rule(Verifying, VerificationPassed, Succeeded);
    var m := Machine("m", Verifying, [Succeeded], [rule]);
    assert rule in m.rules;
    assert forall r :: r in m.rules ==> r == rule;
    UnusedIsStuck(m, Created);
    forall calls ensures Run(m, Fresh(), calls) == Fresh() {
      StuckIsFinal(m, Fresh(), calls);
    }
  }

  lemma {:induction false} StuckIsFinal(m: Machine, st: DriverState, calls: seq<Call>)
    requires Stuck(m, st.current)
    ensures Run(m, st, calls) == st
  {
    if calls != [] {
      StuckIsFinal(m, st, calls[..|calls| - 1]);
      assert calls[|calls| - 1].event !in AvailableEvents(m, st.current);
    }
  }
}
