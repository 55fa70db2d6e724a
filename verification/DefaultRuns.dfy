/**
 * Whole runs of the default machine. Everything is stated for each machine that follows the
 * default table; StateMachine.DefaultFollowsTable says that the default machine is one.
 */
module DefaultRuns {
  import opened Text
  import opened StateMachine
  import opened Driver
  import opened DriverRuns

  function Log(m: Machine, calls: seq<Call>): seq<TransitionRecord> {
    Run(m, Fresh(), calls).history
  }

  function N(m: Machine, calls: seq<Call>, e: RunEvent): nat {
    Count(Log(m, calls), Of(e))
  }

  lemma TableRecord(m: Machine, s: RunState, r: TransitionRecord)
    requires FollowsTable(m) && LegalRecord(m, s, r)
    ensures r.decision.Allowed? ==> DefaultTarget(s, r.event) == Some(r.to)
    ensures r.decision.BlockedBy? ==> r.to == s
    ensures forall g :: g in DefaultGuards(r.event) && r.decision.Allowed? ==> !Rejects(r.guardResults, g)
  {
    assert FindRule(m.rules, s, r.event) == TableRule(s, r.event);
  }

  /** A call that the table allows, with no guard rejected, is one move. */
  lemma TableStep(m: Machine, st: DriverState, c: Call)
    requires FollowsTable(m) && DefaultTarget(st.current, c.event).Some?
    requires forall g :: g in DefaultGuards(c.event) ==> !Rejects(c.guards, g)
    ensures var to := DefaultTarget(st.current, c.event).value;
            var r := TransitionRecord(st.current, c.event, to, c.guards, Allowed);
            Step(m, st, c) == (DriverState(to, st.history + [r]), Moved(to))
  {
    assert FindRule(m.rules, st.current, c.event) == TableRule(st.current, c.event);
  }

  /** The two guards of the default table, by name; no other guard result ever matters. */
  lemma GuardsByName(m: Machine, st: DriverState, c: Call)
    requires FollowsTable(m) && DefaultTarget(st.current, c.event).Some?
    ensures Step(m, st, c).1 ==
            if c.event == RetryAllowed && "retry_budget_available" in c.guards && !c.guards["retry_budget_available"]
            then Refused(GuardRejected("retry_budget_available"))
            else if c.event == ApprovalGranted && "approval_granted_if_required" in c.guards
                    && !c.guards["approval_granted_if_required"]
            then Refused(GuardRejected("approval_granted_if_required"))
            else Moved(DefaultTarget(st.current, c.event).value)
  {
    assert FindRule(m.rules, st.current, c.event) == TableRule(st.current, c.event);
    assert DefaultGuards(c.event) == [] || DefaultGuards(c.event) == ["retry_budget_available"]
           || DefaultGuards(c.event) == ["approval_granted_if_required"];
  }

  // ---- termination ----

  /** The longest way to a terminal state that takes no retry. */
  function Rank(s: RunState): nat {
    match s
    case Created => 9
    case AssemblingPrompt => 8
    case ModelPending => 7
    case ModelCompleted => 6
    case ToolPending => 5
    case AwaitingApproval => 4
    case ToolRunning => 3
    case Verifying => 2
    case RetryPending => 1
    case _ => 0
  }

  lemma EdgeRank(s: RunState, e: RunEvent)
    requires DefaultTarget(s, e).Some?
    ensures Rank(DefaultTarget(s, e).value) + 1 <= Rank(s) + if e == RetryAllowed then 8 else 0
  {
  }

  /** Every move but an allowed retry lowers the rank. */
  lemma {:induction false} RankPaysForMoves(m: Machine, h: seq<TransitionRecord>)
    requires FollowsTable(m) && LegalHistory(m, Created, h)
    ensures Count(h, Moves) + Rank(StateAfter(Created, h)) <= 9 + 8 * Count(h, Of(RetryAllowed))
  {
    if h != [] {
      var init, last := h[..|h| - 1], h[|h| - 1];
      RankPaysForMoves(m, init);
      TableRecord(m, StateAfter(Created, init), last);
      if last.decision.Allowed? {
        EdgeRank(StateAfter(Created, init), last.event);
      }
    }
  }

  /** At most nine moves, and eight more for each allowed retry. */
  lemma MovesBounded(m: Machine, calls: seq<Call>)
    requires FollowsTable(m)
    ensures Count(Log(m, calls), Moves) <= 9 + 8 * N(m, calls, RetryAllowed)
  {
    RunsAreLegal(m, Created, calls);
    RankPaysForMoves(m, Log(m, calls));
  }

  /** The state that a sequence of events leads to through the table, if each of them has a rule. */
  function Follow(s: RunState, es: seq<RunEvent>): Option<RunState> {
    if es == [] then Some(s)
    else
      match Follow(s, es[..|es| - 1])
      case None => None
      case Some(t) => DefaultTarget(t, es[|es| - 1])
  }

  function AsCalls(es: seq<RunEvent>): seq<Call> {
    seq(|es|, i requires 0 <= i < |es| => Call(es[i]))
  }

  function Occurrences(es: seq<RunEvent>, e: RunEvent): nat {
    if es == [] then 0 else Occurrences(es[..|es| - 1], e) + One(es[|es| - 1] == e)
  }

  /** A path through the table is a run in which every call moves. */
  lemma {:induction false} PathMoves(m: Machine, es: seq<RunEvent>, e: RunEvent)
    requires FollowsTable(m) && Follow(Created, es).Some?
    ensures var st := Run(m, Fresh(), AsCalls(es));
            && st.current == Follow(Created, es).value
            && Count(st.history, Moves) == |es|
            && Count(st.history, Of(e)) == Occurrences(es, e)
  {
    if es != [] {
      var init, last := es[..|es| - 1], es[|es| - 1];
      PathMoves(m, init, e);
      assert AsCalls(es)[..|es| - 1] == AsCalls(init);
      var before := Run(m, Fresh(), AsCalls(init));
      TableStep(m, before, Call(last));
      var r := TransitionRecord(before.current, last, DefaultTarget(before.current, last).value, map[], Allowed);
      CountAppend(before.history, r, Moves);
      CountAppend(before.history, r, Of(e));
    }
  }

  lemma Append(es: seq<RunEvent>, e: RunEvent)
    ensures (es + [e])[..|es + [e]| - 1] == es
    ensures Occurrences(es + [e], RetryAllowed) == Occurrences(es, RetryAllowed) + One(e == RetryAllowed)
    ensures Follow(Created, es).Some? ==> Follow(Created, es + [e]) == DefaultTarget(Follow(Created, es).value, e)
  {
    assert (es + [e])[..|es + [e]| - 1] == es;
  }

  /** From the prompt to a retryable verification failure, the long way round. */
  function Lap(es: seq<RunEvent>): seq<RunEvent> {
    es + [PromptReady] + [ModelResponseReceived] + [ToolCallRequested] + [ApprovalRequired] + [ApprovalGranted]
    + [ToolCompleted] + [VerificationFailedRetryable]
  }

  lemma LapAdvances(es: seq<RunEvent>)
    requires Follow(Created, es) == Some(AssemblingPrompt)
    ensures Follow(Created, Lap(es)) == Some(RetryPending)
    ensures Occurrences(Lap(es), RetryAllowed) == Occurrences(es, RetryAllowed)
  {
    var e1 := es + [PromptReady];
    var e2 := e1 + [ModelResponseReceived];
    var e3 := e2 + [ToolCallRequested];
    var e4 := e3 + [ApprovalRequired];
    var e5 := e4 + [ApprovalGranted];
    var e6 := e5 + [ToolCompleted];
    Append(es, PromptReady);
    Append(e1, ModelResponseReceived);
    Append(e2, ToolCallRequested);
    Append(e3, ApprovalRequired);
    Append(e4, ApprovalGranted);
    Append(e5, ToolCompleted);
    Append(e6, VerificationFailedRetryable);
  }

  /** A run that fails verification after each of n retries. */
  function LongPath(n: nat): seq<RunEvent> {
    Lap(if n == 0 then [StartRun] else LongPath(n - 1) + [RetryAllowed])
  }

  lemma RetryLeadsBack()
    ensures DefaultTarget(RetryPending, RetryAllowed) == Some(AssemblingPrompt)
  {
  }

  lemma OneStep()
    ensures Follow(Created, [StartRun]) == Some(AssemblingPrompt) && Occurrences([StartRun], RetryAllowed) == 0
  {
    Append([], StartRun);
    assert [] + [StartRun] == [StartRun];
  }

  lemma {:induction false} LongPathLeads(n: nat)
    ensures Follow(Created, LongPath(n)) == Some(RetryPending)
    ensures |LongPath(n)| == 8 + 8 * n && Occurrences(LongPath(n), RetryAllowed) == n
  {
    hide Follow, Occurrences, DefaultTarget;
    if n == 0 {
      OneStep();
      LapAdvances([StartRun]);
    } else {
      LongPathLeads(n - 1);
      Append(LongPath(n - 1), RetryAllowed);
      RetryLeadsBack();
      LapAdvances(LongPath(n - 1) + [RetryAllowed]);
    }
  }

  /** The bound is met by some run for every number of retries. */
  lemma BoundIsTight(m: Machine, n: nat)
    requires FollowsTable(m)
    ensures exists calls :: N(m, calls, RetryAllowed) == n && Count(Log(m, calls), Moves) == 9 + 8 * n
  {
    LongPathLeads(n);
    Append(LongPath(n), CancelRun);
    var es := LongPath(n) + [CancelRun];
    PathMoves(m, es, RetryAllowed);
    assert N(m, AsCalls(es), RetryAllowed) == n;
  }

  /** Firing `c` after `before` would take one more retry than `max`; a caller can check this beforehand. */
  predicate Over(m: Machine, before: seq<Call>, c: Call, max: nat) {
    && c.event == RetryAllowed && Run(m, Fresh(), before).current == RetryPending
    && N(m, before, RetryAllowed) >= max && !Rejects(c.guards, RETRY_BUDGET)
  }

  predicate NeverOver(m: Machine, calls: seq<Call>, max: nat) {
    forall i :: 0 <= i < |calls| ==> !Over(m, calls[..i], calls[i], max)
  }

  lemma OtherEventsAddNothing(m: Machine, st: DriverState, c: Call, e: RunEvent)
    requires c.event != e
    ensures Count(Step(m, st, c).0.history, Of(e)) == Count(st.history, Of(e))
  {
    hide Count;
    var next := Step(m, st, c).0;
    if next.history != st.history {
      CountAppend(st.history, next.history[|st.history|], Of(e));
    }
  }

  lemma RetryRule(m: Machine, s: RunState)
    requires FollowsTable(m)
    ensures FindRule(m.rules, s, RetryAllowed) ==
            if s == RetryPending then Some(Rule(s, RetryAllowed, AssemblingPrompt, [RETRY_BUDGET])) else None
    ensures !Terminal(m, RetryPending)
  {
    assert FindRule(m.rules, s, RetryAllowed) == TableRule(s, RetryAllowed);
  }

  lemma RetryStep(m: Machine, st: DriverState, c: Call)
    requires FollowsTable(m) && c.event == RetryAllowed
    ensures Count(Step(m, st, c).0.history, Of(RetryAllowed)) ==
            Count(st.history, Of(RetryAllowed)) + One(st.current == RetryPending && !Rejects(c.guards, RETRY_BUDGET))
  {
    hide Count, FollowsTable, FindRule, Terminal;
    RetryRule(m, st.current);
    var next := Step(m, st, c).0;
    if next.history != st.history {
      var r := next.history[|st.history|];
      assert r.decision.Allowed? <==> !Rejects(c.guards, RETRY_BUDGET);
      CountAppend(st.history, r, Of(RetryAllowed));
    }
  }

  /** A call adds a retry when it asks for one where one is pending, and does not report the budget as spent. */
  lemma RetryAdds(m: Machine, before: seq<Call>, c: Call)
    requires FollowsTable(m)
    ensures N(m, before + [c], RetryAllowed) ==
            N(m, before, RetryAllowed)
            + One(c.event == RetryAllowed && Run(m, Fresh(), before).current == RetryPending
                  && !Rejects(c.guards, RETRY_BUDGET))
  {
    hide Count, FollowsTable, Step;
    var st := Run(m, Fresh(), before);
    assert (before + [c])[..|before|] == before;
    assert Run(m, Fresh(), before + [c]) == Step(m, st, c).0;
    if c.event == RetryAllowed {
      RetryStep(m, st, c);
    } else {
      OtherEventsAddNothing(m, st, c, RetryAllowed);
    }
  }

  lemma NeverOverAppend(m: Machine, before: seq<Call>, c: Call, max: nat)
    ensures NeverOver(m, before + [c], max) <==> NeverOver(m, before, max) && !Over(m, before, c, max)
  {
    hide Over;
    var calls: seq<Call> := before + [c];
    assert calls[..|before|] == before;
    assert forall i :: 0 <= i < |before| ==> calls[..i] == before[..i] && calls[i] == before[i];
    assert NeverOver(m, calls, max) ==> !Over(m, calls[..|before|], calls[|before|], max);
  }

  /**
   * A run takes at most `max` retries exactly when no call of it goes over the budget: none asks for a
   * retry where one is pending and `max` were allowed, unless it reports the budget as spent.
   */
  lemma {:induction false} BudgetIff(m: Machine, calls: seq<Call>, max: nat)
    requires FollowsTable(m)
    ensures N(m, calls, RetryAllowed) <= max <==> NeverOver(m, calls, max)
  {
    hide FollowsTable, N;
    if calls == [] {
      NoRetries(m);
    } else {
      var init, last := calls[..|calls| - 1], calls[|calls| - 1];
      assert init + [last] == calls;
      BudgetIff(m, init, max);
      RetryAdds(m, init, last);
      NeverOverAppend(m, init, last, max);
    }
  }

  lemma NoRetries(m: Machine)
    ensures N(m, [], RetryAllowed) == 0
  {
  }

  /** A caller that reports the retry budget as spent once `max` retries have been allowed. */
  predicate KeepsBudget(m: Machine, calls: seq<Call>, max: nat) {
    forall i :: 0 <= i < |calls| && calls[i].event == RetryAllowed && N(m, calls[..i], RetryAllowed) >= max
      ==> Rejects(calls[i].guards, RETRY_BUDGET)
  }

  /** Such a caller never goes over, so it gets at most `max` retries, hence at most 9 + 8 * max moves. */
  lemma BudgetHolds(m: Machine, calls: seq<Call>, max: nat)
    requires FollowsTable(m)
    ensures KeepsBudget(m, calls, max) ==> NeverOver(m, calls, max)
    ensures NeverOver(m, calls, max) ==>
              N(m, calls, RetryAllowed) <= max && Count(Log(m, calls), Moves) <= 9 + 8 * max
  {
    BudgetIff(m, calls, max);
    MovesBounded(m, calls);
  }

  // ---- accounting ----

  function By(h: seq<TransitionRecord>, e: RunEvent): nat {
    Count(h, Of(e))
  }

  /** The events that lead into a state. */
  function Feeds(s: RunState): seq<RunEvent> {
    match s
    case Created => []
    case AssemblingPrompt => [StartRun, RetryAllowed]
    case ModelPending => [PromptReady]
    case ModelCompleted => [ModelResponseReceived]
    case ToolPending => [ToolCallRequested]
    case ToolRunning => [ToolApprovedOrNotRequired, ApprovalGranted]
    case Verifying => [ToolCompleted, NoToolNeeded]
    case AwaitingApproval => [ApprovalRequired]
    case RetryPending => [ToolFailedRetryable, VerificationFailedRetryable]
    case Succeeded => [VerificationPassed]
    case Failed => [ApprovalRejected, VerificationFailedTerminal]
    case Cancelled => [CancelRun]
  }

  /** The events that lead out of a state, cancelling apart. */
  function Drains(s: RunState): seq<RunEvent> {
    match s
    case Created => [StartRun]
    case AssemblingPrompt => [PromptReady]
    case ModelPending => [ModelResponseReceived]
    case ModelCompleted => [ToolCallRequested, NoToolNeeded]
    case ToolPending => [ToolApprovedOrNotRequired, ApprovalRequired]
    case ToolRunning => [ToolCompleted, ToolFailedRetryable]
    case Verifying => [VerificationPassed, VerificationFailedRetryable, VerificationFailedTerminal]
    case AwaitingApproval => [ApprovalGranted, ApprovalRejected]
    case RetryPending => [RetryAllowed]
    case _ => []
  }

  function Total(h: seq<TransitionRecord>, es: seq<RunEvent>): nat {
    if es == [] then 0 else By(h, es[0]) + Total(h, es[1..])
  }

  lemma FeedsAreTargets(from: RunState, e: RunEvent, s: RunState)
    requires DefaultTarget(from, e).Some?
    ensures DefaultTarget(from, e).value == s <==> e in Feeds(s)
  {
  }

  lemma DrainsAreSources(from: RunState, e: RunEvent, s: RunState)
    requires DefaultTarget(from, e).Some?
    ensures from == s && e != CancelRun <==> e in Drains(s)
  {
  }

  lemma ListsAreDistinct(s: RunState)
    ensures Distinct(Feeds(s)) && Distinct(Drains(s))
  {
  }

  lemma {:induction false} TotalAppend(h: seq<TransitionRecord>, r: TransitionRecord, es: seq<RunEvent>)
    requires Distinct(es)
    ensures Total(h + [r], es) == Total(h, es) + One(r.decision.Allowed? && r.event in es)
  {
    if es != [] {
      CountAppend(h, r, Of(es[0]));
      TotalAppend(h, r, es[1..]);
      assert es == [es[0]] + es[1..];
    }
  }

  lemma NothingCounted()
    ensures forall q :: Count([], q) == 0
  {
  }

  lemma {:induction false} TotalOfNothing(es: seq<RunEvent>)
    ensures Total([], es) == 0
  {
    if es != [] {
      TotalOfNothing(es[1..]);
    }
  }

  /** The moves into and out of a state are those of its events. */
  lemma {:induction false} MovesByEvent(m: Machine, h: seq<TransitionRecord>, s: RunState)
    requires FollowsTable(m) && LegalHistory(m, Created, h)
    ensures Count(h, Into(s)) == Total(h, Feeds(s))
    ensures Count(h, OutOf(s)) == Total(h, Drains(s)) + Count(h, Edge(s, CancelRun))
  {
    hide FollowsTable, Feeds, Drains, Hits, Count, Total;
    if h == [] {
      NothingCounted();
      TotalOfNothing(Feeds(s));
      TotalOfNothing(Drains(s));
    } else {
      var init, last := h[..|h| - 1], h[|h| - 1];
      assert init + [last] == h;
      MovesByEvent(m, init, s);
      TableRecord(m, StateAfter(Created, init), last);
      CountAppend(init, last, Into(s));
      CountAppend(init, last, OutOf(s));
      CountAppend(init, last, Edge(s, CancelRun));
      ListsAreDistinct(s);
      TotalAppend(init, last, Feeds(s));
      TotalAppend(init, last, Drains(s));
      HitsByEvent(last, s);
    }
  }

  lemma HitsByEvent(r: TransitionRecord, s: RunState)
    requires r.decision.Allowed? ==> DefaultTarget(r.from, r.event) == Some(r.to)
    ensures Hits(Into(s), r) <==> r.decision.Allowed? && r.event in Feeds(s)
    ensures One(Hits(OutOf(s), r)) ==
            One(r.decision.Allowed? && r.event in Drains(s)) + One(Hits(Edge(s, CancelRun), r))
  {
    if r.decision.Allowed? {
      FeedsAreTargets(r.from, r.event, s);
      DrainsAreSources(r.from, r.event, s);
      assert CancelRun !in Drains(s);
    }
  }

  /** Double entry: the moves that entered a state are those that left it, unless it is where the run is. */
  predicate Balanced(h: seq<TransitionRecord>, current: RunState, s: RunState) {
    Total(h, Feeds(s)) + One(s == Created)
    == Total(h, Drains(s)) + Count(h, Edge(s, CancelRun)) + One(s == current)
  }

  lemma Ledger(m: Machine, calls: seq<Call>, s: RunState)
    requires FollowsTable(m)
    ensures Balanced(Log(m, calls), Run(m, Fresh(), calls).current, s)
    ensures Count(Log(m, calls), Into(s)) == Total(Log(m, calls), Feeds(s))
    ensures Terminal(m, s) ==> Count(Log(m, calls), Edge(s, CancelRun)) == 0
  {
    RunsAreLegal(m, Created, calls);
    if Terminal(m, s) {
      TerminalHasNoExit(m, Created, Log(m, calls), s);
    }
    FlowConservation(m, Created, calls, s);
    MovesByEvent(m, Log(m, calls), s);
  }

  lemma Sums(h: seq<TransitionRecord>, es: seq<RunEvent>)
    ensures |es| == 1 ==> Total(h, es) == By(h, es[0])
    ensures |es| == 2 ==> Total(h, es) == By(h, es[0]) + By(h, es[1])
    ensures |es| == 3 ==> Total(h, es) == By(h, es[0]) + By(h, es[1]) + By(h, es[2])
  {
    if |es| == 3 {
      assert Total(h, es[1..]) == By(h, es[1]) + Total(h, es[1..][1..]);
    }
  }

  /** The counts of a run: moves by event, cancellations by state, entries to ToolRunning, and where it is. */
  datatype Books = Books(n: RunEvent -> nat, cancels: RunState -> nat, toolEntries: nat, current: RunState)

  function BooksOf(m: Machine, calls: seq<Call>): Books {
    var h := Log(m, calls);
    Books(e => By(h, e), s => Count(h, Edge(s, CancelRun)), Count(h, Into(ToolRunning)), Run(m, Fresh(), calls).current)
  }

  /** What every run of the default machine keeps. */
  predicate RunAccounts(b: Books) {
    && b.toolEntries <= b.n(ToolCallRequested) <= b.n(ModelResponseReceived)
    && b.n(ModelResponseReceived) <= b.n(PromptReady) <= 1 + b.n(RetryAllowed)
    && b.n(ApprovalGranted) + b.n(ApprovalRejected) <= b.n(ApprovalRequired)
    && b.n(RetryAllowed) <= b.n(ToolFailedRetryable) + b.n(VerificationFailedRetryable)
    && b.n(StartRun) <= 1
    && b.n(VerificationPassed) + b.n(VerificationFailedTerminal) + b.n(ApprovalRejected) + b.n(CancelRun) <= 1
  }

  /** The accounts of a run that succeeded close exactly. */
  predicate SuccessAccounts(b: Books) {
    && b.n(StartRun) == b.n(VerificationPassed) == 1
    && b.n(CancelRun) == b.n(ApprovalRejected) == b.n(VerificationFailedTerminal) == 0
    && b.n(RetryAllowed) == b.n(ToolFailedRetryable) + b.n(VerificationFailedRetryable)
    && b.n(PromptReady) == b.n(ModelResponseReceived) == 1 + b.n(RetryAllowed)
    && b.n(ApprovalGranted) == b.n(ApprovalRequired)
    && b.toolEntries == b.n(ToolCallRequested)
  }

  lemma Accounting(m: Machine, calls: seq<Call>)
    requires FollowsTable(m)
    ensures RunAccounts(BooksOf(m, calls))
    ensures BooksOf(m, calls).current == Succeeded ==> SuccessAccounts(BooksOf(m, calls))
  {
    var b := BooksOf(m, calls);
    forall s ensures Row(b, s) && b.cancels(s) <= b.n(CancelRun) {
      RowOf(m, calls, b, s);
    }
    Ledger(m, calls, ToolRunning);
    Sums(Log(m, calls), Feeds(ToolRunning));
    RowsClose(b);
  }

  /** A balanced state, its sums written out. */
  predicate Row(b: Books, s: RunState) {
    var here := b.cancels(s) + One(s == b.current);
    match s
    case Created => 1 == b.n(StartRun) + here
    case AssemblingPrompt => b.n(StartRun) + b.n(RetryAllowed) == b.n(PromptReady) + here
    case ModelPending => b.n(PromptReady) == b.n(ModelResponseReceived) + here
    case ModelCompleted => b.n(ModelResponseReceived) == b.n(ToolCallRequested) + b.n(NoToolNeeded) + here
    case ToolPending => b.n(ToolCallRequested) == b.n(ToolApprovedOrNotRequired) + b.n(ApprovalRequired) + here
    case ToolRunning =>
      b.n(ToolApprovedOrNotRequired) + b.n(ApprovalGranted) == b.n(ToolCompleted) + b.n(ToolFailedRetryable) + here
    case Verifying =>
      b.n(ToolCompleted) + b.n(NoToolNeeded) ==
      b.n(VerificationPassed) + b.n(VerificationFailedRetryable) + b.n(VerificationFailedTerminal) + here
    case AwaitingApproval => b.n(ApprovalRequired) == b.n(ApprovalGranted) + b.n(ApprovalRejected) + here
    case RetryPending => b.n(ToolFailedRetryable) + b.n(VerificationFailedRetryable) == b.n(RetryAllowed) + here
    case Succeeded => b.n(VerificationPassed) == One(s == b.current)
    case Failed => b.n(ApprovalRejected) + b.n(VerificationFailedTerminal) == One(s == b.current)
    case Cancelled => b.n(CancelRun) == One(s == b.current)
  }

  lemma BalancedRow(h: seq<TransitionRecord>, b: Books, s: RunState)
    requires forall e :: b.n(e) == By(h, e)
    requires b.cancels(s) == Count(h, Edge(s, CancelRun)) && Balanced(h, b.current, s)
    requires s in [Succeeded, Failed, Cancelled] ==> b.cancels(s) == 0
    ensures Row(b, s)
  {
    Sums(h, Feeds(s));
    Sums(h, Drains(s));
  }

  lemma RunRowsClose(b: Books)
    requires Row(b, Created) && Row(b, AssemblingPrompt) && Row(b, ModelPending) && Row(b, ModelCompleted)
    requires Row(b, ToolPending) && Row(b, AwaitingApproval) && Row(b, RetryPending)
    requires Row(b, Succeeded) && Row(b, Failed) && Row(b, Cancelled)
    requires b.toolEntries == b.n(ToolApprovedOrNotRequired) + b.n(ApprovalGranted)
    ensures RunAccounts(b)
  {
  }

  lemma SuccessRowsClose(b: Books)
    requires Row(b, Created) && Row(b, AssemblingPrompt) && Row(b, ModelPending)
    requires Row(b, ToolPending) && Row(b, AwaitingApproval) && Row(b, RetryPending)
    requires Row(b, Succeeded) && Row(b, Failed) && Row(b, Cancelled) && b.current == Succeeded
    requires forall s :: b.cancels(s) <= b.n(CancelRun)
    requires b.toolEntries == b.n(ToolApprovedOrNotRequired) + b.n(ApprovalGranted)
    ensures SuccessAccounts(b)
  {
  }

  lemma RowOf(m: Machine, calls: seq<Call>, b: Books, s: RunState)
    requires FollowsTable(m) && b == BooksOf(m, calls)
    ensures Row(b, s) && b.cancels(s) <= b.n(CancelRun)
  {
    Ledger(m, calls, s);
    BalancedRow(Log(m, calls), b, s);
    EdgeWithinEvent(Log(m, calls), s, CancelRun);
  }

  lemma RowsClose(b: Books)
    requires forall s :: Row(b, s) && b.cancels(s) <= b.n(CancelRun)
    requires b.toolEntries == b.n(ToolApprovedOrNotRequired) + b.n(ApprovalGranted)
    ensures RunAccounts(b)
    ensures b.current == Succeeded ==> SuccessAccounts(b)
  {
    RunRowsClose(b);
    if b.current == Succeeded {
      SuccessRowsClose(b);
    }
  }

  /** A cancellation from one state is a cancellation. */
  lemma {:induction false} EdgeWithinEvent(h: seq<TransitionRecord>, s: RunState, e: RunEvent)
    ensures Count(h, Edge(s, e)) <= Count(h, Of(e))
  {
    if h != [] {
      EdgeWithinEvent(h[..|h| - 1], s, e);
    }
  }

  // ---- approval ----

  /** Record j asks for the tool that record i starts, and nothing but blocked attempts lies between. */
  predicate Authorises(h: seq<TransitionRecord>, j: nat, i: nat) {
    && j < i < |h|
    && h[j].decision.Allowed?
    && (forall k :: j < k < i ==> h[k].decision.BlockedBy?)
    && if h[i].event == ApprovalGranted
       then h[j].event == ApprovalRequired && !Rejects(h[i].guardResults, APPROVAL_GATE)
       else h[i].event == ToolApprovedOrNotRequired && h[j].event == ToolCallRequested
  }

  lemma WaysIntoTheTool(s: RunState, e: RunEvent)
    requires DefaultTarget(s, e).Some?
    ensures DefaultTarget(s, e).value == ToolRunning ==>
              (s == AwaitingApproval && e == ApprovalGranted) || (s == ToolPending && e == ToolApprovedOrNotRequired)
    ensures DefaultTarget(s, e).value == ToolPending ==> e == ToolCallRequested
    ensures DefaultTarget(s, e).value == AwaitingApproval ==> e == ApprovalRequired
  {
  }

  lemma LegalMove(m: Machine, h: seq<TransitionRecord>, i: nat)
    requires FollowsTable(m) && LegalHistory(m, Created, h) && i < |h| && h[i].decision.Allowed?
    ensures h[i].from == StateAfter(Created, h[..i]) && DefaultTarget(h[i].from, h[i].event) == Some(h[i].to)
    ensures h[i].event == ApprovalGranted ==> !Rejects(h[i].guardResults, APPROVAL_GATE)
  {
    LegalAt(m, Created, h, i);
    TableRecord(m, StateAfter(Created, h[..i]), h[i]);
    assert APPROVAL_GATE in DefaultGuards(ApprovalGranted);
  }

  lemma EntryIsAuthorised(m: Machine, h: seq<TransitionRecord>, i: nat) returns (j: nat)
    requires FollowsTable(m) && LegalHistory(m, Created, h)
    requires i < |h| && Hits(Into(ToolRunning), h[i])
    ensures Authorises(h, j, i)
  {
    hide FollowsTable, LegalHistory;
    LegalMove(m, h, i);
    WaysIntoTheTool(h[i].from, h[i].event);
    LegalAt(m, Created, h, i);
    j := LastMove(m, Created, h[..i]);
    LegalMove(m, h, j);
    WaysIntoTheTool(h[j].from, h[j].event);
    assert forall k :: j < k < i ==> h[k] == h[..i][k];
  }

  /** No tool runs unasked: the move before each entry to ToolRunning is its request. */
  lemma ToolEntriesAreAuthorised(m: Machine, calls: seq<Call>, i: nat)
    requires FollowsTable(m)
    requires i < |Log(m, calls)| && Hits(Into(ToolRunning), Log(m, calls)[i])
    ensures exists j :: Authorises(Log(m, calls), j, i)
  {
    RunsAreLegal(m, Created, calls);
    var j := EntryIsAuthorised(m, Log(m, calls), i);
  }
}
