/** The run state machine: its validators and its default transition table. */
module StateMachine {
  import opened Text

  datatype RunState =
    | Created | AssemblingPrompt | ModelPending | ModelCompleted | ToolPending | ToolRunning
    | Verifying | AwaitingApproval | RetryPending | Succeeded | Failed | Cancelled

  datatype RunEvent =
    | StartRun | PromptReady | ModelResponseReceived | ToolCallRequested | NoToolNeeded
    | ToolApprovedOrNotRequired | ApprovalRequired | ApprovalGranted | ApprovalRejected
    | ToolCompleted | ToolFailedRetryable | VerificationPassed | VerificationFailedRetryable
    | VerificationFailedTerminal | RetryAllowed | CancelRun

  /** A guarded transition; a guard is known by its name. */
  datatype Rule = Rule(from: RunState, event: RunEvent, to: RunState, guards: seq<string> := [])

  datatype Machine = Machine(id: string, initial: RunState, terminals: seq<RunState>, rules: seq<Rule>)

  // ---- what a validated machine satisfies ----

  predicate Terminal(m: Machine, s: RunState) {
    s in m.terminals
  }

  predicate Outgoing(m: Machine, s: RunState) {
    exists r | r in m.rules :: r.from == s
  }

  predicate Used(m: Machine, s: RunState) {
    s == m.initial || exists r | r in m.rules :: r.from == s || r.to == s
  }

  predicate Distinct<T(==)>(s: seq<T>) {
    forall i, j :: 0 <= i < j < |s| ==> s[i] != s[j]
  }

  predicate UniquePairs(rules: seq<Rule>) {
    forall i, j :: 0 <= i < j < |rules| ==> rules[i].from != rules[j].from || rules[i].event != rules[j].event
  }

  ghost predicate NoDeadEnds(m: Machine) {
    forall s :: Used(m, s) && !Terminal(m, s) ==> Outgoing(m, s)
  }

  ghost predicate ValidMachine(m: Machine) {
    && Trimmed(m.id)
    && !Terminal(m, m.initial)
    && Distinct(m.terminals)
    && UniquePairs(m.rules)
    && NoDeadEnds(m)
  }

  // ---- the validators, in the order in which they run ----

  datatype MachineError = BlankId | InitialIsTerminal | RepeatedTerminal | RepeatedPair | DeadEnd

  datatype Validated = Accepted(machine: Machine) | Rejected(error: MachineError)

  lemma {:induction false} SetSizeIsDistinctness<T>(s: seq<T>)
    ensures |set x | x in s| <= |s|
    ensures |set x | x in s| == |s| <==> Distinct(s)
  {
    if s != [] {
      var init, last := s[..|s| - 1], s[|s| - 1];
      SetSizeIsDistinctness(init);
      assert s == init + [last];
      var xs := set x | x in init;
      assert (set x | x in s) == xs + {last};
      if last in init {
        assert xs + {last} == xs;
        assert !Distinct(s);
      } else if Distinct(init) {
        assert forall i, j :: 0 <= i < j < |s| ==> s[i] != s[j];
      }
    }
  }

  /** Grows the set of (state, event) pairs seen so far and stops at the first repetition. */
  method HasUniquePairs(rules: seq<Rule>) returns (unique: bool)
    ensures unique <==> UniquePairs(rules)
  {
    var seen: set<(RunState, RunEvent)> := {};
    for k := 0 to |rules|
      invariant UniquePairs(rules[..k])
      invariant forall s, e :: (s, e) in seen <==> exists i :: 0 <= i < k && rules[i].from == s && rules[i].event == e
    {
      var key := (rules[k].from, rules[k].event);
      if key in seen {
        return false;
      }
      seen := seen + {key};
    }
    assert rules[..|rules|] == rules;
    return true;
  }

  method Validate(raw: Machine) returns (v: Validated)
    ensures v.Accepted? <==> ValidMachine(raw.(id := Strip(raw.id)))
    ensures v.Accepted? ==> v.machine == raw.(id := Strip(raw.id))
    ensures v.Rejected? ==>
              v.error == if Blank(raw.id) then BlankId
                         else if Terminal(raw, raw.initial) then InitialIsTerminal
                         else if !Distinct(raw.terminals) then RepeatedTerminal
                         else if !UniquePairs(raw.rules) then RepeatedPair
                         else DeadEnd
  {
    var m := raw.(id := Strip(raw.id));
    if m.id == "" {
      return Rejected(BlankId);
    }
    if m.initial in m.terminals {
      return Rejected(InitialIsTerminal);
    }
    SetSizeIsDistinctness(m.terminals);
    if |set s | s in m.terminals| != |m.terminals| {
      return Rejected(RepeatedTerminal);
    }
    var unique := HasUniquePairs(m.rules);
    if !unique {
      return Rejected(RepeatedPair);
    }
    var withOutgoing := set r | r in m.rules :: r.from;
    var used := {m.initial} + (set r | r in m.rules :: r.from) + (set r | r in m.rules :: r.to);
    var missing := set s | s in used && s !in m.terminals && s !in withOutgoing;
    assert forall s :: s in used <==> Used(m, s);
    assert forall s :: s in withOutgoing <==> Outgoing(m, s);
    assert forall s :: s in missing <==> Used(m, s) && !Terminal(m, s) && !Outgoing(m, s);
    if missing != {} {
      return Rejected(DeadEnd);
    }
    return Accepted(m);
  }

  // ---- rule lookup ----

  predicate Fits(r: Rule, s: RunState, e: RunEvent) {
    r.from == s && r.event == e
  }

  /** The first rule for a state and an event. */
  function FindRule(rules: seq<Rule>, s: RunState, e: RunEvent): (r: Option<Rule>)
    ensures r.Some? ==> r.value in rules && Fits(r.value, s, e)
    ensures r.None? ==> forall q :: q in rules ==> !Fits(q, s, e)
    ensures forall i :: 0 <= i < |rules| && Fits(rules[i], s, e) && (forall j :: 0 <= j < i ==> !Fits(rules[j], s, e))
              ==> r == Some(rules[i])
  {
    if rules == [] then None
    else if Fits(rules[0], s, e) then Some(rules[0])
    else
      assert forall i :: 1 <= i < |rules| ==> rules[i] == rules[1..][i - 1];
      FindRule(rules[1..], s, e)
  }

  // ---- the default machine ----

  const RETRY_BUDGET := "retry_budget_available"
  const APPROVAL_GATE := "approval_granted_if_required"

  /** The rules that move a run forward. */
  function WorkRules(): seq<Rule> {
    [ Rule(Created, StartRun, AssemblingPrompt),
      Rule(AssemblingPrompt, PromptReady, ModelPending),
      Rule(ModelPending, ModelResponseReceived, ModelCompleted),
      Rule(ModelCompleted, ToolCallRequested, ToolPending),
      Rule(ModelCompleted, NoToolNeeded, Verifying),
      Rule(ToolPending, ToolApprovedOrNotRequired, ToolRunning),
      Rule(ToolPending, ApprovalRequired, AwaitingApproval),
      Rule(AwaitingApproval, ApprovalGranted, ToolRunning, [APPROVAL_GATE]),
      Rule(AwaitingApproval, ApprovalRejected, Failed),
      Rule(ToolRunning, ToolCompleted, Verifying),
      Rule(ToolRunning, ToolFailedRetryable, RetryPending),
      Rule(Verifying, VerificationPassed, Succeeded),
      Rule(Verifying, VerificationFailedRetryable, RetryPending),
      Rule(Verifying, VerificationFailedTerminal, Failed),
      Rule(RetryPending, RetryAllowed, AssemblingPrompt, [RETRY_BUDGET]) ]
  }

  /** A run can be cancelled from every non-terminal state. */
  function CancelRules(): seq<Rule> {
    [ Rule(Created, CancelRun, Cancelled),
      Rule(AssemblingPrompt, CancelRun, Cancelled),
      Rule(ModelPending, CancelRun, Cancelled),
      Rule(ModelCompleted, CancelRun, Cancelled),
      Rule(ToolPending, CancelRun, Cancelled),
      Rule(ToolRunning, CancelRun, Cancelled),
      Rule(Verifying, CancelRun, Cancelled),
      Rule(AwaitingApproval, CancelRun, Cancelled),
      Rule(RetryPending, CancelRun, Cancelled) ]
  }

  function DefaultRules(): seq<Rule> {
    WorkRules() + CancelRules()
  }

  function DefaultMachine(id: string := "harness-v1"): Machine {
    Machine(id, Created, [Succeeded, Failed, Cancelled], DefaultRules())
  }

  /** Where an event leads from a state of the default machine, read as a table. */
  function DefaultTarget(s: RunState, e: RunEvent): Option<RunState> {
    match e
    case CancelRun => if s.Succeeded? || s.Failed? || s.Cancelled? then None else Some(Cancelled)
    case StartRun => if s.Created? then Some(AssemblingPrompt) else None
    case PromptReady => if s.AssemblingPrompt? then Some(ModelPending) else None
    case ModelResponseReceived => if s.ModelPending? then Some(ModelCompleted) else None
    case ToolCallRequested => if s.ModelCompleted? then Some(ToolPending) else None
    case NoToolNeeded => if s.ModelCompleted? then Some(Verifying) else None
    case ToolApprovedOrNotRequired => if s.ToolPending? then Some(ToolRunning) else None
    case ApprovalRequired => if s.ToolPending? then Some(AwaitingApproval) else None
    case ApprovalGranted => if s.AwaitingApproval? then Some(ToolRunning) else None
    case ApprovalRejected => if s.AwaitingApproval? then Some(Failed) else None
    case ToolCompleted => if s.ToolRunning? then Some(Verifying) else None
    case ToolFailedRetryable => if s.ToolRunning? then Some(RetryPending) else None
    case VerificationPassed => if s.Verifying? then Some(Succeeded) else None
    case VerificationFailedRetryable => if s.Verifying? then Some(RetryPending) else None
    case VerificationFailedTerminal => if s.Verifying? then Some(Failed) else None
    case RetryAllowed => if s.RetryPending? then Some(AssemblingPrompt) else None
  }

  function DefaultGuards(e: RunEvent): seq<string> {
    if e.ApprovalGranted? then [APPROVAL_GATE] else if e.RetryAllowed? then [RETRY_BUDGET] else []
  }

  /** The rule the table holds for a state and an event. */
  function TableRule(s: RunState, e: RunEvent): Option<Rule> {
    match DefaultTarget(s, e)
    case None => None
    case Some(to) => Some(Rule(s, e, to, DefaultGuards(e)))
  }

  /** A machine whose rule list says exactly what the default table says. */
  ghost predicate FollowsTable(m: Machine) {
    && m.initial == Created
    && m.terminals == [Succeeded, Failed, Cancelled]
    && forall s, e :: FindRule(m.rules, s, e) == TableRule(s, e)
  }

  lemma WorkRuleInTable(i: nat)
    requires i < |WorkRules()|
    ensures var r := WorkRules()[i]; TableRule(r.from, r.event) == Some(r) && !r.event.CancelRun?
  {
  }

  lemma CancelRuleInTable(i: nat)
    requires i < |CancelRules()|
    ensures var r := CancelRules()[i]; TableRule(r.from, r.event) == Some(r) && r.event.CancelRun?
  {
  }

  lemma RuleInTable(r: Rule)
    requires r in DefaultRules()
    ensures TableRule(r.from, r.event) == Some(r)
  {
    if i :| 0 <= i < |WorkRules()| && WorkRules()[i] == r {
      WorkRuleInTable(i);
    } else {
      var i :| 0 <= i < |CancelRules()| && CancelRules()[i] == r;
      CancelRuleInTable(i);
    }
  }

  lemma TableRuleListed(s: RunState, e: RunEvent)
    requires TableRule(s, e).Some?
    ensures TableRule(s, e).value in DefaultRules()
  {
    assert TableRule(s, e).value in if e.CancelRun? then CancelRules() else WorkRules();
  }

  /** The rule list of the default machine and the table agree on every state and event. */
  lemma DefaultFollowsTable(id: string)
    ensures FollowsTable(DefaultMachine(id))
  {
    forall s, e ensures FindRule(DefaultRules(), s, e) == TableRule(s, e) {
      Lookup(DefaultRules(), s, e);
    }
  }

  lemma Lookup(rules: seq<Rule>, s: RunState, e: RunEvent)
    requires rules == DefaultRules()
    ensures FindRule(rules, s, e) == TableRule(s, e)
  {
    var found := FindRule(rules, s, e);
    if found.Some? {
      RuleInTable(found.value);
    } else if TableRule(s, e).Some? {
      TableRuleListed(s, e);
    }
  }

  /** Each event but the last, CancelRun, has one rule; the rules are listed in the order of the events. */
  function Position(e: RunEvent): nat {
    match e
    case StartRun => 0 case PromptReady => 1 case ModelResponseReceived => 2 case ToolCallRequested => 3
    case NoToolNeeded => 4 case ToolApprovedOrNotRequired => 5 case ApprovalRequired => 6
    case ApprovalGranted => 7 case ApprovalRejected => 8 case ToolCompleted => 9
    case ToolFailedRetryable => 10 case VerificationPassed => 11 case VerificationFailedRetryable => 12
    case VerificationFailedTerminal => 13 case RetryAllowed => 14 case CancelRun => 15
  }

  lemma WorkRulePosition(i: nat)
    requires i < |WorkRules()|
    ensures Position(WorkRules()[i].event) == i
  {
  }

  lemma WorkPairsUnique(work: seq<Rule>)
    requires work == WorkRules()
    ensures UniquePairs(work)
  {
    forall i | 0 <= i < |work| ensures Position(work[i].event) == i {
      WorkRulePosition(i);
    }
  }

  lemma CancelPairsUnique()
    ensures UniquePairs(CancelRules())
  {
  }

  lemma DefaultPairsUnique(work: seq<Rule>, cancel: seq<Rule>)
    requires work == WorkRules() && cancel == CancelRules()
    ensures UniquePairs(work + cancel)
  {
    WorkPairsUnique(work);
    CancelPairsUnique();
    forall i | 0 <= i < |work| ensures !work[i].event.CancelRun? {
      WorkRuleInTable(i);
    }
    forall i | 0 <= i < |cancel| ensures cancel[i].event.CancelRun? {
      CancelRuleInTable(i);
    }
  }

  /** In a machine that follows the table, a state is terminal exactly when no rule leaves it. */
  lemma TableHasNoDeadEnds(m: Machine)
    requires FollowsTable(m)
    ensures NoDeadEnds(m)
    ensures forall s :: Terminal(m, s) <==> !Outgoing(m, s)
  {
    forall s ensures Terminal(m, s) <==> !Outgoing(m, s) {
      if Outgoing(m, s) {
        var r :| r in m.rules && r.from == s;
        assert Fits(r, s, r.event) && FindRule(m.rules, s, r.event) == TableRule(s, r.event);
      } else {
        assert FindRule(m.rules, s, CancelRun) == TableRule(s, CancelRun);
      }
    }
  }

  lemma TableMachineValid(m: Machine)
    requires FollowsTable(m) && UniquePairs(m.rules) && Trimmed(m.id)
    ensures ValidMachine(m)
  {
    TableHasNoDeadEnds(m);
  }

  /** The default machine passes every validator. */
  lemma DefaultMachineValid(id: string)
    requires Trimmed(id)
    ensures ValidMachine(DefaultMachine(id))
  {
    DefaultPairsUnique(WorkRules(), CancelRules());
    DefaultFollowsTable(id);
    TableMachineValid(DefaultMachine(id));
  }
}
