/** The pipeline executor: one run, from prompt to verdict, around a single call of a tool or a model. */
module Pipeline {
  import opened Text
  import opened Trace
  import opened Result
  import opened Inputs
  import opened Promise
  import SM = StateMachine
  import D = Driver
  import R = DriverRuns
  import DR = DefaultRuns

  // ---- safety ----

  /** The first rule for the tool decides; a tool without a rule is allowed at low risk. */
  function MakeSafetyDecision(tool: string, rules: seq<RiskRule>): (d: SafetyDecision)
    ensures forall i :: 0 <= i < |rules| && rules[i].actionName == tool
                        && (forall j :: 0 <= j < i ==> rules[j].actionName != tool)
              ==> d == SafetyDecision(rules[i].riskLevel, rules[i].action)
    ensures (forall r :: r in rules ==> r.actionName != tool) ==> d == SafetyDecision(Low, Allow)
  {
    if rules == [] then SafetyDecision(Low, Allow)
    else if rules[0].actionName == tool then SafetyDecision(rules[0].riskLevel, rules[0].action)
    else
      assert forall i :: 1 <= i < |rules| ==> rules[i] == rules[1..][i - 1];
      MakeSafetyDecision(tool, rules[1..])
  }

  function ToolName(oracle: Oracle): string {
    if oracle.Provider? then "model_generate" else "mock_tool"
  }

  /** What the policy, if there is one, decides about the tool. */
  function DecisionFor(input: PipelineInput, oracle: Oracle): Option<SafetyDecision> {
    if input.policy.None? then None else Some(MakeSafetyDecision(ToolName(oracle), input.policy.value))
  }

  function ActionFor(input: PipelineInput, oracle: Oracle): SafetyAction {
    if input.policy.None? then Allow else MakeSafetyDecision(ToolName(oracle), input.policy.value).action
  }

  // ---- the outcome, worked out without a driver ----

  datatype Reply = Got(result: ToolResult, ok: bool) | NoResult

  function InvocationFor(input: PipelineInput, oracle: Oracle, approval: ApprovalState): ToolInvocation {
    ToolInvocation(ToolName(oracle), Strip(input.contract.taskId), Strip(input.modelName), approval)
  }

  /** What the oracle's answer becomes; a provider that fails without a message yields no valid result. */
  function Interpret(oracle: Oracle, invocation: ToolInvocation, goal: string): Reply {
    match oracle
    case Executor(execute) =>
      (match execute(invocation)
       case Threw => NoResult
       case Returned(result) => Got(result, result.status == ToolSuccess))
    case Provider(generate) =>
      match generate(goal)
      case Answered(content, model, reason) =>
        var output := map["content" := content, "model" := model, "finish_reason" := reason];
        Got(ToolResult(ToolSuccess, Some(output), [], None), true)
      case Failed(message) =>
        if message == "" then NoResult else Got(ToolResult(ToolError, Some(map[]), [], Some(message)), false)
  }

  function OutputText(judge: Judge, result: ToolResult): string {
    if result.output.Some? then judge.render(result.output.value) else ""
  }

  /** A criterion's check is named by its target, or by its kind when the target is empty. */
  predicate Nameable(c: Criterion) {
    c.target == "" || !Blank(c.target)
  }

  datatype Ending =
    | NoPrompt | NoInvocation | PolicyStop | ToolThrew | ToolFailure | BadCriterion | Verified | Unverified

  /** How a run ends that gets as far as its tool. */
  function ToolEnding(input: PipelineInput, oracle: Oracle, judge: Judge): Ending {
    var invocation := RunInvocation(input, oracle);
    match Interpret(oracle, invocation, input.contract.goal)
    case NoResult => ToolThrew
    case Got(result, ok) =>
      if !ok then ToolFailure
      else if exists c :: c in input.contract.criteria && !Nameable(c) then BadCriterion
      else if forall c :: c in input.contract.criteria ==> judge.passes(c, OutputText(judge, result)) then Verified
      else Unverified
  }

  function EndingOf(input: PipelineInput, oracle: Oracle, judge: Judge): Ending {
    if Blank(input.contract.taskId) || Blank(input.runId) || Blank(input.contract.userRequest) then NoPrompt
    else if Blank(input.modelName) then NoInvocation
    else if ActionFor(input, oracle) == Block then PolicyStop
    else ToolEnding(input, oracle, judge)
  }

  predicate Raises(e: Ending) {
    e in {NoPrompt, NoInvocation, ToolThrew, BadCriterion}
  }

  /** What a raising run raises; no event is refused on the default table, so never DriverRefused. */
  function CauseOf(e: Ending, oracle: Oracle): Cause {
    if e == ToolThrew && oracle.Executor? then ToolRaised else InvalidModel
  }

  /** The error of a failed tool, or a fixed message when it gives none. */
  function ErrorOf(result: ToolResult): Option<string> {
    if Truthy(result.error) then result.error else Some("execution failed")
  }

  function RunError(e: Ending, input: PipelineInput, oracle: Oracle): Option<string> {
    if e != ToolFailure then None
    else
      match Interpret(oracle, RunInvocation(input, oracle), input.contract.goal)
      case Got(result, _) => ErrorOf(result)
      case NoResult => None
  }

  function AuthorisingEvents(action: SafetyAction): seq<SM.RunEvent> {
    match action
    case Block => [SM.ApprovalRequired, SM.ApprovalRejected]
    case RequireApproval => [SM.ApprovalRequired, SM.ApprovalGranted]
    case Allow => [SM.ToolApprovedOrNotRequired]
  }

  /** The events a run fires, up to where it ends. */
  function EventsOf(e: Ending, action: SafetyAction): seq<SM.RunEvent> {
    [SM.StartRun]
    + (if e.NoPrompt? then [] else ADVANCE)
    + (if e.NoPrompt? || e.NoInvocation? then [] else AuthorisingEvents(action))
    + ClosingEvents(e)
  }

  const ADVANCE := [SM.PromptReady, SM.ModelResponseReceived, SM.ToolCallRequested]

  function ClosingEvents(e: Ending): seq<SM.RunEvent> {
    match e
    case ToolFailure => [SM.ToolFailedRetryable]
    case BadCriterion => [SM.ToolCompleted]
    case Verified => [SM.ToolCompleted, SM.VerificationPassed]
    case Unverified => [SM.ToolCompleted, SM.VerificationFailedTerminal]
    case _ => []
  }

  function FinalState(e: Ending): SM.RunState {
    match e
    case NoPrompt => SM.AssemblingPrompt
    case NoInvocation => SM.ToolPending
    case PolicyStop => SM.Failed
    case ToolThrew => SM.ToolRunning
    case ToolFailure => SM.RetryPending
    case BadCriterion => SM.Verifying
    case Verified => SM.Succeeded
    case Unverified => SM.Failed
  }

  /** What counts about a step, its invocation and the tool's result apart. */
  datatype StepView = StepView(
    stepType: StepType, status: Status, latency: Option<real>, invoked: bool, hasResult: bool,
    policy: Option<PolicyOutcome> := None, verification: Option<Status> := None, retried: bool := false)

  function View(step: StepResult): StepView {
    StepView(step.stepType, step.status, step.latency, step.invocation.Some?, step.toolResult.Some?,
             match step.policy case Some(t) => Some(t.outcome) case None => None,
             match step.verification case Some(t) => Some(t.status) case None => None,
             step.retry.Some?)
  }

  /** The steps of a run that returns. */
  function StepsOf(e: Ending, input: PipelineInput, oracle: Oracle): seq<StepView> {
    [StepView(PromptAssembly, Success, Some(0.1), false, false)]
    + [PolicyView(input, oracle)]
    + (match e
       case ToolFailure => [StepView(ToolExecution, Failure, Some(0.2), true, true)]
       case Verified => [StepView(ToolExecution, Success, Some(0.2), true, true), VerificationView(Success)]
       case Unverified => [StepView(ToolExecution, Success, Some(0.2), true, true), VerificationView(Failure)]
       case _ => [])
  }

  function VerificationView(status: Status): StepView {
    StepView(Verification, status, Some(0.15), false, false, verification := Some(status))
  }

  // ---- firing events ----

  function CallOf(e: SM.RunEvent): D.Call {
    D.Call(e, if e == SM.ApprovalGranted then map[SM.APPROVAL_GATE := true] else map[])
  }

  function CallsOf(es: seq<SM.RunEvent>): seq<D.Call> {
    seq(|es|, i requires 0 <= i < |es| => CallOf(es[i]))
  }

  /** The driver after a run has fired some events. */
  function After(m: SM.Machine, start: D.DriverState, fired: seq<SM.RunEvent>): D.DriverState {
    R.Run(m, start, CallsOf(fired))
  }

  lemma AfterOneMore(m: SM.Machine, start: D.DriverState, fired: seq<SM.RunEvent>, e: SM.RunEvent)
    ensures After(m, start, fired + [e]) == D.Step(m, After(m, start, fired), CallOf(e)).0
  {
    assert CallsOf(fired + [e])[..|fired|] == CallsOf(fired);
  }

  /** Whatever a run appends to the driver's history is a legal run of the driver's machine. */
  lemma AppendsLegalRun(m: SM.Machine, start: D.DriverState, fired: seq<SM.RunEvent>)
    ensures var h, after := start.history, After(m, start, fired);
            && h <= after.history
            && R.LegalHistory(m, start.current, after.history[|h|..])
            && after.current == R.StateAfter(start.current, after.history[|h|..])
  {
    R.HistoryIsOnlyWritten(m, start, CallsOf(fired));
    R.RunsAreLegal(m, start.current, CallsOf(fired));
    var alone := R.Run(m, R.Fresh(start.current), CallsOf(fired));
    assert (start.history + alone.history)[|start.history|..] == alone.history;
  }

  /** Whether one more event, after those fired, moves the driver. */
  predicate WouldMove(m: SM.Machine, start: D.DriverState, fired: seq<SM.RunEvent>, e: SM.RunEvent) {
    D.Step(m, After(m, start, fired), CallOf(e)).1.Moved?
  }

  /** Fires events one after the other, up to the first that is refused; says whether all of them moved. */
  function Attempt(m: SM.Machine, start: D.DriverState, fired: seq<SM.RunEvent>, es: seq<SM.RunEvent>)
    : (seq<SM.RunEvent>, bool)
    decreases |es|
  {
    if es == [] then (fired, true)
    else if WouldMove(m, start, fired, es[0]) then Attempt(m, start, fired + [es[0]], es[1..])
    else (fired + [es[0]], false)
  }

  /** What firing events writes when none of them is refused: one allowed record for each. */
  predicate Writes(before: seq<D.TransitionRecord>, es: seq<SM.RunEvent>, after: seq<D.TransitionRecord>) {
    && before <= after && |after| == |before| + |es|
    && forall i :: 0 <= i < |es| ==> Records(after[|before| + i], es[i])
  }

  /** An allowed record of an event; only granting an approval passes a guard result. */
  predicate Records(r: D.TransitionRecord, e: SM.RunEvent) {
    && r.event == e && r.decision == D.Allowed
    && r.guardResults == (if e == SM.ApprovalGranted then map["approval_granted_if_required" := true] else map[])
  }

  /** Events that the default table allows one after the other are all recorded as allowed. */
  lemma {:induction false} TablePathWrites(m: SM.Machine, start: D.DriverState, es: seq<SM.RunEvent>)
    requires SM.FollowsTable(m) && DR.Follow(start.current, es).Some?
    ensures After(m, start, es).current == DR.Follow(start.current, es).value
    ensures Writes(start.history, es, After(m, start, es).history)
  {
    hide SM.FollowsTable, SM.DefaultTarget;
    if es != [] {
      var init, last := es[..|es| - 1], es[|es| - 1];
      TablePathWrites(m, start, init);
      assert es == init + [last];
      AfterOneMore(m, start, init, last);
      ApprovalIsCalled(last);
      var before := After(m, start, init);
      DR.TableStep(m, before, CallOf(last));
      var to := SM.DefaultTarget(before.current, last).value;
      WritesOneMore(start.history, init, before.history,
                    D.TransitionRecord(before.current, last, to, CallOf(last).guards, D.Allowed));
    } else {
      NothingFired(m, start);
    }
  }

  lemma RecordsItsCall(r: D.TransitionRecord)
    requires r.decision == D.Allowed && r.guardResults == CallOf(r.event).guards
    ensures Records(r, r.event)
  {
  }

  lemma WritesOneMore(before: seq<D.TransitionRecord>, es: seq<SM.RunEvent>, h: seq<D.TransitionRecord>,
                      r: D.TransitionRecord)
    requires Writes(before, es, h) && r.decision == D.Allowed && r.guardResults == CallOf(r.event).guards
    ensures Writes(before, es + [r.event], h + [r])
  {
    RecordsItsCall(r);
    hide Records;
  }

  /** The calls of a run map no guard to false. */
  lemma ApprovalIsCalled(e: SM.RunEvent)
    ensures forall g :: g in SM.DefaultGuards(e) ==> !D.Rejects(CallOf(e).guards, g)
  {
  }

  lemma {:induction false} FollowConcat(s: SM.RunState, a: seq<SM.RunEvent>, b: seq<SM.RunEvent>)
    requires DR.Follow(s, a).Some?
    ensures DR.Follow(s, a + b) == DR.Follow(DR.Follow(s, a).value, b)
  {
    hide SM.DefaultTarget;
    if b == [] {
      assert a + b == a;
    } else {
      FollowConcat(s, a, b[..|b| - 1]);
      assert (a + b)[..|a + b| - 1] == a + b[..|b| - 1];
    }
  }

  lemma FollowOne(s: SM.RunState, e: SM.RunEvent)
    ensures DR.Follow(s, [e]) == SM.DefaultTarget(s, e)
  {
    hide SM.DefaultTarget;
    assert [e][..0] == [];
  }

  lemma FollowTwo(s: SM.RunState, e: SM.RunEvent, f: SM.RunEvent)
    requires SM.DefaultTarget(s, e).Some?
    ensures DR.Follow(s, [e, f]) == SM.DefaultTarget(SM.DefaultTarget(s, e).value, f)
  {
    hide SM.DefaultTarget;
    FollowOne(s, e);
    FollowOne(SM.DefaultTarget(s, e).value, f);
    FollowConcat(s, [e], [f]);
    assert [e] + [f] == [e, f];
  }

  lemma OpeningLeads()
    ensures DR.Follow(SM.Created, [SM.StartRun]) == Some(SM.AssemblingPrompt)
    ensures DR.Follow(SM.AssemblingPrompt, ADVANCE) == Some(SM.ToolPending)
  {
    FollowOne(SM.Created, SM.StartRun);
    FollowTwo(SM.AssemblingPrompt, SM.PromptReady, SM.ModelResponseReceived);
    FollowOne(SM.ModelCompleted, SM.ToolCallRequested);
    FollowConcat(SM.AssemblingPrompt, [SM.PromptReady, SM.ModelResponseReceived], [SM.ToolCallRequested]);
    assert [SM.PromptReady, SM.ModelResponseReceived] + [SM.ToolCallRequested] == ADVANCE;
  }

  lemma AuthorisingLeads(action: SafetyAction)
    ensures DR.Follow(SM.ToolPending, AuthorisingEvents(action)) ==
            Some(if action == Block then SM.Failed else SM.ToolRunning)
  {
    match action
    case Block => FollowTwo(SM.ToolPending, SM.ApprovalRequired, SM.ApprovalRejected);
    case RequireApproval => FollowTwo(SM.ToolPending, SM.ApprovalRequired, SM.ApprovalGranted);
    case Allow => FollowOne(SM.ToolPending, SM.ToolApprovedOrNotRequired);
  }

  lemma ClosingLeads(e: Ending)
    requires e !in {NoPrompt, NoInvocation, PolicyStop}
    ensures DR.Follow(SM.ToolRunning, ClosingEvents(e)) == Some(FinalState(e))
  {
    match e
    case ToolThrew =>
    case ToolFailure => FollowOne(SM.ToolRunning, SM.ToolFailedRetryable);
    case BadCriterion => FollowOne(SM.ToolRunning, SM.ToolCompleted);
    case Verified => FollowTwo(SM.ToolRunning, SM.ToolCompleted, SM.VerificationPassed);
    case Unverified => FollowTwo(SM.ToolRunning, SM.ToolCompleted, SM.VerificationFailedTerminal);
  }

  /** The events of every ending lead through the default table from Created to its final state. */
  lemma EventsLead(e: Ending, action: SafetyAction)
    requires e !in {NoPrompt, NoInvocation} ==> (e == PolicyStop <==> action == Block)
    ensures DR.Follow(SM.Created, EventsOf(e, action)) == Some(FinalState(e))
  {
    hide DR.Follow, AuthorisingEvents, ClosingEvents;
    var start, middle, closing := [SM.StartRun], AuthorisingEvents(action), ClosingEvents(e);
    OpeningLeads();
    FollowConcat(SM.Created, start, ADVANCE);
    AuthorisingLeads(action);
    FollowConcat(SM.Created, start + ADVANCE, middle);
    if e !in {NoPrompt, NoInvocation, PolicyStop} {
      ClosingLeads(e);
      FollowConcat(SM.Created, start + ADVANCE + middle, closing);
    } else {
      NothingCloses(e);
      assert start + [] + [] + [] == start && start + ADVANCE + [] + [] == start + ADVANCE;
      assert start + ADVANCE + middle + [] == start + ADVANCE + middle;
    }
  }

  lemma NothingCloses(e: Ending)
    requires e in {NoPrompt, NoInvocation, PolicyStop}
    ensures ClosingEvents(e) == []
  {
  }

  predicate MovedBy(before: D.DriverState, e: SM.RunEvent, after: D.DriverState) {
    var r := D.TransitionRecord(before.current, e, after.current, CallOf(e).guards, D.Allowed);
    after.history == before.history + [r]
  }

  /** Fires one event; on a machine that follows the table, an event that the table allows moves the driver. */
  method Fire(driver: D.StateDriver, e: SM.RunEvent, ghost start: D.DriverState, ghost fired: seq<SM.RunEvent>)
    returns (moved: bool)
    requires driver.State() == After(driver.machine, start, fired)
    modifies driver
    ensures driver.State() == After(driver.machine, start, fired + [e])
    ensures old(driver.history) <= driver.history
    ensures moved == WouldMove(driver.machine, start, fired, e)
    ensures !moved ==> driver.current == old(driver.current)
    ensures moved ==> MovedBy(old(driver.State()), e, driver.State())
    ensures (SM.FollowsTable(driver.machine) && SM.DefaultTarget(old(driver.current), e).Some?) ==>
              moved && driver.current == SM.DefaultTarget(old(driver.current), e).value
  {
    ghost var before := driver.State();
    AfterOneMore(driver.machine, start, fired, e);
    if SM.FollowsTable(driver.machine) && SM.DefaultTarget(before.current, e).Some? {
      DR.TableStep(driver.machine, before, CallOf(e));
    }
    var r: D.TriggerResult;
    if e == SM.ApprovalGranted {
      r := driver.Trigger(e, map[SM.APPROVAL_GATE := true]);
    } else {
      r := driver.Trigger(e);
    }
    moved := r.Moved?;
  }

  // ---- what every run keeps ----

  function ApprovalBy(action: SafetyAction): ApprovalState {
    if action == RequireApproval then Pending else NotRequired
  }

  /** The invocation of a run, as its steps and its call of the oracle carry it. */
  function RunInvocation(input: PipelineInput, oracle: Oracle): ToolInvocation {
    InvocationFor(input, oracle, ApprovalBy(ActionFor(input, oracle)))
  }

  predicate PolicyStep(step: StepResult, input: PipelineInput, oracle: Oracle) {
    && View(step) == PolicyView(input, oracle)
    && step.index == 1 && step.finished
    && step.invocation == Some(RunInvocation(input, oracle)) && step.decision == DecisionFor(input, oracle)
  }

  function PolicyView(input: PipelineInput, oracle: Oracle): StepView {
    match ActionFor(input, oracle)
    case Block => StepView(PolicyCheck, Status.Blocked, Some(0.05), true, false, Some(PolicyBlocked))
    case RequireApproval => StepView(Approval, Success, Some(0.05), true, false, Some(RequiredApproval))
    case Allow =>
      if input.policy.None? then StepView(PolicyCheck, Skipped, Some(0.01), true, false, Some(PolicyOutcome.Allowed))
      else StepView(PolicyCheck, Success, Some(0.05), true, false, Some(PolicyOutcome.Allowed))
  }

  predicate StopsAtPolicy(p: PipelineResult, input: PipelineInput, oracle: Oracle) {
    |p.steps| == 2 && p.steps[0] == PROMPT_STEP && PolicyStep(p.steps[1], input, oracle) && p.error.None?
  }

  /** What a returned result says about the run it describes. */
  ghost predicate Faithful(o: RunOutcome, input: PipelineInput, current: SM.RunState) {
    o.Completed? ==>
      var p := o.result;
      && p.runId == input.runId && p.trace.runId == Strip(input.runId)
      && p.taskId == input.contract.taskId && p.trace.taskId == Strip(input.contract.taskId)
      && p.terminalState == current
      && ValidThroughout(p.trace) && SummaryAgrees(p.trace) && TellsAll(p.trace.steps, p.steps)
      && p.trace.summary.value.toolCalls == CountIf(p.steps, HasInvocation)
      && Verdicts(p, current, p.error)
  }

  lemma NothingFired(m: SM.Machine, start: D.DriverState)
    ensures After(m, start, []) == start
  {
    assert CallsOf([]) == [];
  }

  lemma RaisedIsFaithful(input: PipelineInput, current: SM.RunState)
    ensures forall c :: Faithful(Raised(c), input, current)
  {
  }

  predicate Started(before: seq<D.TransitionRecord>, after: seq<D.TransitionRecord>) {
    && |before| < |after| && before <= after
    && after[|before|].event == SM.StartRun && after[|before|].decision == D.Allowed
  }

  lemma AttemptThree(m: SM.Machine, start: D.DriverState, fired: seq<SM.RunEvent>)
    ensures var one := fired + [SM.PromptReady];
            var two := one + [SM.ModelResponseReceived];
            var three := two + [SM.ToolCallRequested];
            Attempt(m, start, fired, ADVANCE) ==
            if !WouldMove(m, start, fired, SM.PromptReady) then (one, false)
            else if !WouldMove(m, start, one, SM.ModelResponseReceived) then (two, false)
            else (three, WouldMove(m, start, two, SM.ToolCallRequested))
  {
    hide WouldMove;
    var one := fired + [SM.PromptReady];
    var two := one + [SM.ModelResponseReceived];
    var last := [SM.ToolCallRequested];
    assert ADVANCE[1..] == [SM.ModelResponseReceived] + last && ([SM.ModelResponseReceived] + last)[1..] == last;
    assert Attempt(m, start, two, last) == (two + last, WouldMove(m, start, two, SM.ToolCallRequested));
  }

  /** Advances to the tool, stopping at the first event that is refused. */
  method Advance(driver: D.StateDriver, ghost start: D.DriverState, ghost fired0: seq<SM.RunEvent>)
    returns (moved: bool, ghost fired: seq<SM.RunEvent>)
    requires driver.State() == After(driver.machine, start, fired0)
    modifies driver
    ensures driver.State() == After(driver.machine, start, fired)
    ensures old(driver.history) <= driver.history
    ensures (fired, moved) == Attempt(driver.machine, start, fired0, ADVANCE)
    ensures (SM.FollowsTable(driver.machine) && old(driver.current) == SM.AssemblingPrompt) ==>
              moved && driver.current == SM.ToolPending
              && fired == fired0 + [SM.PromptReady] + [SM.ModelResponseReceived] + [SM.ToolCallRequested]
  {
    hide After, WouldMove, SM.FollowsTable;
    AttemptThree(driver.machine, start, fired0);
    moved := Fire(driver, SM.PromptReady, start, fired0);
    fired := fired0 + [SM.PromptReady];
    if moved {
      moved := Fire(driver, SM.ModelResponseReceived, start, fired);
      fired := fired + [SM.ModelResponseReceived];
    }
    if moved {
      moved := Fire(driver, SM.ToolCallRequested, start, fired);
      fired := fired + [SM.ToolCallRequested];
    }
  }

  const PROMPT_STEP := StepResult(0, PromptAssembly, Success, true, Some(0.1))

  function ToolStep(invocation: ToolInvocation, result: ToolResult, ok: bool): StepResult {
    StepResult(2, ToolExecution, if ok then Success else Failure, true, Some(0.2), invocation := Some(invocation),
               toolResult := Some(result), error := if ok then None else result.error)
  }

  function VerificationStep(pass: bool): StepResult {
    var status := if pass then Success else Failure;
    StepResult(3, Verification, status, true, Some(0.15), verification := Some(VerificationTrace("all_checks", status)))
  }

  lemma ToolStepWellFormed(input: PipelineInput, oracle: Oracle, result: ToolResult, ok: bool)
    ensures WellFormed(ToolStep(RunInvocation(input, oracle), result, ok))
  {
    assert "mock_tool"[0] == 'm' && "model_generate"[0] == 'm';
  }

  lemma StepsWellNumbered(input: PipelineInput, oracle: Oracle, policyStep: StepResult, toolStep: StepResult)
    requires PolicyStep(policyStep, input, oracle)
    requires toolStep.index == 2 && WellFormed(toolStep)
    ensures WellNumbered([PROMPT_STEP, policyStep, toolStep])
  {
  }

  lemma StepsBuildable(input: PipelineInput, oracle: Oracle, policyStep: StepResult, result: ToolResult)
    requires !Blank(input.contract.taskId) && !Blank(input.runId)
    requires PolicyStep(policyStep, input, oracle)
    ensures var toolStep := ToolStep(RunInvocation(input, oracle), result, true);
            Buildable(input.runId, input.contract.taskId, [PROMPT_STEP, policyStep, toolStep])
  {
    hide PolicyStep, WellFormed, WellNumbered;
    ToolStepWellFormed(input, oracle, result, true);
    StepsWellNumbered(input, oracle, policyStep, ToolStep(RunInvocation(input, oracle), result, true));
  }

  predicate FailsAtTool(p: PipelineResult, policyStep: StepResult, invocation: ToolInvocation, result: ToolResult) {
    p.steps == [PROMPT_STEP, policyStep, ToolStep(invocation, result, false)]
  }

  function Shape(steps: seq<StepResult>): seq<StepView> {
    seq(|steps|, i requires 0 <= i < |steps| => View(steps[i]))
  }

  /** The steps carry the invocation of the run and what the oracle gave for it. */
  predicate Carry(steps: seq<StepResult>, input: PipelineInput, oracle: Oracle) {
    && (|steps| > 1 ==>
          steps[1].invocation == Some(RunInvocation(input, oracle)) && steps[1].decision == DecisionFor(input, oracle))
    && (|steps| > 2 ==>
          var reply := Interpret(oracle, RunInvocation(input, oracle), input.contract.goal);
          && steps[2].invocation == Some(RunInvocation(input, oracle))
          && reply.Got? && steps[2].toolResult == Some(reply.result)
          && steps[2].error == if reply.ok then None else reply.result.error)
    && (|steps| > 3 ==> steps[3].verification.Some? && steps[3].verification.value.checkName == "all_checks")
  }

  /** A run from Created on the default table that ends in a given way. */
  predicate EndsAs(e: Ending, input: PipelineInput, oracle: Oracle, o: RunOutcome, fired: seq<SM.RunEvent>,
                   current: SM.RunState, oracleCalls: int) {
    && fired == EventsOf(e, ActionFor(input, oracle))
    && current == FinalState(e)
    && oracleCalls == (if e in {NoPrompt, NoInvocation, PolicyStop} then 0 else 1)
    && (o.Raised? <==> Raises(e))
    && (o.Raised? ==> o.cause == CauseOf(e, oracle))
    && (o.Completed? ==>
          && Shape(o.result.steps) == StepsOf(e, input, oracle)
          && Carry(o.result.steps, input, oracle)
          && o.result.error == RunError(e, input, oracle)
          && (Truthy(o.result.error) <==> e == ToolFailure))
  }

  /** The flags, the verdict, the final state and the counters of a returned result tell the same story. */
  predicate Agrees(p: PipelineResult, e: Ending, oracleCalls: int) {
    && p.terminalState in {SM.Succeeded, SM.Failed, SM.RetryPending}
    && (p.success <==> e == Verified)
    && (p.terminalState == SM.Succeeded <==> e == Verified)
    && (p.trace.terminalStatus == Success <==> e == Verified)
    && (p.benchmark.verdict == Pass <==> e == Verified)
    && (p.trace.terminalStatus == Status.Blocked <==> e == PolicyStop)
    && (p.benchmark.safetyViolations == 0 <==> e != PolicyStop)
    && (p.benchmark.verificationPassed <==> e in {Verified, PolicyStop})
    && p.trace.summary.Some? && p.trace.summary.value.toolCalls == 1 + oracleCalls
  }

  lemma ShapeStatuses(steps: seq<StepResult>, shape: seq<StepView>, s: Status)
    requires Shape(steps) == shape
    ensures NoneWith(steps, s) <==> forall i :: 0 <= i < |shape| ==> shape[i].status != s
  {
    assert |shape| == |steps| && forall i :: 0 <= i < |steps| ==> shape[i].status == steps[i].status;
  }

  lemma StatusesOf(e: Ending, input: PipelineInput, oracle: Oracle)
    requires !Raises(e) && (e == PolicyStop <==> ActionFor(input, oracle) == Block)
    ensures var shape := StepsOf(e, input, oracle);
            && (e == PolicyStop <==> exists i :: 0 <= i < |shape| && shape[i].status == Status.Blocked)
            && (e in {ToolFailure, Unverified} <==> exists i :: 0 <= i < |shape| && shape[i].status == Failure)
            && |shape| == (if e == PolicyStop then 2 else if e == ToolFailure then 3 else 4)
  {
    var shape := StepsOf(e, input, oracle);
    assert shape[1] == PolicyView(input, oracle) && shape[0].status == Success;
    if e != PolicyStop {
      assert shape[2].status == if e == ToolFailure then Failure else Success;
    }
    if e in {Verified, Unverified} {
      assert shape[3].status == if e == Verified then Success else Failure;
    }
  }

  predicate Shows(t: StepTrace, v: StepView) {
    && t.status == v.status && t.latency == v.latency && t.tool.Some? == (v.invoked && v.hasResult)
    && TraceHasPolicy(t) == v.policy.Some? && TraceHasPolicyBlock(t) == (v.policy == Some(PolicyBlocked))
    && TraceHasVerification(t) == v.verification.Some?
    && TraceHasVerificationFailure(t) == (v.verification == Some(Failure)) && TraceHasRetry(t) == v.retried
  }

  /** The trace shows of each step what its view does. */
  lemma ViewsInTrace(traces: seq<StepTrace>, steps: seq<StepResult>, i: nat)
    requires TellsAll(traces, steps) && i < |steps|
    ensures Shows(traces[i], Shape(steps)[i]) && HasInvocation(steps[i]) == Shape(steps)[i].invoked
  {
    hide TellsTool;
    assert Tells(traces[i], steps[i]);
  }

  /** The views of a run that returns, position by position. */
  lemma ViewsOf(e: Ending, input: PipelineInput, oracle: Oracle, shape: seq<StepView>)
    requires !Raises(e) && (e == PolicyStop <==> ActionFor(input, oracle) == Block)
    requires shape == StepsOf(e, input, oracle)
    ensures |shape| == (if e == PolicyStop then 2 else if e == ToolFailure then 3 else 4)
    ensures shape[0] == StepView(PromptAssembly, Success, Some(0.1), false, false)
    ensures shape[1] == PolicyView(input, oracle)
    ensures |shape| > 2 ==>
              shape[2] == StepView(ToolExecution, if e == ToolFailure then Failure else Success, Some(0.2), true, true)
    ensures |shape| > 3 ==> shape[3] == VerificationView(if e == Verified then Success else Failure)
  {
    hide PolicyView, VerificationView, ActionFor;
  }

  lemma PolicyViewOf(input: PipelineInput, oracle: Oracle)
    ensures var v, action := PolicyView(input, oracle), ActionFor(input, oracle);
            && v.invoked && !v.hasResult && !v.retried && v.verification.None?
            && (action == Block ==> input.policy.Some?)
            && v.latency == Some(if input.policy.Some? then 0.05 else 0.01)
            && v.status == (if action == Block then Status.Blocked else if input.policy.Some? then Success else Skipped)
            && v.policy == Some(if Stopped(input, oracle) then PolicyBlocked
                                else if NeedsApproval(input, oracle) then RequiredApproval else Allowed)
  {
    ActionByName(input, oracle);
  }

  /** Counts taken over the trace are those of the views. */
  lemma CountedByView(t: seq<StepTrace>, shape: seq<StepView>, p: StepTrace -> bool, q: StepView -> bool)
    requires 2 <= |shape| <= 4 && |t| == |shape|
    requires forall i :: 0 <= i < |t| ==> p(t[i]) == q(shape[i])
    ensures CountIf(t, p) == OneIf(q(shape[0])) + OneIf(q(shape[1]))
                             + OneIf(|shape| > 2 && q(shape[2])) + OneIf(|shape| > 3 && q(shape[3]))
  {
    CountIfMapped(t, shape, p, q);
    FewCounted(shape, q);
  }

  predicate ViewBlocked(v: StepView) { v.status == Status.Blocked }
  predicate ViewFailed(v: StepView) { v.status == Failure }
  predicate ViewSucceeded(v: StepView) { v.status == Success }
  predicate ViewHasPolicy(v: StepView) { v.policy.Some? }
  predicate ViewHasPolicyBlock(v: StepView) { v.policy == Some(PolicyBlocked) }
  predicate ViewVerifies(v: StepView) { v.verification.Some? }
  predicate ViewFailsVerification(v: StepView) { v.verification == Some(Failure) }
  predicate ViewRetried(v: StepView) { v.retried }

  lemma StatusesCounted(e: Ending, input: PipelineInput, oracle: Oracle, p: PipelineResult, shape: seq<StepView>)
    requires !Raises(e) && (e == PolicyStop <==> ActionFor(input, oracle) == Block)
    requires p.success <==> e == Verified
    requires shape == StepsOf(e, input, oracle) && shape == Shape(p.steps)
    requires TellsAll(p.trace.steps, p.steps) && SummaryAgrees(p.trace)
    ensures var s, n := p.trace.summary.value, |p.steps|;
            && s.blocked == OneIf(n == 2) && s.failed == OneIf(n > 2 && !p.success)
            && s.successful == n - OneIf(input.policy.None?) - s.blocked - s.failed
  {
    hide StepsOf, PolicyView, ActionFor, TellsAll, Tells, View, CountIf, SumLatency, Stopped, NeedsApproval;
    var t := p.trace.steps;
    ViewsOf(e, input, oracle, shape);
    PolicyViewOf(input, oracle);
    ActionByName(input, oracle);
    AllShown(t, p.steps, shape);
    CountedByView(t, shape, HasStatus(Status.Blocked), ViewBlocked);
    CountedByView(t, shape, HasStatus(Failure), ViewFailed);
    CountedByView(t, shape, HasStatus(Success), ViewSucceeded);
  }

  lemma PolicyCounted(e: Ending, input: PipelineInput, oracle: Oracle, p: PipelineResult, shape: seq<StepView>)
    requires !Raises(e) && (e == PolicyStop <==> ActionFor(input, oracle) == Block)
    requires p.success <==> e == Verified
    requires shape == StepsOf(e, input, oracle) && shape == Shape(p.steps)
    requires TellsAll(p.trace.steps, p.steps) && SummaryAgrees(p.trace)
    ensures var s := p.trace.summary.value;
            s.policyChecks == 1 && s.policyBlocks == OneIf(|p.steps| == 2) && s.retries == 0
  {
    hide StepsOf, PolicyView, ActionFor, TellsAll, Tells, View, CountIf, SumLatency, Stopped, NeedsApproval;
    var t := p.trace.steps;
    ViewsOf(e, input, oracle, shape);
    PolicyViewOf(input, oracle);
    ActionByName(input, oracle);
    AllShown(t, p.steps, shape);
    CountedByView(t, shape, TraceHasPolicy, ViewHasPolicy);
    CountedByView(t, shape, TraceHasPolicyBlock, ViewHasPolicyBlock);
    CountedByView(t, shape, TraceHasRetry, ViewRetried);
  }

  lemma VerificationCounted(e: Ending, input: PipelineInput, oracle: Oracle, p: PipelineResult, shape: seq<StepView>)
    requires !Raises(e) && (e == PolicyStop <==> ActionFor(input, oracle) == Block)
    requires p.success <==> e == Verified
    requires shape == StepsOf(e, input, oracle) && shape == Shape(p.steps)
    requires TellsAll(p.trace.steps, p.steps) && SummaryAgrees(p.trace)
    ensures var s, n := p.trace.summary.value, |p.steps|;
            s.verificationChecks == OneIf(n == 4) && s.verificationFailures == OneIf(n == 4 && !p.success)
  {
    hide StepsOf, PolicyView, ActionFor, TellsAll, Tells, View, CountIf, SumLatency, Stopped, NeedsApproval;
    var t := p.trace.steps;
    ViewsOf(e, input, oracle, shape);
    PolicyViewOf(input, oracle);
    ActionByName(input, oracle);
    AllShown(t, p.steps, shape);
    CountedByView(t, shape, TraceHasVerification, ViewVerifies);
    CountedByView(t, shape, TraceHasVerificationFailure, ViewFailsVerification);
  }

  lemma CountersReported(e: Ending, input: PipelineInput, oracle: Oracle, p: PipelineResult, shape: seq<StepView>)
    requires !Raises(e) && (e == PolicyStop <==> ActionFor(input, oracle) == Block)
    requires p.success <==> e == Verified
    requires shape == StepsOf(e, input, oracle) && shape == Shape(p.steps)
    requires TellsAll(p.trace.steps, p.steps) && SummaryAgrees(p.trace)
    requires p.trace.summary.value.toolCalls == CountIf(p.steps, HasInvocation)
    ensures Counted(p.trace.summary.value, |p.steps|, p.success, input.policy.Some?)
  {
    hide StepsOf, PolicyView, ActionFor, TellsAll, Tells, View, CountIf, SumLatency, Stopped, NeedsApproval,
      SummaryAgrees;
    StatusesCounted(e, input, oracle, p, shape);
    PolicyCounted(e, input, oracle, p, shape);
    VerificationCounted(e, input, oracle, p, shape);
    ViewsOf(e, input, oracle, shape);
    PolicyViewOf(input, oracle);
    AllShown(p.trace.steps, p.steps, shape);
    FewCounted(p.steps, HasInvocation);
  }

  lemma AllShown(t: seq<StepTrace>, steps: seq<StepResult>, shape: seq<StepView>)
    requires TellsAll(t, steps) && shape == Shape(steps)
    ensures |t| == |shape| == |steps|
    ensures forall i :: 0 <= i < |t| ==> Shows(t[i], shape[i]) && HasInvocation(steps[i]) == shape[i].invoked
  {
    forall i | 0 <= i < |t| ensures Shows(t[i], shape[i]) && HasInvocation(steps[i]) == shape[i].invoked {
      ViewsInTrace(t, steps, i);
    }
  }

  lemma TimesReported(e: Ending, input: PipelineInput, oracle: Oracle, p: PipelineResult, shape: seq<StepView>)
    requires !Raises(e) && (e == PolicyStop <==> ActionFor(input, oracle) == Block)
    requires shape == StepsOf(e, input, oracle) && shape == Shape(p.steps)
    requires TellsAll(p.trace.steps, p.steps) && SummaryAgrees(p.trace)
    requires p.benchmark.latency == p.trace.totalLatency && (p.benchmark.withinLatency <==> p.benchmark.latency <= 30.0)
    ensures Timed(p, input)
  {
    hide StepsOf, PolicyView, ActionFor, TellsAll, Tells, View, CountIf, SumLatency;
    ViewsOf(e, input, oracle, shape);
    PolicyViewOf(input, oracle);
    AllShown(p.trace.steps, p.steps, shape);
    FewSummed(p.trace.steps);
  }

  lemma TracesReported(e: Ending, input: PipelineInput, oracle: Oracle, p: PipelineResult, shape: seq<StepView>)
    requires !Raises(e) && (e == PolicyStop <==> ActionFor(input, oracle) == Block)
    requires shape == StepsOf(e, input, oracle) && shape == Shape(p.steps) && TellsAll(p.trace.steps, p.steps)
    requires |p.steps| > 2 ==>
               p.steps[2].toolResult.Some? && (p.steps[2].toolResult.value.status == ToolSuccess <==> e != ToolFailure)
    ensures |p.trace.steps| >= 2 && Shown(p.trace.steps, input, oracle)
  {
    hide StepsOf, PolicyView, ActionFor, TellsAll, Tells, View, NeedsApproval, Stopped;
    ViewsOf(e, input, oracle, shape);
    PolicyViewOf(input, oracle);
    ActionByName(input, oracle);
    AllShown(p.trace.steps, p.steps, shape);
    TraceOfPolicy(p.trace.steps, p.steps);
    TraceOfTool(p.trace.steps, p.steps);
  }

  /** A returned result reports what its steps were. */
  lemma Reports(e: Ending, input: PipelineInput, oracle: Oracle, o: RunOutcome, current: SM.RunState)
    requires !Raises(e) && (e == PolicyStop <==> ActionFor(input, oracle) == Block)
    requires o.Completed? && Faithful(o, input, current) && Shape(o.result.steps) == StepsOf(e, input, oracle)
    requires |o.result.steps| > 2 ==>
               o.result.steps[2].toolResult.Some?
               && (o.result.steps[2].toolResult.value.status == ToolSuccess <==> e != ToolFailure)
    requires o.result.success <==> e == Verified
    requires Carry(o.result.steps, input, oracle)
    ensures Reported(o.result, input, oracle)
  {
    hide ValidThroughout, StepsOf, PolicyView, ActionFor, TellsAll, CountIf, Counted, Timed, Shown, Decided;
    var p := o.result;
    DecisionDecided(input, oracle);
    var shape := Shape(p.steps);
    CountersReported(e, input, oracle, p, shape);
    TimesReported(e, input, oracle, p, shape);
    TracesReported(e, input, oracle, p, shape);
    ViewsOf(e, input, oracle, shape);
    FewCounted(p.steps, IsBlocked);
    StatusesOfViews(p.steps);
    AllShown(p.trace.steps, p.steps, shape);
    PolicyViewOf(input, oracle);
  }

  lemma DecisionDecided(input: PipelineInput, oracle: Oracle)
    ensures Decided(DecisionFor(input, oracle), input, oracle)
  {
    hide MakeSafetyDecision;
    ActionByName(input, oracle);
  }

  lemma StatusesOfViews(steps: seq<StepResult>)
    ensures forall i :: 0 <= i < |steps| ==> IsBlocked(steps[i]) == (Shape(steps)[i].status == Status.Blocked)
  {
  }

  lemma TraceOfPolicy(t: seq<StepTrace>, steps: seq<StepResult>)
    requires TellsAll(t, steps) && |t| > 1
    ensures t[1].policy == steps[1].policy
    ensures Shape(steps)[1].policy == match t[1].policy case Some(x) => Some(x.outcome) case None => None
  {
    assert Tells(t[1], steps[1]);
  }

  /** The tool's trace says of the tool what its step says. */
  lemma TraceOfTool(t: seq<StepTrace>, steps: seq<StepResult>)
    requires TellsAll(t, steps)
    ensures |t| > 2 && t[2].tool.Some? ==>
              steps[2].toolResult.Some?
              && t[2].tool.value.status ==
                 (if steps[2].toolResult.value.status == ToolSuccess then Success else Failure)
  {
    assert |t| > 2 ==> Tells(t[2], steps[2]);
  }

  /** What the policy decides, by the names of the tools. */
  lemma ActionByName(input: PipelineInput, oracle: Oracle)
    ensures ActionFor(input, oracle) == Block <==> Stopped(input, oracle)
    ensures ActionFor(input, oracle) == RequireApproval <==> NeedsApproval(input, oracle)
    ensures Stopped(input, oracle) ==> !NeedsApproval(input, oracle)
  {
    if input.policy.Some? {
      FirstRuleDecides(input, ToolName(oracle));
    }
  }

  lemma FirstRuleDecides(input: PipelineInput, tool: string)
    requires input.policy.Some?
    ensures var action := MakeSafetyDecision(tool, input.policy.value).action;
            && (forall a :: FirstRule(input, tool, a) ==> a == action)
            && (action != Allow ==> FirstRule(input, tool, action))
  {
    hide MakeSafetyDecision;
    var rules := input.policy.value;
    if r :| r in rules && r.actionName == tool {
      var i := FirstRuleFor(rules, tool);
      assert MakeSafetyDecision(tool, rules).action == rules[i].action;
      assert FirstRule(input, tool, rules[i].action);
    }
  }

  lemma {:induction false} FirstRuleFor(rules: seq<RiskRule>, tool: string) returns (i: nat)
    requires exists r :: r in rules && r.actionName == tool
    ensures i < |rules| && rules[i].actionName == tool && forall j :: 0 <= j < i ==> rules[j].actionName != tool
  {
    if rules[0].actionName == tool {
      i := 0;
    } else {
      i := FirstRuleFor(rules[1..], tool);
      assert forall j :: 0 < j < i + 1 ==> rules[j] == rules[1..][j - 1];
      i := i + 1;
    }
  }

  /** The invocation of a run is the only one that is rightly named. */
  lemma OneInvocation(i: ToolInvocation, input: PipelineInput, oracle: Oracle)
    ensures RightlyNamed(i, input, oracle) <==> i == RunInvocation(input, oracle)
  {
    hide Strip, ActionFor;
    ActionByName(input, oracle);
  }

  /** Whatever the oracle answers, a returned result agrees with itself. */
  lemma OutcomeAgreement(e: Ending, input: PipelineInput, oracle: Oracle, o: RunOutcome, fired: seq<SM.RunEvent>,
                         current: SM.RunState, oracleCalls: int)
    requires EndsAs(e, input, oracle, o, fired, current, oracleCalls) && Faithful(o, input, current) && o.Completed?
    requires e == PolicyStop <==> ActionFor(input, oracle) == Block
    ensures Agrees(o.result, e, oracleCalls)
  {
    hide ValidThroughout, TellsAll, PolicyView, ActionFor, Carry, RunError, CountIf, SumLatency, EventsOf, Strip,
      Truthy;
    var steps, shape := o.result.steps, StepsOf(e, input, oracle);
    ShapeStatuses(steps, shape, Status.Blocked);
    ShapeStatuses(steps, shape, Failure);
    StatusesOf(e, input, oracle);
    assert |steps| == |shape|;
    ViewsOf(e, input, oracle, shape);
    PolicyViewOf(input, oracle);
    assert forall i :: 0 <= i < |steps| ==> HasInvocation(steps[i]) == shape[i].invoked;
    FewCounted(steps, HasInvocation);
  }

  lemma BlankEnds(input: PipelineInput, oracle: Oracle, judge: Judge)
    ensures Blank(input.contract.taskId) || Blank(input.runId) || Blank(input.contract.userRequest) <==>
            EndingOf(input, oracle, judge) == NoPrompt
  {
  }

  lemma InterpretGives(oracle: Oracle, i: ToolInvocation, goal: string)
    ensures GivesNothing(oracle, i, goal) <==> Interpret(oracle, i, goal).NoResult?
    ensures forall r :: Gives(oracle, i, goal, r) ==> Interpret(oracle, i, goal) == Got(r, r.status == ToolSuccess)
  {
  }

  /** What follows from the oracle's answer is what the promise says. */
  lemma EndingFollows(input: PipelineInput, oracle: Oracle, judge: Judge, o: RunOutcome, fired: seq<SM.RunEvent>,
                      current: SM.RunState, i: ToolInvocation, r: ToolResult)
    requires i == RunInvocation(input, oracle)
    requires Interpret(oracle, i, input.contract.goal) == Got(r, r.status == ToolSuccess)
    requires EndsAs(ToolEnding(input, oracle, judge), input, oracle, o, fired, current, 1)
    requires o.Completed? ==> (o.result.success <==> ToolEnding(input, oracle, judge) == Verified)
    ensures FollowsFrom(input, judge, o, current, i, r)
  {
    hide Interpret, RunInvocation, EventsOf, ActionFor, StepsOf, Blank, Strip;
    var e := ToolEnding(input, oracle, judge);
    if !Raises(e) {
      StepCount(e, input, oracle);
      assert |o.result.steps| == |StepsOf(e, input, oracle)|;
    }
    if e in {Verified, Unverified} {
      LastView(e, input, oracle);
      assert Shape(o.result.steps)[3] == View(o.result.steps[3]);
    }
    if c :| c in input.contract.criteria && c.target != "" && Blank(c.target) {
      assert !Nameable(c);
    }
  }

  lemma LastView(e: Ending, input: PipelineInput, oracle: Oracle)
    requires e in {Verified, Unverified}
    ensures |StepsOf(e, input, oracle)| == 4
    ensures StepsOf(e, input, oracle)[3].verification == Some(if e == Verified then Success else Failure)
  {
  }

  lemma StepCount(e: Ending, input: PipelineInput, oracle: Oracle)
    requires !Raises(e)
    ensures |StepsOf(e, input, oracle)| == (if e == PolicyStop then 2 else if e == ToolFailure then 3 else 4)
  {
  }

  /** A run that ends as worked out keeps the promise. */
  lemma PromiseKept(input: PipelineInput, oracle: Oracle, judge: Judge, o: RunOutcome, fired: seq<SM.RunEvent>,
                    current: SM.RunState, asked: seq<OracleCall>)
    requires EndsAs(EndingOf(input, oracle, judge), input, oracle, o, fired, current, |asked|)
    requires o.Completed? ==> (o.result.success <==> EndingOf(input, oracle, judge) == Verified)
    requires asked != [] ==> Guarded(asked[0], input, oracle) && asked[0].at.current == SM.ToolRunning
    ensures Promised(input, oracle, judge, o, current, asked)
  {
    hide ActionFor, Stopped, NeedsApproval, EventsOf, Interpret, RunInvocation, FollowsFrom, StepsOf, Blank, Strip,
      Gives, GivesNothing, Carry, RightlyNamed, ToolEnding;
    var e := EndingOf(input, oracle, judge);
    ActionByName(input, oracle);
    ToolEndings(input, oracle, judge);
    if e == PolicyStop {
      StepCount(e, input, oracle);
      assert |o.result.steps| == |StepsOf(e, input, oracle)|;
    }
    if !Incomplete(input) && !Stopped(input, oracle) {
      var i, goal := asked[0].invocation, input.contract.goal;
      OneInvocation(i, input, oracle);
      InterpretGives(oracle, i, goal);
      forall r | Gives(oracle, i, goal, r) ensures FollowsFrom(input, judge, o, current, i, r) {
        EndingFollows(input, oracle, judge, o, fired, current, i, r);
      }
    }
  }

  lemma KeepsPromise(input: PipelineInput, oracle: Oracle, judge: Judge, o: RunOutcome, fired: seq<SM.RunEvent>,
                     current: SM.RunState, asked: seq<OracleCall>)
    requires EndsAs(EndingOf(input, oracle, judge), input, oracle, o, fired, current, |asked|)
    requires Faithful(o, input, current) && (o.Completed? ==> Agrees(o.result, EndingOf(input, oracle, judge), |asked|))
    requires asked != [] ==> Guarded(asked[0], input, oracle) && asked[0].at.current == SM.ToolRunning
    ensures Promised(input, oracle, judge, o, current, asked)
    ensures o.Completed? && o.result.success <==> Succeeding(input, oracle, judge)
    ensures o.Completed? ==> Reported(o.result, input, oracle)
  {
    hide Promised, Succeeding, Reported, Faithful, Guarded, StepsOf, EventsOf, Interpret, ActionFor, RunInvocation,
      DecisionFor;
    PromiseKept(input, oracle, judge, o, fired, current, asked);
    SuccessIff(input, oracle, judge, o, current, asked);
    if o.Completed? {
      var e := EndingOf(input, oracle, judge);
      EndingLeads(input, oracle, judge);
      StepCount(e, input, oracle);
      assert |o.result.steps| == |StepsOf(e, input, oracle)|;
      if |o.result.steps| > 2 {
        ResultOfEnding(input, oracle, judge);
      }
      Reports(e, input, oracle, o, current);
    }
  }

  lemma ResultOfEnding(input: PipelineInput, oracle: Oracle, judge: Judge)
    ensures var e := EndingOf(input, oracle, judge);
            var reply := Interpret(oracle, RunInvocation(input, oracle), input.contract.goal);
            e in {ToolFailure, Verified, Unverified} ==>
              reply.Got? && (reply.result.status == ToolSuccess <==> e != ToolFailure)
  {
  }

  lemma ToolEndings(input: PipelineInput, oracle: Oracle, judge: Judge)
    ensures ToolEnding(input, oracle, judge) in {ToolThrew, ToolFailure, BadCriterion, Verified, Unverified}
    ensures ToolEnding(input, oracle, judge) == ToolThrew <==>
            Interpret(oracle, RunInvocation(input, oracle), input.contract.goal).NoResult?
  {
  }

  lemma EndingLeads(input: PipelineInput, oracle: Oracle, judge: Judge)
    ensures var e := EndingOf(input, oracle, judge);
            e !in {NoPrompt, NoInvocation} ==> (e == PolicyStop <==> ActionFor(input, oracle) == Block)
  {
  }

  lemma RunWrites(m: SM.Machine, start: D.DriverState, e: Ending, input: PipelineInput, oracle: Oracle, o: RunOutcome,
                  fired: seq<SM.RunEvent>, current: SM.RunState, oracleCalls: int)
    requires SM.FollowsTable(m) && start.current == SM.Created
    requires EndsAs(e, input, oracle, o, fired, current, oracleCalls)
    requires e !in {NoPrompt, NoInvocation} ==> (e == PolicyStop <==> ActionFor(input, oracle) == Block)
    ensures Writes(start.history, fired, After(m, start, fired).history)
  {
    hide SM.FollowsTable, After, Writes, DR.Follow, EventsOf;
    EventsLead(e, ActionFor(input, oracle));
    TablePathWrites(m, start, fired);
  }

  const OPENING := [SM.StartRun, SM.PromptReady, SM.ModelResponseReceived, SM.ToolCallRequested]

  /** The ways in which a run from Created on the default table can end, each from what its phases report. */
  lemma RaisedEnds(e: Ending, input: PipelineInput, oracle: Oracle, o: RunOutcome, fired: seq<SM.RunEvent>, calls: int)
    requires Raises(e) && o.Raised? && o.cause == CauseOf(e, oracle)
    requires calls == if e in {ToolThrew, BadCriterion} then 1 else 0
    requires fired == match e
                      case NoPrompt => [SM.StartRun]
                      case NoInvocation => OPENING
                      case ToolThrew => OPENING + AuthorisingEvents(ActionFor(input, oracle))
                      case _ => OPENING + AuthorisingEvents(ActionFor(input, oracle)) + [SM.ToolCompleted]
    ensures EndsAs(e, input, oracle, o, fired, FinalState(e), calls)
  {
  }

  lemma PolicyStepShape(step: StepResult, input: PipelineInput, oracle: Oracle)
    requires PolicyStep(step, input, oracle)
    ensures View(step) == PolicyView(input, oracle)
    ensures step.invocation == Some(RunInvocation(input, oracle)) && step.decision == DecisionFor(input, oracle)
  {
  }

  lemma BlockedEnds(input: PipelineInput, oracle: Oracle, o: RunOutcome)
    requires ActionFor(input, oracle) == Block && o.Completed? && StopsAtPolicy(o.result, input, oracle)
    ensures EndsAs(PolicyStop, input, oracle, o, OPENING + AuthorisingEvents(Block), SM.Failed, 0)
  {
    hide PolicyStep, PolicyView, ActionFor, DecisionFor, Strip, RunInvocation;
    PolicyStepShape(o.result.steps[1], input, oracle);
    assert Shape(o.result.steps) == StepsOf(PolicyStop, input, oracle);
  }

  lemma ToolFailureEnds(input: PipelineInput, oracle: Oracle, o: RunOutcome, policyStep: StepResult, result: ToolResult)
    requires PolicyStep(policyStep, input, oracle)
    requires Interpret(oracle, RunInvocation(input, oracle), input.contract.goal) == Got(result, false)
    requires o.Completed? && Truthy(o.result.error)
    requires FailsAtTool(o.result, policyStep, RunInvocation(input, oracle), result)
    requires o.result.error == RunError(ToolFailure, input, oracle)
    ensures EndsAs(ToolFailure, input, oracle, o,
                   OPENING + AuthorisingEvents(ActionFor(input, oracle)) + [SM.ToolFailedRetryable], SM.RetryPending, 1)
  {
    hide PolicyStep, PolicyView, ActionFor, DecisionFor, RunError, Truthy, Interpret, RunInvocation;
    PolicyStepShape(policyStep, input, oracle);
    assert Shape(o.result.steps) == StepsOf(ToolFailure, input, oracle);
  }

  lemma VerifiedEnds(input: PipelineInput, oracle: Oracle, pass: bool, o: RunOutcome, policyStep: StepResult,
                     result: ToolResult)
    requires PolicyStep(policyStep, input, oracle)
    requires Interpret(oracle, RunInvocation(input, oracle), input.contract.goal) == Got(result, true)
    requires o.Completed? && o.result.error.None?
    requires o.result.steps == [PROMPT_STEP, policyStep, ToolStep(RunInvocation(input, oracle), result, true)]
                               + [VerificationStep(pass)]
    ensures var e := if pass then Verified else Unverified;
            EndsAs(e, input, oracle, o,
                   OPENING + AuthorisingEvents(ActionFor(input, oracle)) + [SM.ToolCompleted]
                   + [if pass then SM.VerificationPassed else SM.VerificationFailedTerminal],
                   FinalState(e), 1)
  {
    hide PolicyStep, PolicyView, ActionFor, DecisionFor, Interpret, RunInvocation;
    PolicyStepShape(policyStep, input, oracle);
    assert Shape(o.result.steps) == StepsOf(if pass then Verified else Unverified, input, oracle);
  }

  lemma GuardedCall(call: OracleCall, input: PipelineInput, oracle: Oracle)
    requires call.invocation == RunInvocation(input, oracle) && ActionFor(input, oracle) != Block
    requires var h := call.at.history;
             && h != [] && h[|h| - 1].decision == D.Allowed && call.at.current == h[|h| - 1].to
             && h[|h| - 1].event == (if ActionFor(input, oracle) == RequireApproval then SM.ApprovalGranted
                                     else SM.ToolApprovedOrNotRequired)
    ensures Guarded(call, input, oracle)
  {
    hide Stopped, NeedsApproval, RightlyNamed, ActionFor;
    ActionByName(input, oracle);
    OneInvocation(call.invocation, input, oracle);
  }

  class PipelineExecutor {
    const oracle: Oracle
    const judge: Judge
    ghost var log: seq<OracleCall>

    constructor (oracle: Oracle, judge: Judge)
      ensures this.oracle == oracle && this.judge == judge && log == []
    {
      this.oracle := oracle;
      this.judge := judge;
      log := [];
    }

    /** The only way to the oracle; every call of it is logged. */
    method Ask(invocation: ToolInvocation, goal: string, driver: D.StateDriver) returns (reply: Reply)
      modifies this`log
      ensures log == old(log) + [OracleCall(invocation, driver.State())]
      ensures reply == Interpret(oracle, invocation, goal)
    {
      log := log + [OracleCall(invocation, driver.State())];
      reply := Interpret(oracle, invocation, goal);
    }

    /** Builds the result for where the driver stands. */
    method Finish(input: PipelineInput, driver: D.StateDriver, steps: seq<StepResult>, error: Option<string> := None)
      returns (o: RunOutcome)
      ensures Faithful(o, input, driver.current)
      ensures o.Completed? ==> o.result.steps == steps && o.result.error == error
      ensures o.Completed? <==> Buildable(input.runId, input.contract.taskId, steps)
      ensures o.Raised? ==> o.cause == InvalidModel
    {
      o := BuildResult(input.runId, input.contract.taskId, driver.current, steps, error);
    }

    /** Starts the run and, once the prompt is assembled, advances to the tool. */
    method Prepare(input: PipelineInput, driver: D.StateDriver, ghost start: D.DriverState)
      returns (stop: Option<RunOutcome>, ghost fired: seq<SM.RunEvent>)
      requires driver.State() == start
      modifies driver
      ensures driver.State() == After(driver.machine, start, fired)
      ensures stop.Some? ==> Faithful(stop.value, input, driver.current)
      ensures stop.None? || stop.value.Completed? ==> Started(start.history, driver.history)
      ensures var refused := !WouldMove(driver.machine, start, [], SM.StartRun);
              var blank := Blank(input.contract.taskId) || Blank(input.runId) || Blank(input.contract.userRequest);
              if refused || blank
              then stop == Some(Raised(InvalidModel)) && fired == [SM.StartRun]
              else
                && (fired, stop.None?) == Attempt(driver.machine, start, [SM.StartRun], ADVANCE)
                && (stop.Some? ==> stop.value.Completed? && stop.value.result.steps == [PROMPT_STEP]
                                   && Truthy(stop.value.result.error))
      ensures stop.None? ==> !Blank(input.contract.taskId) && !Blank(input.runId)
      ensures (SM.FollowsTable(driver.machine) && start.current == SM.Created) ==>
                if Blank(input.contract.taskId) || Blank(input.runId) || Blank(input.contract.userRequest)
                then driver.current == SM.AssemblingPrompt
                else stop.None? && driver.current == SM.ToolPending
                     && fired == [SM.StartRun, SM.PromptReady, SM.ModelResponseReceived, SM.ToolCallRequested]
    {
      hide After, WouldMove, Attempt, Faithful, SM.FollowsTable;
      fired := [];
      NothingFired(driver.machine, start);
      var moved := Fire(driver, SM.StartRun, start, fired);
      fired := [SM.StartRun];
      assert [] + fired == fired;
      if !moved {
        var o := Finish(input, driver, [], Some("refused"));
        return Some(o), fired;
      }
      if Blank(input.contract.taskId) || Blank(input.runId) || Blank(input.contract.userRequest) {
        RaisedIsFaithful(input, driver.current);
        return Some(Raised(InvalidModel)), fired;
      }
      moved, fired := Advance(driver, start, fired);
      if !moved {
        var o := Finish(input, driver, [PROMPT_STEP], Some("refused"));
        return Some(o), fired;
      }
      return None, fired;
    }

    /** A blocked action: approval is asked for and refused, and the oracle is not called. */
    method Reject(input: PipelineInput, driver: D.StateDriver, invocation: ToolInvocation, decision: SafetyDecision,
                  ghost start: D.DriverState, ghost fired0: seq<SM.RunEvent>)
      returns (o: RunOutcome, ghost fired: seq<SM.RunEvent>)
      requires driver.State() == After(driver.machine, start, fired0)
      requires !Blank(input.contract.taskId) && !Blank(input.runId) && ActionFor(input, oracle) == Block
      requires invocation == RunInvocation(input, oracle) && Some(decision) == DecisionFor(input, oracle)
      modifies driver
      ensures driver.State() == After(driver.machine, start, fired)
      ensures old(driver.history) <= driver.history
      ensures Faithful(o, input, driver.current)
      ensures (SM.FollowsTable(driver.machine) && old(driver.current) == SM.ToolPending) ==>
                && fired == fired0 + AuthorisingEvents(Block) && driver.current == SM.Failed
                && o.Completed? && StopsAtPolicy(o.result, input, oracle)
    {
      hide After, Faithful, SM.FollowsTable, WouldMove, MakeSafetyDecision, Strip, Blank, Truthy;
      var moved := Fire(driver, SM.ApprovalRequired, start, fired0);
      fired := fired0 + [SM.ApprovalRequired];
      if moved {
        moved := Fire(driver, SM.ApprovalRejected, start, fired);
        fired := fired + [SM.ApprovalRejected];
      }
      if !moved {
        RaisedIsFaithful(input, driver.current);
        return Raised(DriverRefused), fired;
      }
      var step := StepResult(1, PolicyCheck, Status.Blocked, true, Some(0.05), invocation := Some(invocation),
                             decision := Some(decision), policy := Some(PolicyTrace(PolicyBlocked)));
      o := Finish(input, driver, [PROMPT_STEP, step]);
    }

    /** Lets the safety policy decide; leaves the driver where the tool may run, or ends the run. */
    method Authorise(input: PipelineInput, driver: D.StateDriver, ghost start: D.DriverState,
                     ghost fired0: seq<SM.RunEvent>)
      returns (stop: Option<RunOutcome>, invocation: ToolInvocation, step: StepResult, ghost fired: seq<SM.RunEvent>)
      requires driver.State() == After(driver.machine, start, fired0)
      requires !Blank(input.contract.taskId) && !Blank(input.runId)
      modifies driver
      ensures driver.State() == After(driver.machine, start, fired)
      ensures old(driver.history) <= driver.history
      ensures stop.Some? ==> Faithful(stop.value, input, driver.current)
      ensures stop.None? ==>
                && ActionFor(input, oracle) != Block
                && Guarded(OracleCall(invocation, driver.State()), input, oracle)
                && invocation == RunInvocation(input, oracle)
                && PolicyStep(step, input, oracle)
      ensures (SM.FollowsTable(driver.machine) && old(driver.current) == SM.ToolPending) ==>
                if Blank(input.modelName)
                then stop == Some(Raised(InvalidModel)) && fired == fired0 && driver.current == SM.ToolPending
                else
                  && fired == fired0 + AuthorisingEvents(ActionFor(input, oracle))
                  && if ActionFor(input, oracle) == Block
                     then driver.current == SM.Failed && stop.Some? && stop.value.Completed?
                          && StopsAtPolicy(stop.value.result, input, oracle)
                     else stop.None? && driver.current == SM.ToolRunning
    {
      hide After, Faithful, SM.FollowsTable, StopsAtPolicy, Strip, Blank, WouldMove, MakeSafetyDecision, Guarded;
      fired := fired0;
      invocation := InvocationFor(input, oracle, NotRequired);
      step := PROMPT_STEP;
      if Blank(input.modelName) {
        RaisedIsFaithful(input, driver.current);
        return Some(Raised(InvalidModel)), invocation, step, fired;
      }
      var moved: bool;
      if input.policy.Some? {
        var decision := MakeSafetyDecision(ToolName(oracle), input.policy.value);
        if decision.action == Block {
          var o: RunOutcome;
          o, fired := Reject(input, driver, invocation, decision, start, fired);
          return Some(o), invocation, step, fired;
        }
        if decision.action == RequireApproval {
          moved := Fire(driver, SM.ApprovalRequired, start, fired);
          fired := fired + [SM.ApprovalRequired];
          if moved {
            invocation := invocation.(approval := Pending);
            step := StepResult(1, Approval, Success, true, Some(0.05), invocation := Some(invocation),
                               decision := Some(decision), policy := Some(PolicyTrace(RequiredApproval)));
            moved := Fire(driver, SM.ApprovalGranted, start, fired);
            fired := fired + [SM.ApprovalGranted];
          }
        } else {
          moved := Fire(driver, SM.ToolApprovedOrNotRequired, start, fired);
          fired := fired + [SM.ToolApprovedOrNotRequired];
          step := StepResult(1, PolicyCheck, Success, true, Some(0.05), invocation := Some(invocation),
                             decision := Some(decision), policy := Some(PolicyTrace(PolicyOutcome.Allowed)));
        }
      } else {
        moved := Fire(driver, SM.ToolApprovedOrNotRequired, start, fired);
        fired := fired + [SM.ToolApprovedOrNotRequired];
        step := StepResult(1, PolicyCheck, Skipped, true, Some(0.01), invocation := Some(invocation),
                           policy := Some(PolicyTrace(PolicyOutcome.Allowed)));
      }
      if !moved {
        RaisedIsFaithful(input, driver.current);
        return Some(Raised(DriverRefused)), invocation, step, fired;
      }
      GuardedCall(OracleCall(invocation, driver.State()), input, oracle);
      return None, invocation, step, fired;
    }

    /** Calls the oracle once and reports back to the driver; a result that is not a success ends the run. */
    method Execute(input: PipelineInput, driver: D.StateDriver, invocation: ToolInvocation, policyStep: StepResult,
                   ghost start: D.DriverState, ghost fired0: seq<SM.RunEvent>)
      returns (stop: Option<RunOutcome>, result: ToolResult, step: StepResult, ghost fired: seq<SM.RunEvent>)
      requires driver.State() == After(driver.machine, start, fired0)
      requires !Blank(input.contract.taskId) && !Blank(input.runId)
      requires PolicyStep(policyStep, input, oracle)
      requires invocation == RunInvocation(input, oracle)
      modifies driver, this`log
      ensures driver.State() == After(driver.machine, start, fired)
      ensures old(driver.history) <= driver.history
      ensures log == old(log) + [OracleCall(invocation, old(driver.State()))]
      ensures stop.Some? ==> Faithful(stop.value, input, driver.current)
      ensures var reply := Interpret(oracle, invocation, input.contract.goal);
              && (reply.NoResult? ==>
                    stop == Some(Raised(CauseOf(ToolThrew, oracle)))
                    && fired == fired0 && driver.current == old(driver.current))
              && (reply.Got? && !reply.ok ==>
                    stop.Some? && stop.value.Completed? && Truthy(stop.value.result.error)
                    && stop.value.result.error == ErrorOf(reply.result)
                    && fired == fired0 + [SM.ToolFailedRetryable]
                    && FailsAtTool(stop.value.result, policyStep, invocation, reply.result))
              && (reply.Got? && reply.ok ==>
                    stop.None? && result == reply.result && fired == fired0 + [SM.ToolCompleted]
                    && step == ToolStep(invocation, result, true))
      ensures (SM.FollowsTable(driver.machine) && old(driver.current) == SM.ToolRunning) ==>
                var reply := Interpret(oracle, invocation, input.contract.goal);
                reply.Got? ==> driver.current == if reply.ok then SM.Verifying else SM.RetryPending
    {
      hide After, Faithful, SM.FollowsTable, PolicyStep;
      fired := fired0;
      result := ToolResult(ToolError, None, [], None);
      step := PROMPT_STEP;
      var reply := Ask(invocation, input.contract.goal, driver);
      if reply.NoResult? {
        RaisedIsFaithful(input, driver.current);
        return Some(Raised(if oracle.Executor? then ToolRaised else InvalidModel)), result, step, fired;
      }
      result := reply.result;
      step := ToolStep(invocation, result, reply.ok);
      ToolStepWellFormed(input, oracle, result, reply.ok);
      if reply.ok {
        var moved := Fire(driver, SM.ToolCompleted, start, fired);
        fired := fired + [SM.ToolCompleted];
        return None, result, step, fired;
      }
      StepsWellNumbered(input, oracle, policyStep, step);
      var o: RunOutcome;
      o, fired := FailAtTool(input, driver, policyStep, step, result, start, fired);
      return Some(o), result, step, fired;
    }

    /** Reports a failed tool to the driver and ends the run with its error. */
    method FailAtTool(input: PipelineInput, driver: D.StateDriver, policyStep: StepResult, step: StepResult,
                      result: ToolResult, ghost start: D.DriverState, ghost fired0: seq<SM.RunEvent>)
      returns (o: RunOutcome, ghost fired: seq<SM.RunEvent>)
      requires driver.State() == After(driver.machine, start, fired0)
      requires !Blank(input.contract.taskId) && !Blank(input.runId)
      requires WellNumbered([PROMPT_STEP, policyStep, step])
      modifies driver
      ensures driver.State() == After(driver.machine, start, fired)
      ensures old(driver.history) <= driver.history && fired == fired0 + [SM.ToolFailedRetryable]
      ensures Faithful(o, input, driver.current)
      ensures o.Completed? && Truthy(o.result.error) && o.result.error == ErrorOf(result)
      ensures o.Completed? && o.result.steps == [PROMPT_STEP, policyStep, step]
      ensures (SM.FollowsTable(driver.machine) && old(driver.current) == SM.ToolRunning) ==>
                driver.current == SM.RetryPending
    {
      hide After, Faithful, SM.FollowsTable, WouldMove;
      var moved := Fire(driver, SM.ToolFailedRetryable, start, fired0);
      fired := fired0 + [SM.ToolFailedRetryable];
      o := Finish(input, driver, [PROMPT_STEP, policyStep, step], ErrorOf(result));
    }

    /** Checks the criteria in order; the first that cannot be named ends the run. */
    method CheckCriteria(criteria: seq<Criterion>, text: string) returns (pass: Option<bool>)
      ensures pass.None? <==> exists c :: c in criteria && !Nameable(c)
      ensures pass.Some? ==> (pass.value <==> forall c :: c in criteria ==> judge.passes(c, text))
    {
      var traces: seq<VerificationTrace> := [];
      for k := 0 to |criteria|
        invariant |traces| == k
        invariant forall i :: 0 <= i < k ==> Nameable(criteria[i])
        invariant forall i :: 0 <= i < k ==> (traces[i].status == Success <==> judge.passes(criteria[i], text))
      {
        var c := criteria[k];
        if !Nameable(c) {
          return None;
        }
        traces := traces + [VerificationTrace(if c.target == "" then c.kind else c.target,
                                              if judge.passes(c, text) then Success else Failure)];
      }
      var all := forall v :: v in traces ==> v.status == Success;
      assert all <==> forall i :: 0 <= i < |traces| ==> traces[i].status == Success;
      return Some(all);
    }

    /** Checks every criterion against the output and ends the run either way. */
    method Verify(input: PipelineInput, driver: D.StateDriver, steps: seq<StepResult>, result: ToolResult,
                  ghost start: D.DriverState, ghost fired0: seq<SM.RunEvent>)
      returns (o: RunOutcome, ghost fired: seq<SM.RunEvent>)
      requires driver.State() == After(driver.machine, start, fired0)
      requires |steps| == 3 && Buildable(input.runId, input.contract.taskId, steps)
      modifies driver
      ensures driver.State() == After(driver.machine, start, fired)
      ensures old(driver.history) <= driver.history
      ensures Faithful(o, input, driver.current)
      ensures (SM.FollowsTable(driver.machine) && old(driver.current) == SM.Verifying) ==>
                if exists c :: c in input.contract.criteria && !Nameable(c)
                then o == Raised(InvalidModel) && fired == fired0 && driver.current == SM.Verifying
                else
                  var pass := forall c :: c in input.contract.criteria ==> judge.passes(c, OutputText(judge, result));
                  && o.Completed? && o.result.error.None?
                  && o.result.steps == steps + [VerificationStep(pass)]
                  && driver.current == (if pass then SM.Succeeded else SM.Failed)
                  && fired == fired0 + [if pass then SM.VerificationPassed else SM.VerificationFailedTerminal]
    {
      hide After, Faithful, SM.FollowsTable, WouldMove, Strip, Blank, Truthy, OutputText, Nameable;
      fired := fired0;
      var checked := CheckCriteria(input.contract.criteria, OutputText(judge, result));
      if checked.None? {
        RaisedIsFaithful(input, driver.current);
        return Raised(InvalidModel), fired;
      }
      var pass := checked.value;
      var e := if pass then SM.VerificationPassed else SM.VerificationFailedTerminal;
      var moved := Fire(driver, e, start, fired);
      fired := fired + [e];
      if !moved {
        RaisedIsFaithful(input, driver.current);
        return Raised(DriverRefused), fired;
      }
      o := Finish(input, driver, steps + [VerificationStep(pass)]);
    }

    /** The tool and what follows it. */
    method RunTool(input: PipelineInput, driver: D.StateDriver, invocation: ToolInvocation, policyStep: StepResult,
                   ghost start: D.DriverState, ghost fired0: seq<SM.RunEvent>)
      returns (o: RunOutcome, ghost fired: seq<SM.RunEvent>)
      requires driver.State() == After(driver.machine, start, fired0)
      requires !Blank(input.contract.taskId) && !Blank(input.runId)
      requires PolicyStep(policyStep, input, oracle)
      requires invocation == RunInvocation(input, oracle)
      modifies driver, this`log
      ensures driver.State() == After(driver.machine, start, fired)
      ensures old(driver.history) <= driver.history
      ensures log == old(log) + [OracleCall(invocation, old(driver.State()))]
      ensures Faithful(o, input, driver.current)
      ensures (SM.FollowsTable(driver.machine) && old(driver.current) == SM.ToolRunning
               && fired0 == OPENING + AuthorisingEvents(ActionFor(input, oracle))) ==>
                EndsAs(ToolEnding(input, oracle, judge), input, oracle, o, fired, driver.current, 1)
    {
      hide After, Faithful, EndsAs, SM.FollowsTable, PolicyStep, Strip, Blank, Truthy, ErrorOf, Buildable, Interpret,
        WouldMove;
      ghost var tabled := SM.FollowsTable(driver.machine) && driver.current == SM.ToolRunning
                          && fired0 == OPENING + AuthorisingEvents(ActionFor(input, oracle));
      var stop, result, toolStep;
      stop, result, toolStep, fired := Execute(input, driver, invocation, policyStep, start, fired0);
      if stop.Some? {
        o := stop.value;
        if tabled && o.Raised? {
          RaisedEnds(ToolThrew, input, oracle, o, fired, 1);
        } else if tabled {
          ToolFailureEnds(input, oracle, o, policyStep, Interpret(oracle, invocation, input.contract.goal).result);
        }
        return;
      }
      var steps := [PROMPT_STEP, policyStep, toolStep];
      StepsBuildable(input, oracle, policyStep, result);
      o, fired := Verify(input, driver, steps, result, start, fired);
      if tabled && o.Raised? {
        RaisedEnds(BadCriterion, input, oracle, o, fired, 1);
      } else if tabled {
        VerifiedEnds(input, oracle, driver.current == SM.Succeeded, o, policyStep, result);
      }
    }

    /** A run from where its prompt is assembled: the decision of the policy, the tool and what follows it. */
    method Proceed(input: PipelineInput, driver: D.StateDriver, ghost start: D.DriverState,
                   ghost fired0: seq<SM.RunEvent>)
      returns (o: RunOutcome, ghost fired: seq<SM.RunEvent>)
      requires driver.State() == After(driver.machine, start, fired0)
      requires !Blank(input.contract.taskId) && !Blank(input.runId)
      modifies driver, this`log
      ensures driver.State() == After(driver.machine, start, fired)
      ensures old(driver.history) <= driver.history
      ensures Faithful(o, input, driver.current)
      ensures log == old(log) || (|log| == |old(log)| + 1 && old(log) <= log && Guarded(log[|old(log)|], input, oracle))
      ensures Stopped(input, oracle) ==> log == old(log)
      ensures (SM.FollowsTable(driver.machine) && old(driver.current) == SM.ToolPending
               && fired0 == OPENING && !Blank(input.contract.userRequest)) ==>
                var e := EndingOf(input, oracle, judge);
                && EndsAs(e, input, oracle, o, fired, driver.current, |log| - |old(log)|)
                && (o.Completed? ==> Agrees(o.result, e, |log| - |old(log)|))
                && (log != old(log) ==> log[|old(log)|].at.current == SM.ToolRunning)
    {
      hide After, Faithful, EndsAs, SM.FollowsTable, PolicyStep, StopsAtPolicy, Guarded, Agrees, Attempt, WouldMove,
        Truthy, Strip, Blank;
      ghost var tabled := SM.FollowsTable(driver.machine) && driver.current == SM.ToolPending
                          && fired0 == OPENING && !Blank(input.contract.userRequest);
      var stop, invocation, policyStep;
      stop, invocation, policyStep, fired := Authorise(input, driver, start, fired0);
      if stop.Some? {
        o := stop.value;
        if tabled && o.Raised? {
          RaisedEnds(NoInvocation, input, oracle, o, fired, 0);
        } else if tabled {
          BlockedEnds(input, oracle, o);
          OutcomeAgreement(PolicyStop, input, oracle, o, fired, driver.current, 0);
        }
        return;
      }
      o, fired := RunTool(input, driver, invocation, policyStep, start, fired);
      if tabled && o.Completed? {
        OutcomeAgreement(ToolEnding(input, oracle, judge), input, oracle, o, fired, driver.current, 1);
      }
    }

    /** The phases of a run, one after the other. */
    method RunPhases(input: PipelineInput, driver: D.StateDriver) returns (o: RunOutcome, ghost fired: seq<SM.RunEvent>)
      modifies driver, this`log
      ensures driver.State() == After(driver.machine, old(driver.State()), fired)
      ensures Faithful(o, input, driver.current)
      ensures o.Completed? ==> Started(old(driver.history), driver.history)
      ensures log == old(log) || (|log| == |old(log)| + 1 && old(log) <= log && Guarded(log[|old(log)|], input, oracle))
      ensures Stopped(input, oracle) ==> log == old(log)
      ensures (SM.FollowsTable(driver.machine) && old(driver.current) == SM.Created) ==>
                EndsAs(EndingOf(input, oracle, judge), input, oracle, o, fired, driver.current, |log| - |old(log)|)
      ensures (SM.FollowsTable(driver.machine) && old(driver.current) == SM.Created && o.Completed?) ==>
                Agrees(o.result, EndingOf(input, oracle, judge), |log| - |old(log)|)
      ensures (SM.FollowsTable(driver.machine) && old(driver.current) == SM.Created && log != old(log)) ==>
                log[|old(log)|].at.current == SM.ToolRunning
      ensures !WouldMove(driver.machine, old(driver.State()), [], SM.StartRun) ==>
                o == Raised(InvalidModel) && fired == [SM.StartRun] && log == old(log)
    {
      hide After, Faithful, EndsAs, SM.FollowsTable, Guarded, Agrees, Attempt, WouldMove, EndingOf, Strip, Blank;
      ghost var tabled := SM.FollowsTable(driver.machine) && driver.current == SM.Created;
      ghost var start := driver.State();
      var stop: Option<RunOutcome>;
      stop, fired := Prepare(input, driver, start);
      if stop.Some? {
        o := stop.value;
        if tabled {
          BlankEnds(input, oracle, judge);
          RaisedEnds(NoPrompt, input, oracle, o, fired, 0);
        }
        return;
      }
      o, fired := Proceed(input, driver, start, fired);
    }

    /**
     * One run, on any driver. Whatever the machine, the driver ends where firing some events leads
     * it, the oracle is called at most once and only with approval, and a returned result is
     * faithful. From Created on the default table, the run ends as EndingOf says and no event is refused.
     */
    method Run(input: PipelineInput, driver: D.StateDriver) returns (o: RunOutcome, ghost fired: seq<SM.RunEvent>)
      modifies driver, this`log
      ensures driver.State() == After(driver.machine, old(driver.State()), fired)
      ensures Faithful(o, input, driver.current)
      ensures o.Completed? ==> Started(old(driver.history), driver.history)
      ensures log == old(log) || (|log| == |old(log)| + 1 && old(log) <= log && Guarded(log[|old(log)|], input, oracle))
      ensures Stopped(input, oracle) ==> log == old(log)
      ensures (SM.FollowsTable(driver.machine) && old(driver.current) == SM.Created) ==>
                EndsAs(EndingOf(input, oracle, judge), input, oracle, o, fired, driver.current, |log| - |old(log)|)
      ensures (SM.FollowsTable(driver.machine) && old(driver.current) == SM.Created && o.Completed?) ==>
                Agrees(o.result, EndingOf(input, oracle, judge), |log| - |old(log)|)
      ensures (SM.FollowsTable(driver.machine) && old(driver.current) == SM.Created) ==>
                (o.Completed? && o.result.success <==> Succeeding(input, oracle, judge))
      ensures (SM.FollowsTable(driver.machine) && old(driver.current) == SM.Created && log != old(log)) ==>
                log[|old(log)|].at.current == SM.ToolRunning
      ensures (SM.FollowsTable(driver.machine) && old(driver.current) == SM.Created) ==>
                Promised(input, oracle, judge, o, driver.current, log[|old(log)|..])
      ensures (SM.FollowsTable(driver.machine) && old(driver.current) == SM.Created && o.Completed?) ==>
                Reported(o.result, input, oracle)
      ensures (SM.FollowsTable(driver.machine) && old(driver.current) == SM.Created) ==>
                Writes(old(driver.history), fired, driver.history)
      ensures !WouldMove(driver.machine, old(driver.State()), [], SM.StartRun) ==>
                o == Raised(InvalidModel) && fired == [SM.StartRun] && log == old(log)
    {
      hide After, Faithful, EndsAs, SM.FollowsTable, Guarded, Agrees, Succeeding, Writes, WouldMove, Promised, Reported,
        EndingOf, Stopped;
      ghost var start := driver.State();
      ghost var tabled := SM.FollowsTable(driver.machine) && driver.current == SM.Created;
      ghost var calls := |log|;
      o, fired := RunPhases(input, driver);
      if tabled {
        ghost var asked := log[calls..];
        assert asked != [] ==> asked[0] == log[calls];
        KeepsPromise(input, oracle, judge, o, fired, driver.current, asked);
        EndingLeads(input, oracle, judge);
        RunWrites(driver.machine, start, EndingOf(input, oracle, judge), input, oracle, o, fired, driver.current,
                  |log| - calls);
      }
    }

    /** A run that brings no driver of its own gets a new one on the default machine. */
    method RunOnNewDriver(input: PipelineInput)
      returns (o: RunOutcome, driver: D.StateDriver, ghost fired: seq<SM.RunEvent>)
      modifies this`log
      ensures fresh(driver) && driver.machine == SM.DefaultMachine()
      ensures driver.State() == After(SM.DefaultMachine(), R.Fresh(), fired)
      ensures Writes([], fired, driver.history)
      ensures EndsAs(EndingOf(input, oracle, judge), input, oracle, o, fired, driver.current, |log| - |old(log)|)
      ensures log == old(log) || (|log| == |old(log)| + 1 && old(log) <= log && Guarded(log[|old(log)|], input, oracle))
      ensures log != old(log) ==> log[|old(log)|].at.current == SM.ToolRunning
      ensures Stopped(input, oracle) ==> log == old(log)
      ensures Promised(input, oracle, judge, o, driver.current, log[|old(log)|..])
      ensures o.Completed? ==> Reported(o.result, input, oracle)
      ensures o.Completed? && o.result.success <==> Succeeding(input, oracle, judge)
      ensures Faithful(o, input, driver.current)
      ensures o.Completed? ==> Agrees(o.result, EndingOf(input, oracle, judge), |log| - |old(log)|)
    {
      hide After, Faithful, SM.FollowsTable, SM.DefaultMachine, Agrees, EndsAs, EndingOf, Succeeding, Guarded, Writes,
        Promised, Reported, Stopped;
      SM.DefaultFollowsTable("harness-v1");
      driver := new D.StateDriver();
      o, fired := Run(input, driver);
    }
  }
}
