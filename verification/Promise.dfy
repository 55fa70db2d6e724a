/**
 * What a run promises in terms of its input alone: which tool is asked for, with what, and what
 * follows from the answer. `Pipeline.PipelineExecutor.Run` keeps the promise.
 */
module Promise {
  import opened Text
  import opened Trace
  import opened Result
  import opened Inputs
  import SM = StateMachine
  import D = Driver

  /** The first rule for `tool` demands `action`. */
  predicate FirstRule(input: PipelineInput, tool: string, action: SafetyAction) {
    input.policy.Some? &&
    var rules := input.policy.value;
    exists i :: 0 <= i < |rules| && rules[i].actionName == tool && rules[i].action == action
                && forall j :: 0 <= j < i ==> rules[j].actionName != tool
  }

  predicate Stopped(input: PipelineInput, oracle: Oracle) {
    match oracle
    case Executor(_) => FirstRule(input, "mock_tool", Block)
    case Provider(_) => FirstRule(input, "model_generate", Block)
  }

  predicate NeedsApproval(input: PipelineInput, oracle: Oracle) {
    match oracle
    case Executor(_) => FirstRule(input, "mock_tool", RequireApproval)
    case Provider(_) => FirstRule(input, "model_generate", RequireApproval)
  }

  predicate Incomplete(input: PipelineInput) {
    || Blank(input.runId) || Blank(input.modelName)
    || Blank(input.contract.taskId) || Blank(input.contract.userRequest)
  }

  /** The tool goes by its own name and the model by another; an approval that was granted still reads pending. */
  predicate RightlyNamed(i: ToolInvocation, input: PipelineInput, oracle: Oracle) {
    && i.toolName == (match oracle case Executor(_) => "mock_tool" case Provider(_) => "model_generate")
    && i.taskId == Strip(input.contract.taskId)
    && i.agent == Strip(input.modelName)
    && i.approval == (if NeedsApproval(input, oracle) then Pending else NotRequired)
  }

  /** A call made right after the driver granted the approval that is needed, or waived one that is not. */
  predicate Guarded(call: OracleCall, input: PipelineInput, oracle: Oracle) {
    var h := call.at.history;
    && RightlyNamed(call.invocation, input, oracle) && !Stopped(input, oracle)
    && h != []
    && h[|h| - 1].decision == D.Allowed
    && h[|h| - 1].event == (if NeedsApproval(input, oracle) then SM.ApprovalGranted else SM.ToolApprovedOrNotRequired)
    && call.at.current == h[|h| - 1].to
  }

  /** The oracle answers with a result; a model's answer is one that succeeded, its failure one that did not. */
  predicate Gives(oracle: Oracle, i: ToolInvocation, goal: string, r: ToolResult) {
    match oracle
    case Executor(execute) => execute(i) == Returned(r)
    case Provider(generate) =>
      match generate(goal)
      case Answered(content, model, reason) =>
        && r.status == ToolSuccess && r.error.None? && r.artifacts == []
        && r.output == Some(map["content" := content, "model" := model, "finish_reason" := reason])
      case Failed(message) =>
        && message != ""
        && r.status == ToolError && r.error == Some(message) && r.artifacts == [] && r.output == Some(map[])
  }

  predicate GivesNothing(oracle: Oracle, i: ToolInvocation, goal: string) {
    match oracle
    case Executor(execute) => execute(i).Threw?
    case Provider(generate) => generate(goal) == Failed("")
  }

  /** The steps show the invocation, the result it got and the error of the tool's step. */
  predicate Carries(steps: seq<StepResult>, i: ToolInvocation, r: ToolResult, error: Option<string>)
    requires |steps| > 2
  {
    && steps[1].invocation == Some(i) && steps[2].invocation == Some(i)
    && steps[2].toolResult == Some(r) && steps[2].error == error
  }

  /** What becomes of a run whose invocation `i` was answered by `r`. */
  ghost predicate FollowsFrom(input: PipelineInput, judge: Judge, o: RunOutcome, current: SM.RunState,
                              i: ToolInvocation, r: ToolResult) {
    var criteria := input.contract.criteria;
    var text := match r.output case Some(output) => judge.render(output) case None => "";
    if r.status != ToolSuccess then
      && o.Completed? && !o.result.success && current == SM.RetryPending && |o.result.steps| == 3
      && Carries(o.result.steps, i, r, r.error)
      && o.result.error == Some(match r.error
                                case Some(message) => if message == "" then "execution failed" else message
                                case None => "execution failed")
    else if exists c :: c in criteria && c.target != "" && Blank(c.target) then
      o == Raised(InvalidModel)
    else
      && o.Completed? && o.result.error.None? && |o.result.steps| == 4
      && Carries(o.result.steps, i, r, None)
      && o.result.steps[3].verification ==
         Some(VerificationTrace("all_checks", if o.result.success then Success else Failure))
      && (o.result.success <==> forall c :: c in criteria ==> judge.passes(c, text))
      && current == (if o.result.success then SM.Succeeded else SM.Failed)
  }

  /** What becomes of a run from Created on the default table, `asked` being the calls of the oracle it makes. */
  ghost predicate Promised(input: PipelineInput, oracle: Oracle, judge: Judge, o: RunOutcome, current: SM.RunState,
                           asked: seq<OracleCall>) {
    if Incomplete(input) then
      o == Raised(InvalidModel) && asked == []
    else if Stopped(input, oracle) then
      && asked == [] && o.Completed? && !o.result.success && current == SM.Failed
      && |o.result.steps| == 2 && o.result.error.None?
    else
      && |asked| == 1 && asked[0].at.current == SM.ToolRunning
      && var i, goal := asked[0].invocation, input.contract.goal;
      && RightlyNamed(i, input, oracle)
      && (GivesNothing(oracle, i, goal) ==> o == Raised(if oracle.Executor? then ToolRaised else InvalidModel))
      && (forall r :: Gives(oracle, i, goal, r) ==> FollowsFrom(input, judge, o, current, i, r))
  }

  /** Nothing is missing, no rule stops the run, and the oracle and every criterion succeed. */
  ghost predicate Succeeding(input: PipelineInput, oracle: Oracle, judge: Judge) {
    && !Incomplete(input) && !Stopped(input, oracle)
    && exists i, r ::
         RightlyNamed(i, input, oracle) && Gives(oracle, i, input.contract.goal, r) && Passes(input, judge, r)
  }

  predicate Passes(input: PipelineInput, judge: Judge, r: ToolResult) {
    && r.status == ToolSuccess
    && forall c :: c in input.contract.criteria ==>
         && (c.target == "" || !Blank(c.target))
         && judge.passes(c, match r.output case Some(output) => judge.render(output) case None => "")
  }

  /** Keeping the promise, a run succeeds exactly when it should. */
  lemma SuccessIff(input: PipelineInput, oracle: Oracle, judge: Judge, o: RunOutcome, current: SM.RunState,
                   asked: seq<OracleCall>)
    requires Promised(input, oracle, judge, o, current, asked)
    ensures o.Completed? && o.result.success <==> Succeeding(input, oracle, judge)
  {
    hide Incomplete, Stopped, NeedsApproval, Strip, Blank;
    if !Incomplete(input) && !Stopped(input, oracle) {
      var i, goal := asked[0].invocation, input.contract.goal;
      SomethingOrNothing(oracle, i, goal);
      OneNamed(input, oracle, i);
      if r :| Gives(oracle, i, goal, r) {
        OneGiven(oracle, i, goal, r);
        SuccessOf(input, judge, o, current, i, r);
      }
    }
  }

  lemma SuccessOf(input: PipelineInput, judge: Judge, o: RunOutcome, current: SM.RunState, i: ToolInvocation,
                  r: ToolResult)
    requires FollowsFrom(input, judge, o, current, i, r)
    ensures o.Completed? && o.result.success <==> Passes(input, judge, r)
  {
    hide Blank;
  }

  lemma OneNamed(input: PipelineInput, oracle: Oracle, i: ToolInvocation)
    requires RightlyNamed(i, input, oracle)
    ensures forall j :: RightlyNamed(j, input, oracle) ==> j == i
  {
  }

  lemma OneGiven(oracle: Oracle, i: ToolInvocation, goal: string, r: ToolResult)
    requires Gives(oracle, i, goal, r)
    ensures forall q :: Gives(oracle, i, goal, q) ==> q == r
  {
  }

  /** Something is always given, or nothing; so a promise that is kept says how every run ends. */
  lemma SomethingOrNothing(oracle: Oracle, i: ToolInvocation, goal: string)
    ensures GivesNothing(oracle, i, goal) <==> forall r :: !Gives(oracle, i, goal, r)
  {
    match oracle
    case Executor(execute) =>
      if execute(i).Returned? {
        assert Gives(oracle, i, goal, execute(i).result);
      }
    case Provider(generate) =>
      match generate(goal)
      case Answered(content, model, reason) =>
        var output := map["content" := content, "model" := model, "finish_reason" := reason];
        assert Gives(oracle, i, goal, ToolResult(ToolSuccess, Some(output), [], None));
      case Failed(message) =>
        if message != "" {
          assert Gives(oracle, i, goal, ToolResult(ToolError, Some(map[]), [], Some(message)));
        }
  }

  /** The counters, the times and the traces of a result that a run from Created on the default table returns. */
  predicate Reported(p: PipelineResult, input: PipelineInput, oracle: Oracle) {
    && 2 <= |p.steps| <= 4 && |p.trace.steps| == |p.steps| && p.trace.summary.Some?
    && Counted(p.trace.summary.value, |p.steps|, p.success, input.policy.Some?)
    && Timed(p, input)
    && Shown(p.trace.steps, input, oracle)
    && Decided(p.steps[1].decision, input, oracle)
    && p.benchmark.safetyViolations == OneIf(|p.steps| == 2)
  }

  /** A run takes two steps when it is stopped, three when the tool fails, and four when the criteria are checked. */
  predicate Counted(s: TraceSummary, n: nat, success: bool, policed: bool) {
    && s.policyChecks == 1 && s.policyBlocks == OneIf(n == 2) && s.retries == 0
    && s.verificationChecks == OneIf(n == 4) && s.verificationFailures == OneIf(n == 4 && !success)
    && s.blocked == OneIf(n == 2) && s.failed == OneIf(n > 2 && !success)
    && s.successful == n - OneIf(!policed) - s.blocked - s.failed
    && s.toolCalls == OneIf(n >= 2) + OneIf(n >= 3)
  }

  /** Without a policy nothing is decided; with one, what its first rule for the tool demands. */
  predicate Decided(d: Option<SafetyDecision>, input: PipelineInput, oracle: Oracle) {
    && (d.None? <==> input.policy.None?)
    && (d.Some? ==>
          && (d.value.action == Block <==> Stopped(input, oracle))
          && (d.value.action == RequireApproval <==> NeedsApproval(input, oracle)))
  }

  predicate Timed(p: PipelineResult, input: PipelineInput) {
    && p.trace.totalLatency == 0.1 + (if input.policy.Some? then 0.05 else 0.01)
                               + (if |p.steps| == 2 then 0.0 else if |p.steps| == 3 then 0.2 else 0.35)
    && p.benchmark.latency == p.trace.totalLatency && p.benchmark.withinLatency
  }

  /** Only the third step traces a tool, and its trace agrees with the step; the second says what the policy did. */
  predicate Shown(steps: seq<StepTrace>, input: PipelineInput, oracle: Oracle)
    requires |steps| >= 2
  {
    && (forall i :: 0 <= i < |steps| ==> (steps[i].tool.Some? <==> i == 2))
    && (|steps| > 2 ==> steps[2].tool.Some? && steps[2].tool.value.status == steps[2].status)
    && steps[1].policy.Some?
    && steps[1].policy.value.outcome ==
       (if |steps| == 2 then PolicyBlocked else if NeedsApproval(input, oracle) then RequiredApproval else Allowed)
  }
}
