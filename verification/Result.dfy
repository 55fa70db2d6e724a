/** What a pipeline run leaves behind: its step results, and the trace and verdict derived from them. */
module Result {
  import opened Text
  import opened Trace
  import SM = StateMachine

  // ---- invoking a tool ----

  datatype ApprovalState = NotRequired | Pending | Approved | Rejected

  datatype ToolInvocation = ToolInvocation(toolName: string, taskId: string, agent: string, approval: ApprovalState)

  datatype ToolStatus = ToolSuccess | ToolError | ToolBlocked

  datatype ToolResult = ToolResult(
    status: ToolStatus, output: Option<map<string, string>>, artifacts: seq<string>, error: Option<string>)

  datatype RiskLevel = Low | Medium | High | Critical

  datatype SafetyAction = Allow | RequireApproval | Block

  datatype SafetyDecision = SafetyDecision(riskLevel: RiskLevel, action: SafetyAction)

  /** One step of a run; `finished` says whether the step has a finishing time. */
  datatype StepResult = StepResult(
    index: int, stepType: StepType, status: Status, finished: bool, latency: Option<real>,
    invocation: Option<ToolInvocation> := None, toolResult: Option<ToolResult> := None,
    decision: Option<SafetyDecision> := None, policy: Option<PolicyTrace> := None,
    verification: Option<VerificationTrace> := None, retry: Option<RetryTrace> := None,
    error: Option<string> := None)

  datatype Verdict = Pass | Fail

  datatype Benchmark = Benchmark(
    verdict: Verdict, taskSuccess: bool, verificationPassed: bool, latency: real, withinLatency: bool,
    safetyViolations: nat)

  datatype PipelineResult = PipelineResult(
    runId: string, taskId: string, success: bool, terminalState: SM.RunState, steps: seq<StepResult>,
    trace: RunTrace, benchmark: Benchmark, error: Option<string>)

  /** Why `run` ended in an exception. */
  datatype Cause = InvalidModel | DriverRefused | ToolRaised

  datatype RunOutcome = Completed(result: PipelineResult) | Raised(cause: Cause)

  /** An optional message counts as an error when it is present and not empty. */
  predicate Truthy(error: Option<string>) {
    error.Some? && error.value != ""
  }

  // ---- from step results to a trace ----

  function ToolTraceOf(r: StepResult): Option<ToolTrace> {
    if r.invocation.Some? && r.toolResult.Some? then
      Some(ToolTrace(
             Strip(r.invocation.value.toolName),
             if r.toolResult.value.status == ToolSuccess then Success else Failure,
             OrZero(r.latency),
             if Truthy(r.toolResult.value.error) then r.toolResult.value.error else None))
    else None
  }

  function StepTraceOf(r: StepResult): StepTrace {
    StepTrace(r.index, r.stepType, r.status, r.finished, r.latency, ToolTraceOf(r), r.policy, r.verification, r.retry)
  }

  predicate StepAccepted(r: StepResult) {
    && ValidStep(StepTraceOf(r))
    && (ToolTraceOf(r).Some? ==> ValidTool(ToolTraceOf(r).value))
  }

  /** Steps numbered by position, with the times and names that their statuses call for. */
  predicate WellNumbered(steps: seq<StepResult>) {
    forall i :: 0 <= i < |steps| ==> steps[i].index == i && WellFormed(steps[i])
  }

  predicate WellFormed(r: StepResult) {
    && (r.latency.Some? ==> r.latency.value >= 0.0)
    && (r.status != Skipped ==> r.finished && r.latency.Some?)
    && (r.invocation.Some? && r.toolResult.Some? ==> !Blank(r.invocation.value.toolName))
  }

  /** What a caller can check beforehand to know that a result can be built. */
  predicate Buildable(runId: string, taskId: string, steps: seq<StepResult>) {
    !Blank(runId) && !Blank(taskId) && steps != [] && WellNumbered(steps)
  }

  predicate IsSuccess(r: StepResult) { r.status == Success }
  predicate IsFailure(r: StepResult) { r.status == Failure }
  predicate IsBlocked(r: StepResult) { r.status == Blocked }
  predicate HasInvocation(r: StepResult) { r.invocation.Some? }
  predicate HasPolicy(r: StepResult) { r.policy.Some? }
  predicate HasPolicyBlock(r: StepResult) { r.policy.Some? && r.policy.value.outcome == PolicyBlocked }
  predicate HasRetry(r: StepResult) { r.retry.Some? }
  predicate HasVerification(r: StepResult) { r.verification.Some? }
  predicate HasVerificationFailure(r: StepResult) {
    r.verification.Some? && r.verification.value.status == Failure
  }

  predicate TraceHasPolicy(s: StepTrace) { s.policy.Some? }
  predicate TraceHasPolicyBlock(s: StepTrace) { s.policy.Some? && s.policy.value.outcome == PolicyBlocked }
  predicate TraceHasRetry(s: StepTrace) { s.retry.Some? }
  predicate TraceHasTool(s: StepTrace) { s.tool.Some? }
  predicate TraceHasVerification(s: StepTrace) { s.verification.Some? }
  predicate TraceHasVerificationFailure(s: StepTrace) {
    s.verification.Some? && s.verification.value.status == Failure
  }

  /** The summary says what the steps of its own trace say. */
  ghost predicate SummaryAgrees(t: RunTrace) {
    t.summary.Some? &&
    var s := t.summary.value;
    && s.totalSteps == |t.steps|
    && s.successful == CountIf(t.steps, HasStatus(Success))
    && s.failed == CountIf(t.steps, HasStatus(Failure))
    && s.blocked == CountIf(t.steps, HasStatus(Blocked))
    && s.successful + s.failed + s.blocked + CountIf(t.steps, HasStatus(Skipped)) == s.totalSteps
    && s.policyChecks == CountIf(t.steps, TraceHasPolicy)
    && s.policyBlocks == CountIf(t.steps, TraceHasPolicyBlock) <= s.policyChecks <= s.totalSteps
    && s.verificationChecks == CountIf(t.steps, TraceHasVerification) <= s.totalSteps
    && s.verificationFailures == CountIf(t.steps, TraceHasVerificationFailure) <= s.verificationChecks
    && s.retries == CountIf(t.steps, TraceHasRetry) <= s.totalSteps
    && CountIf(t.steps, TraceHasTool) <= s.toolCalls <= s.totalSteps
    && s.totalLatency == t.totalLatency == SumLatency(t.steps)
  }

  function Summarise(steps: seq<StepResult>, traces: seq<StepTrace>): TraceSummary {
    TraceSummary(
      |steps|, CountIf(steps, IsSuccess), CountIf(steps, IsFailure), CountIf(steps, IsBlocked),
      CountIf(steps, HasInvocation), CountIf(steps, HasPolicy), CountIf(steps, HasPolicyBlock),
      CountIf(steps, HasRetry), CountIf(steps, HasVerification), CountIf(steps, HasVerificationFailure),
      SumLatency(traces))
  }

  lemma SummaryCounts(steps: seq<StepResult>, t: RunTrace)
    requires Traces(t.steps, steps)
    requires t.summary == Some(Summarise(steps, t.steps)) && t.totalLatency == SumLatency(t.steps)
    ensures SummaryAgrees(t)
  {
    StatusesPartition(t.steps);
    CountIfMapped(steps, t.steps, IsSuccess, HasStatus(Success));
    CountIfMapped(steps, t.steps, IsFailure, HasStatus(Failure));
    CountIfMapped(steps, t.steps, IsBlocked, HasStatus(Blocked));
    CountIfMapped(steps, t.steps, HasPolicy, TraceHasPolicy);
    CountIfMapped(steps, t.steps, HasPolicyBlock, TraceHasPolicyBlock);
    CountIfMapped(steps, t.steps, HasRetry, TraceHasRetry);
    CountIfBounds(steps, HasRetry);
    CountIfMapped(steps, t.steps, HasVerification, TraceHasVerification);
    CountIfMapped(steps, t.steps, HasVerificationFailure, TraceHasVerificationFailure);
    CountIfMapped(steps, t.steps, r => ToolTraceOf(r).Some?, TraceHasTool);
    CountIfImplied(steps, r => ToolTraceOf(r).Some?, HasInvocation);
    CountIfImplied(steps, HasPolicyBlock, HasPolicy);
    CountIfImplied(steps, HasVerificationFailure, HasVerification);
    CountIfBounds(steps, HasInvocation);
    CountIfBounds(steps, HasPolicy);
    CountIfBounds(steps, HasVerification);
  }

  /** What the trace of a step says about the step, field by field. */
  predicate Tells(t: StepTrace, r: StepResult) {
    && t.index == r.index && t.stepType == r.stepType && t.status == r.status
    && t.finished == r.finished && t.latency == r.latency
    && t.policy == r.policy && t.verification == r.verification && t.retry == r.retry
    && (t.tool.Some? <==> r.invocation.Some? && r.toolResult.Some?)
    && (t.tool.Some? ==> TellsTool(t.tool.value, r.invocation.value, r.toolResult.value, r.latency))
  }

  /** A tool's trace says Success exactly for a result that does; an empty error counts as none. */
  predicate TellsTool(t: ToolTrace, invocation: ToolInvocation, result: ToolResult, latency: Option<real>) {
    && t.toolName == Strip(invocation.toolName)
    && t.status == (match result.status case ToolSuccess => Success case _ => Failure)
    && (latency.Some? ==> t.latency == latency.value) && (latency.None? ==> t.latency == 0.0)
    && (match result.error case Some(m) => t.error == (if |m| > 0 then Some(m) else None) case None => t.error.None?)
  }

  predicate TellsAll(traces: seq<StepTrace>, steps: seq<StepResult>) {
    |traces| == |steps| && forall i :: 0 <= i < |steps| ==> Tells(traces[i], steps[i])
  }

  lemma TracesTell(traces: seq<StepTrace>, steps: seq<StepResult>)
    requires Traces(traces, steps)
    ensures TellsAll(traces, steps)
  {
    forall i | 0 <= i < |steps| ensures Tells(traces[i], steps[i]) {
      StepTraceTells(steps[i]);
    }
  }

  lemma StepTraceTells(r: StepResult)
    ensures Tells(StepTraceOf(r), r)
  {
    hide Strip;
  }

  predicate Traces(traces: seq<StepTrace>, steps: seq<StepResult>) {
    |traces| == |steps| && forall i :: 0 <= i < |steps| ==> traces[i] == StepTraceOf(steps[i])
  }

  lemma AcceptedTraces(steps: seq<StepResult>, traces: seq<StepTrace>)
    requires Traces(traces, steps) && forall i :: 0 <= i < |steps| ==> StepAccepted(steps[i])
    ensures forall s :: s in traces ==> ValidStep(s) && (s.tool.Some? ==> ValidTool(s.tool.value))
    ensures SumLatency(traces) >= 0.0
  {
    SumLatencyNonNegative(traces);
  }

  lemma WellNumberedIff(steps: seq<StepResult>)
    ensures WellNumbered(steps) <==> forall i :: 0 <= i < |steps| ==> steps[i].index == i && StepAccepted(steps[i])
  {
    assert forall i :: 0 <= i < |steps| ==> (StepAccepted(steps[i]) ==> steps[i].index >= 0);
  }

  /** Builds the step traces one by one; the first that its validators reject ends the run. */
  method TraceSteps(steps: seq<StepResult>) returns (traces: Option<seq<StepTrace>>)
    ensures traces.Some? <==> forall i :: 0 <= i < |steps| ==> StepAccepted(steps[i])
    ensures traces.Some? ==> Traces(traces.value, steps)
  {
    var ts: seq<StepTrace> := [];
    for k := 0 to |steps|
      invariant Traces(ts, steps[..k])
      invariant forall i :: 0 <= i < k ==> StepAccepted(steps[i])
    {
      if !StepAccepted(steps[k]) {
        return None;
      }
      ts := ts + [StepTraceOf(steps[k])];
    }
    assert steps[..|steps|] == steps;
    return Some(ts);
  }

  /** Whether the result reports success. */
  predicate Succeeds(current: SM.RunState, error: Option<string>) {
    current == SM.Succeeded && !Truthy(error)
  }

  predicate NoneWith(steps: seq<StepResult>, status: Status) {
    forall r :: r in steps ==> r.status != status
  }

  /** What a result says, in terms of where the driver stopped, the error and the steps. */
  predicate Verdicts(p: PipelineResult, current: SM.RunState, error: Option<string>) {
    && (p.success <==> Succeeds(current, error))
    && p.trace.terminalStatus == (if !NoneWith(p.steps, Blocked) then Blocked
                                  else if current == SM.Failed || Truthy(error) then Failure
                                  else Success)
    && (p.benchmark.verdict == Pass <==> p.success) && p.benchmark.taskSuccess == p.success
    && (p.benchmark.verificationPassed <==> NoneWith(p.steps, Failure))
    && p.benchmark.safetyViolations == CountIf(p.steps, IsBlocked)
    && (p.benchmark.safetyViolations == 0 <==> NoneWith(p.steps, Blocked))
    && p.benchmark.latency == p.trace.totalLatency
    && (p.benchmark.withinLatency <==> p.benchmark.latency <= 30.0)
  }

  function TerminalStatus(current: SM.RunState, steps: seq<StepResult>, error: Option<string>): Status {
    if CountIf(steps, IsBlocked) > 0 then Blocked
    else if current == SM.Failed || Truthy(error) then Failure
    else Success
  }

  function MakeTrace(runId: string, taskId: string, current: SM.RunState, steps: seq<StepResult>,
                     traces: seq<StepTrace>, error: Option<string>): RunTrace {
    var summary := Summarise(steps, traces);
    RunTrace(Strip(runId), Strip(taskId), traces, TerminalStatus(current, steps, error), summary.totalLatency, true,
             Some(summary))
  }

  function MakeBenchmark(success: bool, steps: seq<StepResult>, totalLatency: real): Benchmark {
    Benchmark(if success then Pass else Fail, success, CountIf(steps, IsFailure) == 0, totalLatency,
              totalLatency <= 30.0, CountIf(steps, IsBlocked))
  }

  lemma MadeTraceIsValid(runId: string, taskId: string, current: SM.RunState, steps: seq<StepResult>,
                         traces: seq<StepTrace>, error: Option<string>)
    requires Buildable(runId, taskId, steps) && Traces(traces, steps)
    ensures var t := MakeTrace(runId, taskId, current, steps, traces, error);
            ValidThroughout(t) && SummaryAgrees(t)
  {
    WellNumberedIff(steps);
    AcceptedTraces(steps, traces);
    SummaryCounts(steps, MakeTrace(runId, taskId, current, steps, traces, error));
  }

  /** The verdicts of a result, put together from its steps, follow from what the steps say. */
  lemma VerdictsFollow(p: PipelineResult, current: SM.RunState)
    requires p.success == Succeeds(current, p.error)
    requires p.trace.terminalStatus == TerminalStatus(current, p.steps, p.error)
    requires p.benchmark == MakeBenchmark(p.success, p.steps, p.trace.totalLatency)
    ensures Verdicts(p, current, p.error)
  {
    CountIfBounds(p.steps, IsBlocked);
    CountIfBounds(p.steps, IsFailure);
  }

  /** When the success flag and the terminal status of the trace agree. */
  predicate FlagAgrees(current: SM.RunState, steps: seq<StepResult>, error: Option<string>) {
    Succeeds(current, error) <==> TerminalStatus(current, steps, error) == Success
  }

  lemma FlagAgreesIff(current: SM.RunState, steps: seq<StepResult>, error: Option<string>)
    ensures FlagAgrees(current, steps, error) <==>
            Truthy(error) || current == SM.Failed || (current == SM.Succeeded <==> NoneWith(steps, Blocked))
  {
    CountIfBounds(steps, IsBlocked);
  }

  /**
   * They can disagree both ways. A driver whose machine answers a rejected approval with Succeeded is
   * successful in a blocked trace; one whose machine answers a passed verification with Cancelled is
   * not successful in a trace that says Success.
   */
  lemma FlagCanDisagree(blocked: seq<StepResult>, passed: seq<StepResult>)
    requires blocked == [StepResult(0, PromptAssembly, Success, true, Some(0.1)),
                         StepResult(1, PolicyCheck, Blocked, true, Some(0.05))]
    requires passed == [StepResult(0, PromptAssembly, Success, true, Some(0.1)),
                        StepResult(1, PolicyCheck, Skipped, true, Some(0.01)),
                        StepResult(2, ToolExecution, Success, true, Some(0.2)),
                        StepResult(3, Verification, Success, true, Some(0.15))]
    ensures Buildable("run", "task", blocked) && Buildable("run", "task", passed)
    ensures Succeeds(SM.Succeeded, None) && TerminalStatus(SM.Succeeded, blocked, None) == Blocked
    ensures !Succeeds(SM.Cancelled, None) && TerminalStatus(SM.Cancelled, passed, None) == Success
  {
    assert "run"[0] == 'r' && "task"[0] == 't';
    assert IsBlocked(blocked[1]);
    CountIfBounds(blocked, IsBlocked);
    CountIfBounds(passed, IsBlocked);
  }

  /**
   * Derives trace, counters and verdict. It raises exactly when the steps are not buildable, and
   * what it returns passes every validator of the trace. The success flag and the terminal status
   * need not agree: a run that stops in a working state without an error is not a success, yet its
   * trace says Success; the last clause says exactly when they do agree.
   */
  method BuildResult(runId: string, taskId: string, current: SM.RunState, steps: seq<StepResult>,
                     error: Option<string> := None) returns (o: RunOutcome)
    ensures o.Completed? <==> Buildable(runId, taskId, steps)
    ensures o.Raised? ==> o.cause == InvalidModel
    ensures o.Completed? ==>
              var p := o.result;
              && p.runId == runId && p.trace.runId == Strip(runId)
              && p.taskId == taskId && p.trace.taskId == Strip(taskId)
              && p.steps == steps && p.error == error && p.terminalState == current
              && ValidThroughout(p.trace) && SummaryAgrees(p.trace) && TellsAll(p.trace.steps, steps)
              && p.trace.summary.value.toolCalls == CountIf(steps, HasInvocation)
    ensures o.Completed? ==> Verdicts(o.result, current, error)
    ensures o.Completed? ==>
              ((o.result.success <==> o.result.trace.terminalStatus == Success) <==>
               || Truthy(error) || current == SM.Failed
               || (current == SM.Succeeded <==> NoneWith(steps, Blocked)))
  {
    hide ValidThroughout, SummaryAgrees, TellsAll, StepAccepted, WellFormed, Truthy, Blank, Strip;
    var success := current == SM.Succeeded && !Truthy(error);
    WellNumberedIff(steps);
    var traced := TraceSteps(steps);
    if traced.None? {
      return Raised(InvalidModel);
    }
    var traces := traced.value;
    if Blank(runId) || Blank(taskId) || steps == [] || exists i :: 0 <= i < |traces| && traces[i].index != i {
      return Raised(InvalidModel);
    }
    var trace := MakeTrace(runId, taskId, current, steps, traces, error);
    MadeTraceIsValid(runId, taskId, current, steps, traces, error);
    var benchmark := MakeBenchmark(success, steps, trace.totalLatency);
    var p := PipelineResult(runId, taskId, success, current, steps, trace, benchmark, error);
    VerdictsFollow(p, current);
    FlagAgreesIff(current, steps, error);
    TracesTell(traces, steps);
    return Completed(p);
  }
}
