/** The run trace and the validators it must satisfy. */
module Trace {
  import opened Text

  datatype StepType =
    | PromptAssembly | ContextSelection | ToolExecution | Verification | PolicyCheck | Retry | Approval

  datatype Status = Success | Failure | Skipped | Blocked

  datatype PolicyOutcome = Allowed | RequiredApproval | PolicyBlocked | Escalated

  datatype ToolTrace = ToolTrace(toolName: string, status: Status, latency: real, error: Option<string>)

  datatype PolicyTrace = PolicyTrace(outcome: PolicyOutcome)

  datatype VerificationTrace = VerificationTrace(checkName: string, status: Status)

  datatype RetryTrace = RetryTrace(attempt: nat, maxAttempts: nat)

  datatype StepTrace = StepTrace(
    index: int, stepType: StepType, status: Status, finished: bool, latency: Option<real>,
    tool: Option<ToolTrace>, policy: Option<PolicyTrace>, verification: Option<VerificationTrace>,
    retry: Option<RetryTrace>)

  datatype TraceSummary = TraceSummary(
    totalSteps: int, successful: int, failed: int, blocked: int, toolCalls: int, policyChecks: int,
    policyBlocks: int, retries: int, verificationChecks: int, verificationFailures: int, totalLatency: real)

  datatype RunTrace = RunTrace(
    runId: string, taskId: string, steps: seq<StepTrace>, terminalStatus: Status, totalLatency: real,
    finished: bool, summary: Option<TraceSummary>)

  predicate Final(s: Status) {
    s != Skipped
  }

  predicate ValidTool(t: ToolTrace) {
    !Blank(t.toolName) && t.latency >= 0.0
  }

  predicate ValidStep(s: StepTrace) {
    && s.index >= 0
    && (s.latency.Some? ==> s.latency.value >= 0.0)
    && (Final(s.status) ==> s.finished && s.latency.Some?)
  }

  predicate ValidSummary(s: TraceSummary) {
    && s.totalSteps >= 0 && s.successful >= 0 && s.failed >= 0 && s.blocked >= 0 && s.toolCalls >= 0
    && s.policyChecks >= 0 && s.policyBlocks >= 0 && s.retries >= 0
    && s.verificationChecks >= 0 && s.verificationFailures >= 0 && s.totalLatency >= 0.0
    && s.successful + s.failed + s.blocked <= s.totalSteps
  }

  predicate ValidRun(t: RunTrace) {
    && !Blank(t.runId) && !Blank(t.taskId)
    && t.totalLatency >= 0.0
    && t.steps != []
    && (forall i :: 0 <= i < |t.steps| ==> t.steps[i].index == i)
    && (Final(t.terminalStatus) ==> t.finished)
    && (t.summary.Some? ==> t.summary.value.totalSteps == |t.steps|)
  }

  /** A trace all of whose parts passed their own validators too. */
  predicate ValidThroughout(t: RunTrace) {
    && ValidRun(t)
    && (forall s :: s in t.steps ==> ValidStep(s) && (s.tool.Some? ==> ValidTool(s.tool.value)))
    && (t.summary.Some? ==> ValidSummary(t.summary.value))
  }

  // ---- counting ----

  function CountIf<T>(s: seq<T>, p: T -> bool): nat {
    if s == [] then 0 else CountIf(s[..|s| - 1], p) + if p(s[|s| - 1]) then 1 else 0
  }

  lemma {:induction false} CountIfBounds<T>(s: seq<T>, p: T -> bool)
    ensures CountIf(s, p) <= |s|
    ensures CountIf(s, p) == 0 <==> forall x :: x in s ==> !p(x)
  {
    if s != [] {
      assert s == s[..|s| - 1] + [s[|s| - 1]];
      CountIfBounds(s[..|s| - 1], p);
    }
  }

  /** A count is bounded by the count of anything it implies. */
  lemma {:induction false} CountIfImplied<T>(s: seq<T>, p: T -> bool, q: T -> bool)
    requires forall x :: x in s && p(x) ==> q(x)
    ensures CountIf(s, p) <= CountIf(s, q)
  {
    if s != [] {
      assert s == s[..|s| - 1] + [s[|s| - 1]];
      CountIfImplied(s[..|s| - 1], p, q);
    }
  }

  /** Counts taken through a step-by-step translation agree. */
  lemma {:induction false} CountIfMapped<T, U>(s: seq<T>, t: seq<U>, p: T -> bool, q: U -> bool)
    requires |s| == |t|
    requires forall i :: 0 <= i < |s| ==> p(s[i]) == q(t[i])
    ensures CountIf(s, p) == CountIf(t, q)
  {
    if s != [] {
      CountIfMapped(s[..|s| - 1], t[..|t| - 1], p, q);
    }
  }

  function OneIf(b: bool): nat {
    if b then 1 else 0
  }

  /** A short list counted out. */
  lemma FewCounted<T>(s: seq<T>, p: T -> bool)
    requires 2 <= |s| <= 4
    ensures CountIf(s, p) ==
            OneIf(p(s[0])) + OneIf(p(s[1])) + OneIf(|s| > 2 && p(s[2])) + OneIf(|s| > 3 && p(s[3]))
  {
    var two := s[..2];
    assert two[..1][..0] == [] && CountIf(two[..1], p) == OneIf(p(s[0]));
    assert CountIf(two, p) == OneIf(p(s[0])) + OneIf(p(s[1]));
    if |s| == 2 {
      assert s == two;
    } else {
      var three := s[..3];
      assert three[..2] == two && CountIf(three, p) == CountIf(two, p) + OneIf(p(s[2]));
      assert if |s| == 3 then s == three else s[..3] == three;
    }
  }

  function HasStatus(st: Status): StepTrace -> bool {
    (s: StepTrace) => s.status == st
  }

  /** Each step has exactly one of the four statuses. */
  lemma {:induction false} StatusesPartition(steps: seq<StepTrace>)
    ensures CountIf(steps, HasStatus(Success)) + CountIf(steps, HasStatus(Failure))
            + CountIf(steps, HasStatus(Blocked)) + CountIf(steps, HasStatus(Skipped)) == |steps|
  {
    if steps != [] {
      StatusesPartition(steps[..|steps| - 1]);
    }
  }

  function SumLatency(steps: seq<StepTrace>): real {
    if steps == [] then 0.0
    else SumLatency(steps[..|steps| - 1]) + OrZero(steps[|steps| - 1].latency)
  }

  function OrZero(x: Option<real>): real {
    if x.Some? then x.value else 0.0
  }

  lemma FewSummed(s: seq<StepTrace>)
    requires 2 <= |s| <= 4
    ensures SumLatency(s) ==
            OrZero(s[0].latency) + OrZero(s[1].latency)
            + (if |s| > 2 then OrZero(s[2].latency) else 0.0) + (if |s| > 3 then OrZero(s[3].latency) else 0.0)
  {
    var two := s[..2];
    assert two[..1][..0] == [] && SumLatency(two[..1]) == OrZero(s[0].latency);
    assert SumLatency(two) == OrZero(s[0].latency) + OrZero(s[1].latency);
    if |s| == 2 {
      assert s == two;
    } else {
      var three := s[..3];
      assert three[..2] == two && SumLatency(three) == SumLatency(two) + OrZero(s[2].latency);
      assert if |s| == 3 then s == three else s[..3] == three;
    }
  }

  lemma {:induction false} SumLatencyNonNegative(steps: seq<StepTrace>)
    requires forall s :: s in steps ==> OrZero(s.latency) >= 0.0
    ensures SumLatency(steps) >= 0.0
  {
    if steps != [] {
      assert steps == steps[..|steps| - 1] + [steps[|steps| - 1]];
      SumLatencyNonNegative(steps[..|steps| - 1]);
    }
  }
}
