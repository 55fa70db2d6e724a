/** What a run of the pipeline is given, and what it asks. */
module Inputs {
  import opened Text
  import opened Result
  import D = Driver

  datatype RiskRule = RiskRule(actionName: string, riskLevel: RiskLevel, action: SafetyAction)

  datatype Criterion = Criterion(kind: string, target: string)

  datatype Contract = Contract(taskId: string, goal: string, userRequest: string, criteria: seq<Criterion>)

  /** A task contract that passed its own validators. */
  type TaskContract = c: Contract | Trimmed(c.goal) && c.criteria != []
    witness assert "goal"[0] == 'g'; Contract("task", "goal", "request", [Criterion("test", "pytest")])

  datatype PipelineInput = PipelineInput(
    contract: TaskContract, runId: string, modelName: string, policy: Option<seq<RiskRule>>)

  /** A tool executor returns a result or raises; a model provider answers or raises with a message. */
  datatype ExecutorReply = Returned(result: ToolResult) | Threw
  datatype ProviderReply = Answered(content: string, model: string, finishReason: string) | Failed(message: string)

  datatype Oracle =
    | Executor(execute: ToolInvocation -> ExecutorReply)
    | Provider(generate: string -> ProviderReply)

  /** How outputs are rendered as text, and which criteria a text passes. */
  datatype Judge = Judge(render: map<string, string> -> string, passes: (Criterion, string) -> bool)

  /** A call of the oracle, and the driver as it was then. */
  datatype OracleCall = OracleCall(invocation: ToolInvocation, at: D.DriverState)
}
