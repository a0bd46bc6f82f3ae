/** Plans and policies (internal/controlplane/contracts/types.go). */
module PlanContracts {

  datatype PlanStep = PlanStep(
    stepId: string, toolName: string, toolVersion: string,
    tags: seq<string>, scopes: seq<string>, args: map<string, string>, stopOnErr: bool)

  datatype Plan = Plan(steps: seq<PlanStep>)

  datatype PolicyDecision = PolicyDecision(
    allowed: bool, allowWrites: bool, scopes: seq<string>, toolTagAllow: seq<string>,
    maxToolCalls: int, maxSeconds: int)

  /** What a tool returns. */
  type ToolOutput = map<string, string>
}
