/** The names attempts, replays, control runs and tool calls get, as they read. */
module ArtifactNames {
  import EvalPlan
  import EvalSuite
  import ControlCalibration
  import PromptLoop
  import Decimal

  lemma FirstNumerals()
    ensures Decimal.Padded(1, 3) == "001" && Decimal.Padded(12, 3) == "012" && Decimal.Padded(1, 4) == "0001" && Decimal.Padded(1000, 3) == "1000"
  {
  }

  lemma AttemptNamesRead()
    ensures EvalPlan.AttemptDir("task", 0) == "attempts/task__attempt_001"
    ensures PromptLoop.ToolCallId(1) == "tool_call_0001"
  {
    FirstNumerals();
  }

  lemma SuiteNamesRead()
    ensures EvalSuite.PolicyRef("base") == "policies/base" && EvalSuite.ReplayRef("base", 11) == "replays/base__replay_012"
  {
    FirstNumerals();
  }

  lemma ControlNamesRead()
    ensures "task" + ControlCalibration.RunSuffix("bad.noop", 0) == "task__bad_noop__repeat_001"
    ensures "task" + ControlCalibration.CheckSuffix(0) == "task__public_check_001"
  {
    FirstNumerals();
  }
}
