// probe/canary.py, CanaryResult: what the runners produce and the aggregator stages.
module CanaryResults {
  import opened Common

  // The derived features of one answer; timestamps are left out.
  datatype CanaryResult = CanaryResult(
    model: string, suite: string, promptId: string, hash: string, outputLength: int, jsonValid: bool,
    latency: int, toolValid: Option<bool>, outputTokens: Option<int>, reasoningTokens: Option<int>)
}
