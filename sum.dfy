/**
 * `sumCmd` of `cmd/sum.go`: the command options, and the numbers
 * `FormatOutput` prints with the layout its `output` option selects.
 */
module Sum {
  import opened Resources
  import opened Base
  import opened Combined

  datatype SumCmd = SumCmd(base: BaseHelmCmd, output: string)

  datatype Layout = Table | Lines

  /** What `FormatOutput` writes: the layout and the four metrics. */
  datatype SumReport = SumReport(layout: Layout, summary: Summary)

  /** The `switch s.output`: `"table"` selects the table, anything else the lines. */
  function OutputLayout(output: string): (l: Layout)
    ensures l == Table <==> output == "table"
  {
    if output == "table" then Table else Lines
  }

  /** `FormatOutput`, without the writing. */
  function FormatOutput(s: SumCmd, req: Requirements): (r: SumReport)
    ensures r.layout == Table <==> s.output == "table"
    ensures r.summary.cpuLimit.workload == Get(req.limits, Cpu) && r.summary.memLimit.workload == Get(req.limits, Memory)
    ensures r.summary.cpuReq.workload == Get(req.requests, Cpu) && r.summary.memReq.workload == Get(req.requests, Memory)
    ensures r.summary.cpuLimit.job == Get(req.limits, JobCpu) && r.summary.memLimit.job == Get(req.limits, JobMemory)
    ensures r.summary.cpuReq.job == Get(req.requests, JobCpu) && r.summary.memReq.job == Get(req.requests, JobMemory)
    ensures r.summary.cpuLimit.sum == r.summary.cpuLimit.workload + r.summary.cpuLimit.job
    ensures r.summary.memLimit.sum == r.summary.memLimit.workload + r.summary.memLimit.job
    ensures r.summary.cpuReq.sum == r.summary.cpuReq.workload + r.summary.cpuReq.job
    ensures r.summary.memReq.sum == r.summary.memReq.workload + r.summary.memReq.job
  {
    SumReport(OutputLayout(s.output), Summarize(req))
  }
}
