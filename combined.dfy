/**
 * The static/job/combined totals that `checkCmd.run` (cmd/check.go) and
 * `sumCmd.FormatOutput` (cmd/sum.go) both compute: for each of the four
 * metrics, the static total under `cpu`/`memory`, the job total under the
 * job keys, and their sum. Totals are values, so the summation cannot
 * disturb the totals it reads, which the source ensures with `DeepCopy`.
 */
module Combined {
  import opened Resources

  /**
   * The keys that hold the job share of CPU and memory. Their names are
   * defined outside the modelled files; these are assumed values, and no
   * modelled code writes them.
   */
  const JobCpu: ResourceName := "job-cpu"
  const JobMemory: ResourceName := "job-memory"

  /** One metric: the static-workload part, the job part and their sum. */
  datatype Metric = Metric(workload: Quantity, job: Quantity, sum: Quantity)

  datatype Summary = Summary(cpuLimit: Metric, memLimit: Metric, cpuReq: Metric, memReq: Metric)

  /** The metric of `key` in `l`, with its job key `job`: `l.Name(key).DeepCopy().Add(l[job])`. */
  function MetricOf(l: ResourceList, key: ResourceName, job: ResourceName): Metric
  {
    var s := Get(l, key);
    var j := Get(l, job);
    Metric(s, j, s + j)
  }

  /** The four metrics of `req`. */
  function Summarize(req: Requirements): (r: Summary)
    ensures r.cpuLimit == Metric(Get(req.limits, Cpu), Get(req.limits, JobCpu), Get(req.limits, Cpu) + Get(req.limits, JobCpu))
    ensures r.memLimit == Metric(Get(req.limits, Memory), Get(req.limits, JobMemory), Get(req.limits, Memory) + Get(req.limits, JobMemory))
    ensures r.cpuReq == Metric(Get(req.requests, Cpu), Get(req.requests, JobCpu), Get(req.requests, Cpu) + Get(req.requests, JobCpu))
    ensures r.memReq == Metric(Get(req.requests, Memory), Get(req.requests, JobMemory), Get(req.requests, Memory) + Get(req.requests, JobMemory))
  {
    Summary(
      MetricOf(req.limits, Cpu, JobCpu),
      MetricOf(req.limits, Memory, JobMemory),
      MetricOf(req.requests, Cpu, JobCpu),
      MetricOf(req.requests, Memory, JobMemory))
  }

  /** Totals keyed only by `cpu` and `memory` have no job share: every sum is the static total. */
  lemma NoJobKeysMeansSumIsStatic(req: Requirements)
    requires CpuMemoryKeyed(req)
    ensures var s := Summarize(req);
      && s.cpuLimit == Metric(req.limits[Cpu], 0, req.limits[Cpu])
      && s.memLimit == Metric(req.limits[Memory], 0, req.limits[Memory])
      && s.cpuReq == Metric(req.requests[Cpu], 0, req.requests[Cpu])
      && s.memReq == Metric(req.requests[Memory], 0, req.requests[Memory])
  {
  }

  /**
   * The summation as the source writes it: job parts read from the job
   * keys, then a copy of each static total with the job part added. The
   * method may change nothing, so the totals it reads stay as they were.
   */
  method CombinedTotals(req: Totals) returns (r: Summary)
    ensures r == Summarize(req.Value())
    ensures r.cpuLimit.sum == r.cpuLimit.workload + r.cpuLimit.job && r.memLimit.sum == r.memLimit.workload + r.memLimit.job
    ensures r.cpuReq.sum == r.cpuReq.workload + r.cpuReq.job && r.memReq.sum == r.memReq.workload + r.memReq.job
  {
    var jobCpuReq := Get(req.requests, JobCpu);
    var jobCpuLim := Get(req.limits, JobCpu);
    var jobMemReq := Get(req.requests, JobMemory);
    var jobMemLim := Get(req.limits, JobMemory);

    var sumCpuReq := Get(req.requests, Cpu);
    sumCpuReq := sumCpuReq + jobCpuReq;
    var sumMemReq := Get(req.requests, Memory);
    sumMemReq := sumMemReq + jobMemReq;
    var sumCpuLim := Get(req.limits, Cpu);
    sumCpuLim := sumCpuLim + jobCpuLim;
    var sumMemLim := Get(req.limits, Memory);
    sumMemLim := sumMemLim + jobMemLim;

    r := Summary(
      Metric(Get(req.limits, Cpu), jobCpuLim, sumCpuLim),
      Metric(Get(req.limits, Memory), jobMemLim, sumMemLim),
      Metric(Get(req.requests, Cpu), jobCpuReq, sumCpuReq),
      Metric(Get(req.requests, Memory), jobMemReq, sumMemReq));
  }
}
