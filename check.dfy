/**
 * The numbers and verdicts of `checkCmd.run` (cmd/check.go): the four
 * metrics of the chart's totals, each compared strictly against the
 * namespace quota's hard ceiling, once for the static total and once for
 * static plus job.
 */
module Check {
  import opened Wrappers
  import opened Resources
  import opened Combined

  /** The quota keys of the four metrics (`cv1.ResourceLimitsCPU` and the rest). */
  const LimitsCpu: ResourceName := "limits.cpu"
  const LimitsMemory: ResourceName := "limits.memory"
  const RequestsCpu: ResourceName := "requests.cpu"
  const RequestsMemory: ResourceName := "requests.memory"

  /** The part of a `cv1.ResourceQuota` that is read: `Status.Hard`. */
  datatype ResourceQuota = ResourceQuota(hard: ResourceList)

  /** One row of the check table: the metric, its ceiling and the two verdicts. */
  datatype Verdict = Verdict(metric: Metric, ceiling: Quantity, staticOk: bool, sumOk: bool)

  datatype CheckReport = CheckReport(cpuLimit: Verdict, memLimit: Verdict, cpuReq: Verdict, memReq: Verdict)

  /** A metric against the hard entry `key`; a missing entry is the zero quantity. */
  function Judge(m: Metric, hard: ResourceList, key: ResourceName): (v: Verdict)
    ensures v.metric == m && v.ceiling == Get(hard, key)
    ensures v.staticOk <==> m.workload < Get(hard, key)
    ensures v.sumOk <==> m.sum < Get(hard, key)
  {
    var c := Get(hard, key);
    Verdict(m, c, m.workload < c, m.sum < c)
  }

  /** The eight verdicts, each metric against its own quota key. */
  function Verdicts(q: ResourceQuota, req: Requirements): (r: CheckReport)
    ensures r.cpuLimit == Judge(Summarize(req).cpuLimit, q.hard, LimitsCpu)
    ensures r.memLimit == Judge(Summarize(req).memLimit, q.hard, LimitsMemory)
    ensures r.cpuReq == Judge(Summarize(req).cpuReq, q.hard, RequestsCpu)
    ensures r.memReq == Judge(Summarize(req).memReq, q.hard, RequestsMemory)
  {
    var s := Summarize(req);
    CheckReport(
      Judge(s.cpuLimit, q.hard, LimitsCpu),
      Judge(s.memLimit, q.hard, LimitsMemory),
      Judge(s.cpuReq, q.hard, RequestsCpu),
      Judge(s.memReq, q.hard, RequestsMemory))
  }

  /**
   * `run` without the printing: the quota's error first, then the
   * requirements' error, and only then any comparison.
   */
  function Run<E>(quota: Result<ResourceQuota, E>, req: Result<Requirements, E>): (r: Result<CheckReport, E>)
    ensures quota.Err? ==> r == Err(quota.error)
    ensures quota.Ok? && req.Err? ==> r == Err(req.error)
    ensures r.Ok? <==> quota.Ok? && req.Ok?
    ensures r.Ok? ==> r.value == Verdicts(quota.value, req.value)
    ensures r.Ok? ==> r.value.cpuLimit.staticOk == (Get(req.value.limits, Cpu) < Get(quota.value.hard, LimitsCpu))
    ensures r.Ok? ==> r.value.memReq.sumOk
                      == (Get(req.value.requests, Memory) + Get(req.value.requests, JobMemory) < Get(quota.value.hard, RequestsMemory))
  {
    if quota.Err? then Err(quota.error)
    else if req.Err? then Err(req.error)
    else Ok(Verdicts(quota.value, req.value))
  }

  /** The verdicts of one metric: strict comparison, so a total equal to its ceiling fails. */
  predicate Fits(total: Quantity, ceiling: Quantity)
  {
    total < ceiling
  }

  /** Every verdict of the report is `Fits` of its total against its ceiling. */
  lemma VerdictsAreStrict(q: ResourceQuota, req: Requirements)
    ensures var r := Verdicts(q, req);
      && (r.cpuLimit.staticOk <==> Fits(Get(req.limits, Cpu), Get(q.hard, LimitsCpu)))
      && (r.cpuLimit.sumOk <==> Fits(Get(req.limits, Cpu) + Get(req.limits, JobCpu), Get(q.hard, LimitsCpu)))
      && (r.memLimit.staticOk <==> Fits(Get(req.limits, Memory), Get(q.hard, LimitsMemory)))
      && (r.memLimit.sumOk <==> Fits(Get(req.limits, Memory) + Get(req.limits, JobMemory), Get(q.hard, LimitsMemory)))
      && (r.cpuReq.staticOk <==> Fits(Get(req.requests, Cpu), Get(q.hard, RequestsCpu)))
      && (r.cpuReq.sumOk <==> Fits(Get(req.requests, Cpu) + Get(req.requests, JobCpu), Get(q.hard, RequestsCpu)))
      && (r.memReq.staticOk <==> Fits(Get(req.requests, Memory), Get(q.hard, RequestsMemory)))
      && (r.memReq.sumOk <==> Fits(Get(req.requests, Memory) + Get(req.requests, JobMemory), Get(q.hard, RequestsMemory)))
  {
  }

  /** A total exactly at its ceiling is reported as not fitting. */
  lemma CeilingIsExclusive(m: Metric, hard: ResourceList, key: ResourceName)
    requires key in hard && m.workload == hard[key]
    ensures !Judge(m, hard, key).staticOk
  {
  }

  /** A missing hard entry reads as zero, so non-negative totals never fit. */
  lemma MissingCeilingNeverFits(m: Metric, hard: ResourceList, key: ResourceName)
    requires key !in hard
    requires m.workload >= 0 && m.sum >= 0
    ensures !Judge(m, hard, key).staticOk && !Judge(m, hard, key).sumOk
  {
  }

  /** With a non-negative job part, a combined total that fits implies the static total fits. */
  lemma SumFitImpliesStaticFit(req: Requirements, q: ResourceQuota)
    requires Get(req.limits, JobCpu) >= 0 && Get(req.limits, JobMemory) >= 0
    requires Get(req.requests, JobCpu) >= 0 && Get(req.requests, JobMemory) >= 0
    ensures var r := Verdicts(q, req);
      && (r.cpuLimit.sumOk ==> r.cpuLimit.staticOk) && (r.memLimit.sumOk ==> r.memLimit.staticOk)
      && (r.cpuReq.sumOk ==> r.cpuReq.staticOk) && (r.memReq.sumOk ==> r.memReq.staticOk)
  {
  }

  /** For totals with only `cpu` and `memory` keys, the static and combined verdicts agree. */
  lemma NoJobsMeansVerdictsAgree(req: Requirements, q: ResourceQuota)
    requires CpuMemoryKeyed(req)
    ensures var r := Verdicts(q, req);
      && r.cpuLimit.sumOk == r.cpuLimit.staticOk && r.memLimit.sumOk == r.memLimit.staticOk
      && r.cpuReq.sumOk == r.cpuReq.staticOk && r.memReq.sumOk == r.memReq.staticOk
  {
    NoJobKeysMeansSumIsStatic(req);
  }
}
