/**
 * `baseHelmCmd` of `cmd/base.go`: the options shared by every command,
 * among them the defaulting policy (`require` and the four default
 * quantity strings), and `getDefault`, which picks one of those strings.
 */
module Base {
  import opened Resources

  datatype BaseHelmCmd = BaseHelmCmd(
    namespace: string,
    chart: string,
    values: seq<string>,
    valueFiles: seq<string>,
    remote: bool,
    require: bool,
    defaultCpuLimit: string,
    defaultMemLimit: string,
    defaultCpuReq: string,
    defaultMemReq: string)

  /**
   * `getDefault`: any role other than exactly `"limit"` is a request, and
   * any resource other than exactly `cpu` is memory.
   */
  function GetDefault(b: BaseHelmCmd, k: ResourceName, role: string): (r: string)
    ensures r in {b.defaultCpuLimit, b.defaultMemLimit, b.defaultCpuReq, b.defaultMemReq}
    ensures role == "limit" && k == Cpu ==> r == b.defaultCpuLimit
    ensures role == "limit" && k != Cpu ==> r == b.defaultMemLimit
    ensures role != "limit" && k == Cpu ==> r == b.defaultCpuReq
    ensures role != "limit" && k != Cpu ==> r == b.defaultMemReq
  {
    if role == "limit" then
      if k == Cpu then b.defaultCpuLimit else b.defaultMemLimit
    else
      if k == Cpu then b.defaultCpuReq else b.defaultMemReq
  }

  /** The default used for a limit (`getDefaultLimit`). */
  function GetDefaultLimit(b: BaseHelmCmd, k: ResourceName): (r: string)
    ensures k == Cpu ==> r == b.defaultCpuLimit
    ensures k != Cpu ==> r == b.defaultMemLimit
  {
    GetDefault(b, k, "limit")
  }

  /** The default used for a request (`getDefaultRequest`). */
  function GetDefaultRequest(b: BaseHelmCmd, k: ResourceName): (r: string)
    ensures k == Cpu ==> r == b.defaultCpuReq
    ensures k != Cpu ==> r == b.defaultMemReq
  {
    GetDefault(b, k, "request")
  }

  /** `getDefault` reads the four default strings and nothing else of the command. */
  lemma GetDefaultReadsOnlyDefaults(b: BaseHelmCmd, c: BaseHelmCmd, k: ResourceName, role: string)
    requires b.defaultCpuLimit == c.defaultCpuLimit && b.defaultMemLimit == c.defaultMemLimit
    requires b.defaultCpuReq == c.defaultCpuReq && b.defaultMemReq == c.defaultMemReq
    ensures GetDefault(b, k, role) == GetDefault(c, k, role)
  {
  }

  /** The command as the flag registrations leave it when no flag is given. */
  function FlagDefaults(namespace: string, chart: string): (b: BaseHelmCmd)
    ensures !b.require && !b.remote && b.values == [] && b.valueFiles == []
    ensures b.namespace == namespace && b.chart == chart
    ensures forall k, role :: GetDefault(b, k, role) == ""
    ensures NoDefaultsPolicy(b)
  {
    BaseHelmCmd(namespace, chart, [], [], false, false, "", "", "", "")
  }

  /** No default is configured and explicit values are not required. */
  predicate NoDefaultsPolicy(b: BaseHelmCmd)
  {
    !b.require && b.defaultCpuLimit == "" && b.defaultMemLimit == "" && b.defaultCpuReq == "" && b.defaultMemReq == ""
  }
}
