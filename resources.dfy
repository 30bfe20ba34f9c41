/**
 * The Kubernetes API values the aggregation engine works on: resource
 * names, quantities, resource lists and resource requirements, plus the
 * mutable totals record that both `Parse` revisions update in place.
 *
 * A `resource.Quantity` is an exact scaled decimal; it is modelled as an
 * exact integer count of one fixed base unit (milli-units in the examples),
 * so `Add`, `Mul` and `Cmp` become `+`, `*` and `<` on `int`.
 */
module Resources {

  type ResourceName = string

  /** Exact quantity in base units (`resource.Quantity`). */
  type Quantity = int

  /** Go's `byte`: manifests are byte streams. */
  newtype byte = x: int | 0 <= x < 256

  /** Go's `int32`, the type of a workload's replica count. */
  newtype int32 = x: int | -0x8000_0000 <= x < 0x8000_0000

  /** `cv1.ResourceList`. */
  type ResourceList = map<ResourceName, Quantity>

  const Cpu: ResourceName := "cpu"
  const Memory: ResourceName := "memory"

  /** `cv1.ResourceRequirements`, as a value. */
  datatype Requirements = Requirements(limits: ResourceList, requests: ResourceList)

  /** The two roles a quantity can play in a container's resources. */
  datatype Role = Limit | Request
  {
    /** The role word used by the defaulting policy and its messages. */
    function Name(): string
    {
      match this
      case Limit => "limit"
      case Request => "request"
    }
  }

  /**
   * The quantity of `k` in `l`, zero when `k` is absent: both the Go map
   * index `l[k]` on a missing key and `ResourceList.Cpu()`/`Memory()`
   * return the zero quantity.
   */
  function Get(l: ResourceList, k: ResourceName): (q: Quantity)
    ensures k in l ==> q == l[k]
    ensures k !in l ==> q == 0
  {
    if k in l then l[k] else 0
  }

  /** The list of one role of a requirements value. */
  function ListOf(rr: Requirements, role: Role): ResourceList
  {
    match role
    case Limit => rr.limits
    case Request => rr.requests
  }

  /** Both totals start as `cpu: 0, memory: 0`. */
  function ZeroTotals(): (z: Requirements)
    ensures z.limits.Keys == {Cpu, Memory} && z.requests.Keys == {Cpu, Memory}
    ensures forall k :: k in z.limits ==> z.limits[k] == 0
    ensures forall k :: k in z.requests ==> z.requests[k] == 0
  {
    Requirements(map[Cpu := 0, Memory := 0], map[Cpu := 0, Memory := 0])
  }

  /** Both lists of `t` are keyed by exactly `cpu` and `memory`. */
  predicate CpuMemoryKeyed(t: Requirements)
  {
    t.limits.Keys == {Cpu, Memory} && t.requests.Keys == {Cpu, Memory}
  }

  /**
   * The totals record `cr` that `Parse` creates and then hands by pointer
   * to every decoder, which updates its two maps in place.
   */
  class Totals {
    var limits: ResourceList
    var requests: ResourceList

    /** The totals `Parse` starts from. */
    constructor Zeroed()
      ensures Value() == ZeroTotals()
    {
      limits := map[Cpu := 0, Memory := 0];
      requests := map[Cpu := 0, Memory := 0];
    }

    /** The current totals, as a value. */
    function Value(): Requirements
      reads this
    {
      Requirements(limits, requests)
    }
  }
}
