/**
 * The workload shapes the decoders recognise. YAML unmarshalling into the
 * Kubernetes API structs is a foreign library: it is a parameter of the
 * model, an `Unmarshaller` that, for each target struct, either fails with
 * a message or yields the decoded object.
 */
module Workloads {
  import opened Wrappers
  import opened Resources

  /** The Go struct a document is unmarshalled into. */
  datatype Shape = DeploymentShape | StatefulSetShape | CronJobShape

  const DeploymentKind := "Deployment"
  const StatefulSetKind := "StatefulSet"
  const CronJobKind := "CronJob"

  /** One container of a pod template, with its `resources` block. */
  datatype Container = Container(name: string, resources: Requirements)

  /**
   * The fields of a decoded object the engine reads: `kind`, `metadata.name`,
   * `spec.replicas` (absent for a CronJob) and the pod template's containers
   * (for a CronJob those of `spec.jobTemplate.spec.template`).
   */
  datatype Object = Object(kind: string, name: string, replicas: Option<int32>, containers: seq<Container>)

  /** `yaml.Unmarshal(content, &target)` for the target struct `shape`. */
  type Unmarshaller = (Shape, seq<byte>) -> Result<Object, string>

  /** A document that was matched: the object and the replica multiplier used for it. */
  datatype Workload = Workload(obj: Object, repl: int32)

  /** `repl := 1; if Spec.Replicas != nil { repl = *Spec.Replicas }`. */
  function ReplicasOrOne(replicas: Option<int32>): (r: int32)
    ensures replicas.None? ==> r == 1
    ensures replicas.Some? ==> r == replicas.value
  {
    if replicas.Some? then replicas.value else 1
  }

  /** The `kind` a decoder for `shape` accepts. */
  function KindOf(shape: Shape): string
  {
    match shape
    case DeploymentShape => DeploymentKind
    case StatefulSetShape => StatefulSetKind
    case CronJobShape => CronJobKind
  }

  /**
   * What the decoder for `shape` makes of `content`: the workload when the
   * unmarshal succeeds and the kind matches. Deployments and StatefulSets
   * use `spec.replicas` (one when unset); CronJob containers always count once.
   */
  function Decoded(u: Unmarshaller, shape: Shape, content: seq<byte>): (w: Option<Workload>)
    ensures w.Some? <==> u(shape, content).Ok? && u(shape, content).value.kind == KindOf(shape)
    ensures w.Some? ==> w.value.obj == u(shape, content).value
    ensures w.Some? && shape == CronJobShape ==> w.value.repl == 1
    ensures w.Some? && shape != CronJobShape ==> w.value.repl == ReplicasOrOne(w.value.obj.replicas)
  {
    var d := u(shape, content);
    if d.Ok? && d.value.kind == KindOf(shape) then
      Some(Workload(d.value, if shape == CronJobShape then 1 else ReplicasOrOne(d.value.replicas)))
    else None
  }

  /** The unmarshal error for `shape`, if any. */
  function DecodeFailure(u: Unmarshaller, shape: Shape, content: seq<byte>): Option<string>
  {
    var d := u(shape, content);
    if d.Err? then Some(d.error) else None
  }

  /** The errors that abort `Parse`. */
  datatype ParseError =
    | TokenTooLong            // `bufio.ErrTooLong`: a document over the scanner's cap
    | Unmarshal(message: string)
    | QuantityFormat(text: string)
    | NotDefined(message: string)

  /** The result of one `parseX` call: matched, the totals afterwards, and its error. */
  datatype Parsed<E> = Parsed(matched: bool, totals: Requirements, failure: Option<E>)
}
