/**
 * The policy-driven accumulator of `cmd/parser.go`: `sumCmd.Parse`,
 * `procResourceRequirements`, `defaultResource` and the three decoders.
 * A zero or absent cpu/memory limit or request is replaced by the
 * configured default, by zero, or by a "not defined" error when explicit
 * values are required; any error aborts the whole run.
 */
module SumParse {
  import opened Wrappers
  import opened Resources
  import opened Workloads
  import opened YamlSplit
  import opened Base
  import opened Sum
  import H = Helm

  /** `resource.ParseQuantity`: the quantity a text denotes, or `None` when it is malformed. */
  type QuantityParser = string -> Option<Quantity>

  predicate StartsWith(s: string, prefix: string)
  {
    |prefix| <= |s| && s[..|prefix|] == prefix
  }

  predicate EndsWith(s: string, suffix: string)
  {
    |suffix| <= |s| && s[|s| - |suffix|..] == suffix
  }

  /** `prefix + middle + suffix`, which starts with `prefix` and ends with `suffix`. */
  function Affixed(prefix: string, middle: string, suffix: string): (m: string)
    ensures StartsWith(m, prefix) && EndsWith(m, suffix)
    ensures |m| == |prefix| + |middle| + |suffix|
  {
    var m := prefix + middle + suffix;
    assert m[..|prefix|] == prefix;
    assert m[|m| - |suffix|..] == suffix;
    m
  }

  // ---------------------------------------------------------------------
  // Specification

  /**
   * `defaultResource`: the quantity used for a zero declaration. A
   * configured default is parsed; without one, `require` makes it an error
   * naming the resource, the role and the workload, and otherwise it is zero.
   */
  function DefaultResource(s: SumCmd, pathid: string, typ: ResourceName, val: string, role: string, parse: QuantityParser)
    : (r: Result<Quantity, ParseError>)
    ensures val != "" ==> (r.Ok? <==> parse(val).Some?)
    ensures val != "" && r.Ok? ==> r.value == parse(val).value
    ensures val != "" && r.Err? ==> r.error == QuantityFormat(val)
    ensures val == "" && !s.base.require ==> r == Ok(0)
    ensures val == "" && s.base.require ==> r.Err? && r.error.NotDefined?
    ensures r.Err? && r.error.NotDefined? ==>
              var m := r.error.message;
              StartsWith(m, (if typ == Cpu then "CPU " else "Memory ") + role) && EndsWith(m, "not defined in " + pathid)
  {
    if typ == Cpu then
      if val != "" then
        match parse(val)
        case Some(v) => Ok(v)
        case None => Err(QuantityFormat(val))
      else if s.base.require then
        Err(NotDefined(Affixed("CPU " + role, " ", "not defined in " + pathid)))
      else Ok(0)
    else
      if val != "" then
        match parse(val)
        case Some(v) => Ok(v)
        case None => Err(QuantityFormat(val))
      else if s.base.require then
        Err(NotDefined(Affixed("Memory " + role, "  ", "not defined in " + pathid)))
      else Ok(0)
  }

  /** The default string consulted for `typ` in `role`. */
  function DefaultFor(s: SumCmd, typ: ResourceName, role: Role): (r: string)
    ensures role == Limit && typ == Cpu ==> r == s.base.defaultCpuLimit
    ensures role == Limit && typ != Cpu ==> r == s.base.defaultMemLimit
    ensures role == Request && typ == Cpu ==> r == s.base.defaultCpuReq
    ensures role == Request && typ != Cpu ==> r == s.base.defaultMemReq
  {
    match role
    case Limit => GetDefaultLimit(s.base, typ)
    case Request => GetDefaultRequest(s.base, typ)
  }

  /** The quantity one block uses: the declared one, or the policy's when it is zero. */
  function Resolve(s: SumCmd, pathid: string, rr: Requirements, typ: ResourceName, role: Role, parse: QuantityParser)
    : Result<Quantity, ParseError>
  {
    var v := Get(ListOf(rr, role), typ);
    if v == 0 then DefaultResource(s, pathid, typ, DefaultFor(s, typ, role), role.Name(), parse) else Ok(v)
  }

  /** `amount` added to `k` in `role`, when the totals hold `k`. */
  function AddToRole(t: Requirements, role: Role, k: ResourceName, amount: int): Requirements
  {
    match role
    case Limit => if k in t.limits then t.(limits := t.limits[k := t.limits[k] + amount]) else t
    case Request => if k in t.requests then t.(requests := t.requests[k := t.requests[k] + amount]) else t
  }

  /** The totals so far and the error that stopped the run, if any. */
  datatype Outcome = Outcome(totals: Requirements, failure: Option<ParseError>)

  /** One of the four blocks of `procResourceRequirements`. */
  function Block(s: SumCmd, pathid: string, rr: Requirements, t: Requirements, role: Role, typ: ResourceName,
                 repl: int32, parse: QuantityParser): Outcome
  {
    match Resolve(s, pathid, rr, typ, role, parse)
    case Err(e) => Outcome(t, Some(e))
    case Ok(v) => Outcome(AddToRole(t, role, typ, v * repl as int), None)
  }

  /** `procResourceRequirements`: cpu limit, memory limit, cpu request, memory request, stopping at the first error. */
  function ProcRun(s: SumCmd, pathid: string, rr: Requirements, t: Requirements, repl: int32, parse: QuantityParser): Outcome
  {
    var b1 := Block(s, pathid, rr, t, Limit, Cpu, repl, parse);
    if b1.failure.Some? then b1 else
    var b2 := Block(s, pathid, rr, b1.totals, Limit, Memory, repl, parse);
    if b2.failure.Some? then b2 else
    var b3 := Block(s, pathid, rr, b2.totals, Request, Cpu, repl, parse);
    if b3.failure.Some? then b3 else
    Block(s, pathid, rr, b3.totals, Request, Memory, repl, parse)
  }

  /** The workload identity used in error messages. */
  function PathId(kind: string, name: string, container: string): (id: string)
    ensures StartsWith(id, kind + ": " + name) && EndsWith(id, ", Container: " + container)
    ensures |id| == |kind| + |name| + |container| + 15
  {
    Affixed(kind + ": " + name, "", ", Container: " + container)
  }

  /** Every container of a workload in order, stopping at the first error. */
  function RunContainers(s: SumCmd, obj: Object, cs: seq<Container>, t: Requirements, repl: int32, parse: QuantityParser): Outcome
    decreases |cs|
  {
    if cs == [] then Outcome(t, None)
    else
      var o := ProcRun(s, PathId(obj.kind, obj.name, cs[0].name), cs[0].resources, t, repl, parse);
      if o.failure.Some? then o else RunContainers(s, obj, cs[1..], o.totals, repl, parse)
  }

  /**
   * `parseDeployment`, `parseStatefulset` or `parseCronJob`. Only the
   * Deployment decoder swallows an unmarshal error (as "no match"); the
   * other two return it.
   */
  function DecoderRun(s: SumCmd, shape: Shape, t: Requirements, content: seq<byte>, u: Unmarshaller, parse: QuantityParser)
    : Parsed<ParseError>
  {
    var d := u(shape, content);
    if d.Err? then Parsed(false, t, if shape == DeploymentShape then None else Some(Unmarshal(d.error)))
    else
      match Decoded(u, shape, content)
      case None => Parsed(false, t, None)
      case Some(w) =>
        var o := RunContainers(s, w.obj, w.obj.containers, t, w.repl, parse);
        Parsed(o.failure.None?, o.totals, o.failure)
  }

  /** One iteration of `Parse`'s scan loop. */
  function RunDocument(s: SumCmd, t: Requirements, content: seq<byte>, u: Unmarshaller, parse: QuantityParser): Outcome
  {
    var d := DecoderRun(s, DeploymentShape, t, content, u, parse);
    if d.failure.Some? || d.matched then Outcome(d.totals, d.failure)
    else
      var st := DecoderRun(s, StatefulSetShape, d.totals, content, u, parse);
      if st.failure.Some? || st.matched then Outcome(st.totals, st.failure)
      else
        var c := DecoderRun(s, CronJobShape, st.totals, content, u, parse);
        Outcome(c.totals, c.failure)
  }

  /** Every document in order, stopping at the first error. */
  function RunDocuments(s: SumCmd, t: Requirements, docs: seq<seq<byte>>, u: Unmarshaller, parse: QuantityParser): Outcome
    decreases |docs|
  {
    if docs == [] then Outcome(t, None)
    else
      var o := RunDocument(s, t, docs[0], u, parse);
      if o.failure.Some? then o else RunDocuments(s, o.totals, docs[1..], u, parse)
  }

  /** What `Parse` returns: the first document error, else the scanner's error, else the totals. */
  function ParseSpec(s: SumCmd, manifest: seq<byte>, u: Unmarshaller, parse: QuantityParser): Result<Requirements, ParseError>
  {
    var sc := Tokenize(manifest);
    var o := RunDocuments(s, ZeroTotals(), sc.docs, u, parse);
    if o.failure.Some? then Err(o.failure.value)
    else if sc.tooLong then Err(TokenTooLong)
    else Ok(o.totals)
  }

  // ---------------------------------------------------------------------
  // The code

  /**
   * One block of `procResourceRequirements`: read the declared quantity,
   * replace a zero by the policy's default, and add it times `repl` when
   * the totals hold the key.
   */
  method AccumulateBlock(s: SumCmd, pathid: string, rr: Requirements, tgt: Totals, role: Role, typ: ResourceName,
                         repl: int32, parse: QuantityParser)
    returns (err: Option<ParseError>)
    modifies tgt
    ensures Outcome(tgt.Value(), err) == Block(s, pathid, rr, old(tgt.Value()), role, typ, repl, parse)
  {
    var v := Get(ListOf(rr, role), typ);
    if v == 0 {
      var d := DefaultResource(s, pathid, typ, DefaultFor(s, typ, role), role.Name(), parse);
      if d.Err? {
        return Some(d.error);
      }
      v := d.value;
    }
    match role {
      case Limit =>
        if typ in tgt.limits {
          tgt.limits := tgt.limits[typ := tgt.limits[typ] + v * repl as int];
        }
      case Request =>
        if typ in tgt.requests {
          tgt.requests := tgt.requests[typ := tgt.requests[typ] + v * repl as int];
        }
    }
    return None;
  }

  /** `procResourceRequirements`: cpu limit, memory limit, cpu request, memory request; the first error is returned. */
  method ProcResourceRequirements(s: SumCmd, pathid: string, rr: Requirements, tgt: Totals, repl: int32, parse: QuantityParser)
    returns (err: Option<ParseError>)
    modifies tgt
    ensures Outcome(tgt.Value(), err) == ProcRun(s, pathid, rr, old(tgt.Value()), repl, parse)
  {
    err := AccumulateBlock(s, pathid, rr, tgt, Limit, Cpu, repl, parse);
    if err.Some? {
      return;
    }
    err := AccumulateBlock(s, pathid, rr, tgt, Limit, Memory, repl, parse);
    if err.Some? {
      return;
    }
    err := AccumulateBlock(s, pathid, rr, tgt, Request, Cpu, repl, parse);
    if err.Some? {
      return;
    }
    err := AccumulateBlock(s, pathid, rr, tgt, Request, Memory, repl, parse);
  }

  /** The container loop of the three decoders: the first error is returned at once. */
  method ProcContainers(s: SumCmd, obj: Object, cr: Totals, repl: int32, parse: QuantityParser) returns (err: Option<ParseError>)
    modifies cr
    ensures Outcome(cr.Value(), err) == RunContainers(s, obj, obj.containers, old(cr.Value()), repl, parse)
  {
    var cs := obj.containers;
    for i := 0 to |cs|
      invariant RunContainers(s, obj, cs[i..], cr.Value(), repl, parse) == RunContainers(s, obj, cs, old(cr.Value()), repl, parse)
    {
      assert cs[i..][1..] == cs[i + 1..];
      err := ProcResourceRequirements(s, PathId(obj.kind, obj.name, cs[i].name), cs[i].resources, cr, repl, parse);
      if err.Some? {
        return;
      }
    }
    return None;
  }

  /** `parseDeployment`: an unmarshal error counts as "no match". */
  method ParseDeployment(s: SumCmd, content: seq<byte>, cr: Totals, unmarshal: Unmarshaller, parse: QuantityParser)
    returns (ok: bool, err: Option<ParseError>)
    modifies cr
    ensures Parsed(ok, cr.Value(), err) == DecoderRun(s, DeploymentShape, old(cr.Value()), content, unmarshal, parse)
  {
    var depl := unmarshal(DeploymentShape, content);
    if depl.Err? {
      return false, None;
    }
    if depl.value.kind == DeploymentKind {
      var repl := ReplicasOrOne(depl.value.replicas);
      err := ProcContainers(s, depl.value, cr, repl, parse);
      if err.Some? {
        return false, err;
      }
      return true, None;
    }
    return false, None;
  }

  /** `parseStatefulset`: an unmarshal error is returned. */
  method ParseStatefulset(s: SumCmd, content: seq<byte>, cr: Totals, unmarshal: Unmarshaller, parse: QuantityParser)
    returns (ok: bool, err: Option<ParseError>)
    modifies cr
    ensures Parsed(ok, cr.Value(), err) == DecoderRun(s, StatefulSetShape, old(cr.Value()), content, unmarshal, parse)
  {
    var depl := unmarshal(StatefulSetShape, content);
    if depl.Err? {
      return false, Some(Unmarshal(depl.error));
    }
    if depl.value.kind == StatefulSetKind {
      var repl := ReplicasOrOne(depl.value.replicas);
      err := ProcContainers(s, depl.value, cr, repl, parse);
      if err.Some? {
        return false, err;
      }
      return true, None;
    }
    return false, None;
  }

  /** `parseCronJob`: an unmarshal error is returned; containers count once. */
  method ParseCronJob(s: SumCmd, content: seq<byte>, cr: Totals, unmarshal: Unmarshaller, parse: QuantityParser)
    returns (ok: bool, err: Option<ParseError>)
    modifies cr
    ensures Parsed(ok, cr.Value(), err) == DecoderRun(s, CronJobShape, old(cr.Value()), content, unmarshal, parse)
  {
    var depl := unmarshal(CronJobShape, content);
    if depl.Err? {
      return false, Some(Unmarshal(depl.error));
    }
    if depl.value.kind == CronJobKind {
      err := ProcContainers(s, depl.value, cr, 1, parse);
      if err.Some? {
        return false, err;
      }
      return true, None;
    }
    return false, None;
  }

  /** The body of `Parse`'s scan loop: an error from any decoder is returned, a match ends the dispatch. */
  method DispatchDocument(s: SumCmd, content: seq<byte>, cr: Totals, unmarshal: Unmarshaller, parse: QuantityParser)
    returns (err: Option<ParseError>)
    modifies cr
    ensures Outcome(cr.Value(), err) == RunDocument(s, old(cr.Value()), content, unmarshal, parse)
  {
    var ok;
    ok, err := ParseDeployment(s, content, cr, unmarshal, parse);
    if err.Some? || ok {
      return;
    }
    ok, err := ParseStatefulset(s, content, cr, unmarshal, parse);
    if err.Some? || ok {
      return;
    }
    ok, err := ParseCronJob(s, content, cr, unmarshal, parse);
  }

  /** `RunDocuments` on a non-empty list, one step unfolded. */
  lemma RunDocumentsUnfold(s: SumCmd, t: Requirements, doc: seq<byte>, rest: seq<seq<byte>>, u: Unmarshaller, parse: QuantityParser)
    ensures var o := RunDocument(s, t, doc, u, parse);
            RunDocuments(s, t, [doc] + rest, u, parse) == if o.failure.Some? then o else RunDocuments(s, o.totals, rest, u, parse)
  {
    assert ([doc] + rest)[1..] == rest;
  }

  /** The scan loop of `Parse`: every remaining document is dispatched until one fails. */
  method ScanDocuments(s: SumCmd, scanner: Scanner, cr: Totals, unmarshal: Unmarshaller, parse: QuantityParser)
    returns (err: Option<ParseError>)
    modifies scanner, cr
    ensures Outcome(cr.Value(), err) == RunDocuments(s, old(cr.Value()), old(scanner.Upcoming()).docs, unmarshal, parse)
    ensures err.None? ==> scanner.errTooLong == old(scanner.Upcoming()).tooLong
  {
    ghost var all := scanner.Upcoming();
    ghost var target := RunDocuments(s, cr.Value(), all.docs, unmarshal, parse);
    var more := scanner.Scan();
    while more
      invariant scanner.Upcoming().tooLong == all.tooLong
      invariant more ==> RunDocuments(s, cr.Value(), [scanner.token] + scanner.Upcoming().docs, unmarshal, parse) == target
      invariant !more ==> target == Outcome(cr.Value(), None)
      invariant !more ==> scanner.errTooLong == all.tooLong
      decreases |scanner.Upcoming().docs| + (if more then 1 else 0)
    {
      ghost var before, rest := cr.Value(), scanner.Upcoming().docs;
      err := DispatchDocument(s, scanner.token, cr, unmarshal, parse);
      RunDocumentsUnfold(s, before, scanner.token, rest, unmarshal, parse);
      if err.Some? {
        return;
      }
      more := scanner.Scan();
    }
    return None;
  }

  /** `sumCmd.Parse`: the first document error, else the scanner's error, else the totals. */
  method Parse(s: SumCmd, manifest: seq<byte>, unmarshal: Unmarshaller, parse: QuantityParser)
    returns (r: Result<Requirements, ParseError>)
    ensures r == ParseSpec(s, manifest, unmarshal, parse)
  {
    var scanner := new Scanner(manifest);
    var cr := new Totals.Zeroed();
    var err := ScanDocuments(s, scanner, cr, unmarshal, parse);
    if err.Some? {
      return Err(err.value);
    }
    if scanner.errTooLong {
      return Err(TokenTooLong);
    }
    return Ok(cr.Value());
  }

  // ---------------------------------------------------------------------
  // Properties

  /** A container's four blocks never add or remove a key, whether or not they fail. */
  lemma ProcRunKeepsKeys(s: SumCmd, pathid: string, rr: Requirements, t: Requirements, repl: int32, parse: QuantityParser)
    ensures CpuMemoryKeyed(t) ==> CpuMemoryKeyed(ProcRun(s, pathid, rr, t, repl, parse).totals)
  {
  }

  /** Every container of a workload keeps the keys, whether or not one fails. */
  lemma {:induction false} RunContainersKeepsKeys(s: SumCmd, obj: Object, cs: seq<Container>, t: Requirements, repl: int32,
                                                  parse: QuantityParser)
    requires CpuMemoryKeyed(t)
    ensures CpuMemoryKeyed(RunContainers(s, obj, cs, t, repl, parse).totals)
    decreases |cs|
  {
    if cs != [] {
      var o := ProcRun(s, PathId(obj.kind, obj.name, cs[0].name), cs[0].resources, t, repl, parse);
      ProcRunKeepsKeys(s, PathId(obj.kind, obj.name, cs[0].name), cs[0].resources, t, repl, parse);
      if o.failure.None? {
        RunContainersKeepsKeys(s, obj, cs[1..], o.totals, repl, parse);
      }
    }
  }

  /** One document keeps the keys. */
  lemma RunDocumentKeepsKeys(s: SumCmd, t: Requirements, content: seq<byte>, u: Unmarshaller, parse: QuantityParser)
    requires CpuMemoryKeyed(t)
    ensures CpuMemoryKeyed(RunDocument(s, t, content, u, parse).totals)
  {
    forall shape: Shape, t': Requirements | CpuMemoryKeyed(t')
      ensures CpuMemoryKeyed(DecoderRun(s, shape, t', content, u, parse).totals)
    {
      var w := Decoded(u, shape, content);
      if u(shape, content).Ok? && w.Some? {
        RunContainersKeepsKeys(s, w.value.obj, w.value.obj.containers, t', w.value.repl, parse);
      }
    }
  }

  /** Every document keeps the keys. */
  lemma {:induction false} RunDocumentsKeepsKeys(s: SumCmd, t: Requirements, docs: seq<seq<byte>>, u: Unmarshaller,
                                                 parse: QuantityParser)
    requires CpuMemoryKeyed(t)
    ensures CpuMemoryKeyed(RunDocuments(s, t, docs, u, parse).totals)
    decreases |docs|
  {
    if docs != [] {
      RunDocumentKeepsKeys(s, t, docs[0], u, parse);
      var o := RunDocument(s, t, docs[0], u, parse);
      if o.failure.None? {
        RunDocumentsKeepsKeys(s, o.totals, docs[1..], u, parse);
      }
    }
  }

  /** Successful totals are keyed by exactly `cpu` and `memory`, as initialised. */
  lemma ParseKeysAreCpuAndMemory(s: SumCmd, manifest: seq<byte>, u: Unmarshaller, parse: QuantityParser)
    ensures ParseSpec(s, manifest, u, parse).Ok? ==> CpuMemoryKeyed(ParseSpec(s, manifest, u, parse).value)
  {
    RunDocumentsKeepsKeys(s, ZeroTotals(), Tokenize(manifest).docs, u, parse);
  }

  /** Once a document fails, the documents after it are never looked at. */
  lemma {:induction false} FailureIsFinal(s: SumCmd, t: Requirements, a: seq<seq<byte>>, b: seq<seq<byte>>,
                                          u: Unmarshaller, parse: QuantityParser)
    requires RunDocuments(s, t, a, u, parse).failure.Some?
    ensures RunDocuments(s, t, a + b, u, parse) == RunDocuments(s, t, a, u, parse)
    decreases |a|
  {
    assert a != [];
    assert (a + b)[0] == a[0];
    assert (a + b)[1..] == a[1..] + b;
    var o := RunDocument(s, t, a[0], u, parse);
    if o.failure.None? {
      FailureIsFinal(s, o.totals, a[1..], b, u, parse);
    }
  }

  /** Without `require`, and with every configured default well-formed, a container never fails. */
  lemma NoFailureWithoutRequire(s: SumCmd, pathid: string, rr: Requirements, t: Requirements, repl: int32,
                                parse: QuantityParser)
    requires !s.base.require
    requires forall role: Role, k: ResourceName ::
               DefaultFor(s, k, role) == "" || parse(DefaultFor(s, k, role)).Some?
    ensures ProcRun(s, pathid, rr, t, repl, parse).failure.None?
  {
    assert DefaultFor(s, Cpu, Limit) == "" || parse(DefaultFor(s, Cpu, Limit)).Some?;
    assert DefaultFor(s, Memory, Limit) == "" || parse(DefaultFor(s, Memory, Limit)).Some?;
    assert DefaultFor(s, Cpu, Request) == "" || parse(DefaultFor(s, Cpu, Request)).Some?;
    assert DefaultFor(s, Memory, Request) == "" || parse(DefaultFor(s, Memory, Request)).Some?;
  }

  /**
   * With `require` on and no CPU limit default, a container without a CPU
   * limit stops the run before anything is added, with an error naming the
   * container.
   */
  lemma MissingCpuLimitIsReported(s: SumCmd, pathid: string, rr: Requirements, t: Requirements, repl: int32,
                                  parse: QuantityParser)
    requires s.base.require && s.base.defaultCpuLimit == ""
    requires Get(rr.limits, Cpu) == 0
    ensures var o := ProcRun(s, pathid, rr, t, repl, parse);
            && o.totals == t
            && o.failure.Some? && o.failure.value.NotDefined?
            && StartsWith(o.failure.value.message, "CPU limit")
            && EndsWith(o.failure.value.message, "not defined in " + pathid)
  {
  }

  /** Every failure of a container is a malformed default or a missing required value. */
  lemma ContainerFailureKinds(s: SumCmd, pathid: string, rr: Requirements, t: Requirements, repl: int32,
                              parse: QuantityParser)
    ensures var o := ProcRun(s, pathid, rr, t, repl, parse);
            o.failure.Some? ==> o.failure.value.QuantityFormat? || o.failure.value.NotDefined?
  {
  }

  /**
   * The decoders differ on undecodable input: a document the Deployment
   * decoder cannot read moves on to the StatefulSet decoder, while one the
   * StatefulSet decoder cannot read aborts the run with its message.
   */
  lemma UndecodableDocumentAborts(s: SumCmd, t: Requirements, content: seq<byte>, u: Unmarshaller, parse: QuantityParser)
    requires Decoded(u, DeploymentShape, content).None?
    requires u(StatefulSetShape, content).Err?
    ensures RunDocument(s, t, content, u, parse) == Outcome(t, Some(Unmarshal(u(StatefulSetShape, content).error)))
  {
  }

  /** A document every decoder rejects by kind leaves the totals alone and does not fail. */
  lemma UnknownKindIsSkipped(s: SumCmd, t: Requirements, content: seq<byte>, u: Unmarshaller, parse: QuantityParser)
    requires u(StatefulSetShape, content).Ok? && u(CronJobShape, content).Ok?
    requires Decoded(u, DeploymentShape, content).None? && Decoded(u, StatefulSetShape, content).None?
    requires Decoded(u, CronJobShape, content).None?
    ensures RunDocument(s, t, content, u, parse) == Outcome(t, None)
  {
  }

  /**
   * A document that matches as a Deployment is never looked at by the
   * StatefulSet or CronJob decoders: what they would return is irrelevant.
   */
  lemma DeploymentMatchIsFinal(s: SumCmd, t: Requirements, content: seq<byte>, u: Unmarshaller, v: Unmarshaller,
                               parse: QuantityParser)
    requires Decoded(u, DeploymentShape, content).Some?
    requires u(DeploymentShape, content) == v(DeploymentShape, content)
    ensures RunDocument(s, t, content, u, parse) == RunDocument(s, t, content, v, parse)
  {
  }

  // An independent account of the totals: sums of the quantities the policy resolves.

  /** The quantity a block uses for `k` in `role`: the declared one, or the policy's (zero when the policy fails). */
  function ResolvedQuantity(s: SumCmd, pathid: string, rr: Requirements, k: ResourceName, role: Role,
                            parse: QuantityParser): int
  {
    match Resolve(s, pathid, rr, k, role, parse)
    case Ok(v) => v
    case Err(_) => 0
  }

  /** The resolved quantities of a workload's containers, summed. */
  function ResolvedSum(s: SumCmd, obj: Object, cs: seq<Container>, role: Role, k: ResourceName, parse: QuantityParser): int
    decreases |cs|
  {
    if cs == [] then 0
    else ResolvedQuantity(s, PathId(obj.kind, obj.name, cs[0].name), cs[0].resources, k, role, parse)
         + ResolvedSum(s, obj, cs[1..], role, k, parse)
  }

  /** What one document adds to `k` in `role`: replicas times its containers' resolved sum, or nothing. */
  function PolicyContribution(s: SumCmd, content: seq<byte>, u: Unmarshaller, role: Role, k: ResourceName,
                              parse: QuantityParser): int
  {
    match H.Classify(content, u)
    case None => 0
    case Some(w) => w.repl as int * ResolvedSum(s, w.obj, w.obj.containers, role, k, parse)
  }

  /** The contributions of all documents. */
  function PolicyManifestSum(s: SumCmd, docs: seq<seq<byte>>, u: Unmarshaller, role: Role, k: ResourceName,
                             parse: QuantityParser): int
    decreases |docs|
  {
    if docs == [] then 0
    else PolicyContribution(s, docs[0], u, role, k, parse) + PolicyManifestSum(s, docs[1..], u, role, k, parse)
  }

  lemma Distribute(a: int, b: int, c: int)
    ensures a * (b + c) == a * b + a * c
  {
  }

  /** A successful block adds `repl` times its resolved quantity to its own key, and nothing to any other. */
  lemma BlockAt(s: SumCmd, pathid: string, rr: Requirements, t: Requirements, blockRole: Role, typ: ResourceName,
                repl: int32, parse: QuantityParser, role: Role, k: ResourceName)
    requires k in ListOf(t, role)
    requires Block(s, pathid, rr, t, blockRole, typ, repl, parse).failure.None?
    ensures var o := Block(s, pathid, rr, t, blockRole, typ, repl, parse);
            && k in ListOf(o.totals, role)
            && ListOf(o.totals, role)[k]
               == ListOf(t, role)[k]
                  + (if role == blockRole && k == typ then repl as int * ResolvedQuantity(s, pathid, rr, typ, blockRole, parse) else 0)
  {
  }

  /** A successful container adds `repl` times the resolved quantity to `cpu` or `memory`. */
  lemma ProcRunAt(s: SumCmd, pathid: string, rr: Requirements, t: Requirements, repl: int32, parse: QuantityParser,
                  role: Role, k: ResourceName)
    requires k == Cpu || k == Memory
    requires k in ListOf(t, role)
    requires ProcRun(s, pathid, rr, t, repl, parse).failure.None?
    ensures k in ListOf(ProcRun(s, pathid, rr, t, repl, parse).totals, role)
    ensures ListOf(ProcRun(s, pathid, rr, t, repl, parse).totals, role)[k]
            == ListOf(t, role)[k] + repl as int * ResolvedQuantity(s, pathid, rr, k, role, parse)
  {
    assert Cpu != Memory by {
      assert |Cpu| != |Memory|;
    }
    var b1 := Block(s, pathid, rr, t, Limit, Cpu, repl, parse);
    BlockAt(s, pathid, rr, t, Limit, Cpu, repl, parse, role, k);
    var b2 := Block(s, pathid, rr, b1.totals, Limit, Memory, repl, parse);
    BlockAt(s, pathid, rr, b1.totals, Limit, Memory, repl, parse, role, k);
    var b3 := Block(s, pathid, rr, b2.totals, Request, Cpu, repl, parse);
    BlockAt(s, pathid, rr, b2.totals, Request, Cpu, repl, parse, role, k);
    BlockAt(s, pathid, rr, b3.totals, Request, Memory, repl, parse, role, k);
  }

  lemma {:induction false} RunContainersAt(s: SumCmd, obj: Object, cs: seq<Container>, t: Requirements, repl: int32,
                                           parse: QuantityParser, role: Role, k: ResourceName)
    requires k == Cpu || k == Memory
    requires k in ListOf(t, role)
    requires RunContainers(s, obj, cs, t, repl, parse).failure.None?
    ensures k in ListOf(RunContainers(s, obj, cs, t, repl, parse).totals, role)
    ensures ListOf(RunContainers(s, obj, cs, t, repl, parse).totals, role)[k]
            == ListOf(t, role)[k] + repl as int * ResolvedSum(s, obj, cs, role, k, parse)
    decreases |cs|
  {
    if cs != [] {
      var pathid := PathId(obj.kind, obj.name, cs[0].name);
      var o := ProcRun(s, pathid, cs[0].resources, t, repl, parse);
      assert o.failure.None?;
      assert RunContainers(s, obj, cs, t, repl, parse) == RunContainers(s, obj, cs[1..], o.totals, repl, parse);
      ProcRunAt(s, pathid, cs[0].resources, t, repl, parse, role, k);
      RunContainersAt(s, obj, cs[1..], o.totals, repl, parse, role, k);
      var q := ResolvedQuantity(s, pathid, cs[0].resources, k, role, parse);
      var rest := ResolvedSum(s, obj, cs[1..], role, k, parse);
      assert ResolvedSum(s, obj, cs, role, k, parse) == q + rest;
      Distribute(repl as int, q, rest);
    }
  }

  /** A decoder that does not fail matches exactly when its kind decodes, and adds that workload's resolved sum. */
  lemma DecoderRunAt(s: SumCmd, shape: Shape, t: Requirements, content: seq<byte>, u: Unmarshaller, parse: QuantityParser,
                     role: Role, k: ResourceName)
    requires k == Cpu || k == Memory
    requires k in ListOf(t, role)
    requires DecoderRun(s, shape, t, content, u, parse).failure.None?
    ensures var d := DecoderRun(s, shape, t, content, u, parse);
            var w := Decoded(u, shape, content);
            && (d.matched <==> w.Some?)
            && (!d.matched ==> d.totals == t)
            && k in ListOf(d.totals, role)
            && (w.Some? ==>
                 ListOf(d.totals, role)[k]
                 == ListOf(t, role)[k] + w.value.repl as int * ResolvedSum(s, w.value.obj, w.value.obj.containers, role, k, parse))
  {
    var w := Decoded(u, shape, content);
    if u(shape, content).Ok? && w.Some? {
      RunContainersAt(s, w.value.obj, w.value.obj.containers, t, w.value.repl, parse, role, k);
    }
  }

  /** A successful document adds its contribution. */
  lemma RunDocumentAt(s: SumCmd, t: Requirements, content: seq<byte>, u: Unmarshaller, parse: QuantityParser,
                      role: Role, k: ResourceName)
    requires k == Cpu || k == Memory
    requires k in ListOf(t, role)
    requires RunDocument(s, t, content, u, parse).failure.None?
    ensures k in ListOf(RunDocument(s, t, content, u, parse).totals, role)
    ensures ListOf(RunDocument(s, t, content, u, parse).totals, role)[k]
            == ListOf(t, role)[k] + PolicyContribution(s, content, u, role, k, parse)
  {
    DecoderRunAt(s, DeploymentShape, t, content, u, parse, role, k);
    var d := DecoderRun(s, DeploymentShape, t, content, u, parse);
    if !d.matched {
      DecoderRunAt(s, StatefulSetShape, t, content, u, parse, role, k);
      var st := DecoderRun(s, StatefulSetShape, t, content, u, parse);
      if !st.matched {
        DecoderRunAt(s, CronJobShape, t, content, u, parse, role, k);
      }
    }
  }

  lemma {:induction false} RunDocumentsAt(s: SumCmd, t: Requirements, docs: seq<seq<byte>>, u: Unmarshaller,
                                          parse: QuantityParser, role: Role, k: ResourceName)
    requires k == Cpu || k == Memory
    requires k in ListOf(t, role)
    requires RunDocuments(s, t, docs, u, parse).failure.None?
    ensures k in ListOf(RunDocuments(s, t, docs, u, parse).totals, role)
    ensures ListOf(RunDocuments(s, t, docs, u, parse).totals, role)[k]
            == ListOf(t, role)[k] + PolicyManifestSum(s, docs, u, role, k, parse)
    decreases |docs|
  {
    if docs != [] {
      RunDocumentAt(s, t, docs[0], u, parse, role, k);
      RunDocumentsAt(s, RunDocument(s, t, docs[0], u, parse).totals, docs[1..], u, parse, role, k);
    }
  }

  /**
   * Each total a successful `Parse` reports is the sum, over the scanned
   * documents, of replicas times the quantities the policy resolves for
   * their containers: the declared ones, and the configured default (or
   * zero) where a declaration is zero.
   */
  lemma PolicyTotalsAreSums(s: SumCmd, manifest: seq<byte>, u: Unmarshaller, parse: QuantityParser, role: Role, k: ResourceName)
    requires k == Cpu || k == Memory
    requires ParseSpec(s, manifest, u, parse).Ok?
    ensures k in ListOf(ParseSpec(s, manifest, u, parse).value, role)
    ensures ListOf(ParseSpec(s, manifest, u, parse).value, role)[k] == PolicyManifestSum(s, Tokenize(manifest).docs, u, role, k, parse)
  {
    RunDocumentsAt(s, ZeroTotals(), Tokenize(manifest).docs, u, parse, role, k);
  }
}
