/**
 * The un-defaulted accumulator of `cmd/helm.go`: the package-level `Parse`,
 * `procResourceRequirements` and `parseDeployment`/`parseStatefulset`/
 * `parseCronJob`. Totals start at zero for `cpu` and `memory`; every declared
 * non-zero quantity of a matched workload is multiplied by the replica count
 * and added into the keys the totals already have. Decode failures and kind
 * mismatches never abort; the only error is the scanner's.
 */
module Helm {
  import opened Wrappers
  import opened Resources
  import opened Workloads
  import opened YamlSplit

  // ---------------------------------------------------------------------
  // Specification

  /** The list `total` after adding `repl` times every declared quantity whose key it already holds. */
  function AddDeclared(total: ResourceList, declared: ResourceList, repl: int32): ResourceList
  {
    map k | k in total :: total[k] + Get(declared, k) * repl as int
  }

  /** The totals after one container's resources, multiplied by `repl`. */
  function AddResources(t: Requirements, rr: Requirements, repl: int32): Requirements
  {
    Requirements(AddDeclared(t.limits, rr.limits, repl), AddDeclared(t.requests, rr.requests, repl))
  }

  /** The totals after every container of a workload, in order. */
  function AddContainers(t: Requirements, cs: seq<Container>, repl: int32): Requirements
    decreases |cs|
  {
    if cs == [] then t else AddContainers(AddResources(t, cs[0].resources, repl), cs[1..], repl)
  }

  /** The totals after a matched workload, or unchanged when nothing matched. */
  function ApplyWorkload(t: Requirements, w: Option<Workload>): Requirements
  {
    match w
    case None => t
    case Some(wl) => AddContainers(t, wl.obj.containers, wl.repl)
  }

  /** The first of Deployment, StatefulSet and CronJob that decodes with a matching kind. */
  function Classify(content: seq<byte>, u: Unmarshaller): (w: Option<Workload>)
    ensures w.Some? ==> w.value.obj.kind in {DeploymentKind, StatefulSetKind, CronJobKind}
    ensures w.Some? && w.value.obj.kind == CronJobKind ==> w.value.repl == 1
    ensures w.Some? && w.value.obj.kind != CronJobKind ==> w.value.repl == ReplicasOrOne(w.value.obj.replicas)
    ensures w.None? <==>
              Decoded(u, DeploymentShape, content).None? && Decoded(u, StatefulSetShape, content).None?
              && Decoded(u, CronJobShape, content).None?
    ensures Decoded(u, DeploymentShape, content).Some? ==> w == Decoded(u, DeploymentShape, content)
    ensures Decoded(u, DeploymentShape, content).None? && Decoded(u, StatefulSetShape, content).Some? ==>
              w == Decoded(u, StatefulSetShape, content)
    ensures Decoded(u, DeploymentShape, content).None? && Decoded(u, StatefulSetShape, content).None? ==>
              w == Decoded(u, CronJobShape, content)
  {
    var d := Decoded(u, DeploymentShape, content);
    if d.Some? then d
    else
      var s := Decoded(u, StatefulSetShape, content);
      if s.Some? then s else Decoded(u, CronJobShape, content)
  }

  /** The totals after one document. */
  function ApplyDocument(t: Requirements, content: seq<byte>, u: Unmarshaller): Requirements
  {
    ApplyWorkload(t, Classify(content, u))
  }

  /** The totals after every document, in order. */
  function ApplyDocuments(t: Requirements, docs: seq<seq<byte>>, u: Unmarshaller): Requirements
    decreases |docs|
  {
    if docs == [] then t else ApplyDocuments(ApplyDocument(t, docs[0], u), docs[1..], u)
  }

  /** What `Parse` returns for `manifest`. */
  function ParseSpec(manifest: seq<byte>, u: Unmarshaller): Result<Requirements, ParseError>
  {
    var s := Tokenize(manifest);
    if s.tooLong then Err(TokenTooLong) else Ok(ApplyDocuments(ZeroTotals(), s.docs, u))
  }

  // ---------------------------------------------------------------------
  // The code

  /**
   * One of the two loops of `procResourceRequirements`: every declared
   * entry, in the map's (unspecified) iteration order; zero quantities are
   * skipped and keys the totals lack are ignored.
   */
  method AccumulateInto(total: ResourceList, declared: ResourceList, repl: int32) returns (r: ResourceList)
    ensures r == AddDeclared(total, declared, repl)
  {
    r := total;
    var pending := declared.Keys;
    ghost var done: set<ResourceName> := {};
    while pending != {}
      invariant pending !! done && pending + done == declared.Keys
      invariant r.Keys == total.Keys
      invariant forall k :: k in r ==> r[k] == total[k] + (if k in done then Get(declared, k) * repl as int else 0)
      decreases pending
    {
      var k :| k in pending;
      var v := declared[k];
      if v != 0 && k in r {
        r := r[k := r[k] + v * repl as int];
      }
      pending, done := pending - {k}, done + {k};
    }
    assert forall k :: k in r ==> r[k] == AddDeclared(total, declared, repl)[k];
  }

  /** `procResourceRequirements(rr, tgt, repl)`. */
  method ProcResourceRequirements(rr: Requirements, tgt: Totals, repl: int32)
    modifies tgt
    ensures tgt.Value() == AddResources(old(tgt.Value()), rr, repl)
  {
    tgt.limits := AccumulateInto(tgt.limits, rr.limits, repl);
    tgt.requests := AccumulateInto(tgt.requests, rr.requests, repl);
  }

  /** The container loop shared by the three decoders. */
  method ProcContainers(cs: seq<Container>, cr: Totals, repl: int32)
    modifies cr
    ensures cr.Value() == AddContainers(old(cr.Value()), cs, repl)
  {
    for i := 0 to |cs|
      invariant AddContainers(cr.Value(), cs[i..], repl) == AddContainers(old(cr.Value()), cs, repl)
    {
      assert cs[i..][1..] == cs[i + 1..];
      ProcResourceRequirements(cs[i].resources, cr, repl);
    }
  }

  /** `parseDeployment`: an unmarshal error is returned, a matching kind is accumulated. */
  method ParseDeployment(content: seq<byte>, cr: Totals, unmarshal: Unmarshaller) returns (ok: bool, err: Option<string>)
    modifies cr
    ensures ok <==> Decoded(unmarshal, DeploymentShape, content).Some?
    ensures err == DecodeFailure(unmarshal, DeploymentShape, content)
    ensures cr.Value() == ApplyWorkload(old(cr.Value()), Decoded(unmarshal, DeploymentShape, content))
  {
    var depl := unmarshal(DeploymentShape, content);
    if depl.Err? {
      return false, Some(depl.error);
    }
    if depl.value.kind == DeploymentKind {
      var repl := ReplicasOrOne(depl.value.replicas);
      ProcContainers(depl.value.containers, cr, repl);
      return true, None;
    }
    return false, None;
  }

  /** `parseStatefulset`. */
  method ParseStatefulset(content: seq<byte>, cr: Totals, unmarshal: Unmarshaller) returns (ok: bool, err: Option<string>)
    modifies cr
    ensures ok <==> Decoded(unmarshal, StatefulSetShape, content).Some?
    ensures err == DecodeFailure(unmarshal, StatefulSetShape, content)
    ensures cr.Value() == ApplyWorkload(old(cr.Value()), Decoded(unmarshal, StatefulSetShape, content))
  {
    var depl := unmarshal(StatefulSetShape, content);
    if depl.Err? {
      return false, Some(depl.error);
    }
    if depl.value.kind == StatefulSetKind {
      var repl := ReplicasOrOne(depl.value.replicas);
      ProcContainers(depl.value.containers, cr, repl);
      return true, None;
    }
    return false, None;
  }

  /** `parseCronJob`: the job template's containers, each counted once. */
  method ParseCronJob(content: seq<byte>, cr: Totals, unmarshal: Unmarshaller) returns (ok: bool, err: Option<string>)
    modifies cr
    ensures ok <==> Decoded(unmarshal, CronJobShape, content).Some?
    ensures err == DecodeFailure(unmarshal, CronJobShape, content)
    ensures cr.Value() == ApplyWorkload(old(cr.Value()), Decoded(unmarshal, CronJobShape, content))
  {
    var depl := unmarshal(CronJobShape, content);
    if depl.Err? {
      return false, Some(depl.error);
    }
    if depl.value.kind == CronJobKind {
      ProcContainers(depl.value.containers, cr, 1);
      return true, None;
    }
    return false, None;
  }

  /**
   * The body of `Parse`'s scan loop: Deployment, then StatefulSet, then
   * CronJob; the first decoder that matches without error ends the dispatch,
   * and the CronJob decoder's result is ignored.
   */
  method DispatchDocument(content: seq<byte>, cr: Totals, unmarshal: Unmarshaller)
    modifies cr
    ensures cr.Value() == ApplyDocument(old(cr.Value()), content, unmarshal)
  {
    var ok, err := ParseDeployment(content, cr, unmarshal);
    if err.None? && ok {
      return;
    }
    ok, err := ParseStatefulset(content, cr, unmarshal);
    if err.None? && ok {
      return;
    }
    ok, err := ParseCronJob(content, cr, unmarshal);
  }

  /** The scan loop of `Parse`: every remaining document is dispatched. */
  method ScanDocuments(scanner: Scanner, cr: Totals, unmarshal: Unmarshaller)
    modifies scanner, cr
    ensures cr.Value() == ApplyDocuments(old(cr.Value()), old(scanner.Upcoming()).docs, unmarshal)
    ensures scanner.errTooLong == old(scanner.Upcoming()).tooLong
  {
    ghost var all := scanner.Upcoming();
    ghost var target := ApplyDocuments(cr.Value(), all.docs, unmarshal);
    var more := scanner.Scan();
    while more
      invariant scanner.Upcoming().tooLong == all.tooLong
      invariant more ==> ApplyDocuments(cr.Value(), [scanner.token] + scanner.Upcoming().docs, unmarshal) == target
      invariant !more ==> cr.Value() == target
      invariant !more ==> scanner.errTooLong == all.tooLong
      decreases |scanner.Upcoming().docs| + (if more then 1 else 0)
    {
      ghost var rest := scanner.Upcoming().docs;
      assert ([scanner.token] + rest)[1..] == rest;
      DispatchDocument(scanner.token, cr, unmarshal);
      more := scanner.Scan();
    }
  }

  /** `Parse`: scan the manifest, dispatch every document, then report the scanner's error. */
  method Parse(manifest: seq<byte>, unmarshal: Unmarshaller) returns (r: Result<Requirements, ParseError>)
    ensures r == ParseSpec(manifest, unmarshal)
  {
    var scanner := new Scanner(manifest);
    var cr := new Totals.Zeroed();
    ScanDocuments(scanner, cr, unmarshal);
    if scanner.errTooLong {
      return Err(TokenTooLong);
    }
    return Ok(cr.Value());
  }

  // ---------------------------------------------------------------------
  // Properties

  /** Accumulating containers never adds or removes a key of the totals. */
  lemma {:induction false} AddContainersKeepsKeys(t: Requirements, cs: seq<Container>, repl: int32)
    ensures AddContainers(t, cs, repl).limits.Keys == t.limits.Keys
    ensures AddContainers(t, cs, repl).requests.Keys == t.requests.Keys
    decreases |cs|
  {
    if cs != [] {
      AddContainersKeepsKeys(AddResources(t, cs[0].resources, repl), cs[1..], repl);
    }
  }

  /** Accumulating documents never adds or removes a key of the totals. */
  lemma {:induction false} ApplyDocumentsKeepsKeys(t: Requirements, docs: seq<seq<byte>>, u: Unmarshaller)
    ensures ApplyDocuments(t, docs, u).limits.Keys == t.limits.Keys
    ensures ApplyDocuments(t, docs, u).requests.Keys == t.requests.Keys
    decreases |docs|
  {
    if docs != [] {
      var w := Classify(docs[0], u);
      if w.Some? {
        AddContainersKeepsKeys(t, w.value.obj.containers, w.value.repl);
      }
      ApplyDocumentsKeepsKeys(ApplyDocument(t, docs[0], u), docs[1..], u);
    }
  }

  /** The totals `Parse` returns hold exactly `cpu` and `memory`, in both lists: storage and every other resource is ignored. */
  lemma ParseKeysAreCpuAndMemory(manifest: seq<byte>, u: Unmarshaller)
    ensures ParseSpec(manifest, u).Ok? ==> CpuMemoryKeyed(ParseSpec(manifest, u).value)
  {
    ApplyDocumentsKeepsKeys(ZeroTotals(), Tokenize(manifest).docs, u);
  }

  /**
   * Decoding never aborts `Parse`: it fails exactly when the scanner finds a
   * document over the cap, whatever the documents decode to, and never for a
   * manifest shorter than the cap.
   */
  lemma OnlyTheScannerFails(manifest: seq<byte>, u: Unmarshaller)
    ensures ParseSpec(manifest, u).Err? <==> Tokenize(manifest).tooLong
    ensures ParseSpec(manifest, u).Err? ==> ParseSpec(manifest, u).error == TokenTooLong
    ensures |manifest| < MaxTokenSize ==> ParseSpec(manifest, u).Ok?
  {
    if |manifest| < MaxTokenSize {
      ShortInputNeverTooLong(manifest);
    }
  }

  /**
   * A document that decodes as a Deployment is never looked at as a
   * StatefulSet or CronJob: what those decoders would return is irrelevant.
   */
  lemma DeploymentMatchIsFinal(content: seq<byte>, u: Unmarshaller, v: Unmarshaller)
    requires Decoded(u, DeploymentShape, content).Some?
    requires u(DeploymentShape, content) == v(DeploymentShape, content)
    ensures Classify(content, u) == Classify(content, v)
  {
  }

  // An independent account of the totals: sums over documents and containers.

  /** The quantity the containers declare for `k` in `role`, summed. */
  function DeclaredSum(cs: seq<Container>, role: Role, k: ResourceName): int
    decreases |cs|
  {
    if cs == [] then 0 else Get(ListOf(cs[0].resources, role), k) + DeclaredSum(cs[1..], role, k)
  }

  /** What one document adds to `k` in `role`: replicas times its containers' sum, or nothing. */
  function Contribution(content: seq<byte>, u: Unmarshaller, role: Role, k: ResourceName): int
  {
    match Classify(content, u)
    case None => 0
    case Some(w) => w.repl as int * DeclaredSum(w.obj.containers, role, k)
  }

  /** The contributions of all documents. */
  function ManifestSum(docs: seq<seq<byte>>, u: Unmarshaller, role: Role, k: ResourceName): int
    decreases |docs|
  {
    if docs == [] then 0 else Contribution(docs[0], u, role, k) + ManifestSum(docs[1..], u, role, k)
  }

  /** One container adds exactly `repl` times its declared quantity to a key the totals hold. */
  lemma AddResourcesAt(t: Requirements, rr: Requirements, repl: int32, role: Role, k: ResourceName)
    requires k in ListOf(t, role)
    ensures k in ListOf(AddResources(t, rr, repl), role)
    ensures ListOf(AddResources(t, rr, repl), role)[k] == ListOf(t, role)[k] + repl as int * Get(ListOf(rr, role), k)
  {
  }

  lemma {:induction false} AddContainersAt(t: Requirements, cs: seq<Container>, repl: int32, role: Role, k: ResourceName)
    requires k in ListOf(t, role)
    ensures k in ListOf(AddContainers(t, cs, repl), role)
    ensures ListOf(AddContainers(t, cs, repl), role)[k] == ListOf(t, role)[k] + repl as int * DeclaredSum(cs, role, k)
    decreases |cs|
  {
    if cs != [] {
      var t' := AddResources(t, cs[0].resources, repl);
      AddResourcesAt(t, cs[0].resources, repl, role, k);
      AddContainersAt(t', cs[1..], repl, role, k);
      var q := Get(ListOf(cs[0].resources, role), k);
      var rest := DeclaredSum(cs[1..], role, k);
      assert repl as int * (q + rest) == repl as int * q + repl as int * rest;
    }
  }

  lemma {:induction false} ApplyDocumentsAt(t: Requirements, docs: seq<seq<byte>>, u: Unmarshaller, role: Role, k: ResourceName)
    requires k in ListOf(t, role)
    ensures k in ListOf(ApplyDocuments(t, docs, u), role)
    ensures ListOf(ApplyDocuments(t, docs, u), role)[k] == ListOf(t, role)[k] + ManifestSum(docs, u, role, k)
    decreases |docs|
  {
    if docs != [] {
      var w := Classify(docs[0], u);
      if w.Some? {
        AddContainersAt(t, w.value.obj.containers, w.value.repl, role, k);
      }
      ApplyDocumentsAt(ApplyDocument(t, docs[0], u), docs[1..], u, role, k);
    }
  }

  /**
   * Each total `Parse` reports is the sum, over the documents the scanner
   * yields, of replicas times the quantity their containers declare; a
   * CronJob counts once, an unmatched document not at all.
   */
  lemma ParseTotalsAreSums(manifest: seq<byte>, u: Unmarshaller, role: Role, k: ResourceName)
    requires k == Cpu || k == Memory
    requires ParseSpec(manifest, u).Ok?
    ensures k in ListOf(ParseSpec(manifest, u).value, role)
    ensures ListOf(ParseSpec(manifest, u).value, role)[k] == ManifestSum(Tokenize(manifest).docs, u, role, k)
  {
    ApplyDocumentsAt(ZeroTotals(), Tokenize(manifest).docs, u, role, k);
  }
}
