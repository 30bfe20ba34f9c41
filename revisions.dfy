/**
 * How the two revisions of the accumulator relate. Under the flag
 * defaults (no default configured, `require` off) the policy-driven
 * `sumCmd.Parse` adds exactly what the package-level `Parse` adds; it
 * differs only by aborting on a StatefulSet or CronJob decode error, which
 * the older revision ignores. Neither revision ever writes the job keys.
 */
module Revisions {
  import opened Wrappers
  import opened Resources
  import opened Workloads
  import opened YamlSplit
  import opened Base
  import opened Sum
  import opened Combined
  import H = Helm
  import P = SumParse

  /** Every quantity one container's blocks read resolves to its declared value. */
  predicate DeclaredAsIs(s: SumCmd, pathid: string, rr: Requirements, parse: P.QuantityParser)
  {
    && P.Resolve(s, pathid, rr, Cpu, Limit, parse) == Ok(Get(rr.limits, Cpu))
    && P.Resolve(s, pathid, rr, Memory, Limit, parse) == Ok(Get(rr.limits, Memory))
    && P.Resolve(s, pathid, rr, Cpu, Request, parse) == Ok(Get(rr.requests, Cpu))
    && P.Resolve(s, pathid, rr, Memory, Request, parse) == Ok(Get(rr.requests, Memory))
  }

  /** The older revision's update of a list keyed by exactly `cpu` and `memory`, as two point updates. */
  lemma AddDeclaredOnCpuMemory(total: ResourceList, declared: ResourceList, repl: int32)
    requires total.Keys == {Cpu, Memory}
    ensures H.AddDeclared(total, declared, repl)
            == total[Cpu := total[Cpu] + Get(declared, Cpu) * repl as int][Memory := total[Memory] + Get(declared, Memory) * repl as int]
  {
    var a := H.AddDeclared(total, declared, repl);
    var b := total[Cpu := total[Cpu] + Get(declared, Cpu) * repl as int][Memory := total[Memory] + Get(declared, Memory) * repl as int];
    assert Cpu != Memory by {
      assert |Cpu| != |Memory|;
    }
    assert a.Keys == b.Keys;
    forall k | k in a
      ensures a[k] == b[k]
    {
    }
  }

  /** The two limit blocks, when both resolve to the declared values, add what the older revision adds to the limits. */
  lemma LimitBlocksAddDeclared(s: SumCmd, pathid: string, rr: Requirements, t: Requirements, repl: int32,
                               parse: P.QuantityParser)
    requires t.limits.Keys == {Cpu, Memory}
    requires P.Resolve(s, pathid, rr, Cpu, Limit, parse) == Ok(Get(rr.limits, Cpu))
    requires P.Resolve(s, pathid, rr, Memory, Limit, parse) == Ok(Get(rr.limits, Memory))
    ensures var b1 := P.Block(s, pathid, rr, t, Limit, Cpu, repl, parse);
            && b1.failure.None?
            && P.Block(s, pathid, rr, b1.totals, Limit, Memory, repl, parse)
               == P.Outcome(t.(limits := H.AddDeclared(t.limits, rr.limits, repl)), None)
  {
    AddDeclaredOnCpuMemory(t.limits, rr.limits, repl);
  }

  /** The two request blocks, when both resolve to the declared values, add what the older revision adds to the requests. */
  lemma RequestBlocksAddDeclared(s: SumCmd, pathid: string, rr: Requirements, t: Requirements, repl: int32,
                                 parse: P.QuantityParser)
    requires t.requests.Keys == {Cpu, Memory}
    requires P.Resolve(s, pathid, rr, Cpu, Request, parse) == Ok(Get(rr.requests, Cpu))
    requires P.Resolve(s, pathid, rr, Memory, Request, parse) == Ok(Get(rr.requests, Memory))
    ensures var b3 := P.Block(s, pathid, rr, t, Request, Cpu, repl, parse);
            && b3.failure.None?
            && P.Block(s, pathid, rr, b3.totals, Request, Memory, repl, parse)
               == P.Outcome(t.(requests := H.AddDeclared(t.requests, rr.requests, repl)), None)
  {
    AddDeclaredOnCpuMemory(t.requests, rr.requests, repl);
  }

  /** When every block resolves to the declared value, the four blocks add what the older revision adds. */
  lemma BlocksAddDeclared(s: SumCmd, pathid: string, rr: Requirements, t: Requirements, repl: int32, parse: P.QuantityParser)
    requires CpuMemoryKeyed(t)
    requires DeclaredAsIs(s, pathid, rr, parse)
    ensures P.ProcRun(s, pathid, rr, t, repl, parse) == P.Outcome(H.AddResources(t, rr, repl), None)
  {
    LimitBlocksAddDeclared(s, pathid, rr, t, repl, parse);
    var t2 := t.(limits := H.AddDeclared(t.limits, rr.limits, repl));
    RequestBlocksAddDeclared(s, pathid, rr, t2, repl, parse);
  }

  /** A declared non-zero quantity is used unchanged, whatever the policy says and whatever the other quantities are. */
  lemma NonZeroIsUsedAsIs(s: SumCmd, pathid: string, rr: Requirements, k: ResourceName, role: Role, parse: P.QuantityParser)
    requires Get(ListOf(rr, role), k) != 0
    ensures P.Resolve(s, pathid, rr, k, role, parse) == Ok(Get(ListOf(rr, role), k))
  {
  }

  /** Under the flag defaults a zero quantity resolves to zero, so every quantity is used as declared. */
  lemma NoPolicyUsesDeclared(s: SumCmd, pathid: string, rr: Requirements, parse: P.QuantityParser)
    requires NoDefaultsPolicy(s.base)
    ensures DeclaredAsIs(s, pathid, rr, parse)
  {
  }

  /** Under the flag defaults every container of a workload is added as the older revision adds it. */
  lemma {:induction false} ContainersAgree(s: SumCmd, obj: Object, cs: seq<Container>, t: Requirements, repl: int32,
                                           parse: P.QuantityParser)
    requires NoDefaultsPolicy(s.base) && CpuMemoryKeyed(t)
    ensures P.RunContainers(s, obj, cs, t, repl, parse) == P.Outcome(H.AddContainers(t, cs, repl), None)
    decreases |cs|
  {
    if cs != [] {
      var pathid := P.PathId(obj.kind, obj.name, cs[0].name);
      NoPolicyUsesDeclared(s, pathid, cs[0].resources, parse);
      BlocksAddDeclared(s, pathid, cs[0].resources, t, repl, parse);
      var t' := H.AddResources(t, cs[0].resources, repl);
      assert CpuMemoryKeyed(t') by {
        H.AddContainersKeepsKeys(t, cs[..1], repl);
        assert cs[..1][1..] == [];
      }
      ContainersAgree(s, obj, cs[1..], t', repl, parse);
    }
  }

  /** Under the flag defaults, a decoder either fails on a decode error or agrees with the older one. */
  lemma DecoderAgrees(s: SumCmd, shape: Shape, t: Requirements, content: seq<byte>, u: Unmarshaller, parse: P.QuantityParser)
    requires NoDefaultsPolicy(s.base) && CpuMemoryKeyed(t)
    ensures var d := P.DecoderRun(s, shape, t, content, u, parse);
      && (d.failure.Some? <==> shape != DeploymentShape && u(shape, content).Err?)
      && (d.failure.None? ==> d.matched == Decoded(u, shape, content).Some?)
      && (d.failure.None? ==> d.totals == H.ApplyWorkload(t, Decoded(u, shape, content)))
  {
    var w := Decoded(u, shape, content);
    if u(shape, content).Ok? && w.Some? {
      ContainersAgree(s, w.value.obj, w.value.obj.containers, t, w.value.repl, parse);
    }
  }

  /** Whether every decoder the policy-driven revision may reach reads `content` without error. */
  predicate Decodable(content: seq<byte>, u: Unmarshaller)
  {
    u(StatefulSetShape, content).Ok? && u(CronJobShape, content).Ok?
  }

  /** One document: a success adds what the older revision adds, and a decodable document succeeds. */
  lemma DocumentAgrees(s: SumCmd, t: Requirements, content: seq<byte>, u: Unmarshaller, parse: P.QuantityParser)
    requires NoDefaultsPolicy(s.base) && CpuMemoryKeyed(t)
    ensures var o := P.RunDocument(s, t, content, u, parse);
      && (o.failure.None? ==> o.totals == H.ApplyDocument(t, content, u))
      && (Decodable(content, u) ==> o.failure.None?)
  {
    DecoderAgrees(s, DeploymentShape, t, content, u, parse);
    var d := P.DecoderRun(s, DeploymentShape, t, content, u, parse);
    if !d.matched {
      DecoderAgrees(s, StatefulSetShape, t, content, u, parse);
      var st := P.DecoderRun(s, StatefulSetShape, t, content, u, parse);
      if st.failure.None? && !st.matched {
        DecoderAgrees(s, CronJobShape, t, content, u, parse);
      }
    }
  }

  /** Every document: a success adds what the older revision adds, and decodable documents succeed. */
  lemma {:induction false} DocumentsAgree(s: SumCmd, t: Requirements, docs: seq<seq<byte>>, u: Unmarshaller,
                                          parse: P.QuantityParser)
    requires NoDefaultsPolicy(s.base) && CpuMemoryKeyed(t)
    ensures var o := P.RunDocuments(s, t, docs, u, parse);
      && (o.failure.None? ==> o.totals == H.ApplyDocuments(t, docs, u))
      && ((forall i :: 0 <= i < |docs| ==> Decodable(docs[i], u)) ==> o.failure.None?)
    decreases |docs|
  {
    if docs != [] {
      DocumentAgrees(s, t, docs[0], u, parse);
      var o := P.RunDocument(s, t, docs[0], u, parse);
      if o.failure.None? {
        assert CpuMemoryKeyed(o.totals) by {
          P.RunDocumentKeepsKeys(s, t, docs[0], u, parse);
        }
        DocumentsAgree(s, o.totals, docs[1..], u, parse);
        if forall i :: 0 <= i < |docs| ==> Decodable(docs[i], u) {
          assert forall i :: 0 <= i < |docs[1..]| ==> Decodable(docs[1..][i], u) by {
            forall i | 0 <= i < |docs[1..]| ensures Decodable(docs[1..][i], u) {
              assert docs[1..][i] == docs[i + 1];
            }
          }
        }
      } else {
        assert !Decodable(docs[0], u);
      }
    }
  }

  /**
   * Under the flag defaults, whatever the policy-driven `Parse` returns
   * successfully is what the older `Parse` returns, and when every document
   * decodes as StatefulSet and CronJob the two revisions give the same result.
   */
  lemma RevisionsAgree(s: SumCmd, manifest: seq<byte>, u: Unmarshaller, parse: P.QuantityParser)
    requires NoDefaultsPolicy(s.base)
    ensures P.ParseSpec(s, manifest, u, parse).Ok? ==> P.ParseSpec(s, manifest, u, parse) == H.ParseSpec(manifest, u)
    ensures (forall doc :: doc in Tokenize(manifest).docs ==> Decodable(doc, u)) ==>
              P.ParseSpec(s, manifest, u, parse) == H.ParseSpec(manifest, u)
  {
    var docs := Tokenize(manifest).docs;
    DocumentsAgree(s, ZeroTotals(), docs, u, parse);
    if forall doc :: doc in docs ==> Decodable(doc, u) {
      assert forall i :: 0 <= i < |docs| ==> Decodable(docs[i], u);
    }
  }

  /** Totals from either revision have no job share: each combined metric equals its static one. */
  lemma JobPartsAreZero(s: SumCmd, manifest: seq<byte>, u: Unmarshaller, parse: P.QuantityParser)
    ensures H.ParseSpec(manifest, u).Ok? ==>
              var m := Summarize(H.ParseSpec(manifest, u).value);
              m.cpuLimit.job == 0 && m.memLimit.job == 0 && m.cpuReq.job == 0 && m.memReq.job == 0
    ensures P.ParseSpec(s, manifest, u, parse).Ok? ==>
              var m := Summarize(P.ParseSpec(s, manifest, u, parse).value);
              m.cpuLimit.job == 0 && m.memLimit.job == 0 && m.cpuReq.job == 0 && m.memReq.job == 0
  {
    H.ParseKeysAreCpuAndMemory(manifest, u);
    if H.ParseSpec(manifest, u).Ok? {
      NoJobKeysMeansSumIsStatic(H.ParseSpec(manifest, u).value);
    }
    P.ParseKeysAreCpuAndMemory(s, manifest, u, parse);
    if P.ParseSpec(s, manifest, u, parse).Ok? {
      NoJobKeysMeansSumIsStatic(P.ParseSpec(s, manifest, u, parse).value);
    }
  }
}
