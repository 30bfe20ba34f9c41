# helm-resource: the resource-aggregation engine, in Dafny

helm-resource is a Helm plugin that renders a chart and adds up the CPU and
memory limits and requests of its workloads. It can print them
(`sum`) or compare them with a namespace quota (`check`). This project
models the engine under `cmd/` and proves properties of it:

- **the document splitter** (`scanYamlSpecs`), which cuts a manifest into
  YAML documents at `"\n---\n"`, and the 10 MiB token cap that `Parse` sets
  on the scanner (`split.dfy`);
- **the un-defaulted accumulator** of `cmd/helm.go`, which is the package-level `Parse`
  (`helm.dfy`). It starts from `cpu: 0, memory: 0` totals and dispatches
  every document to the Deployment, StatefulSet and CronJob decoders in that
  order. It adds every non-zero declared quantity, times the replica count,
  into the keys the totals already hold;
- **the policy-driven accumulator** of `cmd/parser.go`, which is `sumCmd.Parse`
  (`parser.dfy`). A zero cpu/memory limit or request is replaced by a
  configured default, by zero, or by a "not defined" error, and any error
  aborts the run;
- **the default lookup** `getDefault` and the policy fields of
  `baseHelmCmd` (`base.dfy`);
- **the combined totals** (static + job) that `checkCmd.run` and
  `sumCmd.FormatOutput` compute (`combined.dfy`). These cover the output-mode choice of
  `FormatOutput` (`sum.dfy`) and the eight strict quota verdicts of `run`
  (`check.dfy`);
- **how the two accumulator revisions relate** (`revisions.dfy`).

The code that updates state in place is modelled imperatively:

- the scanner is the class `YamlSplit.Scanner`;
- the totals record `cr`, which every decoder receives by pointer and
  updates, is the class `Resources.Totals`;
- `Parse`, the decoders and `procResourceRequirements` are methods that modify it.

Each method is proved equal to a front-first fold over the same input
(`Helm.ParseSpec`, `SumParse.ParseSpec` and their parts). The properties
are proved about those folds.

A `resource.Quantity` is an exact scaled decimal. It is modelled as an
exact `int` count of one base unit, so `Add`, `Mul` and `Cmp` are `+`, `*`
and `<`. Replica counts are Go `int32`, and manifests are byte sequences.

Two things come in as parameters:

- YAML decoding (`sigs.k8s.io/yaml`) is a function from a decoder target
  and a document's bytes to a decoded object or an error message;
- `resource.ParseQuantity` is a partial function from strings to quantities.

## Model

| member | source | states |
|---|---|---|
| YamlSplit.IndexOfSeparator | cmd/helm.go:168 | -1 exactly when the data holds no separator; otherwise the index of its first occurrence |
| YamlSplit.ScanYamlSpecs | cmd/helm.go:164-178 | empty input at EOF ends the scan; the first separator at i gives token `data[..i]` and advance i+5; at EOF with no separator the whole data is the token; otherwise more data is requested; no token contains the separator |
| YamlSplit.NextStep | cmd/helm.go:49 | one `Scan` over the unread input: done iff empty, too long iff the first 10485760 bytes hold no separator and the input is that long; otherwise a separator-free token shorter than the cap, which is either the whole rest or ends at the first separator of the rest, which is skipped |
| YamlSplit.Tokenize | cmd/helm.go:64 | every document a full scan yields is shorter than the cap and separator-free; no documents and no error only for empty input |
| YamlSplit.JoinReproducesInput | cmd/helm.go:164-178 | the documents rejoined with the separator give back the input, minus at most one trailing separator |
| YamlSplit.ShortInputNeverTooLong | cmd/helm.go:49 | input shorter than the 10 MiB cap never makes the scanner fail |
| YamlSplit.Scanner.Scan | cmd/helm.go:64 | returns true iff a document remains, sets `token` to the next document and consumes it; on false `errTooLong` is the scanner's error |
| Resources.ZeroTotals | cmd/helm.go:53-62 | both lists start keyed by exactly `cpu` and `memory`, all zero |
| Resources.Get | cmd/check.go:48-51 | a missing key reads as the zero quantity |
| Workloads.ReplicasOrOne | cmd/helm.go:110-113 | an unset replica count is 1, a set one is used |
| Workloads.Decoded | cmd/helm.go:102-160 | a decoder matches iff the document decodes and its kind is the decoder's; CronJob always uses 1 replica, the others their replica count |
| Helm.AccumulateInto | cmd/helm.go:81-90 | the loop over the declared map yields every key of the total plus `repl` times its declared quantity; zero and absent declarations add nothing, other keys are ignored |
| Helm.ProcResourceRequirements | cmd/helm.go:80-101 | the totals become those of adding one container's limits and requests times `repl` |
| Helm.ProcContainers | cmd/helm.go:115-117 | the totals become those of every container added in order |
| Helm.ParseDeployment | cmd/helm.go:102-121 | true iff a Deployment matched; the decode error is returned; only a match changes the totals |
| Helm.ParseStatefulset | cmd/helm.go:123-143 | as for Deployment, with StatefulSet |
| Helm.ParseCronJob | cmd/helm.go:145-160 | as for Deployment, with CronJob and one replica |
| Helm.Classify | cmd/helm.go:66-72 | first match in the order Deployment, StatefulSet, CronJob; none iff no decoder matches; CronJob counts once |
| Helm.DispatchDocument | cmd/helm.go:65-72 | the totals become those of the first matching workload, unchanged when none matches |
| Helm.ScanDocuments | cmd/helm.go:64-73 | the totals become those of every remaining document in order; the scanner's error is the too-long flag |
| Helm.Parse | cmd/helm.go:44-78 | returns the fold over the scanned documents from zero totals, or the scanner's error |
| Helm.AddContainersKeepsKeys | cmd/helm.go:85 | accumulating containers never adds or removes a key |
| Helm.ParseKeysAreCpuAndMemory | cmd/helm.go:53-62 | the returned totals are keyed by exactly `cpu` and `memory` |
| Helm.OnlyTheScannerFails | cmd/helm.go:66-76 | `Parse` fails iff a document is over the cap, with that error, whatever the documents decode to; never for input under the cap |
| Helm.DeploymentMatchIsFinal | cmd/helm.go:66-68 | a Deployment match is never re-examined by the other decoders |
| Helm.AddResourcesAt | cmd/helm.go:85-89 | one container adds exactly `repl` times its declared quantity to a key the totals hold |
| Helm.AddContainersAt | cmd/helm.go:115-117 | a workload adds `repl` times its containers' summed declarations |
| Helm.ApplyDocumentsAt | cmd/helm.go:64-73 | the documents add the sum of their contributions |
| Helm.ParseTotalsAreSums | cmd/helm.go:44-78 | each reported cpu/memory total is the sum over documents of replicas times declared quantities; CronJob counts once, unmatched documents not at all |
| Base.GetDefault | cmd/base.go:24-36 | `"limit"` and `cpu` give the CPU limit default, `"limit"` and any other resource the memory limit default; any other role is a request, by the same rule; the result is always one of the four strings |
| Base.GetDefaultReadsOnlyDefaults | cmd/base.go:24-36 | the lookup depends on the four default strings and nothing else |
| Base.FlagDefaults | cmd/base.go:44-49 | without flags, `require` is false and every default is empty |
| Base.GetDefaultLimit | cmd/parser.go:66 | the limit default is the CPU limit string for `cpu` and the memory limit string otherwise (assumed lookup, see below) |
| Base.GetDefaultRequest | cmd/parser.go:96 | the request default is the CPU request string for `cpu` and the memory request string otherwise (assumed lookup, see below) |
| SumParse.DefaultFor | cmd/parser.go:66 | each of the four blocks consults the default string of its own role and resource |
| SumParse.PathId | cmd/parser.go:167 | the workload identity in error messages starts with the kind and the workload name and ends with `, Container: ` and the container name |
| SumParse.DefaultResource | cmd/parser.go:125-149 | a non-empty default yields its parsed value, or a format error when it does not parse; an empty one yields "not defined" naming resource, role and workload when `require` is set, zero otherwise |
| SumParse.AccumulateBlock | cmd/parser.go:62-76 | one block: the declared quantity, or the policy's when it is zero, times `repl`, added to the key when the totals hold it; a policy error leaves the totals as they were |
| SumParse.ProcResourceRequirements | cmd/parser.go:60-121 | the four blocks in order, stopping at the first error with the totals as the blocks before it left them |
| SumParse.ProcContainers | cmd/parser.go:166-170 | the containers in order, stopping at the first error |
| SumParse.ParseDeployment | cmd/parser.go:151-174 | an unmarshal error counts as no match and no error; a match processes every container |
| SumParse.ParseStatefulset | cmd/parser.go:176-198 | an unmarshal error is returned; a match processes every container |
| SumParse.ParseCronJob | cmd/parser.go:200-217 | an unmarshal error is returned; a match processes every container once |
| SumParse.DispatchDocument | cmd/parser.go:33-52 | any decoder error is returned at once; a match ends the dispatch |
| SumParse.ScanDocuments | cmd/parser.go:32-53 | the documents are processed in order until one fails; on success the scanner's error is the too-long flag |
| SumParse.Parse | cmd/parser.go:16-58 | the first document error, else the scanner's error, else the totals |
| SumParse.ParseKeysAreCpuAndMemory | cmd/parser.go:21-30 | successful totals are keyed by exactly `cpu` and `memory` |
| SumParse.RunContainersKeepsKeys | cmd/parser.go:71-74 | only the existing `cpu`/`memory` keys are written, failure or not |
| SumParse.FailureIsFinal | cmd/parser.go:34-35 | after a failing document, no later document is looked at |
| SumParse.NoFailureWithoutRequire | cmd/parser.go:125-149 | without `require` and with well-formed defaults, a container never fails |
| SumParse.MissingCpuLimitIsReported | cmd/parser.go:62-68 | with `require` set and no CPU limit default, a container without a CPU limit stops the run before anything is added, naming the workload and container |
| SumParse.ContainerFailureKinds | cmd/parser.go:125-149 | a container fails only with a format error or a "not defined" error |
| SumParse.UndecodableDocumentAborts | cmd/parser.go:179-182 | a document that is not a Deployment and does not decode as a StatefulSet aborts the run with the decoder's message |
| SumParse.UnknownKindIsSkipped | cmd/parser.go:42-52 | a decodable document of another kind changes nothing and does not fail |
| SumParse.DeploymentMatchIsFinal | cmd/parser.go:34-39 | a document that matches as a Deployment is never looked at by the StatefulSet or CronJob decoders |
| SumParse.BlockAt | cmd/parser.go:71-74 | a successful block adds `repl` times its resolved quantity to its own key and leaves every other key alone |
| SumParse.ProcRunAt | cmd/parser.go:60-121 | a successful container adds `repl` times the resolved quantity to `cpu` and to `memory`, in each role |
| SumParse.RunContainersAt | cmd/parser.go:166-170 | a successful workload adds `repl` times its containers' summed resolved quantities |
| SumParse.DecoderRunAt | cmd/parser.go:151-217 | a decoder that does not fail matches exactly when its kind decodes, and then adds that workload's resolved sum; otherwise it changes nothing |
| SumParse.RunDocumentAt | cmd/parser.go:32-52 | a successful document adds the contribution of its first matching workload, Deployment, StatefulSet, then CronJob |
| SumParse.RunDocumentsAt | cmd/parser.go:32-53 | successful documents add the sum of their contributions |
| SumParse.PolicyTotalsAreSums | cmd/parser.go:16-58 | each total a successful `Parse` reports is the sum over documents of replicas times the resolved quantities: the declared ones, and the configured default or zero where a declaration is zero |
| Combined.Summarize | cmd/check.go:48-60 | each metric's job part is the job key's quantity, zero when absent, and its sum is static plus job |
| Combined.NoJobKeysMeansSumIsStatic | cmd/check.go:48-60 | for totals keyed only by `cpu`/`memory`, every job part is zero and every sum is the static total |
| Combined.CombinedTotals | cmd/sum.go:51-63 | the copies built by `DeepCopy` and `Add` are the combined totals; the totals read are not modified |
| Sum.OutputLayout | cmd/sum.go:65-97 | `"table"` selects the table; every other value, `""` included, the lines |
| Sum.FormatOutput | cmd/sum.go:50-66 | the layout follows the output option; each metric's job part comes from the job keys and its sum is static plus job |
| Check.Judge | cmd/check.go:62-64 | both verdicts are strict `<` against the hard entry, a missing entry reading as zero |
| Check.Verdicts | cmd/check.go:62-76 | each metric is judged against its own quota key |
| Check.Run | cmd/check.go:38-76 | a quota error first, then a requirements error, is returned before any comparison; otherwise exactly the eight verdicts of `Verdicts`, each metric against its own quota key |
| Check.VerdictsAreStrict | cmd/check.go:62-76 | all eight verdicts are the strict comparisons of static and of static + job with the ceiling |
| Check.CeilingIsExclusive | cmd/check.go:63 | a total equal to its ceiling does not fit |
| Check.MissingCeilingNeverFits | cmd/check.go:62 | a missing hard entry makes both verdicts false for non-negative totals |
| Check.SumFitImpliesStaticFit | cmd/check.go:62-76 | with non-negative job parts, a fitting combined total implies a fitting static total |
| Check.NoJobsMeansVerdictsAgree | cmd/check.go:62-76 | for totals without job keys, the static and combined verdicts agree |
| Revisions.BlocksAddDeclared | cmd/parser.go:60-121 | when every quantity resolves to its declared value, the four blocks add what the older `procResourceRequirements` adds |
| Revisions.NonZeroIsUsedAsIs | cmd/parser.go:63-64 | each non-zero declared quantity, for any role and resource, is used unchanged whatever the policy and whatever the other quantities are |
| Revisions.NoPolicyUsesDeclared | cmd/base.go:44-49 | under the flag defaults every quantity resolves to its declared value |
| Revisions.ContainersAgree | cmd/parser.go:166-170 | under the flag defaults a workload's containers add what the older revision adds, without failing |
| Revisions.DecoderAgrees | cmd/parser.go:151-217 | under the flag defaults a decoder fails exactly on a StatefulSet/CronJob decode error, and otherwise matches and adds as the older one |
| Revisions.DocumentAgrees | cmd/parser.go:32-53 | a successful document adds what the older dispatch adds; a decodable one succeeds |
| Revisions.DocumentsAgree | cmd/parser.go:32-53 | the same for every document |
| Revisions.RevisionsAgree | cmd/parser.go:16-58 | under the flag defaults a successful policy-driven `Parse` returns what the older `Parse` returns; on manifests whose documents all decode, the two give the same result |
| Revisions.JobPartsAreZero | cmd/check.go:48-51 | totals from either revision have zero job parts, so every combined metric equals its static one |

## Left out

- `getTemplate` and `outputWithRichError` (cmd/helm.go:19-42) run the external `helm` binary. They are I/O and are not modelled.
- `GetQuota` (cmd/quota.go) loads kubeconfig and calls the cluster. `Check.Run` takes its result, or its error, as a parameter.
- `GetRequirements` is not part of this model. `Check.Run` takes its result, or its error, as a parameter.
- The cobra wiring: `newCheckCommand`, `newSumCommand` and `propogateCmdFlags`. Only the defaults that `propogateCmdFlags` registers are modelled, as `Base.FlagDefaults`.
- All table and line printing in `checkCmd.run` and `FormatOutput` is left out, and so are the errors that writing can raise. The model keeps the numbers, the verdicts and the layout choice.
- The debug `fmt.Println` of decode errors is left out.
- YAML decoding into the Kubernetes structs is a parameter. `Object` keeps only the kind, name, replica count and container resources.
- `resource.ParseQuantity` is a parameter. `resource.MustParse("0")` is the integer 0.
- Quantity formatting and precision below the base unit are not modelled.
- The shared `ZERO` quantity that `defaultResource` returns and the caller then `Mul`s is a fresh 0. The product is 0 either way.
- Quantities are unbounded integers. The overflow of `resource.Quantity` arithmetic, which is arbitrary precision in practice, is not modelled.
- `getDefaultLimit` and `getDefaultRequest` are not part of this model. They are assumed to be `getDefault(k, "limit")` and `getDefault(k, "request")`.
- `jobCpu` and `jobMemory` are not part of this model. They are assumed to be the keys `job-cpu` and `job-memory`, and no modelled code writes them.
- `bufio.Scanner` is modelled by its net effect: every call of the split function sees the whole unread input up to the 10485760-byte cap. Buffer growth, the initial 64 KiB buffer and partial reads are not modelled, so the scanner's empty-token and buffer-full corner cases beyond the cap rule are not captured.
- Count-only kinds (Service, ConfigMap and the like) have no code in the modelled files and are not modelled.
- No code that writes the job keys is modelled. `checkCmd.run` and `FormatOutput` read `jobCpu` and `jobMemory` (cmd/check.go:48-51, cmd/sum.go:51-54), but neither `Parse` writes them. A CronJob adds into `cpu`/`memory` with one replica (cmd/helm.go:145-160, cmd/parser.go:200-217). So `Revisions.JobPartsAreZero` holds: on the totals of either `Parse`, every job part is zero.
