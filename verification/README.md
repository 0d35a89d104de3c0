# Fluxgate operator: a verified model of its control loop

The operator scans the CI/CD pipelines behind ArgoCD Applications and Flux Kustomizations, keeps one
security report per repository, and lets policies act on those reports: annotate them, send alerts, label
workloads, and suspend the sync of the source once a grace period is over. When a report becomes compliant
everything is undone. This project models that loop over an explicit cluster store and proves what holds
over whole runs of its controllers. `dafny verify dfyconfig.toml` checks it.

## How the system is modelled

- **The world** (`Cluster`) is a value: reports with resource versions and a status subresource, policies,
  the JSON documents of sources and workloads, the source registry, the clock, and a log of what was done.
  Create drops the status, Update ignores it, a status update ignores the metadata, and both updates need
  the current resource version.
- **Interleaving and failure.** Before every API call, and before every reading of the clock that matters,
  the world consumes a `Turn`: any steps of other parties, any delay, and how the call ends. A call may
  succeed, be refused without effect, or be carried out while the caller sees an error. Since a run makes
  finitely many calls, a list of turns covers every interleaving of a policy run with the analysis, report
  and discovery controllers, deletions of reports, and edits of policies, sources and workloads. The workers
  of the analysis and report controllers read a report in one step and write its status in a later one, and
  the world holds their copies in between; `Reports` proves that the calls of these controllers are such steps.
- **Controllers as they run.** `PolicyController`, `StatusControllers`, `Registry` and `AnalysisCache` hold
  classes with loops and in-place updates, as in the source. A report in memory is an object whose
  annotation map changes before the Update that may fail. Every method is proved equal to a function from
  world to world (`Enforcement`, `Reports`), and the theorems are about those functions.
- **Values.** Strings that the code only compares with constants (levels, severities, action kinds,
  annotation and label keys) are datatypes with a catch-all. Time is an integer number of nanoseconds, and
  formatting an instant drops the fraction of its second. The text of a grace period is empty, malformed,
  or a duration of either sign.
- **Calm passes** (`Calm`) are passes in which every call succeeds and nobody acts meanwhile, though time
  may pass at every call. Absorption and the last-writer law are stated for them. Timeliness
  asks as much for one report in its stamping pass only; in all later passes any call but reading the policy
  and listing the reports may fail, and others may do anything but delete the report (`Unrelated`).

Assumptions: the operator is the only writer of its annotations; listings read the current store; the clock
does not go back; one policy pass runs at a time (the default of one worker per controller), while everything
else interleaves with it freely.

## What is false of the code

Six properties one would expect fail; each is proved with the exact condition under which it does hold,
and with a concrete input on which it fails.

- Resuming an ArgoCD Application does not always forget a suspension: Resume writes a fixed setting, and
  anything but `prune` and `selfHeal` under `automated` is lost by suspending and kept by resuming alone
  (`Patches.ArgoResumeUndoesSuspendExactly`, `Restoration.RestorationAbsorbsExactly`; an Application with
  `allowEmpty` in `Patches.AllowEmptyIsLost`).
- A report of a Kustomization usually leads to no source at all. Its label holds the name of the
  Kustomization, while the registry is keyed by `repository/kustomization`
  (`LabelLookup.KustomizationLabelsResolveExactly`; Kustomization `apps` under `flux-system` in
  `LabelLookup.AppsLeadsNowhere`). When another source bears its name, the report leads to the Kustomization
  only if that source stands for the same namespace and object name
  (`LabelLookup.KustomizationLabelsLeadHomeExactly`).
- A sanitised report name is not always a Kubernetes object name. It can end in `-` or `.`, and change when
  sanitised again, because it is cut to 253 characters after it was trimmed (`Naming.IdempotentExactly`; a
  name of 254 characters in `Naming.LongNameEndsOnDash`); and a dot can stand next to a dash
  (`Naming.ObjectNameExactly`; repository `my_.github` of owner `org` in `Naming.DashBeforeDot`).
- An ssh URL is not parsed into its owner and repository: it is split at its first colon, so a port becomes
  the owner, and a URL without one is rejected (`RepoUrl.SshUrlExactly`; `RepoUrl.SshPortExample`,
  `RepoUrl.SshNoPortExample`).
- Different repositories can share a report: where no name is cut or ends on a separator, exactly when their
  owners and repositories read the same around a dash (`Reports.ReportsCoincideExactly`; `a-b/c` and `a/b-c` in `Reports.TwoRepositoriesOneReport`).
- A report without findings yet is not told apart from a compliant one. Create drops the status, and the
  empty status passes for Compliant exactly under non-negative thresholds
  (`Compliance.PristineIsCompliantExactly`, whose input is the empty status itself).

Remarks on other places where the model follows the code:

- README.md line 131 of the operator says that `annotate` marks the CI/CD resource; the code annotates the
  report (internal/controller/policy_controller.go:243-250).
- Suspending a report of a GitRepository patches a Kustomization of that name
  (internal/connector/flux.go:219-233).
- A drop from Critical to Warning neither clears the stamp nor resumes; only a Compliant level does.
- The guarded put compares repository, branch and printed paths only: a change of labels or target namespace
  alone is not stored (internal/controller/discovery_controller.go:111-122).

## Model

| member | source | states |
|---|---|---|
| GracePeriods.GracePeriodSafety | internal/controller/policy_controller.go:306-344 | in every run from a world without stamps, every suspension sent under a grace period comes more than that period less one second after a stamping of the same report, with neither a restoration of the report nor a save clearing its stamp in between |
| GracePeriods.StampIsWriteOnce | internal/controller/policy_controller.go:314-323 | from any moment of any run on, a stored first-detected stamp keeps its value, in the log and in the final store, until the report is deleted or a save clears it while the report's latest evaluation is Compliant |
| GracePeriods.PatchesFollowEvaluation | internal/controller/policy_controller.go:62-81 | in every run a suspension follows a latest evaluation of its report that was not Compliant; restorations and resumptions follow one that was |
| GracePeriods.StatusesStaySound | config/crd/pipelinesecurityreport.yaml:19-20 | after every run, with workers of the other controllers reading and writing between any two calls, a stored status is pristine or has the state and summary of its findings |
| GracePeriods.StatusesStaySoundWithin | internal/controller/policy_controller.go:42-81 | the same in the midst of a pass, in the world in which the next call is served once any number of reports are handled and any number of actions of the next one carried out |
| GracePeriods.ListingIsFaithful | internal/controller/policy_controller.go:52-60 | a listing holds exactly the enumerated stored reports of the namespace, each once |
| GracePeriods.RunKeeps | internal/controller/policy_controller.go:42-98 | any run of policy passes, however interleaved and failing, keeps the log proper, every stored stamp explained by a stamping step, and the log's replay equal to the store |
| GracePeriods.SuspendSyncKeeps | internal/controller/policy_controller.go:306-379 | one suspendSync, with the copy's stamp changed before an Update that may fail, keeps the invariants and leaves a copy that later actions may use |
| GracePeriods.RestoreKeeps | internal/controller/policy_controller.go:428-483 | a restoration keeps the invariants and resets no report but its own |
| GracePeriods.SaveKeeps | internal/controller/policy_controller.go:250-252 | a save of a usable copy keeps the invariants, whether refused, conflicting, lost or done; a successful one leaves the copy's stamp in the store |
| Stickiness.SuspensionSticksUntilCompliant | internal/controller/policy_controller.go:447-469 | continuing any run from a suspended source that nobody edits, the source is still suspended, or since that state a report leading to it was evaluated as Compliant and then resumed |
| Stickiness.SendSuspendSticks | internal/controller/policy_controller.go:346-379 | a suspension that succeeds leaves its target suspended and releases no other source |
| Sending.UnreadableGraceSendsNothing | internal/controller/policy_controller.go:306-338 | when every triggered suspendSync has a grace period that does not parse, or a stamp that does not, handling the report sends no suspension at all, under any turns |
| Sending.MissingGraceSends | internal/controller/policy_controller.go:306-379 | a triggered suspendSync without a grace period sends a suspension for the report whenever its labels lead to a source, among any other actions and under any turns |
| Sending.SelectionDecides | internal/controller/policy_controller.go:62-81 | a report that lacks a wanted label value, or is of none of the wanted kinds up to case, is not touched at all; the first thing logged for any other is its evaluation |
| GraceTimeliness.SuspensionIsTimely | internal/controller/policy_controller.go:306-379 | over passes that always find the violation, the first one, with successful calls and the report unwritten meanwhile, stamps it at some t0 without suspending; every later one starting at or after t0 + grace suspends, and none ending a second or more before that does, although calls may fail and others do anything but delete the report |
| GraceTimeliness.StampedEpisodesAreTimely | internal/controller/policy_controller.go:331-344 | from a report stamped at t0 on, every such pass is timely, whatever becomes of its calls and whoever writes the report |
| GraceTimeliness.StampedReportSteps | internal/controller/policy_controller.go:167-215 | handling a violated report that is stamped sends the suspension if its grace period is over and does not if it is not, among any other actions and under any turns |
| GraceTimeliness.StampedPassSteps | internal/controller/policy_controller.go:42-98 | the same for a whole pass over any listed reports, once its policy was read and its listing got |
| GraceTimeliness.StampingPassSteps | internal/controller/policy_controller.go:314-329 | a pass with successful calls over an unstamped violated report stamps it within its own duration and does not suspend |
| Restoration.RestorationAbsorbsEnforcement | internal/controller/policy_controller.go:167-215 | after any number of enforcement passes with any actions and levels, restoring leaves the annotations, source documents and workloads that restoring alone leaves, when resuming forgets suspensions |
| Restoration.RestorationAbsorbsExactly | internal/controller/policy_controller.go:428-483 | restoration absorbs every sequence of enforcement passes if and only if the target is no ArgoCD Application with settings beyond prune and selfHeal under automated |
| Restoration.SuspensionLosesSettings | internal/connector/argocd.go:172-204 | for any other Application one unconditional suspension followed by a restoration differs from the restoration alone |
| Restoration.RestorationResumesTarget | internal/controller/policy_controller.go:447-469 | a calm restoration leaves the target reading as resumed in its document, with prune and selfHeal true for an Application, a calm suspension leaves it reading as suspended, and neither touches another source |
| RiskLabels.LastWriterDecidesRiskLabel | internal/controller/policy_controller.go:62-81 | after a calm pass the risk label of every existing workload is decided by the last selected report that touches it: removed if Compliant, its lower-case level if labelling was triggered, unchanged if none does |
| RiskLabels.ActionsLabel | internal/controller/policy_controller.go:382-425 | an action list labels every listed and existing Deployment and StatefulSet with the level exactly when a labelWorkloads action is triggered, and no other workload |
| RiskLabels.TriggerFiresExactly | internal/controller/policy_controller.go:218-235 | which trigger fires at which level, as a table of the six firing pairs, read off the label that one labelWorkloads action leaves on a workload; a trigger that names no level, or Compliant, changes nothing |
| RiskLabels.RestorationUnlabels | internal/controller/policy_controller.go:472-511 | a calm restoration leaves no risk label on a listed, supported and existing workload and keeps the document of every other |
| Calm.CalmRestore | internal/controller/policy_controller.go:428-511 | a calm restoration removes exactly the three annotations, applies the resume patch to the target if there is one, and unlabels every correlated workload, leaving all else |
| Calm.CalmStamping | internal/controller/policy_controller.go:314-329 | with a grace period and no stamp, the pass stores the current second as stamp and touches neither sources nor workloads |
| Calm.CalmAwait | internal/controller/policy_controller.go:331-344 | with a stamp, the suspension is sent exactly when the clock is at least the grace period past it; waiting is no failure, and sending fails only without an existing source |
| Calm.CalmAnnotateWrites | internal/controller/policy_controller.go:238-255 | annotating stores the state and the counts of the report under the two annotations and changes nothing else of it |
| Cluster.UpdatesAreGuarded | config/crd/pipelinesecurityreport.yaml:19-20 | an update of the object or of its status writes nothing over another version than the one it was read in, and neither writes the part that belongs to the other |
| Enforcement.SummaryTextIdentifies | internal/controller/policy_controller.go:239-241 | two finding summaries have the same text exactly when they agree on the critical, high and medium counts |
| Enforcement.SummaryTextExample | internal/controller/policy_controller.go:239-241 | one critical, two high and three medium findings read `1 critical, 2 high, 3 medium` |
| Enforcement.RiskIsLowerCaseLevel | internal/controller/policy_controller.go:383-383 | the risk label is the level's name in lower case |
| Enforcement.ConnectorIsDetermined | internal/controller/policy_controller.go:359-376 | the loop finds a connector exactly when one that serves the kind is present, so their order does not matter |
| Enforcement.ServesExactly | internal/controller/policy_controller.go:360-362 | the three pairs of a kind and a connector that match |
| PolicyController.Controller.Reconcile | internal/controller/policy_controller.go:42-98 | the method with its loop over listed objects does what PolicyPass says in every world, and returns what PassResult says |
| Enforcement.RequeueMeansActive | internal/controller/policy_controller.go:47-97 | a pass ends without requeue or error exactly when the policy is gone; when it requeues, the stored policy says how many reports were listed, and the delay is the policy's interval, or five minutes for none |
| RiskLabels.CalmPassRequeues | internal/controller/policy_controller.go:47-97 | a calm pass over an existing policy requeues, after the policy's interval or five minutes for none, whatever its reports and actions are |
| Enforcement.TriggeredAreExecuted | internal/controller/policy_controller.go:173-212 | what runs is exactly the triggered actions in their order, in every world |
| PolicyController.Controller.ExecuteEnforcement | internal/controller/policy_controller.go:167-215 | restores on Compliant and otherwise runs the triggered actions in order, failures not stopping the next |
| PolicyController.Controller.ExecuteSuspendSync | internal/controller/policy_controller.go:306-379 | stamps, waits, fails or suspends as the specification says, on the copy and on the world; with a grace period that does not parse it fails and changes neither |
| PolicyController.Controller.SendSuspend | internal/controller/policy_controller.go:346-379 | patches the object that the labels lead to through the registry and the first matching connector, or fails |
| PolicyController.Controller.SendResume | internal/controller/policy_controller.go:447-469 | the same search for the resumption, whose failure is ignored |
| PolicyController.Controller.RestoreCompliance | internal/controller/policy_controller.go:428-483 | removes the annotations, stops if that Update fails, then resumes and unlabels |
| PolicyController.Controller.ClearAnnotations | internal/controller/policy_controller.go:429-439 | the in-place deletions remove exactly the three keys and report whether any was there |
| PolicyController.Controller.ExecuteAnnotate | internal/controller/policy_controller.go:238-255 | sets the two annotations in memory, then saves; the copy keeps them if the save fails |
| PolicyController.Controller.ExecuteAlert | internal/controller/policy_controller.go:258-303 | fails without sending anything unless the target is of kind slack or webhook and has a URL, otherwise ends as the delivery does, and changes no object |
| PolicyController.Controller.ExecuteLabelWorkloads | internal/controller/policy_controller.go:382-425 | labels every supported workload in turn, skipping failures |
| Enforcement.LabellingGoesOn | internal/controller/policy_controller.go:385-396 | whatever became of the workloads before it, the next one is labelled, or unlabelled, in its turn, under any turns |
| Enforcement.PatchLabelPatchesOne | internal/controller/policy_controller.go:400-425 | a workload that is missing or cannot be read is not patched; otherwise the patch changes that one workload if carried out and nothing if not, and success means that it was |
| PolicyController.Controller.RemoveLabels | internal/controller/policy_controller.go:472-511 | unlabels every supported workload in turn, skipping missing ones and failures |
| PolicyController.Controller.SelectorMatches | internal/controller/policy_controller.go:101-129 | false when some wanted label has another value in the report, an absent one reading as empty, or when kinds are wanted and none equals its kind up to case; true otherwise |
| PolicyController.Controller.EvaluateThresholds | internal/controller/policy_controller.go:133-164 | Critical, NonCompliant, Warning and Compliant each exactly under its condition on the counts, the limits and the presence of an unpinned action |
| Compliance.UnpinnedExactly | internal/controller/policy_controller.go:147-154 | a finding counts as unpinned exactly when its lower-cased rule is some text around `pin`, or its lower-cased message one around `unpinned` or `not pinned` |
| Json.PatchIdempotent | internal/connector/argocd.go:176-186 | merging any patch twice equals merging it once, for every document (section 2 of RFC 7396) |
| Json.AbsorptionExact | internal/controller/policy_controller.go:401-405 | a later patch makes an earlier one unobservable on every document if and only if it covers it |
| Json.PatchIsLocal | internal/controller/policy_controller.go:487-491 | a patch at one path leaves every diverging path of every document alone |
| Json.PatchHits | internal/connector/flux.go:222-239 | a patch at a path leaves there the merge of the old value, or nothing if it is null |
| Patches.ArgoResumeUndoesSuspendExactly | internal/connector/argocd.go:172-204 | suspend then resume equals resume on an Application if and only if automated holds nothing but prune and selfHeal |
| Patches.AllowEmptyIsLost | internal/connector/argocd.go:176-193 | an Application with `allowEmpty` under automated keeps it when resumed, and has lost it when suspended and resumed |
| Patches.FluxResumeUndoesSuspend | internal/connector/flux.go:219-250 | suspend then resume equals resume on every Kustomization |
| Patches.SuspendSuspends | internal/connector/argocd.go:172-187 | after the suspend patch every document is suspended, on both platforms |
| Patches.ResumeResumes | internal/connector/flux.go:236-250 | after the resume patch no document is suspended, on both platforms |
| Patches.ArgoPatchesWrite | internal/connector/argocd.go:172-204 | suspending leaves nothing at `spec.syncPolicy.automated`; resuming leaves true at its `prune` and its `selfHeal`, on every document |
| Patches.FluxPatchesWrite | internal/connector/flux.go:219-250 | the patches leave true and false at `spec.suspend` of every document |
| Patches.LabelPatchesWrite | internal/controller/policy_controller.go:400-405 | the label patch leaves the risk, and the unlabel patch nothing, under the label `fluxgate.north-echo.dev/pipeline-risk` of every document |
| Patches.LabelIsOverwritten | internal/controller/policy_controller.go:400-405 | a later label or unlabel patch hides an earlier label patch completely |
| Patches.RiskLabelAfter | internal/controller/policy_controller.go:486-491 | a label patch leaves exactly its risk value, an unlabel patch leaves none, on every document |
| LabelLookup.KustomizationLabelsResolveExactly | internal/connector/flux.go:172-180 | a Kustomization's report leads somewhere if and only if a Flux connector runs and another connector's source, or a parseable GitRepository nobody refers to, has the Kustomization's name; never to its own entry |
| LabelLookup.KustomizationLabelsLeadHomeExactly | internal/controller/policy_controller.go:347-366 | when exactly one other source bears the Kustomization's name, its report leads to the Kustomization of that name in a given namespace if and only if a Flux connector runs and that source stands for an object of that name in that namespace |
| LabelLookup.AppsLeadsNowhere | internal/connector/flux.go:172-180 | the report of Kustomization `apps` of GitRepository `flux-system` leads nowhere, though its source is registered and every connector runs |
| LabelLookup.OwnNameLeadsHome | internal/connector/argocd.go:112-125 | a source named like its object, and sharing that name with no other, leads to exactly that object on a platform if and only if a connector of that platform runs and serves its kind |
| LabelLookup.RegistryKeys | internal/controller/discovery_controller.go:68-97 | the keys of a freshly filled registry are exactly the discovered names |
| Reports.AnalysisIsOrderIndependent | internal/controller/analysis_controller.go:37-55 | without collisions of report names, every permutation of the listing yields the same reports up to version and evaluation time |
| Reports.ReportsCoincideExactly | internal/controller/analysis_controller.go:92-96 | sources whose cleaned owners and repositories are equal, or read the same around a dash, share a report in one namespace; where no name is cut or ends on a separator, exactly those do |
| Reports.TwoRepositoriesOneReport | internal/controller/analysis_controller.go:92-92 | repository `c` of owner `a-b` and repository `b-c` of owner `a` share their report |
| Reports.ReportKeyExample | internal/controller/analysis_controller.go:92-96 | repository `My_App` of owner `Org` is reported as `psr-org-my-app`, in namespace `default` if the source has none |
| Reports.AnalysisInClosedForm | internal/controller/analysis_controller.go:88-154 | after a calm analysis pass every report is given in closed form: untouched without sources, the last analysed source's status, the first creator's labels, and an empty status if only created |
| Reports.ReportWriteIsCurrent | internal/controller/report_controller.go:24-60 | at every moment of every run, also within a policy pass, a status write from a copy that a worker read any number of steps earlier summarises the findings stored now or does nothing |
| Reports.ReadRunWrite | internal/controller/report_controller.go:29-52 | read a report, let any policy passes run with any interleaving, then write: the served update summarises the findings stored now or does nothing |
| Reports.ReadIsStep | internal/controller/report_controller.go:28-32 | reading a report is a step of the environment that leaves the stored report with the worker |
| Reports.ReportWriteIsStep | internal/controller/report_controller.go:47-52 | the served status update of that copy is a step of the environment or nothing |
| Reports.AnalysisWriteIsStep | internal/controller/analysis_controller.go:142-155 | the same for the status the analysis controller writes |
| Reports.AnalysisCreateIsStep | internal/controller/analysis_controller.go:101-127 | its Create is served as the creation of a report with empty status or not at all |
| Reports.CalmCallsSucceed | internal/controller/analysis_controller.go:57-166 | in calm a report reconcile returns no error, and the analysis of a source does exactly when there are no findings to be had |
| Reports.ReconcileWritesExactlyInconsistent | internal/controller/report_controller.go:37-58 | a calm report reconcile changes the store exactly when the report exists and is inconsistent |
| Reports.AnalysisNeedsNoReconcile | internal/controller/analysis_controller.go:142-155 | after the analysis controller updated a report, a report reconcile writes nothing |
| Reports.SuccessMeansConsistent | internal/controller/report_controller.go:28-59 | a report reconcile that returns no error found the report gone or leaves it stored with a consistent status, whatever happened meanwhile |
| Reports.SecondReconcileWritesNothing | internal/controller/report_controller.go:24-60 | a calm reconcile leaves a consistent report and a second one writes nothing |
| StatusControllers.ReportController.Reconcile | internal/controller/report_controller.go:24-60 | the method with its needsUpdate flag does what ReconcileReport says in every world, and succeeds exactly when ReconcileSucceeds says so |
| StatusControllers.AnalysisController.AnalyzeSource | internal/controller/analysis_controller.go:57-166 | the method creates or updates the report as the specification says, failing as the analysis or the calls do |
| Reports.AnalyzeSourceGivesUp | internal/controller/analysis_controller.go:60-63 | without findings nothing is called; if the report cannot be read for another reason than being missing, nothing is written |
| Reports.AnalyzeSourceCreates | internal/controller/analysis_controller.go:101-127 | under any turns, a report found missing is created with its two labels, and without a status, or nothing is written and the call fails |
| Reports.AnalyzeSourceUpdates | internal/controller/analysis_controller.go:142-155 | at any moment of any run, an existing report gets the findings, workloads, repository, branch, time and consistent summary of this analysis, unless another write came between, and keeps its metadata |
| StatusControllers.AnalysisController.ResolveWorkloads | internal/controller/analysis_controller.go:72-86 | collects the workloads of the matching connectors in order, skipping failing ones |
| Reports.ResolvesExactly | internal/controller/analysis_controller.go:75-78 | a connector resolves exactly its own source kinds and the kinds that are its name, with or without the ending that is cut off |
| Reports.CorrelatedExactly | internal/controller/analysis_controller.go:72-86 | a workload is correlated exactly when some connector present resolves the source's kind and lists it; a failing one hides no other |
| StatusControllers.AnalysisController.Reconcile | internal/controller/analysis_controller.go:37-55 | analyses every listed source in order, a failing one not stopping the next |
| Compliance.ComputeComplianceState | internal/analyzer/analyzer.go:104-132 | each of the five counts is the number of positions at which its own severity stands, and the total is the length; each of the four states holds exactly when its severity occurs and no worse one does |
| Compliance.SummaryIsHomomorphism | internal/analyzer/analyzer.go:104-132 | concatenating findings adds the summaries and takes the worse state |
| Compliance.SummaryOfPermutation | internal/analyzer/analyzer.go:106-120 | the order of the findings does not matter |
| Compliance.CountsSumToTotal | internal/analyzer/analyzer.go:107-119 | the five counts never exceed the total and reach it exactly when every severity is known |
| Compliance.StateOfPlus | internal/metrics/metrics.go:87-100 | the state of a sum is the maximum of the states in the order of the metric |
| Enforcement.ExecutionIsMonotone | internal/controller/policy_controller.go:133-235 | more findings or tighter thresholds never lower the level, and what is executed at the lower level is a subsequence of what is executed at the higher one |
| Compliance.PristineIsCompliantExactly | internal/controller/policy_controller.go:138-163 | a report with empty status is seen as Compliant exactly under non-negative thresholds |
| Compliance.TriggeredMonotone | internal/controller/policy_controller.go:173-177 | the actions triggered at a lower level are a subsequence of those at a higher one |
| Compliance.ZeroToleranceIsState | internal/controller/policy_controller.go:133-164 | with zero thresholds and no pin requirement the level is the stored compliance state |
| Registry.GuardedRefinesPlain | internal/controller/discovery_controller.go:81-92 | guarded puts lose no key, file entries under their names, and leave under every discovered name the view of its last source, as plain puts would |
| Registry.GuardedPutExactly | internal/controller/discovery_controller.go:81-122 | a discovered source replaces the stored one exactly when its name is new or its repository, branch or joined paths differ; no other entry changes |
| Registry.RediscoveryIsIdempotent | internal/controller/discovery_controller.go:68-97 | discovery on the same output leaves the whole registry as it is, even with repeated names of different content |
| Registry.Discover | internal/controller/discovery_controller.go:68-97 | the nested loops with Get and Put compute the guarded puts of all sources of the non-failing connectors, in order |
| Registry.SourceRegistry.Put | internal/controller/discovery_controller.go:33-37 | files the source under its name, changing no other entry |
| Registry.SourceRegistry.Get | internal/controller/discovery_controller.go:40-45 | finds a source exactly when one of that name is stored, and that source |
| Registry.SourceRegistry.List | internal/controller/discovery_controller.go:48-56 | returns every stored source once, in any order |
| AnalysisCache.CacheIsSound | internal/analyzer/analyzer.go:41-84 | in every interleaving of calls a hit returns what the latest store of its key recorded less than the TTL before; for proper names that store was for the same repository and branch |
| AnalysisCache.LookupHitsWithinTtl | internal/analyzer/analyzer.go:44-52 | in every interleaving, a lookup less than the TTL after the latest store of its key is served what was stored, and fetches nothing |
| AnalysisCache.LookupFetchesOtherwise | internal/analyzer/analyzer.go:44-55 | a lookup without a store of its key less than the TTL old serves nothing from the cache and starts a fetch |
| AnalysisCache.FetchTimesNeverDecrease | internal/analyzer/analyzer.go:75-81 | entries are never dropped, their fetch times never decrease, and failed fetches and lookups leave the cache unchanged |
| AnalysisCache.Analyzer.Analyze | internal/analyzer/analyzer.go:41-84 | a call is a lookup, then the steps of other threads, then a failed fetch or a store of the scanned findings, and returns accordingly |
| AnalysisCache.Analyzer.Scan | internal/analyzer/analyzer.go:60-73 | the findings of all files that parse, converted, in file order |
| AnalysisCache.FindingsConcat | internal/analyzer/analyzer.go:60-73 | the findings of further files are appended to those of the files before, whichever of these failed to parse |
| AnalysisCache.ConvertedExactly | internal/analyzer/analyzer.go:87-101 | every field of a converted finding is the scanner's own, and the remediation is its mitigations, two of them joined by a semicolon |
| FluxJoin.IndexJoinIsNestedJoin | internal/connector/flux.go:103-192 | the join through the index equals the nested-loop join when the referenced kinds, or the repository names, are free of slashes |
| FluxJoin.JoinCounts | internal/connector/flux.go:139-187 | max(1, references) sources per parseable repository, and none for the others |
| FluxJoin.JoinNames | internal/connector/flux.go:145-173 | the source names are pairwise distinct when object names are unique and slash-free |
| FluxJoin.SourcesCarryOrigin | internal/connector/flux.go:123-187 | every discovered source carries the URL, branch, labels, namespace, owner and repository of a listed GitRepository, and name, object, path and target namespace of a Kustomization that refers to it, or of the repository itself if none does |
| FluxJoin.KeyTellsReferences | internal/connector/flux.go:111-140 | equal index keys mean a reference to that repository, when the kind or the name has no slash |
| FluxJoin.BuildIndex | internal/connector/flux.go:103-113 | the index holds under every key the Kustomizations with that reference, in list order, skipping those that do not unmarshal |
| FluxJoin.Discover | internal/connector/flux.go:103-192 | the loops compute the join by index key on every input; under the slash conditions the result is the nested-loop join with max(1, references) sources per parseable repository and distinct names |
| FluxJoin.DiscoveryProperties | internal/connector/flux.go:103-192 | the count and the distinct names, for the join through the index |
| RepoUrl.ParsedPartsAreSlashFree | internal/connector/repourl.go:10-45 | owner and repository never contain a slash, whatever the URL |
| RepoUrl.SshRoundTrip | internal/connector/repourl.go:12-30 | `git@host:owner/repo.git` gives back owner and repo |
| RepoUrl.HttpsAgreesWithSsh | internal/connector/repourl.go:32-44 | a URL with decoded path `/owner/repo.git` gives the same answer |
| RepoUrl.PlainSshUrl | internal/connector/repourl.go:12-30 | `git@host:owner/repo` without `.git` gives back owner and repo |
| RepoUrl.PlainHttpsUrl | internal/connector/repourl.go:32-44 | a URL whose decoded path is the owner and the repository, with or without further segments and without `.git`, gives both back |
| RepoUrl.OwnerAndRepoExactly | internal/connector/repourl.go:25-29 | for every path, without a `.git` at its end: owner and repository are the answer exactly when the path is the two around a slash or goes on with a further slash, and there is none exactly when it has no slash |
| RepoUrl.SshUrlExactly | internal/connector/repourl.go:12-30 | `ssh://authority/owner/repo.git` gives back owner and repo if and only if the authority has a colon and what follows it is the text of both |
| RepoUrl.SshPortBecomesOwner | internal/connector/repourl.go:15-29 | with a port in the authority the answer is the port and the owner |
| RepoUrl.SshPortExample | internal/connector/repourl.go:19-29 | `ssh://git@github.com:22/org/app.git` gives owner 22 and repository org |
| RepoUrl.SshNoPortExample | internal/connector/repourl.go:19-22 | `ssh://git@github.com/org/app.git` is rejected |
| RepoUrl.SplitParts | internal/connector/repourl.go:25-25 | splitting gives at most n parts that join to the input, all but a last n-th free of the separator |
| RepoUrl.CacheKeysIdentify | internal/analyzer/analyzer.go:42-42 | cache keys are equal exactly when owner, repository and branch are, for slash-free owners and repositories without '@' |
| Naming.SanitizedNameShape | internal/controller/analysis_controller.go:216-230 | only [a-z0-9.-], at most 253 characters, no leading separator, empty exactly when nothing else remains |
| Naming.SanitisedCharacters | internal/controller/analysis_controller.go:216-223 | a name of at most 253 characters between two letters or digits is mapped character by character: letters to lower case, digits, dashes and dots to themselves, anything else to a dash, but for two characters whose lower case is a letter |
| Naming.IdempotentExactly | internal/controller/analysis_controller.go:224-229 | sanitising again changes nothing, and the name does not end on a separator, if and only if the cut did not end on one |
| Naming.LongNameEndsOnDash | internal/controller/analysis_controller.go:225-228 | a name of 254 characters whose cut falls on a dash ends on it, and changes when sanitised again |
| Naming.ObjectNameExactly | internal/controller/analysis_controller.go:215-230 | the result is a Kubernetes object name, with dot-separated parts that start and end on a letter or digit, if and only if something is left after trimming, the cut does not end on a separator, and no dot kept is next to another separator |
| Naming.DashBeforeDot | internal/controller/analysis_controller.go:218-223 | repository `my_.github` of owner `org` gives `psr-org-my-.github`, which is no object name |
| Naming.ThreeEqualTwo | internal/controller/analysis_controller.go:216-230 | three applications equal two, for every string |
| DeepCopy.CopyPolicySpec | api/v1alpha1/zz_generated.deepcopy.go:130-149 | the copy has equal contents, nil for nil and element for element; every slice, map and pointer in it is new and none is shared between elements |
| DeepCopy.CopyReportStatus | api/v1alpha1/zz_generated.deepcopy.go:177-192 | the copy has equal fields, and equal contents behind new slices |
| DeepCopy.CopySelector | api/v1alpha1/zz_generated.deepcopy.go:205-219 | the kinds are copied in order and the labels entry by entry behind new references |
| DeepCopy.CopyAction | api/v1alpha1/zz_generated.deepcopy.go:247-254 | the alert target is nil for nil, or equal behind a new pointer |
| DeepCopy.CopyOverride | api/v1alpha1/zz_generated.deepcopy.go:282-309 | scope and repositories are nil for nil, or equal behind new references |
| DeepCopy.OverwriteCopiedFindings | api/v1alpha1/zz_generated.deepcopy.go:187-191 | writing through every element of a copied slice leaves the original's contents |
| Model.FormatLosesLessThanASecond | internal/controller/policy_controller.go:320-331 | parsing a formatted instant gives its whole second, less than a second earlier |
| Model.UnstampedExactly | internal/controller/policy_controller.go:314-315 | a report counts as unstamped exactly when the annotation is missing or empty |

## Left out

- The GitHub client and the scanner's rules: a fetch yields any files or an error, a scan any findings or an error.
- Slack and webhook delivery, Kubernetes events, metrics registration and logging: side effects only. An alert succeeds or fails arbitrarily.
- The Tekton connector: policies never reach it; it appears only as a platform that serves no source kind.
- ArgoCD Discover and the connectors' ResolveWorkloads bodies: easy loops over listings; workloads are any list or an error.
- JSON and CRD marshalling, quoting of patch text and `url.Parse`: decoded documents and a decoded URL path are taken as given.
- RFC 3339 calendar arithmetic and `time.ParseDuration`: parse after format is the whole second; texts are given as what they parse to.
- Lower-casing beyond ASCII and U+0130 and U+212A, whose lower case is ASCII, and case folding beyond ASCII and U+017F and U+212A, which fold into it.
- Byte lengths: sanitizeName cuts bytes, but only after every character was mapped to ASCII.
- Informer cache lag and other writers of the operator's annotations and labels.
- Concurrent policy passes: with more than one worker a pass could act on a stale listing, and the grace-period theorem assumes passes one at a time.
- Deep copies of lists and object metadata: the same generated pattern around types of other repositories.
- The policy fields no code reads (`RuleOverrides`, `RequireSignedCommits`, `RequireBranchProtection`): only the deep copy knows them.
- Evaluation times as stored: their fraction of a second is kept here, and no property depends on it.
- Requeue delays as a scheduler: requests arrive in any order at any time.
- Main wiring, Helm charts, manifests and RBAC.
- Restoration.RestorationAbsorbsEnforcement: for calm passes, since a failed or foreign write in between can leave the store anywhere.
- GraceTimeliness.SuspensionIsTimely: the stamping pass has successful calls and nobody writes the report during it, as its Update would conflict and the next pass would stamp instead; every pass reads its policy and lists the reports, as it does nothing otherwise.
- Reports.ReportsCoincideExactly: names that are cut, or that end on a separator before trimming, can coincide in further ways, which are not characterised.
- AnalysisCache.Analyzer.Analyze: the lock is modelled by making each critical section one step.
