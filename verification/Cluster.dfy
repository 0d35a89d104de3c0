/** The cluster store behind the API server, the operator's shared memory and everything that may
    happen between two API calls. Every call first consumes a turn: the steps other parties take
    before the call is served, the time that passes, and how the call ends. A finite list of turns
    followed by undisturbed ones covers every interleaving of a run, since a run makes finitely many calls. */
module Cluster {
  import opened Wrappers
  import opened Json
  import opened Model
  import opened Compliance
  import opened Registry

  datatype Platform = ArgoCD | Flux | Tekton

  /** The object a connector patches: an ArgoCD Application or a Flux Kustomization. */
  datatype SourceId = SourceId(platform: Platform, ns: string, name: string)

  /** Done; refused without effect; or carried out although the caller only sees an error. */
  datatype Outcome = Done | Rejected | Lost

  /** One atomic step of somebody else. The first four are the served calls of the workers of the analysis
      and report controllers, which write the status of a copy they read some steps earlier; the policy
      controller runs one pass at a time. */
  datatype EnvStep =
    | CreatePristine(key: Key, labels: map<LabelKey, string>)
    | ReadReport(worker: nat, key: Key)
    | WriteAnalysis(worker: nat, key: Key, at: int, repository: string, branch: string, workloads: seq<WorkloadRef>, findings: seq<Finding>)
    | WriteRecomputed(worker: nat, key: Key)
    | DeleteReport(key: Key)
    | Discover(src: PipelineSource)
    | EditPolicy(policy: Key, spec: Option<PolicySpec>)
    | EditSource(id: SourceId, doc: Option<Json>)
    | EditWorkload(ref: WorkloadRef, doc: Option<Json>)

  datatype Turn = Turn(before: seq<EnvStep>, delay: nat, outcome: Outcome)

  const UNDISTURBED := Turn([], 0, Done)

  /** What an observer of the run sees. `Saved` carries the first-detected stamp of the stored report
      after an applied Update; `Restored` means that a restoration got past removing the annotations;
      `Suspended` and `Resumed` are logged when the patch is sent. */
  datatype Event =
    | Evaluated(key: Key, level: Level)
    | Stamped(key: Key, at: int)
    | Saved(key: Key, stamp: Option<Text>)
    | Restored(key: Key)
    | Deleted(key: Key)
    | Suspended(key: Key, id: SourceId, grace: Grace, at: int)
    | Resumed(key: Key, id: SourceId)
    | SourceEdited(id: SourceId)

  /** `copies` holds what the workers of the other controllers have read and not yet written. */
  datatype World = World(
    reports: map<Key, Report>,
    copies: map<nat, Report>,
    policies: map<Key, Policy>,
    sources: map<SourceId, Json>,
    workloads: map<WorkloadRef, Json>,
    registry: map<string, PipelineSource>,
    rev: nat,
    now: int,
    turns: seq<Turn>,
    log: seq<Event>)

  function Log(w: World, e: Event): World {
    w.(log := w.log + [e])
  }

  /** Every write gives the object a resource version nobody has seen. */
  function Store(w: World, r: Report): World {
    w.(reports := w.reports[r.key := r.(rv := w.rev + 1)], rev := w.rev + 1)
  }

  /** The status the analysis controller computes for its findings. */
  function AnalysisStatus(at: int, repository: string, branch: string, workloads: seq<WorkloadRef>, findings: seq<Finding>): Status {
    Status(Some(StateOf(Summarise(findings))), at, repository, branch, Summarise(findings), workloads, findings)
  }

  /** The status with the derived fields made to agree with the findings. */
  function Recomputed(s: Status): Status {
    s.(state := Some(StateOf(Summarise(s.findings))), summary := Summarise(s.findings))
  }

  function WithDoc<K, V>(m: map<K, V>, k: K, v: Option<V>): map<K, V> {
    if v.Some? then m[k := v.value] else m - {k}
  }

  predicate UpToDate(w: World, c: Report) {
    c.key in w.reports && w.reports[c.key].rv == c.rv
  }

  /** A status update that reaches the store: it needs the current resource version. */
  function ServeStatus(w: World, c: Report): World {
    if UpToDate(w, c) then Store(w, w.reports[c.key].(status := c.status)) else w
  }

  predicate Holds(w: World, worker: nat, key: Key) {
    worker in w.copies && w.copies[worker].key == key
  }

  function ApplyStep(w: World, s: EnvStep): World {
    match s
    case CreatePristine(key, labels) =>
      if key in w.reports then w else Store(w, Report(key, 0, labels, map[], PRISTINE))
    case ReadReport(worker, key) => w.(copies := if key in w.reports then w.copies[worker := w.reports[key]] else w.copies - {worker})
    case WriteAnalysis(worker, key, at, repository, branch, workloads, findings) =>
      if !Holds(w, worker, key) then w
      else ServeStatus(w, w.copies[worker].(status := AnalysisStatus(at, repository, branch, workloads, findings)))
    case WriteRecomputed(worker, key) =>
      if !Holds(w, worker, key) then w
      else ServeStatus(w, w.copies[worker].(status := Recomputed(w.copies[worker].status)))
    case DeleteReport(key) =>
      if key !in w.reports then w else Log(w.(reports := w.reports - {key}), Deleted(key))
    case Discover(src) => w.(registry := GuardedPut(w.registry, src))
    case EditPolicy(key, spec) =>
      w.(policies := WithDoc(w.policies, key, if spec.Some? then Some(Policy(w.rev + 1, spec.value, None)) else None), rev := w.rev + 1)
    case EditSource(id, doc) => Log(w.(sources := WithDoc(w.sources, id, doc)), SourceEdited(id))
    case EditWorkload(ref, doc) => w.(workloads := WithDoc(w.workloads, ref, doc))
  }

  function ApplySteps(w: World, ss: seq<EnvStep>): World
    decreases ss
  {
    if ss == [] then w else ApplySteps(ApplyStep(w, ss[0]), ss[1..])
  }

  function NextTurn(w: World): Turn {
    if w.turns == [] then UNDISTURBED else w.turns[0]
  }

  /** The world in which the next call is served, or the clock next read. */
  function Arrive(w: World): World {
    var t := NextTurn(w);
    ApplySteps(w.(now := w.now + t.delay, turns := if w.turns == [] then [] else w.turns[1..]), t.before)
  }

  /** How the next call ends. */
  function Ending(w: World): Outcome {
    NextTurn(w).outcome
  }

  datatype Got<+T> = Found(value: T) | NotFound | Failed

  function GetReport(w: World, key: Key): (World, Got<Report>) {
    var a := Arrive(w);
    (a, if !Ending(w).Done? then Failed else if key in a.reports then Found(a.reports[key]) else NotFound)
  }

  predicate InNamespace(key: Key, ns: string) {
    ns == "" || key.ns == ns
  }

  /** The reports of a namespace, each once, in the order the cache happens to enumerate them. */
  function Listing(reports: map<Key, Report>, ns: string, order: seq<Key>): seq<Report> {
    if order == [] then []
    else
      var rest := Listing(reports, ns, order[1..]);
      if order[0] in reports && InNamespace(order[0], ns) && order[0] !in order[1..] then [reports[order[0]]] + rest else rest
  }

  function ListReports(w: World, ns: string, order: seq<Key>): (World, Option<seq<Report>>) {
    var a := Arrive(w);
    (a, if Ending(w).Done? then Some(Listing(a.reports, ns, order)) else None)
  }

  /** Create drops the status. */
  function CreateReport(w: World, key: Key, labels: map<LabelKey, string>): (World, bool) {
    var a := Arrive(w);
    if Ending(w).Rejected? || key in a.reports then (a, false)
    else (Store(a, Report(key, 0, labels, map[], PRISTINE)), Ending(w).Done?)
  }

  /** Update of the main resource: needs the current resource version, ignores the status in the
      request, and answers with the stored object. */
  function UpdateReport(w: World, c: Report): (World, Option<Report>) {
    var a := Arrive(w);
    if Ending(w).Rejected? || !UpToDate(a, c) then (a, None)
    else
      var b := Store(a, a.reports[c.key].(labels := c.labels, annotations := c.annotations));
      (Log(b, Saved(c.key, StampOf(c.annotations))), if Ending(w).Done? then Some(b.reports[c.key]) else None)
  }

  /** Update of the status subresource: needs the current resource version and ignores the metadata. */
  function UpdateStatus(w: World, c: Report): (World, Option<Report>) {
    var a := Arrive(w);
    if Ending(w).Rejected? || !UpToDate(a, c) then (a, None)
    else
      var b := ServeStatus(a, c);
      (b, if Ending(w).Done? then Some(b.reports[c.key]) else None)
  }

  function GetPolicy(w: World, key: Key): (World, Got<Policy>) {
    var a := Arrive(w);
    (a, if !Ending(w).Done? then Failed else if key in a.policies then Found(a.policies[key]) else NotFound)
  }

  function UpdatePolicyStatus(w: World, key: Key, p: Policy): (World, bool) {
    var a := Arrive(w);
    if Ending(w).Rejected? || key !in a.policies || a.policies[key].rv != p.rv then (a, false)
    else (a.(policies := a.policies[key := a.policies[key].(rv := a.rev + 1, evaluated := p.evaluated)], rev := a.rev + 1), Ending(w).Done?)
  }

  /** A merge patch on an Application or Kustomization; it carries no resource version. */
  function PatchSource(w: World, id: SourceId, patch: Json): (World, bool) {
    var a := Arrive(w);
    if Ending(w).Rejected? || id !in a.sources then (a, false)
    else (a.(sources := a.sources[id := MergePatch(a.sources[id], patch)]), Ending(w).Done?)
  }

  function GetWorkload(w: World, ref: WorkloadRef): (World, Got<Json>) {
    var a := Arrive(w);
    (a, if !Ending(w).Done? then Failed else if ref in a.workloads then Found(a.workloads[ref]) else NotFound)
  }

  function PatchWorkload(w: World, ref: WorkloadRef, patch: Json): (World, bool) {
    var a := Arrive(w);
    if Ending(w).Rejected? || ref !in a.workloads then (a, false)
    else (a.(workloads := a.workloads[ref := MergePatch(a.workloads[ref], patch)]), Ending(w).Done?)
  }

  /** An update of either kind needs the version that is stored when it is served, and each leaves the part
      of the report that belongs to the other. */
  lemma UpdatesAreGuarded(w: World, c: Report)
    requires c.key in Arrive(w).reports ==> Arrive(w).reports[c.key].key == c.key
    ensures var a := Arrive(w);
            var u, s := UpdateReport(w, c).0, UpdateStatus(w, c).0;
            if c.key !in a.reports || a.reports[c.key].rv != c.rv || Ending(w) == Rejected
            then u == a && UpdateReport(w, c).1 == None && s == a && UpdateStatus(w, c).1 == None
            else u.reports == a.reports[c.key := a.reports[c.key].(rv := a.rev + 1, labels := c.labels, annotations := c.annotations)]
                 && s.reports == a.reports[c.key := a.reports[c.key].(rv := a.rev + 1, status := c.status)]
                 && (Ending(w) == Done ==> UpdateReport(w, c).1 == Some(u.reports[c.key]) && UpdateStatus(w, c).1 == Some(s.reports[c.key]))
  {}

  /** The status of a policy is written only over the version that the pass has read. */
  lemma PolicyStatusIsGuarded(w: World, key: Key, p: Policy)
    ensures var a := Arrive(w);
            var (w', ok) := UpdatePolicyStatus(w, key, p);
            (key !in a.policies || a.policies[key].rv != p.rv ==> w' == a && !ok)
            && (ok ==> key in w'.policies && w'.policies[key] == a.policies[key].(rv := a.rev + 1, evaluated := p.evaluated))
  {}
}
