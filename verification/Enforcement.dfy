/** What one pass of the policy controller does, as functions from world to world. The in-memory copy
    of a report is threaded along with the world: annotations change in the copy before the Update that
    may or may not store them. */
module Enforcement {
  import opened Wrappers
  import opened Strings
  import opened Json
  import opened Model
  import opened Compliance
  import opened Cluster
  import opened Patches

  predicate Serves(kind: string, p: Platform) {
    (kind == APPLICATION && p.ArgoCD?) || ((kind == KUSTOMIZATION || kind == GIT_REPOSITORY) && p.Flux?)
  }

  /** The first connector that serves a source kind. */
  function FindConnector(connectors: seq<Platform>, kind: string): Option<Platform> {
    if connectors == [] then None
    else if Serves(kind, connectors[0]) then Some(connectors[0])
    else FindConnector(connectors[1..], kind)
  }

  lemma ServesExactly(kind: string, p: Platform)
    ensures Serves(kind, p) <==> (kind == "Application" && p == ArgoCD) || (kind == "Kustomization" && p == Flux) || (kind == "GitRepository" && p == Flux)
  {}

  /** A kind is served by one platform at most, so the order of the connectors does not matter. */
  lemma {:induction false} ConnectorIsDetermined(connectors: seq<Platform>, kind: string, p: Platform)
    ensures FindConnector(connectors, kind) == Some(p) <==> p in connectors && Serves(kind, p)
    ensures FindConnector(connectors, kind) == Some(p) ==> (p == ArgoCD && kind == "Application") || (p == Flux && kind in ["Kustomization", "GitRepository"])
    decreases connectors
  {
    ServesExactly(kind, p);
    if connectors != [] {
      ConnectorIsDetermined(connectors[1..], kind, p);
      assert connectors == [connectors[0]] + connectors[1..];
    }
  }

  /** The object that a report's source labels lead to through the registry. */
  function Target(registry: map<string, PipelineSource>, connectors: seq<Platform>, labels: map<LabelKey, string>): Option<SourceId> {
    var name, kind := LabelOf(labels, SourceName), LabelOf(labels, SourceKind);
    if name == "" || kind == "" || name !in registry then None
    else
      var conn := FindConnector(connectors, kind);
      if conn.None? then None
      else Some(SourceId(conn.value, registry[name].namespace, registry[name].sourceName))
  }

  predicate SelectorMatches(sel: Selector, r: Report) {
    && (sel.cicdKinds == [] || exists kind :: kind in sel.cicdKinds && EqualFold(kind, LabelOf(r.labels, SourceKind)))
    && forall k :: k in sel.matchLabels ==> LabelOf(r.labels, k) == sel.matchLabels[k]
  }

  function SummaryText(s: Summary): string {
    Decimal(s.critical) + " critical, " + Decimal(s.high) + " high, " + Decimal(s.medium) + " medium"
  }

  function StateText(state: Option<Level>): string {
    match state
    case None => ""
    case Some(Compliant) => "Compliant"
    case Some(Warning) => "Warning"
    case Some(NonCompliant) => "NonCompliant"
    case Some(Critical) => "Critical"
  }

  /** The summary text, with the part after each number set apart. */
  lemma SummaryTextNested(s: Summary)
    ensures SummaryText(s) == Decimal(s.critical) + " " + ("critical, " + (Decimal(s.high) + " " + ("high, " + (Decimal(s.medium) + " " + "medium"))))
  {
    var c, h, m := Decimal(s.critical), Decimal(s.high), Decimal(s.medium);
    assert c + " critical, " + h + " high, " + m + " medium" == c + " " + ("critical, " + (h + " " + ("high, " + (m + " " + "medium"))));
  }

  /** Which number stands before which word. */
  lemma SummaryTextExample(low: int, info: int, total: int)
    ensures SummaryText(Summary(1, 2, 3, low, info, total)) == "1 critical, 2 high, 3 medium"
  {
    assert Decimal(1) == "1" && Decimal(2) == "2" && Decimal(3) == "3";
    assert "1" + " critical, " + "2" + " high, " + "3" + " medium" == "1 critical, 2 high, 3 medium";
  }

  lemma SameNumberAndRest(a: int, rest: string, b: int, rest': string, prefix: string)
    requires Decimal(a) + " " + (prefix + rest) == Decimal(b) + " " + (prefix + rest')
    ensures a == b && rest == rest'
  {
    DecimalRoundTrip(a);
    DecimalRoundTrip(b);
    SplitUnique(Decimal(a), prefix + rest, Decimal(b), prefix + rest', ' ');
    assert (prefix + rest)[|prefix|..] == rest && (prefix + rest')[|prefix|..] == rest';
  }

  /** The finding-summary annotation tells the three counts apart. */
  lemma SummaryTextIdentifies(s: Summary, t: Summary)
    ensures SummaryText(s) == SummaryText(t) <==> s.critical == t.critical && s.high == t.high && s.medium == t.medium
  {
    if SummaryText(s) == SummaryText(t) {
      SummaryTextNested(s);
      SummaryTextNested(t);
      var sm, tm := Decimal(s.medium) + " " + "medium", Decimal(t.medium) + " " + "medium";
      var sh, th := Decimal(s.high) + " " + ("high, " + sm), Decimal(t.high) + " " + ("high, " + tm);
      SameNumberAndRest(s.critical, sh, t.critical, th, "critical, ");
      SameNumberAndRest(s.high, sm, t.high, tm, "high, ");
      assert "medium" + "" == "medium";
      SameNumberAndRest(s.medium, "", t.medium, "", "medium");
    }
  }

  /** The risk label is the level's own name in lower case. */
  lemma RiskIsLowerCaseLevel(l: Level)
    ensures LowerName(l) == Lower(StateText(Some(l)))
    ensures StateText(Some(l)) == match l case Compliant => "Compliant" case Warning => "Warning" case NonCompliant => "NonCompliant" case Critical => "Critical"
  {
    match l
    case Compliant => assert Lower("Compliant") == "compliant";
    case Warning => assert Lower("Warning") == "warning";
    case NonCompliant => assert Lower("NonCompliant") == "noncompliant";
    case Critical => assert Lower("Critical") == "critical";
  }

  function Annotated(c: Report): Report {
    c.(annotations := c.annotations[ComplianceState := Raw(StateText(c.status.state))]
                                   [FindingSummary := Raw(SummaryText(c.status.summary))])
  }

  /** Update, keeping the local copy when the call fails. */
  function SaveCopy(w: World, c: Report): (World, Report, bool) {
    var (w1, stored) := UpdateReport(w, c);
    (w1, if stored.Some? then stored.value else c, stored.Some?)
  }

  function ExecuteAnnotate(w: World, c: Report): (World, Report, bool) {
    SaveCopy(w, Annotated(c))
  }

  /** Only sending reaches the outside, and it changes nothing in the cluster. */
  function ExecuteAlert(w: World, target: Option<AlertTarget>): (World, bool) {
    if target.None? || !(target.value.kind == "slack" || target.value.kind == "webhook") || target.value.url == "" then (w, false)
    else (Arrive(w), Ending(w).Done?)
  }

  function Stamp(c: Report, at: int): Report {
    c.(annotations := c.annotations[FirstDetected := FormatTime(at)])
  }

  function SendSuspend(w: World, c: Report, grace: Grace, connectors: seq<Platform>): (World, bool) {
    var target := Target(w.registry, connectors, c.labels);
    if target.None? then (w, false)
    else PatchSource(Log(w, Suspended(c.key, target.value, grace, w.now)), target.value, SuspendPatch(target.value.platform))
  }

  /** Past the grace period, or without one, send the suspension; otherwise start or await it. */
  function ExecuteSuspendSync(w: World, c: Report, grace: Grace, connectors: seq<Platform>): (World, Report, bool) {
    match grace
    case Malformed => (w, c, false)
    case NoGrace => var (w1, ok) := SendSuspend(w, c, grace, connectors); (w1, c, ok)
    case Period(g) =>
      match StampOf(c.annotations)
      case None =>
        var a := Arrive(w);
        SaveCopy(Log(a, Stamped(c.key, a.now)), Stamp(c, a.now))
      case Some(text) =>
        match ParseTime(text)
        case None => (w, c, false)
        case Some(detected) =>
          var a := Arrive(w);
          if a.now - detected < g then (a, c, true)
          else var (w1, ok) := SendSuspend(a, c, grace, connectors); (w1, c, ok)
  }

  function PatchLabel(w: World, ref: WorkloadRef, patch: Json): (World, Got<bool>) {
    var (w1, got) := GetWorkload(w, ref);
    match got
    case Found(_) => var (w2, ok) := PatchWorkload(w1, ref, patch); (w2, Found(ok))
    case NotFound => (w1, NotFound)
    case Failed => (w1, Failed)
  }

  /** A workload that is missing or cannot be read is not patched; otherwise the patch changes that one
      workload if it is carried out and nothing if not, and success means that it was. */
  lemma PatchLabelPatchesOne(w: World, ref: WorkloadRef, patch: Json)
    ensures var (w', got) := PatchLabel(w, ref, patch);
            var a := Arrive(w);
            var b := Arrive(a);
            (got == Failed <==> Ending(w) != Done)
            && (got == NotFound <==> Ending(w) == Done && ref !in a.workloads)
            && (!got.Found? ==> w' == a)
            && (got.Found? ==> w' == b || (ref in b.workloads && w' == b.(workloads := b.workloads[ref := MergePatch(b.workloads[ref], patch)])))
            && (got == Found(true) ==> ref in b.workloads && w'.workloads[ref] == MergePatch(b.workloads[ref], patch))
  {}

  /** A failure is only written to the operator's own log. */
  function LabelWorkload(w: World, ref: WorkloadRef, risk: string): World {
    if Supported(ref) then PatchLabel(w, ref, RiskPatch(risk)).0 else w
  }

  function UnlabelWorkload(w: World, ref: WorkloadRef): World {
    if Supported(ref) then PatchLabel(w, ref, UnlabelPatch()).0 else w
  }

  function ExecuteLabelWorkloads(w: World, refs: seq<WorkloadRef>, risk: string): World
    decreases refs
  {
    if refs == [] then w else ExecuteLabelWorkloads(LabelWorkload(w, refs[0], risk), refs[1..], risk)
  }

  function UnlabelWorkloads(w: World, refs: seq<WorkloadRef>): World
    decreases refs
  {
    if refs == [] then w else UnlabelWorkloads(UnlabelWorkload(w, refs[0]), refs[1..])
  }

  /** Whatever became of the workloads before it, the next one is labelled or unlabelled in its turn. */
  lemma {:induction false} LabellingGoesOn(w: World, refs: seq<WorkloadRef>, ref: WorkloadRef, risk: string)
    ensures ExecuteLabelWorkloads(w, refs + [ref], risk) == LabelWorkload(ExecuteLabelWorkloads(w, refs, risk), ref, risk)
    ensures UnlabelWorkloads(w, refs + [ref]) == UnlabelWorkload(UnlabelWorkloads(w, refs), ref)
    decreases refs
  {
    if refs == [] {
      assert (refs + [ref])[1..] == [];
    } else {
      assert (refs + [ref])[1..] == refs[1..] + [ref];
      LabellingGoesOn(LabelWorkload(w, refs[0], risk), refs[1..], ref, risk);
      LabellingGoesOn(UnlabelWorkload(w, refs[0]), refs[1..], ref, risk);
    }
  }

  const ENFORCEMENT_KEYS: set<AnnotationKey> := {ComplianceState, FindingSummary, FirstDetected}

  function Cleared(c: Report): Report {
    c.(annotations := c.annotations - ENFORCEMENT_KEYS)
  }

  function SendResume(w: World, c: Report, connectors: seq<Platform>): World {
    var target := Target(w.registry, connectors, c.labels);
    if target.None? then w
    else PatchSource(Log(w, Resumed(c.key, target.value)), target.value, ResumePatch(target.value.platform)).0
  }

  /** Undo every action; a failed removal of the annotations stops the restoration. */
  function RestoreCompliance(w: World, c: Report, connectors: seq<Platform>): (World, Report, bool) {
    var (w1, c1, ok) := if c.annotations.Keys !! ENFORCEMENT_KEYS then (w, c, true) else SaveCopy(w, Cleared(c));
    if !ok then (w1, c1, false)
    else (UnlabelWorkloads(SendResume(Log(w1, Restored(c1.key)), c1, connectors), c1.status.workloads), c1, true)
  }

  function Execute(w: World, c: Report, action: Action, level: Level, connectors: seq<Platform>): (World, Report, bool) {
    match action.kind
    case Annotate => ExecuteAnnotate(w, c)
    case Alert => var (w1, ok) := ExecuteAlert(w, action.alertTarget); (w1, c, ok)
    case SuspendSync => ExecuteSuspendSync(w, c, action.grace, connectors)
    case LabelWorkloads => (ExecuteLabelWorkloads(w, c.status.workloads, LowerName(level)), c, true)
    case OtherAction(_) => (w, c, true)
  }

  /** The triggered actions in order; a failed one does not stop the next. */
  function ExecuteActions(w: World, c: Report, actions: seq<Action>, level: Level, connectors: seq<Platform>): (World, Report)
    decreases actions
  {
    if actions == [] then (w, c)
    else if !TriggerMatches(actions[0].trigger, level) then ExecuteActions(w, c, actions[1..], level, connectors)
    else
      var (w1, c1, _) := Execute(w, c, actions[0], level, connectors);
      ExecuteActions(w1, c1, actions[1..], level, connectors)
  }

  /** What runs is exactly the triggered actions, in their order. */
  lemma {:induction false} TriggeredAreExecuted(w: World, c: Report, actions: seq<Action>, level: Level, connectors: seq<Platform>)
    ensures ExecuteActions(w, c, actions, level, connectors) == ExecuteActions(w, c, Triggered(actions, level), level, connectors)
    decreases actions
  {
    if actions != [] {
      var rest := Triggered(actions[1..], level);
      if TriggerMatches(actions[0].trigger, level) {
        var (w1, c1, _) := Execute(w, c, actions[0], level, connectors);
        TriggeredAreExecuted(w1, c1, actions[1..], level, connectors);
        assert ([actions[0]] + rest)[1..] == rest;
      } else {
        TriggeredAreExecuted(w, c, actions[1..], level, connectors);
        assert [] + rest == rest;
      }
    }
  }

  /** Enforcement is monotone end to end: with more findings or tighter thresholds the level is not lower,
      and what runs at the lower level is a subsequence of what runs at the higher one. */
  lemma ExecutionIsMonotone(t: Thresholds, s: Status, t': Thresholds, s': Status, actions: seq<Action>, connectors: seq<Platform>)
    requires Consistent(s) && Consistent(s')
    requires multiset(s.findings) <= multiset(s'.findings) && Tighter(t', t)
    ensures var l, l' := Evaluate(t, s), Evaluate(t', s');
            var run, run' := Triggered(actions, l), Triggered(actions, l');
            Rank(l) <= Rank(l') && Subsequence(run, run')
            && (forall w, c :: ExecuteActions(w, c, actions, l, connectors) == ExecuteActions(w, c, run, l, connectors))
            && (forall w, c :: ExecuteActions(w, c, actions, l', connectors) == ExecuteActions(w, c, run', l', connectors))
  {
    EnforcementMonotone(t, s, t', s', actions);
    forall w, c, l ensures ExecuteActions(w, c, actions, l, connectors) == ExecuteActions(w, c, Triggered(actions, l), l, connectors) {
      TriggeredAreExecuted(w, c, actions, l, connectors);
    }
  }

  function ExecuteEnforcement(w: World, c: Report, actions: seq<Action>, level: Level, connectors: seq<Platform>): (World, Report) {
    if level == Compliant then var (w1, c1, _) := RestoreCompliance(w, c, connectors); (w1, c1)
    else ExecuteActions(w, c, actions, level, connectors)
  }

  /** One listed report: skipped, or evaluated and enforced. */
  function HandleReport(w: World, c: Report, spec: PolicySpec, connectors: seq<Platform>): World {
    if !SelectorMatches(spec.selector, c) then w
    else
      var level := Evaluate(spec.thresholds, c.status);
      ExecuteEnforcement(Log(w, Evaluated(c.key, level)), c, spec.enforcement, level, connectors).0
  }

  function HandleReports(w: World, listed: seq<Report>, spec: PolicySpec, connectors: seq<Platform>): World
    decreases listed
  {
    if listed == [] then w else HandleReports(HandleReport(w, listed[0], spec, connectors), listed[1..], spec, connectors)
  }

  /** A reconcile request, with the order in which the cache will enumerate the reports. */
  datatype Request = Request(policy: Key, order: seq<Key>)

  function PolicyPass(w: World, req: Request, connectors: seq<Platform>): World {
    var (w1, policy) := GetPolicy(w, req.policy);
    if !policy.Found? then w1
    else
      var (w2, listed) := ListReports(w1, req.policy.ns, req.order);
      if listed.None? then w2
      else
        var w3 := HandleReports(w2, listed.value, policy.value.spec, connectors);
        UpdatePolicyStatus(w3, req.policy, policy.value.(evaluated := Some(|listed.value|))).0
  }

  /** What Reconcile returns: requeue after a delay, end without one (the policy is gone), or an error. */
  datatype Result = RequeueAfter(ns: int) | Ended | Error

  const FIVE_MINUTES := 300 * SECOND

  function RequeueDelay(spec: PolicySpec): int {
    if spec.interval == 0 then FIVE_MINUTES else spec.interval
  }

  function PassResult(w: World, req: Request, connectors: seq<Platform>): Result {
    var (w1, policy) := GetPolicy(w, req.policy);
    match policy
    case NotFound => Ended
    case Failed => Error
    case Found(p) =>
      var (w2, listed) := ListReports(w1, req.policy.ns, req.order);
      if listed.None? then Error
      else
        var w3 := HandleReports(w2, listed.value, p.spec, connectors);
        if UpdatePolicyStatus(w3, req.policy, p.(evaluated := Some(|listed.value|))).1 then RequeueAfter(RequeueDelay(p.spec)) else Error
  }

  /** A pass ends without error or requeue only for a policy that is gone. When it requeues, the stored
      policy says how many reports were listed, and the delay is the interval of the policy it read. */
  lemma RequeueMeansActive(w: World, req: Request, connectors: seq<Platform>)
    ensures var r, w' := PassResult(w, req, connectors), PolicyPass(w, req, connectors);
            (r == Ended <==> GetPolicy(w, req.policy).1 == NotFound)
            && (r.RequeueAfter? ==>
                  var a := Arrive(w);
                  req.policy in a.policies && req.policy in w'.policies
                  && (a.policies[req.policy].spec.interval == 0 ==> r.ns == 300_000_000_000)
                  && (a.policies[req.policy].spec.interval != 0 ==> r.ns == a.policies[req.policy].spec.interval)
                  && w'.policies[req.policy].evaluated == Some(|Listing(Arrive(a).reports, req.policy.ns, req.order)|))
  {}

  function RunPasses(w: World, reqs: seq<Request>, connectors: seq<Platform>): World
    decreases reqs
  {
    if reqs == [] then w else RunPasses(PolicyPass(w, reqs[0], connectors), reqs[1..], connectors)
  }
}
