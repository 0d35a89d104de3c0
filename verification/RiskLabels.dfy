/** The last-writer law: after a calm pass the risk label of every workload is decided by the last
    listed report that touches it. */
module RiskLabels {
  import opened Wrappers
  import opened Json
  import opened Model
  import opened Compliance
  import opened Cluster
  import opened Patches
  import opened Enforcement
  import opened GracePeriods
  import opened Calm
  import opened Restoration

  predicate Labels(actions: seq<Action>, level: Level) {
    exists a :: a in actions && a.kind == LabelWorkloads && TriggerMatches(a.trigger, level)
  }

  /** The report is selected, lists the workload, and is compliant or has a label action triggered. */
  predicate Touches(c: Report, spec: PolicySpec, ref: WorkloadRef) {
    var level := Evaluate(spec.thresholds, c.status);
    && SelectorMatches(spec.selector, c) && ref in c.status.workloads && Supported(ref)
    && (level == Compliant || Labels(spec.enforcement, level))
  }

  /** The level of the last listed report that touches the workload. */
  function LastTouch(listed: seq<Report>, spec: PolicySpec, ref: WorkloadRef): Option<Level> {
    if listed == [] then None
    else
      var c := listed[|listed| - 1];
      if Touches(c, spec, ref) then Some(Evaluate(spec.thresholds, c.status))
      else LastTouch(listed[..|listed| - 1], spec, ref)
  }

  function Decided(touch: Option<Level>, before: Option<Json>): Option<Json> {
    match touch
    case None => before
    case Some(Compliant) => None
    case Some(l) => Some(Str(LowerName(l)))
  }

  lemma {:induction false} ActionsLabel(w: World, c: Report, actions: seq<Action>, level: Level, connectors: seq<Platform>)
    requires IsCalm(w) && Current(w, c)
    ensures ExecuteActions(w, c, actions, level, connectors).0.workloads ==
            if Labels(actions, level) then Relabelled(w.workloads, c.status.workloads, RiskPatch(LowerName(level))) else w.workloads
    decreases actions
  {
    if actions != [] {
      var patch := RiskPatch(LowerName(level));
      assert Labels(actions, level) <==>
             (actions[0].kind == LabelWorkloads && TriggerMatches(actions[0].trigger, level)) || Labels(actions[1..], level) by {
        assert actions == [actions[0]] + actions[1..];
      }
      if TriggerMatches(actions[0].trigger, level) {
        var (w1, c1, _) := Execute(w, c, actions[0], level, connectors);
        ExecuteEnforces(w, c, actions[0], level, connectors);
        ActionWorkloads(w, c, actions[0], level, connectors);
        ActionsLabel(w1, c1, actions[1..], level, connectors);
        RelabelledTwice(w.workloads, c.status.workloads, patch);
      } else {
        ActionsLabel(w, c, actions[1..], level, connectors);
      }
    }
  }

  lemma ActionWorkloads(w: World, c: Report, action: Action, level: Level, connectors: seq<Platform>)
    requires IsCalm(w) && Current(w, c)
    ensures Execute(w, c, action, level, connectors).0.workloads ==
            if action.kind == LabelWorkloads then Relabelled(w.workloads, c.status.workloads, RiskPatch(LowerName(level))) else w.workloads
  {
    match action.kind
    case Annotate => CalmAnnotate(w, c);
    case Alert => CalmWait(w, c.key);
    case SuspendSync => CalmSuspendSync(w, c, action.grace, connectors);
    case LabelWorkloads => CalmLabelWorkloads(w, c.key, c.status.workloads, LowerName(level));
    case OtherAction(_) =>
  }

  lemma RelabelledTwice(ws: map<WorkloadRef, Json>, refs: seq<WorkloadRef>, patch: Json)
    ensures Relabelled(Relabelled(ws, refs, patch), refs, patch) == Relabelled(ws, refs, patch)
  {
    forall r | r in ws { PatchIdempotent(ws[r], patch); }
  }

  /** The workloads after one report was handled. */
  function Handled(ws: map<WorkloadRef, Json>, c: Report, spec: PolicySpec): map<WorkloadRef, Json> {
    var level := Evaluate(spec.thresholds, c.status);
    if !SelectorMatches(spec.selector, c) then ws
    else if level == Compliant then Relabelled(ws, c.status.workloads, UnlabelPatch())
    else if Labels(spec.enforcement, level) then Relabelled(ws, c.status.workloads, RiskPatch(LowerName(level)))
    else ws
  }

  lemma EnforcementWorks(w: World, c: Report, actions: seq<Action>, level: Level, connectors: seq<Platform>)
    requires IsCalm(w) && Current(w, c)
    ensures var w' := ExecuteEnforcement(w, c, actions, level, connectors).0;
            WorksOn(w, w', c.key)
            && w'.workloads == if level == Compliant then Relabelled(w.workloads, c.status.workloads, UnlabelPatch())
                               else if Labels(actions, level) then Relabelled(w.workloads, c.status.workloads, RiskPatch(LowerName(level)))
                               else w.workloads
  {
    if level == Compliant {
      CalmRestore(w, c, connectors);
    } else {
      ActionsEnforce(w, c, actions, level, connectors);
      ActionsLabel(w, c, actions, level, connectors);
    }
  }

  lemma HandleReportWorks(w: World, c: Report, spec: PolicySpec, connectors: seq<Platform>)
    requires IsCalm(w) && Current(w, c)
    ensures var w' := HandleReport(w, c, spec, connectors);
            WorksOn(w, w', c.key) && w'.workloads == Handled(w.workloads, c, spec)
  {
    if SelectorMatches(spec.selector, c) {
      var level := Evaluate(spec.thresholds, c.status);
      var w1 := Log(w, Evaluated(c.key, level));
      CalmLog(w, c.key, Evaluated(c.key, level));
      EnforcementWorks(w1, c, spec.enforcement, level, connectors);
      WorksTransitive(w, w1, HandleReport(w, c, spec, connectors), c.key);
    }
  }

  /** One report's effect on one workload's label. */
  lemma HandledLabel(ws: map<WorkloadRef, Json>, c: Report, spec: PolicySpec, ref: WorkloadRef)
    requires ref in ws
    ensures RiskLabel(Handled(ws, c, spec)[ref]) ==
            Decided(if Touches(c, spec, ref) then Some(Evaluate(spec.thresholds, c.status)) else None, RiskLabel(ws[ref]))
  {
    RiskLabelAfter(ws[ref], LowerName(Evaluate(spec.thresholds, c.status)));
  }

  ghost predicate AllCurrent(w: World, listed: seq<Report>) {
    && (forall i :: 0 <= i < |listed| ==> Current(w, listed[i]))
    && (forall i, j :: 0 <= i < j < |listed| ==> listed[i].key != listed[j].key)
  }

  lemma ListedAreCurrent(w: World, ns: string, order: seq<Key>)
    requires Keyed(w)
    ensures AllCurrent(w, Listing(w.reports, ns, order))
  {
    var listed := Listing(w.reports, ns, order);
    ListingIsFaithful(w, ns, order);
    forall i | 0 <= i < |listed| ensures Current(w, listed[i]) { assert listed[i] in listed; }
  }

  lemma {:induction false} LastTouchOfCons(c: Report, rest: seq<Report>, spec: PolicySpec, ref: WorkloadRef)
    ensures LastTouch([c] + rest, spec, ref) ==
            if LastTouch(rest, spec, ref).Some? then LastTouch(rest, spec, ref)
            else if Touches(c, spec, ref) then Some(Evaluate(spec.thresholds, c.status)) else None
    decreases |rest|
  {
    var all := [c] + rest;
    if rest == [] {
      assert all[..0] == [];
    } else {
      assert all[..|all| - 1] == [c] + rest[..|rest| - 1];
      LastTouchOfCons(c, rest[..|rest| - 1], spec, ref);
    }
  }

  lemma {:induction false} HandleReportsLabels(w: World, listed: seq<Report>, spec: PolicySpec, connectors: seq<Platform>, ref: WorkloadRef)
    requires IsCalm(w) && AllCurrent(w, listed) && ref in w.workloads
    ensures var w' := HandleReports(w, listed, spec, connectors);
            IsCalm(w') && ref in w'.workloads
            && RiskLabel(w'.workloads[ref]) == Decided(LastTouch(listed, spec, ref), RiskLabel(w.workloads[ref]))
    decreases listed
  {
    if listed != [] {
      var w1 := HandleReport(w, listed[0], spec, connectors);
      HandleReportWorks(w, listed[0], spec, connectors);
      HandledLabel(w.workloads, listed[0], spec, ref);
      forall i | 0 <= i < |listed[1..]| ensures Current(w1, listed[1..][i]) {
        assert Current(w, listed[i + 1]);
      }
      HandleReportsLabels(w1, listed[1..], spec, connectors, ref);
      LastTouchOfCons(listed[0], listed[1..], spec, ref);
      assert [listed[0]] + listed[1..] == listed;
    }
  }

  /** The two reads with which a calm pass over an existing policy starts. */
  lemma CalmPassStarts(w: World, req: Request)
    requires IsCalm(w) && Keyed(w) && req.policy in w.policies
    ensures var w2 := Arrive(Arrive(w));
            var listed := Listing(w.reports, req.policy.ns, req.order);
            GetPolicy(w, req.policy) == (Arrive(w), Found(w.policies[req.policy]))
            && ListReports(Arrive(w), req.policy.ns, req.order) == (w2, Some(listed))
            && IsCalm(w2) && AllCurrent(w2, listed) && w2.policies == w.policies && w2.workloads == w.workloads
  {
    CalmArrive(w);
    CalmArrive(Arrive(w));
    ListedAreCurrent(Arrive(Arrive(w)), req.policy.ns, req.order);
  }

  /** The last-writer law for a whole policy pass. */
  lemma LastWriterDecidesRiskLabel(w: World, req: Request, connectors: seq<Platform>, ref: WorkloadRef)
    requires IsCalm(w) && req.policy in w.policies && ref in w.workloads
    requires Keyed(w)
    ensures var w' := PolicyPass(w, req, connectors);
            var listed := Listing(w.reports, req.policy.ns, req.order);
            ref in w'.workloads
            && RiskLabel(w'.workloads[ref]) == Decided(LastTouch(listed, w.policies[req.policy].spec, ref), RiskLabel(w.workloads[ref]))
  {
    var w2 := Arrive(Arrive(w));
    var spec := w.policies[req.policy].spec;
    var listed := Listing(w.reports, req.policy.ns, req.order);
    CalmPassStarts(w, req);
    HandleReportsLabels(w2, listed, spec, connectors, ref);
    CalmArrive(HandleReports(w2, listed, spec, connectors));
  }

  const RISK_LABEL := ["metadata", "labels", "fluxgate.north-echo.dev/pipeline-risk"]

  /** The levels at which a trigger fires, and the text the workloads then bear. */
  function FiringText(trigger: Level, level: Level): Option<string> {
    match (trigger, level)
    case (Warning, Warning) => Some("warning")
    case (Warning, NonCompliant) => Some("noncompliant")
    case (NonCompliant, NonCompliant) => Some("noncompliant")
    case (Warning, Critical) => Some("critical")
    case (NonCompliant, Critical) => Some("critical")
    case (Critical, Critical) => Some("critical")
    case _ => None
  }

  function Fired(trigger: Option<Level>, level: Level): Option<string> {
    if trigger.Some? then FiringText(trigger.value, level) else None
  }

  lemma FiringIsMatching(trigger: Option<Level>, level: Level)
    ensures TriggerMatches(trigger, level) <==> Fired(trigger, level).Some?
    ensures Fired(trigger, level).Some? ==> Fired(trigger, level).value == LowerName(level)
  {
    match level
    case Compliant =>
    case Warning =>
    case NonCompliant =>
    case Critical =>
  }

  lemma OneAction(action: Action, level: Level)
    requires action.kind == LabelWorkloads
    ensures Labels([action], level) <==> TriggerMatches(action.trigger, level)
  {
    assert action in [action];
  }

  /** A Deployment or StatefulSet that the report lists. */
  predicate Labelled(c: Report, ref: WorkloadRef) {
    ref in c.status.workloads && (ref.kind == "Deployment" || ref.kind == "StatefulSet")
  }

  /** Which trigger fires at which level, seen on the workloads: with one label action, each listed Deployment
      and StatefulSet bears the level as its risk label if the trigger fires, and keeps its document if not;
      a trigger that names no level, or Compliant, fires at none. */
  lemma TriggerFiresExactly(w: World, c: Report, action: Action, level: Level, connectors: seq<Platform>, ref: WorkloadRef)
    requires IsCalm(w) && Current(w, c) && action.kind == LabelWorkloads && ref in w.workloads
    ensures var w' := ExecuteActions(w, c, [action], level, connectors).0;
            var fired := Fired(action.trigger, level);
            ref in w'.workloads
            && (fired.Some? && Labelled(c, ref) ==> Lookup(w'.workloads[ref], RISK_LABEL) == Some(Str(fired.value)))
            && (fired.None? || !Labelled(c, ref) ==> w'.workloads[ref] == w.workloads[ref])
  {
    FiringIsMatching(action.trigger, level);
    OneAction(action, level);
    ActionsLabel(w, c, [action], level, connectors);
    LabelPatchesWrite(w.workloads[ref], LowerName(level));
  }

  /** What a calm restoration leaves of the risk labels. */
  lemma RestorationUnlabels(w: World, c: Report, connectors: seq<Platform>, ref: WorkloadRef)
    requires IsCalm(w) && Current(w, c) && ref in w.workloads
    ensures var w' := RestoreCompliance(w, c, connectors).0;
            ref in w'.workloads
            && (if Labelled(c, ref) then Lookup(w'.workloads[ref], RISK_LABEL) == None else w'.workloads[ref] == w.workloads[ref])
  {
    CalmRestore(w, c, connectors);
    LabelPatchesWrite(w.workloads[ref], "");
  }

  lemma {:induction false} HandleReportsWorks(w: World, listed: seq<Report>, spec: PolicySpec, connectors: seq<Platform>)
    requires IsCalm(w) && AllCurrent(w, listed)
    ensures var w' := HandleReports(w, listed, spec, connectors); IsCalm(w') && w'.policies == w.policies
    decreases listed
  {
    if listed != [] {
      var w1 := HandleReport(w, listed[0], spec, connectors);
      HandleReportWorks(w, listed[0], spec, connectors);
      forall i | 0 <= i < |listed[1..]| ensures Current(w1, listed[1..][i]) {
        assert Current(w, listed[i + 1]);
      }
      HandleReportsWorks(w1, listed[1..], spec, connectors);
    }
  }

  /** A calm pass over an existing policy ends well, whatever its actions run into: it requeues after the
      policy's interval, or five minutes for none. */
  lemma CalmPassRequeues(w: World, req: Request, connectors: seq<Platform>)
    requires IsCalm(w) && Keyed(w) && req.policy in w.policies
    ensures var interval := w.policies[req.policy].spec.interval;
            PassResult(w, req, connectors) == RequeueAfter(if interval == 0 then 300_000_000_000 else interval)
  {
    var w2 := Arrive(Arrive(w));
    var spec := w.policies[req.policy].spec;
    var listed := Listing(w.reports, req.policy.ns, req.order);
    CalmPassStarts(w, req);
    HandleReportsWorks(w2, listed, spec, connectors);
    CalmArrive(HandleReports(w2, listed, spec, connectors));
  }
}
