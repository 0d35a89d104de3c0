/** The policy controller as it runs: reports are objects in memory whose annotation map is changed in
    place before the Update, and every method is proved to do what the functions of Enforcement say. */
module PolicyController {
  import opened Wrappers
  import opened Strings
  import opened Json
  import opened Model
  import opened Compliance
  import opened Cluster
  import opened Patches
  import opened Client
  import E = Enforcement

  class Controller {
    const client: ApiClient
    const connectors: seq<Platform>

    constructor (client: ApiClient, connectors: seq<Platform>)
      ensures this.client == client && this.connectors == connectors
    {
      this.client, this.connectors := client, connectors;
    }

    method SelectorMatches(sel: Selector, r: ReportObject) returns (ok: bool)
      ensures ok ==> sel.cicdKinds == [] || exists i :: 0 <= i < |sel.cicdKinds| && EqualFold(sel.cicdKinds[i], LabelOf(r.labels, SourceKind))
      ensures ok ==> forall k :: k in sel.matchLabels ==> (if k in r.labels then r.labels[k] else "") == sel.matchLabels[k]
      ensures !ok ==>
                || (sel.cicdKinds != [] && forall i :: 0 <= i < |sel.cicdKinds| ==> !EqualFold(sel.cicdKinds[i], LabelOf(r.labels, SourceKind)))
                || exists k :: k in sel.matchLabels && (if k in r.labels then r.labels[k] else "") != sel.matchLabels[k]
    {
      if |sel.cicdKinds| > 0 {
        var sourceKind := LabelOf(r.labels, SourceKind);
        var matched := false;
        for i := 0 to |sel.cicdKinds|
          invariant !matched && forall k :: 0 <= k < i ==> !EqualFold(sel.cicdKinds[k], sourceKind)
        {
          if EqualFold(sel.cicdKinds[i], sourceKind) {
            matched := true;
            break;
          }
        }
        if !matched { return false; }
      }
      var left := sel.matchLabels.Keys;
      while left != {}
        invariant left <= sel.matchLabels.Keys
        invariant forall k :: k in sel.matchLabels && k !in left ==> LabelOf(r.labels, k) == sel.matchLabels[k]
        decreases |left|
      {
        var k :| k in left;
        if LabelOf(r.labels, k) != sel.matchLabels[k] { return false; }
        left := left - {k};
      }
      return true;
    }

    method EvaluateThresholds(t: Thresholds, r: ReportObject) returns (level: Level)
      ensures level == Evaluate(t, r.status)
      ensures level == Critical <==> r.status.summary.critical > t.maxCritical
      ensures level == NonCompliant <==>
              r.status.summary.critical <= t.maxCritical
              && (r.status.summary.high > t.maxHigh
                  || (t.requirePinnedActions && exists i :: 0 <= i < |r.status.findings| && Unpinned(r.status.findings[i])))
      ensures level == Compliant ==> r.status.summary.medium <= 0
      ensures level == Warning ==> r.status.summary.medium > 0
    {
      var summary := r.status.summary;
      if summary.critical > t.maxCritical { return Critical; }
      if summary.high > t.maxHigh { return NonCompliant; }
      if t.requirePinnedActions {
        for i := 0 to |r.status.findings|
          invariant forall k :: 0 <= k < i ==> !Unpinned(r.status.findings[k])
        {
          if Unpinned(r.status.findings[i]) { return NonCompliant; }
        }
      }
      if summary.medium > 0 { return Warning; }
      return Compliant;
    }

    method ExecuteAnnotate(r: ReportObject) returns (ok: bool)
      modifies client, r
      ensures (client.w, r.View(), ok) == E.ExecuteAnnotate(old(client.w), old(r.View()))
    {
      r.MakeAnnotations();
      r.annotations := Some(r.annotations.value[ComplianceState := Raw(E.StateText(r.status.state))]);
      r.annotations := Some(r.annotations.value[FindingSummary := Raw(E.SummaryText(r.status.summary))]);
      ok := client.Update(r);
    }

    method ExecuteAlert(target: Option<AlertTarget>) returns (ok: bool)
      modifies client
      ensures (client.w, ok) == E.ExecuteAlert(old(client.w), target)
      ensures ok ==> Ending(old(client.w)).Done? && target.Some? && (target.value.kind == "slack" || target.value.kind == "webhook") && target.value.url != ""
      ensures !ok && Ending(old(client.w)).Done? ==>
                client.w == old(client.w)
                && (target.None? || (target.value.kind != "slack" && target.value.kind != "webhook") || target.value.url == "")
    {
      if target.None? { return false; }
      if target.value.kind == "slack" || target.value.kind == "webhook" {
        if target.value.url == "" { return false; }
        ok := Ending(client.w).Done?;
        var _ := client.Now();
        return;
      }
      return false;
    }

    method SendSuspend(r: ReportObject, grace: Grace) returns (ok: bool)
      modifies client
      ensures (client.w, ok) == E.SendSuspend(old(client.w), r.View(), grace, connectors)
    {
      var sourceName, sourceKind := LabelOf(r.labels, SourceName), LabelOf(r.labels, SourceKind);
      if sourceName == "" || sourceKind == "" { return false; }
      if sourceName !in client.w.registry { return false; }
      var src := client.w.registry[sourceName];
      ghost var w0 := client.w;
      for i := 0 to |connectors|
        invariant client.w == w0
        invariant E.FindConnector(connectors[i..], sourceKind) == E.FindConnector(connectors, sourceKind)
      {
        if E.Serves(sourceKind, connectors[i]) {
          var id := SourceId(connectors[i], src.namespace, src.sourceName);
          client.Record(Suspended(r.key, id, grace, client.w.now));
          ok := client.Patch(id, SuspendPatch(connectors[i]));
          return;
        }
      }
      return false;
    }

    method ExecuteSuspendSync(r: ReportObject, grace: Grace) returns (ok: bool)
      modifies client, r
      ensures (client.w, r.View(), ok) == E.ExecuteSuspendSync(old(client.w), old(r.View()), grace, connectors)
      ensures grace.Malformed? ==> !ok && client.w == old(client.w) && r.View() == old(r.View())
    {
      if grace.Malformed? { return false; }
      if grace.Period? {
        var firstDetected := StampOf(r.View().annotations);
        if firstDetected.None? {
          r.MakeAnnotations();
          var now := client.Now();
          client.Record(Stamped(r.key, now));
          r.annotations := Some(r.annotations.value[FirstDetected := FormatTime(now)]);
          ok := client.Update(r);
          return;
        }
        var detected := ParseTime(firstDetected.value);
        if detected.None? { return false; }
        var now := client.Now();
        if now - detected.value < grace.ns { return true; }
      }
      ok := SendSuspend(r, grace);
    }

    method PatchLabel(ref: WorkloadRef, patch: Json) returns (got: Got<bool>)
      modifies client
      ensures (client.w, got) == E.PatchLabel(old(client.w), ref, patch)
    {
      var (w1, found) := GetWorkload(client.w, ref);
      client.w := w1;
      match found
      case Found(_) =>
        var (w2, ok) := PatchWorkload(client.w, ref, patch);
        client.w := w2;
        got := Found(ok);
      case NotFound => got := NotFound;
      case Failed => got := Failed;
    }

    method ExecuteLabelWorkloads(r: ReportObject, level: Level)
      modifies client
      ensures client.w == E.ExecuteLabelWorkloads(old(client.w), r.status.workloads, LowerName(level))
    {
      var refs, risk := r.status.workloads, LowerName(level);
      ghost var start := client.w;
      for i := 0 to |refs|
        invariant E.ExecuteLabelWorkloads(client.w, refs[i..], risk) == E.ExecuteLabelWorkloads(start, refs, risk)
      {
        if Supported(refs[i]) {
          var _ := PatchLabel(refs[i], RiskPatch(risk));
        }
      }
    }

    method RemoveLabels(r: ReportObject)
      modifies client
      ensures client.w == E.UnlabelWorkloads(old(client.w), r.status.workloads)
    {
      var refs := r.status.workloads;
      ghost var start := client.w;
      for i := 0 to |refs|
        invariant E.UnlabelWorkloads(client.w, refs[i..]) == E.UnlabelWorkloads(start, refs)
      {
        if Supported(refs[i]) {
          var _ := PatchLabel(refs[i], UnlabelPatch());
        }
      }
    }

    method SendResume(r: ReportObject)
      modifies client
      ensures client.w == E.SendResume(old(client.w), r.View(), connectors)
    {
      var sourceName, sourceKind := LabelOf(r.labels, SourceName), LabelOf(r.labels, SourceKind);
      if sourceName == "" || sourceKind == "" || sourceName !in client.w.registry { return; }
      var src := client.w.registry[sourceName];
      ghost var w0 := client.w;
      for i := 0 to |connectors|
        invariant client.w == w0
        invariant E.FindConnector(connectors[i..], sourceKind) == E.FindConnector(connectors, sourceKind)
      {
        if E.Serves(sourceKind, connectors[i]) {
          var id := SourceId(connectors[i], src.namespace, src.sourceName);
          client.Record(Resumed(r.key, id));
          var _ := client.Patch(id, ResumePatch(connectors[i]));
          return;
        }
      }
    }

    /** Delete the three enforcement annotations from the map in memory. */
    method ClearAnnotations(r: ReportObject) returns (updated: bool)
      modifies r
      ensures r.View() == E.Cleared(old(r.View()))
      ensures updated <==> !(old(r.View()).annotations.Keys !! E.ENFORCEMENT_KEYS)
    {
      updated := false;
      ghost var before := r.View().annotations;
      if r.annotations.Some? {
        var keys := [ComplianceState, FindingSummary, FirstDetected];
        for i := 0 to 3
          invariant r.annotations.Some? && r.View() == old(r.View()).(annotations := r.View().annotations)
          invariant r.View().annotations == before - (set k | k in keys[..i])
          invariant updated <==> exists k :: k in keys[..i] && k in before
        {
          assert keys[..i + 1] == keys[..i] + [keys[i]];
          if keys[i] in r.annotations.value {
            r.annotations := Some(r.annotations.value - {keys[i]});
            updated := true;
          }
        }
        assert keys[..3] == keys;
        assert forall k :: k in keys <==> k == keys[0] || k == keys[1] || k == keys[2];
        assert (set k | k in keys) == E.ENFORCEMENT_KEYS;
      }
    }

    method RestoreCompliance(r: ReportObject) returns (ok: bool)
      modifies client, r
      ensures (client.w, r.View(), ok) == E.RestoreCompliance(old(client.w), old(r.View()), connectors)
    {
      ghost var before := r.View();
      var updated := ClearAnnotations(r);
      if updated {
        ok := client.Update(r);
        if !ok { return; }
      } else {
        assert before.annotations - E.ENFORCEMENT_KEYS == before.annotations;
        assert r.View() == before;
      }
      client.Record(Restored(r.key));
      SendResume(r);
      RemoveLabels(r);
      return true;
    }

    method Execute(r: ReportObject, action: Action, level: Level) returns (ok: bool)
      modifies client, r
      ensures (client.w, r.View(), ok) == E.Execute(old(client.w), old(r.View()), action, level, connectors)
    {
      match action.kind
      case Annotate => ok := ExecuteAnnotate(r);
      case Alert => ok := ExecuteAlert(action.alertTarget);
      case SuspendSync => ok := ExecuteSuspendSync(r, action.grace);
      case LabelWorkloads =>
        ExecuteLabelWorkloads(r, level);
        ok := true;
      case OtherAction(_) => ok := true;
    }

    method ExecuteEnforcement(actions: seq<Action>, r: ReportObject, level: Level)
      modifies client, r
      ensures (client.w, r.View()) == E.ExecuteEnforcement(old(client.w), old(r.View()), actions, level, connectors)
    {
      if level == Compliant {
        var _ := RestoreCompliance(r);
        return;
      }
      for i := 0 to |actions|
        invariant E.ExecuteActions(client.w, r.View(), actions[i..], level, connectors)
               == E.ExecuteActions(old(client.w), old(r.View()), actions, level, connectors)
      {
        if !TriggerMatches(actions[i].trigger, level) { continue; }
        var _ := Execute(r, actions[i], level);
      }
    }

    /** One round of the loop over the listed reports. */
    method HandleReport(r: ReportObject, spec: PolicySpec)
      modifies client, r
      ensures client.w == E.HandleReport(old(client.w), old(r.View()), spec, connectors)
    {
      var matches := SelectorMatches(spec.selector, r);
      if !matches { return; }
      var level := EvaluateThresholds(spec.thresholds, r);
      client.Record(Evaluated(r.key, level));
      ExecuteEnforcement(spec.enforcement, r, level);
    }

    method Reconcile(req: E.Request) returns (result: E.Result)
      modifies client
      ensures client.w == E.PolicyPass(old(client.w), req, connectors)
      ensures result == E.PassResult(old(client.w), req, connectors)
    {
      var (w1, policy) := GetPolicy(client.w, req.policy);
      client.w := w1;
      if policy.NotFound? { return E.Ended; }
      if policy.Failed? { return E.Error; }
      var spec := policy.value.spec;
      ghost var listed := ListReports(client.w, req.policy.ns, req.order).1;
      var items := client.List(req.policy.ns, req.order);
      if items.None? { return E.Error; }
      ghost var w2 := client.w;
      var reports := items.value;
      for i := 0 to |reports|
        invariant forall k :: 0 <= k < |reports| ==> fresh(reports[k])
        invariant forall k :: i <= k < |reports| ==> reports[k].View() == listed.value[k]
        invariant E.HandleReports(client.w, listed.value[i..], spec, connectors) == E.HandleReports(w2, listed.value, spec, connectors)
        modifies client, reports
      {
        assert listed.value[i..][0] == reports[i].View() && listed.value[i..][1..] == listed.value[i + 1..];
        HandleReport(reports[i], spec);
      }
      var (w4, ok) := UpdatePolicyStatus(client.w, req.policy, policy.value.(evaluated := Some(|reports|)));
      client.w := w4;
      if !ok { return E.Error; }
      var requeueAfter := spec.interval;
      if requeueAfter == 0 { requeueAfter := E.FIVE_MINUTES; }
      return E.RequeueAfter(requeueAfter);
    }
  }
}
