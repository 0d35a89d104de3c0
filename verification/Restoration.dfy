/** Restoration absorbs enforcement: after any number of enforcement passes it leaves the annotations,
    the sync setting and the workload labels that it leaves without them. */
module Restoration {
  import opened Wrappers
  import opened Json
  import opened Model
  import opened Compliance
  import opened Cluster
  import opened Patches
  import opened Enforcement
  import opened Calm

  /** The enforcement work of one pass on a report that is not compliant. */
  datatype Round = Round(actions: seq<Action>, level: Level)

  function EnforceRounds(w: World, key: Key, rounds: seq<Round>, connectors: seq<Platform>): World
    decreases rounds
  {
    if rounds == [] || key !in w.reports then w
    else EnforceRounds(ExecuteActions(w, w.reports[key], rounds[0].actions, rounds[0].level, connectors).0, key, rounds[1..], connectors)
  }

  ghost predicate RiskWritten(doc: Json, doc': Json) {
    exists risk :: doc' == MergePatch(doc, RiskPatch(risk))
  }

  ghost predicate LabelsOnly(ws: map<WorkloadRef, Json>, ws': map<WorkloadRef, Json>, refs: seq<WorkloadRef>) {
    && ws'.Keys == ws.Keys
    && forall r :: r in ws ==> ws'[r] == ws[r] || (r in refs && Supported(r) && RiskWritten(ws[r], ws'[r]))
  }

  /** All that calm enforcement of a report can do. */
  ghost predicate Enforced(w: World, w': World, c: Report, connectors: seq<Platform>) {
    && Current(w, c)
    && WorksOn(w, w', c.key)
    && w'.reports[c.key].annotations - ENFORCEMENT_KEYS == c.annotations - ENFORCEMENT_KEYS
    && (w'.sources == w.sources || w'.sources == Sent(w, c, connectors, true))
    && LabelsOnly(w.workloads, w'.workloads, c.status.workloads)
  }

  lemma LabelsOnlyTransitive(a: map<WorkloadRef, Json>, b: map<WorkloadRef, Json>, c: map<WorkloadRef, Json>, refs: seq<WorkloadRef>)
    requires LabelsOnly(a, b, refs) && LabelsOnly(b, c, refs)
    ensures LabelsOnly(a, c, refs)
  {
    forall r | r in a ensures c[r] == a[r] || (r in refs && Supported(r) && RiskWritten(a[r], c[r])) {
      if b[r] != a[r] && c[r] != b[r] {
        var x :| b[r] == MergePatch(a[r], RiskPatch(x));
        var y :| c[r] == MergePatch(b[r], RiskPatch(y));
        LabelIsOverwritten(a[r], x, y);
      }
    }
  }

  lemma SentTwice(a: World, b: World, c: Report, c': Report, connectors: seq<Platform>)
    requires a.registry == b.registry && c.labels == c'.labels
    requires b.sources == a.sources || b.sources == Sent(a, c, connectors, true)
    ensures Sent(b, c', connectors, true) == Sent(a, c, connectors, true)
  {
    var t := Target(a.registry, connectors, c.labels);
    if t.Some? && t.value in a.sources {
      PatchIdempotent(a.sources[t.value], SuspendPatch(t.value.platform));
    }
  }

  lemma EnforcedTransitive(w: World, w1: World, w2: World, c: Report, c1: Report, connectors: seq<Platform>)
    requires Enforced(w, w1, c, connectors) && Enforced(w1, w2, c1, connectors) && c1.key == c.key
    ensures Enforced(w, w2, c, connectors)
  {
    WorksTransitive(w, w1, w2, c.key);
    SentTwice(w, w1, c, c1, connectors);
    LabelsOnlyTransitive(w.workloads, w1.workloads, w2.workloads, c.status.workloads);
  }

  lemma RelabellingIsLabelsOnly(ws: map<WorkloadRef, Json>, refs: seq<WorkloadRef>, risk: string)
    ensures LabelsOnly(ws, Relabelled(ws, refs, RiskPatch(risk)), refs)
  {}

  lemma LabellingEnforces(w: World, c: Report, risk: string, connectors: seq<Platform>)
    requires IsCalm(w) && Current(w, c)
    ensures var w' := ExecuteLabelWorkloads(w, c.status.workloads, risk); Enforced(w, w', c, connectors) && Current(w', c)
  {
    CalmLabelWorkloads(w, c.key, c.status.workloads, risk);
    RelabellingIsLabelsOnly(w.workloads, c.status.workloads, risk);
  }

  lemma AlertEnforces(w: World, c: Report, target: Option<AlertTarget>, connectors: seq<Platform>)
    requires IsCalm(w) && Current(w, c)
    ensures var w' := ExecuteAlert(w, target).0; Enforced(w, w', c, connectors) && Current(w', c)
  {
    CalmWait(w, c.key);
  }

  lemma ExecuteEnforces(w: World, c: Report, action: Action, level: Level, connectors: seq<Platform>)
    requires IsCalm(w) && Current(w, c)
    ensures var (w', c', _) := Execute(w, c, action, level, connectors);
            Enforced(w, w', c, connectors) && Current(w', c') && c'.key == c.key
  {
    match action.kind
    case Annotate => CalmAnnotate(w, c);
    case Alert => AlertEnforces(w, c, action.alertTarget, connectors);
    case SuspendSync => CalmSuspendSync(w, c, action.grace, connectors);
    case LabelWorkloads => LabellingEnforces(w, c, LowerName(level), connectors);
    case OtherAction(_) =>
  }

  lemma {:induction false} ActionsEnforce(w: World, c: Report, actions: seq<Action>, level: Level, connectors: seq<Platform>)
    requires IsCalm(w) && Current(w, c)
    ensures var (w', c') := ExecuteActions(w, c, actions, level, connectors);
            Enforced(w, w', c, connectors) && Current(w', c') && c'.key == c.key
    decreases actions
  {
    if actions != [] {
      if TriggerMatches(actions[0].trigger, level) {
        var (w1, c1, _) := Execute(w, c, actions[0], level, connectors);
        ExecuteEnforces(w, c, actions[0], level, connectors);
        ActionsEnforce(w1, c1, actions[1..], level, connectors);
        EnforcedTransitive(w, w1, ExecuteActions(w, c, actions, level, connectors).0, c, c1, connectors);
      } else {
        ActionsEnforce(w, c, actions[1..], level, connectors);
      }
    }
  }

  lemma {:induction false} RoundsEnforce(w: World, key: Key, rounds: seq<Round>, connectors: seq<Platform>)
    requires IsCalm(w) && key in w.reports && w.reports[key].key == key
    ensures Enforced(w, EnforceRounds(w, key, rounds, connectors), w.reports[key], connectors)
    decreases rounds
  {
    if rounds != [] {
      var c := w.reports[key];
      var w1 := ExecuteActions(w, c, rounds[0].actions, rounds[0].level, connectors).0;
      ActionsEnforce(w, c, rounds[0].actions, rounds[0].level, connectors);
      RoundsEnforce(w1, key, rounds[1..], connectors);
      EnforcedTransitive(w, w1, EnforceRounds(w, key, rounds, connectors), c, w1.reports[key], connectors);
    }
  }

  /** The world after restoring the stored report. */
  function Restore(w: World, key: Key, connectors: seq<Platform>): World
    requires key in w.reports
  {
    RestoreCompliance(w, w.reports[key], connectors).0
  }

  /** The two worlds agree on what enforcement and restoration manage. */
  predicate SameManaged(w: World, w': World, key: Key) {
    && key in w.reports && key in w'.reports
    && w.reports[key].annotations == w'.reports[key].annotations
    && w.sources == w'.sources && w.workloads == w'.workloads
  }

  /** The condition under which resuming forgets a suspension, for the object this report leads to. */
  predicate ResumeForgets(w: World, c: Report, connectors: seq<Platform>) {
    var t := Target(w.registry, connectors, c.labels);
    t.Some? && t.value.platform.ArgoCD? && t.value in w.sources ==> OnlyManagedSettings(w.sources[t.value])
  }

  lemma UnlabellingForgets(ws: map<WorkloadRef, Json>, ws': map<WorkloadRef, Json>, refs: seq<WorkloadRef>)
    requires LabelsOnly(ws, ws', refs)
    ensures Relabelled(ws', refs, UnlabelPatch()) == Relabelled(ws, refs, UnlabelPatch())
  {
    forall r | r in ws && ws'[r] != ws[r]
      ensures MergePatch(ws'[r], UnlabelPatch()) == MergePatch(ws[r], UnlabelPatch())
    {
      var x :| ws'[r] == MergePatch(ws[r], RiskPatch(x));
      LabelIsOverwritten(ws[r], x, x);
    }
  }

  lemma ResumingForgets(w: World, w': World, c: Report, c': Report, connectors: seq<Platform>)
    requires w.registry == w'.registry && c.labels == c'.labels
    requires w'.sources == w.sources || (w'.sources == Sent(w, c, connectors, true) && ResumeForgets(w, c, connectors))
    ensures Sent(w', c', connectors, false) == Sent(w, c, connectors, false)
  {
    var t := Target(w.registry, connectors, c.labels);
    if t.Some? && t.value in w.sources && w'.sources != w.sources {
      ResumeUndoesSuspend(t.value.platform, w.sources[t.value]);
    }
  }

  /** Restoration absorbs any enforcement, whatever the actions and levels of its passes. */
  lemma RestorationAbsorbsEnforcement(w: World, key: Key, rounds: seq<Round>, connectors: seq<Platform>)
    requires IsCalm(w) && key in w.reports && w.reports[key].key == key
    requires ResumeForgets(w, w.reports[key], connectors)
    ensures key in EnforceRounds(w, key, rounds, connectors).reports
    ensures SameManaged(Restore(EnforceRounds(w, key, rounds, connectors), key, connectors), Restore(w, key, connectors), key)
  {
    var c := w.reports[key];
    var w' := EnforceRounds(w, key, rounds, connectors);
    RoundsEnforce(w, key, rounds, connectors);
    CalmRestore(w, c, connectors);
    CalmRestore(w', w'.reports[key], connectors);
    UnlabellingForgets(w.workloads, w'.workloads, c.status.workloads);
    ResumingForgets(w, w', c, w'.reports[key], connectors);
  }

  /** A single unconditional suspension. */
  function SuspendNow(): Round {
    Round([Action(SuspendSync, Some(Warning), NoGrace, None)], Warning)
  }

  /** Exactly when restoration absorbs every enforcement: always for Flux, and for ArgoCD when the
      Application configures nothing under `automated` beyond what Resume writes. */
  lemma RestorationAbsorbsExactly(w: World, key: Key, connectors: seq<Platform>)
    requires IsCalm(w) && key in w.reports && w.reports[key].key == key
    ensures ResumeForgets(w, w.reports[key], connectors) <==>
            forall rounds :: key in EnforceRounds(w, key, rounds, connectors).reports
              && SameManaged(Restore(EnforceRounds(w, key, rounds, connectors), key, connectors), Restore(w, key, connectors), key)
  {
    var c := w.reports[key];
    if ResumeForgets(w, c, connectors) {
      forall rounds
        ensures key in EnforceRounds(w, key, rounds, connectors).reports
        ensures SameManaged(Restore(EnforceRounds(w, key, rounds, connectors), key, connectors), Restore(w, key, connectors), key)
      {
        RestorationAbsorbsEnforcement(w, key, rounds, connectors);
      }
    } else {
      SuspensionLosesSettings(w, key, connectors);
    }
  }

  lemma SuspensionLosesSettings(w: World, key: Key, connectors: seq<Platform>)
    requires IsCalm(w) && key in w.reports && w.reports[key].key == key
    requires !ResumeForgets(w, w.reports[key], connectors)
    ensures var w' := EnforceRounds(w, key, [SuspendNow()], connectors);
            key in w'.reports && !SameManaged(Restore(w', key, connectors), Restore(w, key, connectors), key)
  {
    var c := w.reports[key];
    var t := Target(w.registry, connectors, c.labels).value;
    var w' := EnforceRounds(w, key, [SuspendNow()], connectors);
    SuspendNowSuspends(w, key, connectors);
    CalmRestore(w, c, connectors);
    CalmRestore(w', w'.reports[key], connectors);
    ArgoResumeUndoesSuspendExactly(w.sources[t]);
    assert Sent(w', w'.reports[key], connectors, false)[t] != Sent(w, c, connectors, false)[t];
  }

  lemma SuspendNowSuspends(w: World, key: Key, connectors: seq<Platform>)
    requires IsCalm(w) && key in w.reports && w.reports[key].key == key
    ensures var w' := EnforceRounds(w, key, [SuspendNow()], connectors);
            LeavesReports(w, w', key) && w'.sources == Sent(w, w.reports[key], connectors, true)
  {
    var c := w.reports[key];
    var actions := SuspendNow().actions;
    assert actions[1..] == [];
    var w' := SendSuspend(w, c, NoGrace, connectors).0;
    assert Execute(w, c, actions[0], Warning, connectors).0 == w';
    assert ExecuteActions(w, c, actions, Warning, connectors) == ExecuteActions(w', c, [], Warning, connectors);
    assert EnforceRounds(w, key, [SuspendNow()], connectors) == w' by {
      assert [SuspendNow()][1..] == [];
    }
    CalmSendSuspend(w, c, NoGrace, connectors);
  }

  /** How a source reads that is resumed, in terms of its document. */
  predicate ReadsResumed(p: Platform, doc: Json) {
    if p.ArgoCD? then
      && Lookup(doc, ["spec", "syncPolicy", "automated", "prune"]) == Some(Bool(true))
      && Lookup(doc, ["spec", "syncPolicy", "automated", "selfHeal"]) == Some(Bool(true))
    else Lookup(doc, ["spec", "suspend"]) == Some(Bool(false))
  }

  predicate ReadsSuspended(p: Platform, doc: Json) {
    if p.ArgoCD? then Lookup(doc, ["spec", "syncPolicy", "automated"]) == None
    else Lookup(doc, ["spec", "suspend"]) == Some(Bool(true))
  }

  lemma PatchesRead(p: Platform, doc: Json)
    requires !p.Tekton?
    ensures ReadsSuspended(p, MergePatch(doc, SuspendPatch(p))) && ReadsResumed(p, MergePatch(doc, ResumePatch(p)))
  {
    ArgoPatchesWrite(doc);
    FluxPatchesWrite(doc);
  }

  lemma {:induction false} NeverTekton(connectors: seq<Platform>, kind: string)
    ensures FindConnector(connectors, kind) != Some(Tekton)
  {
    ConnectorIsDetermined(connectors, kind, Tekton);
  }

  /** A calm restoration leaves the source that the report leads to resumed, with pruning and self-healing on
      for an Application; a calm suspension leaves it suspended. No other source is touched. */
  lemma RestorationResumesTarget(w: World, c: Report, connectors: seq<Platform>, id: SourceId)
    requires IsCalm(w) && Current(w, c) && id in w.sources
    ensures var w' := RestoreCompliance(w, c, connectors).0;
            id in w'.sources
            && (if Target(w.registry, connectors, c.labels) == Some(id) then ReadsResumed(id.platform, w'.sources[id])
                else w'.sources[id] == w.sources[id])
    ensures var w' := SendSuspend(w, c, NoGrace, connectors).0;
            id in w'.sources
            && (if Target(w.registry, connectors, c.labels) == Some(id) then ReadsSuspended(id.platform, w'.sources[id])
                else w'.sources[id] == w.sources[id])
  {
    CalmRestore(w, c, connectors);
    CalmSendSuspend(w, c, NoGrace, connectors);
    if Target(w.registry, connectors, c.labels) == Some(id) {
      NeverTekton(connectors, LabelOf(c.labels, SourceKind));
      PatchesRead(id.platform, w.sources[id]);
    }
  }
}
