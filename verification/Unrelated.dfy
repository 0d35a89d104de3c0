/** What the steps of others, and the work of a pass for other reports, leave alone of one given report. Calls
    may fail, and others may do anything but delete the report; its stamp then stays and no suspension is
    sent for it. If moreover calls succeed and nobody writes the report, it stays exactly as it is. */
module Unrelated {
  import opened Wrappers
  import opened Json
  import opened Model
  import opened Compliance
  import opened Cluster
  import opened Enforcement
  import opened Safety
  import opened Calm

  /** Nobody deletes the report during the turn. */
  predicate Harmless(t: Turn, key: Key) {
    DeleteReport(key) !in t.before
  }

  /** The step neither writes nor deletes the report. */
  predicate Spares(s: EnvStep, key: Key) {
    match s
    case WriteAnalysis(_, k, _, _, _, _, _) => k != key
    case WriteRecomputed(_, k) => k != key
    case DeleteReport(k) => k != key
    case _ => true
  }

  predicate AllSpare(ss: seq<EnvStep>, key: Key) {
    forall i :: 0 <= i < |ss| ==> Spares(ss[i], key)
  }

  predicate Quiet(t: Turn, key: Key) {
    t.outcome == Done && AllSpare(t.before, key)
  }

  ghost predicate Present(w: World, key: Key) {
    Keyed(w) && key in w.reports
  }

  ghost predicate Kept(w: World, key: Key) {
    Present(w, key) && forall i :: 0 <= i < |w.turns| ==> Harmless(w.turns[i], key)
  }

  ghost predicate LeftAlone(w: World, key: Key) {
    Kept(w, key) && forall i :: 0 <= i < |w.turns| ==> Quiet(w.turns[i], key)
  }

  ghost predicate SuspendedIn(w: World, w': World, key: Key) {
    exists j :: |w.log| <= j < |w'.log| && w'.log[j].Suspended? && w'.log[j].key == key
  }

  /** Time goes on, and no source is forgotten. */
  ghost predicate Progress(w: World, w': World, key: Key) {
    Kept(w', key) && w.now <= w'.now && w.log <= w'.log && w.registry.Keys <= w'.registry.Keys
  }

  /** Nothing happens to the report's stamp, and no suspension is sent for it. */
  ghost predicate Neutral(w: World, w': World, key: Key) {
    Progress(w, w', key) && StoredStamp(w', key) == StoredStamp(w, key) && !SuspendedIn(w, w', key)
  }

  ghost predicate SameReport(w: World, w': World, key: Key) {
    key in w.reports && key in w'.reports && w'.reports[key] == w.reports[key]
  }

  ghost predicate Aside(w: World, w': World, key: Key) {
    Neutral(w, w', key) && (LeftAlone(w, key) ==> LeftAlone(w', key) && SameReport(w, w', key))
  }

  lemma SuspendedInParts(a: World, b: World, c: World, key: Key)
    requires a.log <= b.log <= c.log
    ensures SuspendedIn(a, c, key) <==> SuspendedIn(a, b, key) || SuspendedIn(b, c, key)
  {
    if SuspendedIn(a, b, key) {
      var j :| |a.log| <= j < |b.log| && b.log[j].Suspended? && b.log[j].key == key;
      assert c.log[j] == b.log[j];
    }
    if SuspendedIn(a, c, key) {
      var j :| |a.log| <= j < |c.log| && c.log[j].Suspended? && c.log[j].key == key;
      if j < |b.log| { assert c.log[j] == b.log[j]; }
    }
  }

  lemma NeutralTransitive(a: World, b: World, c: World, key: Key)
    requires Neutral(a, b, key) && Neutral(b, c, key)
    ensures Neutral(a, c, key)
  {
    SuspendedInParts(a, b, c, key);
  }

  lemma AsideTransitive(a: World, b: World, c: World, key: Key)
    requires Aside(a, b, key) && Aside(b, c, key)
    ensures Aside(a, c, key)
  {
    NeutralTransitive(a, b, c, key);
  }

  /** Changes that touch neither the report nor the log, nor the turns. */
  lemma FrameAside(w: World, w': World, key: Key)
    requires Kept(w, key) && Keyed(w') && SameReport(w, w', key) && w'.turns == w.turns
    requires w'.log == w.log && w'.now == w.now && w.registry.Keys <= w'.registry.Keys
    ensures Aside(w, w', key)
  {}

  lemma LogAside(w: World, e: Event, key: Key)
    requires Kept(w, key) && !(e.Suspended? && e.key == key)
    ensures Aside(w, Log(w, e), key)
  {}

  /** What others do in one step; if they spare the report it stays as it is. */
  ghost predicate StepsBy(w: World, w': World, spared: bool, key: Key) {
    Neutral(w, w', key) && w'.turns == w.turns && (spared ==> SameReport(w, w', key))
  }

  lemma StepsByTransitive(a: World, b: World, c: World, p: bool, q: bool, key: Key)
    requires StepsBy(a, b, p, key) && StepsBy(b, c, q, key)
    ensures StepsBy(a, c, p && q, key)
  {
    NeutralTransitive(a, b, c, key);
  }

  lemma FrameBy(w: World, w': World, key: Key)
    requires Kept(w, key) && Keyed(w') && SameReport(w, w', key) && w'.turns == w.turns
    requires w'.log == w.log && w'.now == w.now && w.registry.Keys <= w'.registry.Keys
    ensures StepsBy(w, w', true, key)
  {}

  lemma WriteBy(w: World, status: Status, key: Key)
    requires Kept(w, key)
    ensures StepsBy(w, Store(w, w.reports[key].(status := status)), false, key)
  {}

  lemma ServeBy(w: World, c: Report, key: Key)
    requires Kept(w, key)
    ensures StepsBy(w, ServeStatus(w, c), c.key != key, key)
  {
    FrameBy(w, w, key);
    if UpToDate(w, c) {
      if c.key == key { WriteBy(w, c.status, key); } else { FrameBy(w, ServeStatus(w, c), key); }
    }
  }

  lemma LogBy(w: World, e: Event, key: Key)
    requires Kept(w, key) && !e.Suspended?
    ensures StepsBy(w, Log(w, e), true, key)
  {}

  lemma DeleteBy(w: World, k: Key, key: Key)
    requires Kept(w, key) && k != key
    ensures StepsBy(w, ApplyStep(w, DeleteReport(k)), true, key)
  {
    FrameBy(w, w, key);
    if k in w.reports {
      var w1 := w.(reports := w.reports - {k});
      FrameBy(w, w1, key);
      LogBy(w1, Deleted(k), key);
      StepsByTransitive(w, w1, Log(w1, Deleted(k)), true, true, key);
    }
  }

  lemma EditSourceBy(w: World, id: SourceId, doc: Option<Json>, key: Key)
    requires Kept(w, key)
    ensures StepsBy(w, ApplyStep(w, EditSource(id, doc)), true, key)
  {
    var w1 := w.(sources := WithDoc(w.sources, id, doc));
    FrameBy(w, w1, key);
    LogBy(w1, SourceEdited(id), key);
    StepsByTransitive(w, w1, Log(w1, SourceEdited(id)), true, true, key);
  }

  lemma CreateBy(w: World, k: Key, labels: map<LabelKey, string>, key: Key)
    requires Kept(w, key)
    ensures StepsBy(w, ApplyStep(w, CreatePristine(k, labels)), true, key)
  {
    if k in w.reports {
      FrameBy(w, w, key);
    } else {
      var w' := Store(w, Report(k, 0, labels, map[], PRISTINE));
      assert Keyed(w') && SameReport(w, w', key);
      FrameBy(w, w', key);
    }
  }

  /** The steps that change no report and are not logged. */
  lemma ElsewhereBy(w: World, s: EnvStep, key: Key)
    requires Kept(w, key) && (s.ReadReport? || s.Discover? || s.EditPolicy? || s.EditWorkload?)
    ensures StepsBy(w, ApplyStep(w, s), true, key)
  {
    var w' := ApplyStep(w, s);
    assert w'.reports == w.reports;
    FrameBy(w, w', key);
  }

  lemma WorkerBy(w: World, s: EnvStep, key: Key)
    requires Kept(w, key) && (s.WriteAnalysis? || s.WriteRecomputed?)
    ensures StepsBy(w, ApplyStep(w, s), s.key != key, key)
  {
    FrameBy(w, w, key);
    if Holds(w, s.worker, s.key) {
      var c := w.copies[s.worker];
      ServeBy(w, c.(status := if s.WriteRecomputed? then Recomputed(c.status)
                              else AnalysisStatus(s.at, s.repository, s.branch, s.workloads, s.findings)), key);
    }
  }

  lemma StepBy(w: World, s: EnvStep, key: Key)
    requires Kept(w, key) && s != DeleteReport(key)
    ensures StepsBy(w, ApplyStep(w, s), Spares(s, key), key)
  {
    if s.WriteAnalysis? || s.WriteRecomputed? {
      WorkerBy(w, s, key);
    } else if s.DeleteReport? {
      DeleteBy(w, s.key, key);
    } else if s.EditSource? {
      EditSourceBy(w, s.id, s.doc, key);
    } else if s.CreatePristine? {
      CreateBy(w, s.key, s.labels, key);
    } else {
      ElsewhereBy(w, s, key);
    }
  }

  lemma {:induction false} StepsStepBy(w: World, ss: seq<EnvStep>, key: Key)
    requires Kept(w, key) && DeleteReport(key) !in ss
    ensures StepsBy(w, ApplySteps(w, ss), AllSpare(ss, key), key)
    decreases ss
  {
    if ss == [] {
      FrameBy(w, w, key);
    } else {
      var w1 := ApplyStep(w, ss[0]);
      StepBy(w, ss[0], key);
      StepsStepBy(w1, ss[1..], key);
      StepsByTransitive(w, w1, ApplySteps(w, ss), Spares(ss[0], key), AllSpare(ss[1..], key), key);
      assert AllSpare(ss, key) ==> AllSpare(ss[1..], key);
    }
  }

  lemma ArriveAside(w: World, key: Key)
    requires Kept(w, key)
    ensures Aside(w, Arrive(w), key) && (LeftAlone(w, key) ==> Ending(w) == Done)
  {
    var t := NextTurn(w);
    var w1 := w.(now := w.now + t.delay, turns := if w.turns == [] then [] else w.turns[1..]);
    forall i | 0 <= i < |w1.turns| ensures Harmless(w1.turns[i], key) && (LeftAlone(w, key) ==> Quiet(w1.turns[i], key)) {
      assert w1.turns[i] == w.turns[i + 1];
    }
    assert Harmless(t, key) && (LeftAlone(w, key) ==> Quiet(t, key));
    StepsStepBy(w1, t.before, key);
    NeutralTransitive(w, w1, Arrive(w), key);
  }

  // ---- Work for other reports ----

  lemma AppliedSaveAside(w: World, c: Report, key: Key)
    requires Kept(w, key) && c.key != key && UpToDate(w, c)
    ensures var b := Store(w, w.reports[c.key].(labels := c.labels, annotations := c.annotations));
            Aside(w, Log(b, Saved(c.key, StampOf(c.annotations))), key) && b.reports[c.key].key == c.key
  {
    var b := Store(w, w.reports[c.key].(labels := c.labels, annotations := c.annotations));
    FrameAside(w, b, key);
    LogAside(b, Saved(c.key, StampOf(c.annotations)), key);
    AsideTransitive(w, b, Log(b, Saved(c.key, StampOf(c.annotations))), key);
  }

  lemma SaveAside(w: World, c: Report, key: Key)
    requires Kept(w, key) && c.key != key
    ensures var (w', c', _) := SaveCopy(w, c); Aside(w, w', key) && c'.key == c.key
  {
    var a := Arrive(w);
    ArriveAside(w, key);
    if !Ending(w).Rejected? && UpToDate(a, c) {
      AppliedSaveAside(a, c, key);
      AsideTransitive(w, a, SaveCopy(w, c).0, key);
    }
  }

  lemma PatchSourceAside(w: World, id: SourceId, patch: Json, key: Key)
    requires Kept(w, key)
    ensures Aside(w, PatchSource(w, id, patch).0, key)
  {
    ArriveAside(w, key);
    FrameAside(Arrive(w), PatchSource(w, id, patch).0, key);
    AsideTransitive(w, Arrive(w), PatchSource(w, id, patch).0, key);
  }

  lemma PatchLabelAside(w: World, ref: WorkloadRef, patch: Json, key: Key)
    requires Kept(w, key)
    ensures Aside(w, PatchLabel(w, ref, patch).0, key)
  {
    var w1, w' := Arrive(w), PatchLabel(w, ref, patch).0;
    ArriveAside(w, key);
    if GetWorkload(w, ref).1.Found? {
      ArriveAside(w1, key);
      FrameAside(Arrive(w1), w', key);
      AsideTransitive(w1, Arrive(w1), w', key);
      AsideTransitive(w, w1, w', key);
    }
  }

  lemma {:induction false} LabellingAside(w: World, refs: seq<WorkloadRef>, risk: string, key: Key)
    requires Kept(w, key)
    ensures Aside(w, ExecuteLabelWorkloads(w, refs, risk), key)
    decreases refs
  {
    if refs != [] {
      var w1 := LabelWorkload(w, refs[0], risk);
      if Supported(refs[0]) { PatchLabelAside(w, refs[0], Patches.RiskPatch(risk), key); }
      LabellingAside(w1, refs[1..], risk, key);
      AsideTransitive(w, w1, ExecuteLabelWorkloads(w, refs, risk), key);
    }
  }

  lemma {:induction false} UnlabellingAside(w: World, refs: seq<WorkloadRef>, key: Key)
    requires Kept(w, key)
    ensures Aside(w, UnlabelWorkloads(w, refs), key)
    decreases refs
  {
    if refs != [] {
      var w1 := UnlabelWorkload(w, refs[0]);
      if Supported(refs[0]) { PatchLabelAside(w, refs[0], Patches.UnlabelPatch(), key); }
      UnlabellingAside(w1, refs[1..], key);
      AsideTransitive(w, w1, UnlabelWorkloads(w, refs), key);
    }
  }

  lemma SendSuspendAside(w: World, c: Report, grace: Grace, connectors: seq<Platform>, key: Key)
    requires Kept(w, key) && c.key != key
    ensures Aside(w, SendSuspend(w, c, grace, connectors).0, key)
  {
    var t := Target(w.registry, connectors, c.labels);
    if t.Some? {
      var w1 := Log(w, Suspended(c.key, t.value, grace, w.now));
      LogAside(w, Suspended(c.key, t.value, grace, w.now), key);
      PatchSourceAside(w1, t.value, Patches.SuspendPatch(t.value.platform), key);
      AsideTransitive(w, w1, SendSuspend(w, c, grace, connectors).0, key);
    }
  }

  lemma SendResumeAside(w: World, c: Report, connectors: seq<Platform>, key: Key)
    requires Kept(w, key)
    ensures Aside(w, SendResume(w, c, connectors), key)
  {
    var t := Target(w.registry, connectors, c.labels);
    if t.Some? {
      var w1 := Log(w, Resumed(c.key, t.value));
      LogAside(w, Resumed(c.key, t.value), key);
      PatchSourceAside(w1, t.value, Patches.ResumePatch(t.value.platform), key);
      AsideTransitive(w, w1, SendResume(w, c, connectors), key);
    }
  }

  lemma UndoAside(w: World, c: Report, connectors: seq<Platform>, key: Key)
    requires Kept(w, key)
    ensures Aside(w, UnlabelWorkloads(SendResume(Log(w, Restored(c.key)), c, connectors), c.status.workloads), key)
  {
    var w1 := Log(w, Restored(c.key));
    var w2 := SendResume(w1, c, connectors);
    LogAside(w, Restored(c.key), key);
    SendResumeAside(w1, c, connectors, key);
    UnlabellingAside(w2, c.status.workloads, key);
    AsideTransitive(w, w1, w2, key);
    AsideTransitive(w, w2, UnlabelWorkloads(w2, c.status.workloads), key);
  }

  lemma RestoreAside(w: World, c: Report, connectors: seq<Platform>, key: Key)
    requires Kept(w, key) && c.key != key
    ensures Aside(w, RestoreCompliance(w, c, connectors).0, key)
  {
    var (w1, c1, ok) := if c.annotations.Keys !! ENFORCEMENT_KEYS then (w, c, true) else SaveCopy(w, Cleared(c));
    SaveAside(w, Cleared(c), key);
    if ok {
      UndoAside(w1, c1, connectors, key);
      AsideTransitive(w, w1, RestoreCompliance(w, c, connectors).0, key);
    }
  }

  lemma StampingAside(w: World, c: Report, key: Key)
    requires Kept(w, key) && c.key != key
    ensures var a := Arrive(w);
            var (w', c', _) := SaveCopy(Log(a, Stamped(c.key, a.now)), Stamp(c, a.now)); Aside(w, w', key) && c'.key == c.key
  {
    var a := Arrive(w);
    var a1 := Log(a, Stamped(c.key, a.now));
    ArriveAside(w, key);
    LogAside(a, Stamped(c.key, a.now), key);
    AsideTransitive(w, a, a1, key);
    SaveAside(a1, Stamp(c, a.now), key);
    AsideTransitive(w, a1, SaveCopy(a1, Stamp(c, a.now)).0, key);
  }

  lemma SuspendSyncAside(w: World, c: Report, grace: Grace, connectors: seq<Platform>, key: Key)
    requires Kept(w, key) && c.key != key
    ensures var (w', c', _) := ExecuteSuspendSync(w, c, grace, connectors); Aside(w, w', key) && c'.key == c.key
  {
    match grace
    case Malformed =>
    case NoGrace => SendSuspendAside(w, c, grace, connectors, key);
    case Period(_) =>
      match StampOf(c.annotations)
      case None => StampingAside(w, c, key);
      case Some(Raw(_)) =>
      case Some(Instant(_)) =>
        var a := Arrive(w);
        ArriveAside(w, key);
        SendSuspendAside(a, c, grace, connectors, key);
        AsideTransitive(w, a, SendSuspend(a, c, grace, connectors).0, key);
  }

  lemma ExecuteAside(w: World, c: Report, action: Action, level: Level, connectors: seq<Platform>, key: Key)
    requires Kept(w, key) && c.key != key
    ensures var (w', c', _) := Execute(w, c, action, level, connectors); Aside(w, w', key) && c'.key == c.key
  {
    match action.kind
    case Annotate => SaveAside(w, Annotated(c), key);
    case Alert => ArriveAside(w, key);
    case SuspendSync => SuspendSyncAside(w, c, action.grace, connectors, key);
    case LabelWorkloads => LabellingAside(w, c.status.workloads, LowerName(level), key);
    case OtherAction(_) =>
  }

  lemma {:induction false} ActionsAside(w: World, c: Report, actions: seq<Action>, level: Level, connectors: seq<Platform>, key: Key)
    requires Kept(w, key) && c.key != key
    ensures Aside(w, ExecuteActions(w, c, actions, level, connectors).0, key)
    decreases actions
  {
    if actions != [] {
      if TriggerMatches(actions[0].trigger, level) {
        var (w1, c1, _) := Execute(w, c, actions[0], level, connectors);
        ExecuteAside(w, c, actions[0], level, connectors, key);
        ActionsAside(w1, c1, actions[1..], level, connectors, key);
        AsideTransitive(w, w1, ExecuteActions(w, c, actions, level, connectors).0, key);
      } else {
        ActionsAside(w, c, actions[1..], level, connectors, key);
      }
    }
  }

  lemma HandleReportAside(w: World, c: Report, spec: PolicySpec, connectors: seq<Platform>, key: Key)
    requires Kept(w, key) && c.key != key
    ensures Aside(w, HandleReport(w, c, spec, connectors), key)
  {
    if SelectorMatches(spec.selector, c) {
      var level := Evaluate(spec.thresholds, c.status);
      var w1 := Log(w, Evaluated(c.key, level));
      LogAside(w, Evaluated(c.key, level), key);
      RestoreAside(w1, c, connectors, key);
      ActionsAside(w1, c, spec.enforcement, level, connectors, key);
      AsideTransitive(w, w1, HandleReport(w, c, spec, connectors), key);
    }
  }

  lemma {:induction false} HandlingAside(w: World, listed: seq<Report>, spec: PolicySpec, connectors: seq<Platform>, key: Key)
    requires Kept(w, key) && forall i :: 0 <= i < |listed| ==> listed[i].key != key
    ensures Aside(w, HandleReports(w, listed, spec, connectors), key)
    decreases listed
  {
    if listed != [] {
      var w1 := HandleReport(w, listed[0], spec, connectors);
      HandleReportAside(w, listed[0], spec, connectors, key);
      HandlingAside(w1, listed[1..], spec, connectors, key);
      AsideTransitive(w, w1, HandleReports(w, listed, spec, connectors), key);
    }
  }

  lemma PolicyStatusAside(w: World, policy: Key, p: Policy, key: Key)
    requires Kept(w, key)
    ensures Aside(w, UpdatePolicyStatus(w, policy, p).0, key)
  {
    ArriveAside(w, key);
    FrameAside(Arrive(w), UpdatePolicyStatus(w, policy, p).0, key);
    AsideTransitive(w, Arrive(w), UpdatePolicyStatus(w, policy, p).0, key);
  }
}
