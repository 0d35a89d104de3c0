/** Stickiness: over every run, a suspended source stays suspended until a resumption is sent for it or
    somebody else edits it, and resumptions only follow a Compliant evaluation. */
module Stickiness {
  import opened Wrappers
  import opened Json
  import opened Model
  import opened Compliance
  import opened Cluster
  import opened Patches
  import opened Enforcement
  import opened Safety
  import opened GracePeriods

  /** The event may end a suspension of the source. */
  predicate Releases(e: Event, id: SourceId) {
    (e.Resumed? && e.id == id) || e == SourceEdited(id)
  }

  predicate Held(w: World, id: SourceId) {
    id in w.sources && IsSuspended(id.platform, w.sources[id])
  }

  /** Suspensions hold unless the log says otherwise, and resumptions are sent for reports in `keys` only. */
  ghost predicate Sticks(w: World, w': World, keys: set<Key>) {
    && w.log <= w'.log
    && (forall id :: Held(w, id) && (forall j :: |w.log| <= j < |w'.log| ==> !Releases(w'.log[j], id)) ==> Held(w', id))
    && (forall j :: |w.log| <= j < |w'.log| && w'.log[j].Resumed? ==> w'.log[j].key in keys)
  }

  lemma SticksTransitive(a: World, b: World, c: World, keys: set<Key>)
    requires Sticks(a, b, keys) && Sticks(b, c, keys)
    ensures Sticks(a, c, keys)
  {
    forall id | Held(a, id) && forall j :: |a.log| <= j < |c.log| ==> !Releases(c.log[j], id) ensures Held(c, id) {
      forall j | |a.log| <= j < |b.log| ensures !Releases(b.log[j], id) { assert b.log[j] == c.log[j]; }
      assert Held(b, id);
    }
    forall j | |a.log| <= j < |c.log| && c.log[j].Resumed? ensures c.log[j].key in keys {
      if j < |b.log| { assert c.log[j] == b.log[j]; }
    }
  }

  lemma SticksWeaken(a: World, b: World, keys: set<Key>)
    requires Sticks(a, b, {})
    ensures Sticks(a, b, keys)
  {}

  lemma StepSticks(w: World, s: EnvStep)
    ensures Sticks(w, ApplyStep(w, s), {})
  {
    if s.EditSource? {
      var w' := ApplyStep(w, s);
      assert Releases(w'.log[|w.log|], s.id);
    }
  }

  lemma {:induction false} StepsStick(w: World, ss: seq<EnvStep>)
    ensures Sticks(w, ApplySteps(w, ss), {})
    decreases ss
  {
    if ss != [] {
      StepSticks(w, ss[0]);
      StepsStick(ApplyStep(w, ss[0]), ss[1..]);
      SticksTransitive(w, ApplyStep(w, ss[0]), ApplySteps(w, ss), {});
    }
  }

  lemma ArriveSticks(w: World)
    ensures Sticks(w, Arrive(w), {})
  {
    var w1 := w.(now := w.now + NextTurn(w).delay, turns := if w.turns == [] then [] else w.turns[1..]);
    StepsStick(w1, NextTurn(w).before);
    SticksTransitive(w, w1, Arrive(w), {});
  }

  lemma SaveSticks(w: World, c: Report)
    ensures Sticks(w, SaveCopy(w, c).0, {})
  {
    ArriveSticks(w);
    SticksTransitive(w, Arrive(w), SaveCopy(w, c).0, {});
  }

  lemma PatchLabelSticks(w: World, ref: WorkloadRef, patch: Json)
    ensures Sticks(w, PatchLabel(w, ref, patch).0, {})
  {
    var w1, w' := Arrive(w), PatchLabel(w, ref, patch).0;
    ArriveSticks(w);
    if GetWorkload(w, ref).1.Found? {
      ArriveSticks(w1);
      SticksTransitive(w1, Arrive(w1), w', {});
      SticksTransitive(w, w1, w', {});
    }
  }

  lemma {:induction false} LabellingSticks(w: World, refs: seq<WorkloadRef>, risk: string)
    ensures Sticks(w, ExecuteLabelWorkloads(w, refs, risk), {})
    ensures Sticks(w, UnlabelWorkloads(w, refs), {})
    decreases refs
  {
    if refs != [] {
      PatchLabelSticks(w, refs[0], RiskPatch(risk));
      PatchLabelSticks(w, refs[0], UnlabelPatch());
      LabellingSticks(LabelWorkload(w, refs[0], risk), refs[1..], risk);
      LabellingSticks(UnlabelWorkload(w, refs[0]), refs[1..], risk);
      SticksTransitive(w, LabelWorkload(w, refs[0], risk), ExecuteLabelWorkloads(w, refs, risk), {});
      SticksTransitive(w, UnlabelWorkload(w, refs[0]), UnlabelWorkloads(w, refs), {});
    }
  }

  lemma ServedPatchSticks(w: World, id: SourceId)
    requires id in w.sources
    ensures var w' := w.(sources := w.sources[id := MergePatch(w.sources[id], SuspendPatch(id.platform))]);
            Sticks(w, w', {}) && Held(w', id)
  {
    SuspendSuspends(id.platform, w.sources[id]);
  }

  /** The suspend patch takes no suspension away, and holds where it is carried out. */
  lemma SuspendPatchSticks(w: World, id: SourceId)
    ensures var (w', ok) := PatchSource(w, id, SuspendPatch(id.platform)); Sticks(w, w', {}) && (ok ==> Held(w', id))
  {
    var a := Arrive(w);
    ArriveSticks(w);
    if !Ending(w).Rejected? && id in a.sources {
      ServedPatchSticks(a, id);
      SticksTransitive(w, a, PatchSource(w, id, SuspendPatch(id.platform)).0, {});
    }
  }

  /** A suspension that is carried out holds, and takes no other suspension away. */
  lemma SendSuspendSticks(w: World, c: Report, grace: Grace, connectors: seq<Platform>)
    ensures Sticks(w, SendSuspend(w, c, grace, connectors).0, {})
    ensures SendSuspend(w, c, grace, connectors).1 ==>
              Target(w.registry, connectors, c.labels).Some?
              && Held(SendSuspend(w, c, grace, connectors).0, Target(w.registry, connectors, c.labels).value)
  {
    var t := Target(w.registry, connectors, c.labels);
    if t.Some? {
      var w1 := Log(w, Suspended(c.key, t.value, grace, w.now));
      SuspendPatchSticks(w1, t.value);
      SticksTransitive(w, w1, SendSuspend(w, c, grace, connectors).0, {});
    }
  }

  lemma SendResumeSticks(w: World, c: Report, connectors: seq<Platform>)
    ensures Sticks(w, SendResume(w, c, connectors), {c.key})
  {
    var t := Target(w.registry, connectors, c.labels);
    if t.Some? {
      var e := Resumed(c.key, t.value);
      var w1 := Log(w, e);
      var a, w' := Arrive(w1), SendResume(w, c, connectors);
      ArriveSticks(w1);
      assert w'.log == a.log && w1.log <= a.log && w'.log[|w.log|] == e;
      assert Releases(w'.log[|w.log|], t.value);
      forall id | Held(w, id) && forall j :: |w.log| <= j < |w'.log| ==> !Releases(w'.log[j], id) ensures Held(w', id) {
        assert Held(w1, id);
        assert Held(a, id);
      }
    }
  }

  lemma UndoSticks(w: World, c: Report, connectors: seq<Platform>)
    ensures Sticks(w, UnlabelWorkloads(SendResume(Log(w, Restored(c.key)), c, connectors), c.status.workloads), {c.key})
  {
    var w1 := Log(w, Restored(c.key));
    var w2 := SendResume(w1, c, connectors);
    var w3 := UnlabelWorkloads(w2, c.status.workloads);
    SendResumeSticks(w1, c, connectors);
    LabellingSticks(w2, c.status.workloads, "");
    SticksWeaken(w2, w3, {c.key});
    SticksTransitive(w, w1, w2, {c.key});
    SticksTransitive(w, w2, w3, {c.key});
  }

  /** A restoration resumes on behalf of its own report only. */
  lemma RestoreSticks(w: World, c: Report, connectors: seq<Platform>)
    requires Inv(w) && CopyOk(w, c) && LatestLevel(w.log, c.key) == Some(Compliant)
    ensures Sticks(w, RestoreCompliance(w, c, connectors).0, {c.key})
  {
    var (w1, c1, ok) := if c.annotations.Keys !! ENFORCEMENT_KEYS then (w, c, true) else SaveCopy(w, Cleared(c));
    assert StampOf(Cleared(c).annotations) == None;
    SaveKeeps(w, Cleared(c));
    SaveSticks(w, Cleared(c));
    SticksWeaken(w, w1, {c.key});
    if ok {
      UndoSticks(w1, c1, connectors);
      SticksTransitive(w, w1, RestoreCompliance(w, c, connectors).0, {c.key});
    }
  }

  lemma StampingSticks(w: World, c: Report)
    ensures var a := Arrive(w); Sticks(w, SaveCopy(Log(a, Stamped(c.key, a.now)), Stamp(c, a.now)).0, {})
  {
    var a := Arrive(w);
    var a1 := Log(a, Stamped(c.key, a.now));
    ArriveSticks(w);
    SticksTransitive(w, a, a1, {});
    SaveSticks(a1, Stamp(c, a.now));
    SticksTransitive(w, a1, SaveCopy(a1, Stamp(c, a.now)).0, {});
  }

  lemma SuspendSyncSticks(w: World, c: Report, grace: Grace, connectors: seq<Platform>)
    ensures Sticks(w, ExecuteSuspendSync(w, c, grace, connectors).0, {})
  {
    match grace
    case Malformed =>
    case NoGrace => SendSuspendSticks(w, c, grace, connectors);
    case Period(_) =>
      match StampOf(c.annotations)
      case None => StampingSticks(w, c);
      case Some(Raw(_)) =>
      case Some(Instant(_)) =>
        var a := Arrive(w);
        ArriveSticks(w);
        SendSuspendSticks(a, c, grace, connectors);
        SticksTransitive(w, a, SendSuspend(a, c, grace, connectors).0, {});
  }

  lemma ExecuteSticks(w: World, c: Report, action: Action, level: Level, connectors: seq<Platform>)
    ensures Sticks(w, Execute(w, c, action, level, connectors).0, {})
  {
    match action.kind
    case Annotate => SaveSticks(w, Annotated(c));
    case Alert => ArriveSticks(w);
    case SuspendSync => SuspendSyncSticks(w, c, action.grace, connectors);
    case LabelWorkloads => LabellingSticks(w, c.status.workloads, LowerName(level));
    case OtherAction(_) =>
  }

  lemma {:induction false} ActionsStick(w: World, c: Report, actions: seq<Action>, level: Level, connectors: seq<Platform>)
    ensures Sticks(w, ExecuteActions(w, c, actions, level, connectors).0, {})
    decreases actions
  {
    if actions != [] {
      if TriggerMatches(actions[0].trigger, level) {
        var (w1, c1, _) := Execute(w, c, actions[0], level, connectors);
        ExecuteSticks(w, c, actions[0], level, connectors);
        ActionsStick(w1, c1, actions[1..], level, connectors);
        SticksTransitive(w, w1, ExecuteActions(w, c, actions, level, connectors).0, {});
      } else {
        ActionsStick(w, c, actions[1..], level, connectors);
      }
    }
  }

  /** Every resumption follows an evaluation of its report as Compliant made in the same stretch of work. */
  ghost predicate FreshResumes(w: World, w': World) {
    forall j :: |w.log| <= j < |w'.log| && w'.log[j].Resumed? ==>
      exists m :: |w.log| <= m < j && w'.log[m] == Evaluated(w'.log[j].key, Compliant)
  }

  /** What whole reports, passes and runs do to suspensions. */
  ghost predicate Lasts(w: World, w': World) {
    && w.log <= w'.log && FreshResumes(w, w')
    && forall id :: Held(w, id) && (forall j :: |w.log| <= j < |w'.log| ==> !Releases(w'.log[j], id)) ==> Held(w', id)
  }

  lemma LastsTransitive(a: World, b: World, c: World)
    requires Lasts(a, b) && Lasts(b, c)
    ensures Lasts(a, c)
  {
    forall id | Held(a, id) && forall j :: |a.log| <= j < |c.log| ==> !Releases(c.log[j], id) ensures Held(c, id) {
      forall j | |a.log| <= j < |b.log| ensures !Releases(b.log[j], id) { assert b.log[j] == c.log[j]; }
      assert Held(b, id);
    }
    forall j | |a.log| <= j < |c.log| && c.log[j].Resumed?
      ensures exists m :: |a.log| <= m < j && c.log[m] == Evaluated(c.log[j].key, Compliant)
    {
      if j < |b.log| {
        assert c.log[j] == b.log[j];
        var m :| |a.log| <= m < j && b.log[m] == Evaluated(b.log[j].key, Compliant);
        assert c.log[m] == b.log[m];
      } else {
        var m :| |b.log| <= m < j && c.log[m] == Evaluated(c.log[j].key, Compliant);
      }
    }
  }

  /** The evaluation is logged first, and only a restoration of the same report resumes. */
  lemma HandleReportLasts(w: World, c: Report, spec: PolicySpec, connectors: seq<Platform>)
    requires Inv(w) && CopyOk(w, c)
    ensures Lasts(w, HandleReport(w, c, spec, connectors))
  {
    if SelectorMatches(spec.selector, c) {
      var level := Evaluate(spec.thresholds, c.status);
      var e := Evaluated(c.key, level);
      var w0 := Log(w, e);
      var w1 := HandleReport(w, c, spec, connectors);
      if level == Compliant {
        LogKeeps(w, e);
        LastEvent(w.log, e, c.key);
        CopySurvives(w, w0, {}, c);
        RestoreSticks(w0, c, connectors);
        StickingLasts(w, w0, w1, c.key);
      } else {
        ActionsStick(w0, c, spec.enforcement, level, connectors);
        SticksTransitive(w, w0, w1, {});
      }
    }
  }

  lemma StickingLasts(w: World, w0: World, w1: World, key: Key)
    requires w0 == Log(w, Evaluated(key, Compliant)) && Sticks(w0, w1, {key})
    ensures Lasts(w, w1)
  {
    assert Sticks(w, w0, {key});
    SticksTransitive(w, w0, w1, {key});
    assert w1.log[|w.log|] == w0.log[|w.log|] == Evaluated(key, Compliant);
    forall j | |w.log| <= j < |w1.log| && w1.log[j].Resumed?
      ensures |w.log| < j && w1.log[j].key == key
    {}
  }

  lemma {:induction false} HandlingLasts(w: World, listed: seq<Report>, spec: PolicySpec, connectors: seq<Platform>)
    requires Inv(w) && CopiesOk(w, listed)
    ensures Lasts(w, HandleReports(w, listed, spec, connectors))
    decreases listed
  {
    if listed != [] {
      var w1 := HandleReport(w, listed[0], spec, connectors);
      HandleReportLasts(w, listed[0], spec, connectors);
      HandleFirstKeeps(w, listed, spec, connectors);
      HandlingLasts(w1, listed[1..], spec, connectors);
      LastsTransitive(w, w1, HandleReports(w, listed, spec, connectors));
    }
  }

  lemma ArriveLasts(w: World)
    requires Inv(w)
    ensures Lasts(w, Arrive(w)) && Inv(Arrive(w))
  {
    ArriveSticks(w);
    ArriveKeeps(w);
  }

  lemma PolicyStatusLasts(w: World, key: Key, p: Policy)
    requires Inv(w)
    ensures Lasts(w, UpdatePolicyStatus(w, key, p).0)
  {
    ArriveLasts(w);
    LastsTransitive(w, Arrive(w), UpdatePolicyStatus(w, key, p).0);
  }

  /** The listed reports, from the world in which they were listed on. */
  lemma ListedLasts(w: World, req: Request, p: Policy, connectors: seq<Platform>)
    requires Inv(w)
    ensures var listed := Listing(w.reports, req.policy.ns, req.order);
            var w' := HandleReports(w, listed, p.spec, connectors);
            Inv(w') && Lasts(w, w') && Lasts(w, UpdatePolicyStatus(w', req.policy, p.(evaluated := Some(|listed|))).0)
  {
    var listed := Listing(w.reports, req.policy.ns, req.order);
    var w' := HandleReports(w, listed, p.spec, connectors);
    ListedCopiesAreOk(w, req.policy.ns, req.order);
    HandlingLasts(w, listed, p.spec, connectors);
    HandleReportsKeep(w, listed, p.spec, connectors);
    PolicyStatusLasts(w', req.policy, p.(evaluated := Some(|listed|)));
    LastsTransitive(w, w', UpdatePolicyStatus(w', req.policy, p.(evaluated := Some(|listed|))).0);
  }

  lemma PassLasts(w: World, req: Request, connectors: seq<Platform>)
    requires Inv(w)
    ensures Lasts(w, PolicyPass(w, req, connectors))
  {
    var (w1, policy) := GetPolicy(w, req.policy);
    ArriveLasts(w);
    if policy.Found? {
      var (w2, listed) := ListReports(w1, req.policy.ns, req.order);
      ArriveLasts(w1);
      LastsTransitive(w, w1, w2);
      if listed.Some? {
        ListedLasts(w2, req, policy.value, connectors);
        LastsTransitive(w, w2, PolicyPass(w, req, connectors));
      }
    }
  }

  lemma {:induction false} RunLasts(w: World, reqs: seq<Request>, connectors: seq<Platform>)
    requires Inv(w)
    ensures Lasts(w, RunPasses(w, reqs, connectors))
    decreases reqs
  {
    if reqs != [] {
      PassLasts(w, reqs[0], connectors);
      PassKeeps(w, reqs[0], connectors);
      RunLasts(PolicyPass(w, reqs[0], connectors), reqs[1..], connectors);
      LastsTransitive(w, PolicyPass(w, reqs[0], connectors), RunPasses(w, reqs, connectors));
    }
  }

  ghost predicate Unedited(w: World, w': World, id: SourceId) {
    forall j :: |w.log| <= j < |w'.log| ==> w'.log[j] != SourceEdited(id)
  }

  /** Continue any run from a state with a suspended source. If nobody edits the source and it is not
      suspended at the end, then since that state some pass has evaluated as Compliant a report whose
      labels led to the source, and resumed it on that report's behalf. */
  lemma SuspensionSticksUntilCompliant(w: World, reqs: seq<Request>, connectors: seq<Platform>, id: SourceId)
    requires Inv(w) && Held(w, id)
    requires Unedited(w, RunPasses(w, reqs, connectors), id)
    ensures var w' := RunPasses(w, reqs, connectors);
            Held(w', id) ||
            exists m, j :: |w.log| <= m < j < |w'.log| && w'.log[j].Resumed? && w'.log[j].id == id
                           && w'.log[m] == Evaluated(w'.log[j].key, Compliant)
  {
    RunLasts(w, reqs, connectors);
    var w' := RunPasses(w, reqs, connectors);
    assert Unedited(w, w', id);
    if !Held(w', id) {
      var j :| |w.log| <= j < |w'.log| && Releases(w'.log[j], id);
      assert w'.log[j].Resumed?;
      var m :| |w.log| <= m < j && w'.log[m] == Evaluated(w'.log[j].key, Compliant);
    }
  }
}
