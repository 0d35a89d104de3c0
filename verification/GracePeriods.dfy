/** The invariants of Safety carried through every action, pass and run of the policy controller. */
module GracePeriods {
  import opened Wrappers
  import opened Json
  import opened Model
  import opened Compliance
  import opened Cluster
  import opened Patches
  import opened Enforcement
  import opened Safety

  /** An up-to-date save writes a stamp over none or over itself, and only removes one when the report's
      latest evaluation was Compliant. */
  ghost predicate MaySave(w: World, c: Report) {
    && c.rv <= w.rev
    && StampExplained(w.log, c.key, StampOf(c.annotations))
    && (UpToDate(w, c) ==>
          || StoredStamp(w, c.key) == None || StoredStamp(w, c.key) == StampOf(c.annotations)
          || (StampOf(c.annotations) == None && LatestLevel(w.log, c.key) == Some(Compliant)))
  }

  /** The world after an applied save. */
  function SavedWorld(w: World, c: Report): World
    requires c.key in w.reports
  {
    Log(Store(w, w.reports[c.key].(labels := c.labels, annotations := c.annotations)), Saved(c.key, StampOf(c.annotations)))
  }

  lemma SavedLog(w: World, c: Report)
    requires Inv(w) && MaySave(w, c) && UpToDate(w, c)
    ensures var w' := SavedWorld(w, c);
            LogOk(w'.log) && SameLevels(w, w') && StampExplained(w'.log, c.key, StampOf(c.annotations))
            && (forall k :: Replay(w'.log, k) == StoredStamp(w', k))
  {
    var e := Saved(c.key, StampOf(c.annotations));
    var w' := SavedWorld(w, c);
    assert ReportOk(w, c.key);
    assert w'.log[..|w.log|] == w.log;
    assert Replay(w.log, c.key) == StoredStamp(w, c.key);
    LogGrows(w.log, e);
    if StampOf(c.annotations).Some? {
      ExplanationSurvives(w.log, w'.log, c.key, StampOf(c.annotations));
    }
    forall k ensures Replay(w'.log, k) == StoredStamp(w', k) && LatestLevel(w'.log, k) == LatestLevel(w.log, k) {
      LastEvent(w.log, e, k);
    }
  }

  lemma SavedGrows(w: World, c: Report)
    requires Inv(w) && UpToDate(w, c)
    ensures Grows(w, SavedWorld(w, c), {c.key})
  {
    assert ReportOk(w, c.key);
  }

  /** An applied save keeps the invariants, and both the copy and the stored report may be used on. */
  lemma AppliedSaveKeeps(w: World, c: Report)
    requires Inv(w) && MaySave(w, c) && UpToDate(w, c)
    ensures var w' := SavedWorld(w, c);
            Inv(w') && Grows(w, w', {c.key}) && SameLevels(w, w') && StoredStamp(w', c.key) == StampOf(c.annotations)
            && CopyOk(w', c) && CopyOk(w', w'.reports[c.key]) && w'.reports[c.key].key == c.key
  {
    var w' := SavedWorld(w, c);
    assert ReportOk(w, c.key);
    SavedLog(w, c);
    SavedGrows(w, c);
    CopiesStayCurrent(w, w');
    forall k | k in w'.reports ensures ReportOk(w', k) {
      if k != c.key {
        assert ReportOk(w, k);
        ExplanationSurvives(w.log, w'.log, k, StampOf(w.reports[k].annotations));
      }
    }
  }

  /** What a copy may save, it may still save when the call is served. */
  lemma MaySaveOnArrival(w: World, c: Report)
    requires Inv(w) && MaySave(w, c)
    ensures MaySave(Arrive(w), c) && (UpToDate(Arrive(w), c) ==> UpToDate(w, c))
    ensures CopyOk(w, c) ==> CopyOk(Arrive(w), c)
  {
    ArriveKeeps(w);
    ExplanationSurvives(w.log, Arrive(w).log, c.key, StampOf(c.annotations));
  }

  /** A save keeps the copy usable, and a successful one leaves the copy's stamp in the store. */
  lemma SaveKeeps(w: World, c: Report)
    requires Inv(w) && MaySave(w, c)
    ensures var (w', c', ok) := SaveCopy(w, c);
            Inv(w') && Grows(w, w', {c.key}) && SameLevels(w, w') && c'.key == c.key && (CopyOk(w, c) ==> CopyOk(w', c'))
            && (ok ==> StoredStamp(w', c.key) == StampOf(c.annotations))
  {
    var a := Arrive(w);
    ArriveKeeps(w);
    GrowsWeaken(w, a, {c.key});
    MaySaveOnArrival(w, c);
    if !Ending(w).Rejected? && UpToDate(a, c) {
      AppliedSaveKeeps(a, c);
      assert SaveCopy(w, c).0 == SavedWorld(a, c);
      GrowsTransitive(w, a, SavedWorld(a, c), {c.key});
    }
  }

  lemma PatchSourceKeeps(w: World, id: SourceId, patch: Json)
    requires Inv(w)
    ensures var w' := PatchSource(w, id, patch).0; Inv(w') && Grows(w, w', {}) && SameLevels(w, w')
  {
    ArriveKeeps(w);
    FrameKeeps(Arrive(w), PatchSource(w, id, patch).0);
    GrowsTransitive(w, Arrive(w), PatchSource(w, id, patch).0, {});
  }

  lemma AnnotateKeeps(w: World, c: Report)
    requires Inv(w) && CopyOk(w, c)
    ensures var (w', c', _) := ExecuteAnnotate(w, c);
            Inv(w') && Grows(w, w', {c.key}) && SameLevels(w, w') && c'.key == c.key && CopyOk(w', c')
  {
    assert StampOf(Annotated(c).annotations) == StampOf(c.annotations);
    SaveKeeps(w, Annotated(c));
  }

  /** Sending a suspension is warranted by an explained stamp whose grace period is over. */
  lemma SendSuspendKeeps(w: World, c: Report, grace: Grace, connectors: seq<Platform>)
    requires Inv(w) && CopyOk(w, c)
    requires LatestLevel(w.log, c.key).Some? && LatestLevel(w.log, c.key) != Some(Compliant)
    requires grace.Period? ==> StampOf(c.annotations).Some? && StampOf(c.annotations).value.Instant?
                               && w.now - StampOf(c.annotations).value.ns >= grace.ns
    ensures var w' := SendSuspend(w, c, grace, connectors).0;
            Inv(w') && Grows(w, w', {}) && SameLevels(w, w') && CopyOk(w', c)
  {
    var target := Target(w.registry, connectors, c.labels);
    if target.None? {
      FrameKeeps(w, w);
    } else {
      var e := Suspended(c.key, target.value, grace, w.now);
      var w1 := Log(w, e);
      assert w1.log[..|w.log|] == w.log;
      if grace.Period? {
        var detected := StampOf(c.annotations).value.ns;
        var i: nat :| Explains(w.log, i, c.key, detected);
        FormatLosesLessThanASecond(w.log[i].at);
        assert Warrants(w1.log, i, |w.log|);
      }
      LogKeeps(w, e);
      PatchSourceKeeps(w1, target.value, SuspendPatch(target.value.platform));
      GrowsTransitive(w, w1, SendSuspend(w, c, grace, connectors).0, {});
      CopySurvives(w, SendSuspend(w, c, grace, connectors).0, {}, c);
    }
  }

  /** Stamping the copy: the new stamp is explained by its own logged step. */
  lemma StampingKeeps(w: World, c: Report)
    requires Inv(w) && CopyOk(w, c) && StampOf(c.annotations) == None
    ensures var w1 := Log(w, Stamped(c.key, w.now));
            Inv(w1) && Grows(w, w1, {}) && SameLevels(w, w1) && CopyOk(w1, Stamp(c, w.now))
  {
    var e := Stamped(c.key, w.now);
    LogKeeps(w, e);
    var log := w.log + [e];
    assert Explains(log, |w.log|, c.key, FloorToSecond(w.now));
    assert StampOf(Stamp(c, w.now).annotations) == Some(FormatTime(w.now));
  }

  lemma StampAndSaveKeeps(w: World, c: Report)
    requires Inv(w) && CopyOk(w, c) && StampOf(c.annotations) == None
    ensures var (w', c', _) := SaveCopy(Log(w, Stamped(c.key, w.now)), Stamp(c, w.now));
            Inv(w') && Grows(w, w', {c.key}) && SameLevels(w, w') && c'.key == c.key && CopyOk(w', c')
  {
    var w1 := Log(w, Stamped(c.key, w.now));
    StampingKeeps(w, c);
    GrowsWeaken(w, w1, {c.key});
    SaveKeeps(w1, Stamp(c, w.now));
    GrowsTransitive(w, w1, SaveCopy(w1, Stamp(c, w.now)).0, {c.key});
  }

  lemma SuspendSyncKeeps(w: World, c: Report, grace: Grace, connectors: seq<Platform>)
    requires Inv(w) && CopyOk(w, c)
    requires LatestLevel(w.log, c.key).Some? && LatestLevel(w.log, c.key) != Some(Compliant)
    ensures var (w', c', _) := ExecuteSuspendSync(w, c, grace, connectors);
            Inv(w') && Grows(w, w', {c.key}) && SameLevels(w, w') && c'.key == c.key && CopyOk(w', c')
  {
    var a := Arrive(w);
    var w' := ExecuteSuspendSync(w, c, grace, connectors).0;
    if grace.Malformed? || (grace.Period? && StampOf(c.annotations).Some? && StampOf(c.annotations).value.Raw?) {
      FrameKeeps(w, w);
      GrowsWeaken(w, w, {c.key});
    } else if grace.NoGrace? {
      SendSuspendKeeps(w, c, grace, connectors);
      GrowsWeaken(w, w', {c.key});
    } else {
      ArriveKeeps(w);
      CopySurvives(w, a, {}, c);
      GrowsWeaken(w, a, {c.key});
      if StampOf(c.annotations).None? {
        StampAndSaveKeeps(a, c);
        GrowsTransitive(w, a, w', {c.key});
      } else if a.now - StampOf(c.annotations).value.ns >= grace.ns {
        SendSuspendKeeps(a, c, grace, connectors);
        GrowsTransitive(w, a, w', {});
        GrowsWeaken(w, w', {c.key});
      }
    }
  }

  lemma PatchLabelKeeps(w: World, ref: WorkloadRef, patch: Json)
    requires Inv(w)
    ensures var w' := PatchLabel(w, ref, patch).0; Inv(w') && Grows(w, w', {}) && SameLevels(w, w')
  {
    var w1 := Arrive(w);
    var w' := PatchLabel(w, ref, patch).0;
    ArriveKeeps(w);
    if GetWorkload(w, ref).1.Found? {
      ArriveKeeps(w1);
      FrameKeeps(Arrive(w1), w');
      GrowsTransitive(w1, Arrive(w1), w', {});
      GrowsTransitive(w, w1, w', {});
    }
  }

  lemma {:induction false} LabelWorkloadsKeeps(w: World, refs: seq<WorkloadRef>, risk: string)
    requires Inv(w)
    ensures var w' := ExecuteLabelWorkloads(w, refs, risk); Inv(w') && Grows(w, w', {}) && SameLevels(w, w')
    decreases refs
  {
    FrameKeeps(w, w);
    if refs != [] {
      var w1 := LabelWorkload(w, refs[0], risk);
      PatchLabelKeeps(w, refs[0], RiskPatch(risk));
      LabelWorkloadsKeeps(w1, refs[1..], risk);
      GrowsTransitive(w, w1, ExecuteLabelWorkloads(w, refs, risk), {});
    }
  }

  lemma {:induction false} UnlabelWorkloadsKeeps(w: World, refs: seq<WorkloadRef>)
    requires Inv(w)
    ensures var w' := UnlabelWorkloads(w, refs); Inv(w') && Grows(w, w', {}) && SameLevels(w, w')
    decreases refs
  {
    FrameKeeps(w, w);
    if refs != [] {
      var w1 := UnlabelWorkload(w, refs[0]);
      PatchLabelKeeps(w, refs[0], UnlabelPatch());
      UnlabelWorkloadsKeeps(w1, refs[1..]);
      GrowsTransitive(w, w1, UnlabelWorkloads(w, refs), {});
    }
  }

  lemma SendResumeKeeps(w: World, c: Report, connectors: seq<Platform>)
    requires Inv(w) && LatestLevel(w.log, c.key) == Some(Compliant)
    ensures var w' := SendResume(w, c, connectors); Inv(w') && Grows(w, w', {}) && SameLevels(w, w')
  {
    var target := Target(w.registry, connectors, c.labels);
    if target.None? {
      FrameKeeps(w, w);
    } else {
      var e := Resumed(c.key, target.value);
      var w1 := Log(w, e);
      assert w1.log[..|w.log|] == w.log;
      LogKeeps(w, e);
      PatchSourceKeeps(w1, target.value, ResumePatch(target.value.platform));
      GrowsTransitive(w, w1, SendResume(w, c, connectors), {});
    }
  }

  /** What follows once the annotations are gone. */
  lemma UndoKeeps(w: World, c: Report, connectors: seq<Platform>)
    requires Inv(w) && StoredStamp(w, c.key) == None && LatestLevel(w.log, c.key) == Some(Compliant)
    ensures var w' := UnlabelWorkloads(SendResume(Log(w, Restored(c.key)), c, connectors), c.status.workloads);
            Inv(w') && Grows(w, w', {c.key}) && SameLevels(w, w')
  {
    var e := Restored(c.key);
    var w1 := Log(w, e);
    var w2 := SendResume(w1, c, connectors);
    var w3 := UnlabelWorkloads(w2, c.status.workloads);
    assert w1.log[..|w.log|] == w.log;
    LogKeeps(w, e);
    SendResumeKeeps(w1, c, connectors);
    UnlabelWorkloadsKeeps(w2, c.status.workloads);
    GrowsTransitive(w1, w2, w3, {});
    GrowsWeaken(w1, w3, {c.key});
    GrowsTransitive(w, w1, w3, {c.key});
  }

  lemma RestoreKeeps(w: World, c: Report, connectors: seq<Platform>)
    requires Inv(w) && CopyOk(w, c) && LatestLevel(w.log, c.key) == Some(Compliant)
    ensures var w' := RestoreCompliance(w, c, connectors).0; Inv(w') && Grows(w, w', {c.key}) && SameLevels(w, w')
  {
    FrameKeeps(w, w);
    GrowsWeaken(w, w, {c.key});
    assert StampOf(Cleared(c).annotations) == None;
    SaveKeeps(w, Cleared(c));
    var (w1, c1, ok) := if c.annotations.Keys !! ENFORCEMENT_KEYS then (w, c, true) else SaveCopy(w, Cleared(c));
    if ok {
      UndoKeeps(w1, c1, connectors);
      GrowsTransitive(w, w1, RestoreCompliance(w, c, connectors).0, {c.key});
    }
  }

  lemma ExecuteKeeps(w: World, c: Report, action: Action, level: Level, connectors: seq<Platform>)
    requires Inv(w) && CopyOk(w, c)
    requires LatestLevel(w.log, c.key) == Some(level) && level != Compliant
    ensures var (w', c', _) := Execute(w, c, action, level, connectors);
            Inv(w') && Grows(w, w', {c.key}) && SameLevels(w, w') && c'.key == c.key && CopyOk(w', c')
  {
    var w' := Execute(w, c, action, level, connectors).0;
    FrameKeeps(w, w);
    match action.kind
    case Annotate => AnnotateKeeps(w, c);
    case Alert =>
      ArriveKeeps(w);
      CopySurvives(w, w', {}, c);
      GrowsWeaken(w, w', {c.key});
    case SuspendSync => SuspendSyncKeeps(w, c, action.grace, connectors);
    case LabelWorkloads =>
      LabelWorkloadsKeeps(w, c.status.workloads, LowerName(level));
      CopySurvives(w, w', {}, c);
      GrowsWeaken(w, w', {c.key});
    case OtherAction(_) => GrowsWeaken(w, w', {c.key});
  }

  lemma {:induction false} ActionsKeep(w: World, c: Report, actions: seq<Action>, level: Level, connectors: seq<Platform>)
    requires Inv(w) && CopyOk(w, c)
    requires LatestLevel(w.log, c.key) == Some(level) && level != Compliant
    ensures var w' := ExecuteActions(w, c, actions, level, connectors).0;
            Inv(w') && Grows(w, w', {c.key}) && SameLevels(w, w')
    decreases actions
  {
    if actions == [] {
      FrameKeeps(w, w);
      GrowsWeaken(w, w, {c.key});
    } else if !TriggerMatches(actions[0].trigger, level) {
      ActionsKeep(w, c, actions[1..], level, connectors);
    } else {
      var (w1, c1, _) := Execute(w, c, actions[0], level, connectors);
      ExecuteKeeps(w, c, actions[0], level, connectors);
      ActionsKeep(w1, c1, actions[1..], level, connectors);
      GrowsTransitive(w, w1, ExecuteActions(w, c, actions, level, connectors).0, {c.key});
    }
  }

  lemma EnforcementKeeps(w: World, c: Report, actions: seq<Action>, level: Level, connectors: seq<Platform>)
    requires Inv(w) && CopyOk(w, c) && LatestLevel(w.log, c.key) == Some(level)
    ensures var w' := ExecuteEnforcement(w, c, actions, level, connectors).0; Inv(w') && Grows(w, w', {c.key})
  {
    if level == Compliant {
      RestoreKeeps(w, c, connectors);
    } else {
      ActionsKeep(w, c, actions, level, connectors);
    }
  }

  lemma HandleReportKeeps(w: World, c: Report, spec: PolicySpec, connectors: seq<Platform>)
    requires Inv(w) && CopyOk(w, c)
    ensures var w' := HandleReport(w, c, spec, connectors); Inv(w') && Grows(w, w', {c.key})
  {
    FrameKeeps(w, w);
    GrowsWeaken(w, w, {c.key});
    if SelectorMatches(spec.selector, c) {
      var level := Evaluate(spec.thresholds, c.status);
      var e := Evaluated(c.key, level);
      var w1 := Log(w, e);
      LogKeeps(w, e);
      LastEvent(w.log, e, c.key);
      CopySurvives(w, w1, {}, c);
      GrowsWeaken(w, w1, {c.key});
      EnforcementKeeps(w1, c, spec.enforcement, level, connectors);
      GrowsTransitive(w, w1, HandleReport(w, c, spec, connectors), {c.key});
    }
  }

  ghost predicate CopiesOk(w: World, listed: seq<Report>) {
    && (forall i :: 0 <= i < |listed| ==> CopyOk(w, listed[i]))
    && (forall i, j :: 0 <= i < j < |listed| ==> listed[i].key != listed[j].key)
  }

  lemma HandleFirstKeeps(w: World, listed: seq<Report>, spec: PolicySpec, connectors: seq<Platform>)
    requires Inv(w) && CopiesOk(w, listed) && listed != []
    ensures var w1 := HandleReport(w, listed[0], spec, connectors); Inv(w1) && Evolves(w, w1) && CopiesOk(w1, listed[1..])
  {
    var w1 := HandleReport(w, listed[0], spec, connectors);
    HandleReportKeeps(w, listed[0], spec, connectors);
    forall i | 0 <= i < |listed[1..]| ensures CopyOk(w1, listed[1..][i]) {
      CopySurvives(w, w1, {listed[0].key}, listed[i + 1]);
    }
  }

  lemma {:induction false} HandleReportsKeep(w: World, listed: seq<Report>, spec: PolicySpec, connectors: seq<Platform>)
    requires Inv(w) && CopiesOk(w, listed)
    ensures Inv(HandleReports(w, listed, spec, connectors)) && Evolves(w, HandleReports(w, listed, spec, connectors))
    decreases listed
  {
    if listed != [] {
      HandleFirstKeeps(w, listed, spec, connectors);
      HandleReportsKeep(HandleReport(w, listed[0], spec, connectors), listed[1..], spec, connectors);
    }
  }

  /** A listing holds each stored report of the namespace that was enumerated, once. */
  lemma {:induction false} ListingIsFaithful(w: World, ns: string, order: seq<Key>)
    requires forall k :: k in w.reports ==> w.reports[k].key == k
    ensures var l := Listing(w.reports, ns, order);
            (forall r :: r in l <==> r.key in order && r.key in w.reports && (ns == "" || r.key.ns == ns) && r == w.reports[r.key])
            && (forall i, j :: 0 <= i < j < |l| ==> l[i].key != l[j].key)
    decreases order
  {
    if order != [] {
      ListingIsFaithful(w, ns, order[1..]);
      var rest := Listing(w.reports, ns, order[1..]);
      forall i | 0 <= i < |rest| ensures rest[i].key in order[1..] { assert rest[i] in rest; }
    }
  }

  lemma ListedCopiesAreOk(w: World, ns: string, order: seq<Key>)
    requires Inv(w)
    ensures CopiesOk(w, Listing(w.reports, ns, order))
  {
    var listed := Listing(w.reports, ns, order);
    forall k | k in w.reports ensures w.reports[k].key == k { assert ReportOk(w, k); }
    ListingIsFaithful(w, ns, order);
    forall i | 0 <= i < |listed| ensures CopyOk(w, listed[i]) {
      assert listed[i] in listed;
      assert ReportOk(w, listed[i].key);
    }
  }

  lemma PolicyStatusKeeps(w: World, key: Key, p: Policy)
    requires Inv(w)
    ensures Inv(UpdatePolicyStatus(w, key, p).0) && Evolves(w, UpdatePolicyStatus(w, key, p).0)
  {
    ArriveKeeps(w);
    FrameKeeps(Arrive(w), UpdatePolicyStatus(w, key, p).0);
  }

  lemma PassKeeps(w: World, req: Request, connectors: seq<Platform>)
    requires Inv(w)
    ensures Inv(PolicyPass(w, req, connectors)) && Evolves(w, PolicyPass(w, req, connectors))
  {
    var (w1, policy) := GetPolicy(w, req.policy);
    ArriveKeeps(w);
    if policy.Found? {
      var (w2, listed) := ListReports(w1, req.policy.ns, req.order);
      ArriveKeeps(w1);
      if listed.Some? {
        ListedCopiesAreOk(w2, req.policy.ns, req.order);
        var w3 := HandleReports(w2, listed.value, policy.value.spec, connectors);
        HandleReportsKeep(w2, listed.value, policy.value.spec, connectors);
        PolicyStatusKeeps(w3, req.policy, policy.value.(evaluated := Some(|listed.value|)));
      }
    }
  }

  lemma {:induction false} RunKeeps(w: World, reqs: seq<Request>, connectors: seq<Platform>)
    requires Inv(w)
    ensures Inv(RunPasses(w, reqs, connectors)) && Evolves(w, RunPasses(w, reqs, connectors))
    decreases reqs
  {
    if reqs != [] {
      PassKeeps(w, reqs[0], connectors);
      RunKeeps(PolicyPass(w, reqs[0], connectors), reqs[1..], connectors);
    }
  }

  lemma InitialIsGood(w: World)
    requires Initial(w)
    ensures Inv(w)
  {
    forall k | k in w.reports ensures ReportOk(w, k) {}
  }

  /** Every stored status is pristine or consistent after every run, if it was at the start. */
  lemma StatusesStaySound(w: World, reqs: seq<Request>, connectors: seq<Platform>)
    requires Initial(w) && forall k :: k in w.reports ==> StatusSound(w.reports[k].status)
    ensures var w' := RunPasses(w, reqs, connectors); forall k :: k in w'.reports ==> StatusSound(w'.reports[k].status)
  {
    InitialIsGood(w);
    RunKeeps(w, reqs, connectors);
  }

  function Prefix<T>(s: seq<T>, n: nat): seq<T> {
    if n <= |s| then s[..n] else s
  }

  /** A pass interrupted: the world in which the next call is served once the policy was read, or the
      reports listed, or `n` of them handled and `m` actions of the next one carried out. */
  function WithinPass(w: World, req: Request, connectors: seq<Platform>, n: nat, m: nat): World {
    var (w1, policy) := GetPolicy(w, req.policy);
    if !policy.Found? then w1
    else
      var (w2, listed) := ListReports(w1, req.policy.ns, req.order);
      if listed.None? then w2 else Arrive(WithinListed(w2, listed.value, policy.value.spec, connectors, n, m))
  }

  function WithinListed(w: World, listed: seq<Report>, spec: PolicySpec, connectors: seq<Platform>, n: nat, m: nat): World {
    var w' := HandleReports(w, Prefix(listed, n), spec, connectors);
    if n >= |listed| then w' else WithinReport(w', listed[n], spec, connectors, m)
  }

  function WithinReport(w: World, c: Report, spec: PolicySpec, connectors: seq<Platform>, m: nat): World {
    var level := Evaluate(spec.thresholds, c.status);
    if !SelectorMatches(spec.selector, c) then w
    else if level == Compliant then Log(w, Evaluated(c.key, level))
    else ExecuteActions(Log(w, Evaluated(c.key, level)), c, Prefix(spec.enforcement, m), level, connectors).0
  }

  lemma WithinReportKeeps(w: World, c: Report, spec: PolicySpec, connectors: seq<Platform>, m: nat)
    requires Inv(w) && CopyOk(w, c)
    ensures var w' := WithinReport(w, c, spec, connectors, m); Inv(w') && Evolves(w, w')
  {
    FrameKeeps(w, w);
    if SelectorMatches(spec.selector, c) {
      var level := Evaluate(spec.thresholds, c.status);
      var e := Evaluated(c.key, level);
      var w1 := Log(w, e);
      LogKeeps(w, e);
      LastEvent(w.log, e, c.key);
      CopySurvives(w, w1, {}, c);
      if level != Compliant { ActionsKeep(w1, c, Prefix(spec.enforcement, m), level, connectors); }
    }
  }

  /** After some of the listed reports were handled, the copies of the others may still be used. */
  lemma {:induction false} PrefixKeeps(w: World, front: seq<Report>, rest: seq<Report>, spec: PolicySpec, connectors: seq<Platform>)
    requires Inv(w) && CopiesOk(w, front + rest)
    ensures var w' := HandleReports(w, front, spec, connectors); Inv(w') && Evolves(w, w') && CopiesOk(w', rest)
    decreases front
  {
    if front == [] {
      assert front + rest == rest;
    } else {
      var w1 := HandleReport(w, front[0], spec, connectors);
      HandleFirstKeeps(w, front + rest, spec, connectors);
      assert (front + rest)[1..] == front[1..] + rest;
      PrefixKeeps(w1, front[1..], rest, spec, connectors);
    }
  }

  lemma WithinListedKeeps(w: World, listed: seq<Report>, spec: PolicySpec, connectors: seq<Platform>, n: nat, m: nat)
    requires Inv(w) && CopiesOk(w, listed)
    ensures var w' := WithinListed(w, listed, spec, connectors, n, m); Inv(w') && Evolves(w, w')
  {
    var front := Prefix(listed, n);
    var rest := listed[|front|..];
    assert front + rest == listed;
    PrefixKeeps(w, front, rest, spec, connectors);
    if n < |listed| {
      assert rest[0] == listed[n];
      WithinReportKeeps(HandleReports(w, front, spec, connectors), listed[n], spec, connectors, m);
    }
  }

  lemma WithinPassKeeps(w: World, req: Request, connectors: seq<Platform>, n: nat, m: nat)
    requires Inv(w)
    ensures var w' := WithinPass(w, req, connectors, n, m); Inv(w') && Evolves(w, w')
  {
    var (w1, policy) := GetPolicy(w, req.policy);
    ArriveKeeps(w);
    if policy.Found? {
      var (w2, listed) := ListReports(w1, req.policy.ns, req.order);
      ArriveKeeps(w1);
      if listed.Some? {
        ListedCopiesAreOk(w2, req.policy.ns, req.order);
        WithinListedKeeps(w2, listed.value, policy.value.spec, connectors, n, m);
        ArriveKeeps(WithinListed(w2, listed.value, policy.value.spec, connectors, n, m));
      }
    }
  }

  /** The same in the midst of a pass, whenever a call is served between two reports or two actions. */
  lemma StatusesStaySoundWithin(w: World, reqs: seq<Request>, req: Request, connectors: seq<Platform>, n: nat, m: nat)
    requires Initial(w) && forall k :: k in w.reports ==> StatusSound(w.reports[k].status)
    ensures var w' := WithinPass(RunPasses(w, reqs, connectors), req, connectors, n, m);
            forall k :: k in w'.reports ==> StatusSound(w'.reports[k].status)
  {
    InitialIsGood(w);
    RunKeeps(w, reqs, connectors);
    StatusesStaySound(w, reqs, connectors);
    WithinPassKeeps(RunPasses(w, reqs, connectors), req, connectors, n, m);
  }

  /** Grace-period safety over every run: in every interleaving, every suspension sent under a grace
      period comes more than that period, less the second lost in formatting, after a stamping step of
      the same report, with neither a restoration of that report nor a clearing of its stamp in between. */
  lemma GracePeriodSafety(w: World, reqs: seq<Request>, connectors: seq<Platform>)
    requires Initial(w)
    ensures var log := RunPasses(w, reqs, connectors).log;
            forall j :: 0 <= j < |log| && log[j].Suspended? && log[j].grace.Period? ==> exists i: nat :: Warrants(log, i, j)
  {
    InitialIsGood(w);
    RunKeeps(w, reqs, connectors);
    var log := RunPasses(w, reqs, connectors).log;
    forall j | 0 <= j < |log| && log[j].Suspended? && log[j].grace.Period? ensures exists i: nat :: Warrants(log, i, j) {
      assert EventOk(log, j);
    }
  }

  /** Every suspension acts on the report's latest evaluation, which was not Compliant; every
      restoration and resumption acts on a latest evaluation that was. */
  lemma PatchesFollowEvaluation(w: World, reqs: seq<Request>, connectors: seq<Platform>)
    requires Initial(w)
    ensures var log := RunPasses(w, reqs, connectors).log;
            forall j :: 0 <= j < |log| ==>
              (log[j].Suspended? ==> LatestLevel(log[..j], log[j].key).Some? && LatestLevel(log[..j], log[j].key) != Some(Compliant))
              && (log[j].Restored? || log[j].Resumed? ==> LatestLevel(log[..j], log[j].key) == Some(Compliant))
  {
    InitialIsGood(w);
    RunKeeps(w, reqs, connectors);
    var log := RunPasses(w, reqs, connectors).log;
    forall j | 0 <= j < |log|
      ensures (log[j].Suspended? ==> LatestLevel(log[..j], log[j].key).Some? && LatestLevel(log[..j], log[j].key) != Some(Compliant))
      ensures (log[j].Restored? || log[j].Resumed? ==> LatestLevel(log[..j], log[j].key) == Some(Compliant))
    {
      assert EventOk(log, j);
    }
  }

  /** The event takes a stored stamp away: the report is deleted, or a save of a restoration clears it. */
  ghost predicate TakesStamp(log: seq<Event>, m: nat, key: Key)
    requires m < |log|
  {
    log[m] == Deleted(key) || (Clears(log[m], key) && LatestLevel(log[..m], key) == Some(Compliant))
  }

  /** Between two moments of a proper log a stored stamp stays what it was, or it was taken away. */
  lemma {:induction false} StampStays(log: seq<Event>, i: nat, j: nat, key: Key)
    requires LogOk(log) && i <= j <= |log| && Replay(log[..i], key).Some?
    ensures Replay(log[..j], key) == Replay(log[..i], key) || exists m :: i <= m < j && TakesStamp(log, m, key)
    decreases j
  {
    if i < j {
      StampStays(log, i, j - 1, key);
      assert log[..j] == log[..j - 1] + [log[j - 1]];
      LastEvent(log[..j - 1], log[j - 1], key);
      assert EventOk(log, j - 1);
      if Replay(log[..j - 1], key) == Replay(log[..i], key) && Replay(log[..j], key) != Replay(log[..i], key) {
        assert TakesStamp(log, j - 1, key);
      }
    }
  }

  /** The stamp is write-once: from any moment of any run on, a stored stamp keeps its value, in the log
      and in the final store, until the report is deleted or a save clears it while the report's latest
      evaluation is Compliant. No annotate, suspendSync, analysis or report write changes it. */
  lemma StampIsWriteOnce(w: World, reqs: seq<Request>, connectors: seq<Platform>, i: nat, j: nat, key: Key)
    requires Initial(w)
    requires var log := RunPasses(w, reqs, connectors).log; i <= j <= |log| && Replay(log[..i], key).Some?
    ensures var w' := RunPasses(w, reqs, connectors);
            (exists m :: i <= m < j && TakesStamp(w'.log, m, key))
            || (Replay(w'.log[..j], key) == Replay(w'.log[..i], key)
                && (j == |w'.log| ==> key in w'.reports && StampOf(w'.reports[key].annotations) == Replay(w'.log[..i], key)))
  {
    InitialIsGood(w);
    RunKeeps(w, reqs, connectors);
    var w' := RunPasses(w, reqs, connectors);
    StampStays(w'.log, i, j, key);
    if j == |w'.log| {
      assert w'.log[..j] == w'.log;
      assert Replay(w'.log, key) == StoredStamp(w', key);
    }
  }
}
