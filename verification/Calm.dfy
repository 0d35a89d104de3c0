/** Passes in which every call succeeds and nobody else acts meanwhile; time may pass at every call.
    Each action then has an exact effect on the store. */
module Calm {
  import opened Wrappers
  import opened Json
  import opened Model
  import opened Cluster
  import opened Patches
  import opened Enforcement

  ghost predicate IsCalm(w: World) {
    forall i :: 0 <= i < |w.turns| ==> w.turns[i].before == [] && w.turns[i].outcome == Done
  }

  /** The copy is the stored report. */
  predicate Current(w: World, c: Report) {
    c.key in w.reports && w.reports[c.key] == c
  }

  /** Every report is stored under its own key. */
  ghost predicate Keyed(w: World) {
    forall k :: k in w.reports ==> w.reports[k].key == k
  }

  function EventKey(e: Event): Option<Key> {
    match e
    case SourceEdited(_) => None
    case _ => Some(e.key)
  }

  /** Calm work on behalf of one report: only that report may change, keeping labels and status. */
  ghost predicate WorksOn(w: World, w': World, key: Key) {
    && IsCalm(w') && w.now <= w'.now
    && w'.registry == w.registry && w'.policies == w.policies
    && w'.reports.Keys == w.reports.Keys
    && (forall k :: k in w.reports && k != key ==> w'.reports[k] == w.reports[k])
    && (key in w.reports ==> w'.reports[key].labels == w.reports[key].labels && w'.reports[key].status == w.reports[key].status
                             && w'.reports[key].key == w.reports[key].key)
    && w.log <= w'.log
    && (forall j :: |w.log| <= j < |w'.log| ==> EventKey(w'.log[j]) == Some(key))
  }

  /** Calm work that leaves every report as it is. */
  ghost predicate LeavesReports(w: World, w': World, key: Key) {
    WorksOn(w, w', key) && w'.reports == w.reports
  }

  lemma WorksTransitive(a: World, b: World, c: World, key: Key)
    requires WorksOn(a, b, key) && WorksOn(b, c, key)
    ensures WorksOn(a, c, key)
  {
    forall j | |a.log| <= j < |c.log| ensures EventKey(c.log[j]) == Some(key) {
      if j < |b.log| { assert b.log[j] == c.log[j]; }
    }
  }

  lemma CalmArrive(w: World)
    requires IsCalm(w)
    ensures Ending(w) == Done && IsCalm(Arrive(w))
    ensures Arrive(w) == w.(now := Arrive(w).now, turns := Arrive(w).turns) && w.now <= Arrive(w).now
  {
    if w.turns != [] {
      assert w.turns[0].before == [];
      forall i | 0 <= i < |w.turns[1..]| ensures w.turns[1..][i].before == [] && w.turns[1..][i].outcome == Done {
        assert w.turns[1..][i] == w.turns[i + 1];
      }
    }
  }

  lemma CalmWait(w: World, key: Key)
    requires IsCalm(w)
    ensures var a := Arrive(w);
            LeavesReports(w, a, key) && a.sources == w.sources && a.workloads == w.workloads && a.log == w.log
  {
    CalmArrive(w);
  }

  lemma CalmSave(w: World, c: Report)
    requires IsCalm(w) && UpToDate(w, c) && c == w.reports[c.key].(annotations := c.annotations)
    ensures var (w', c', ok) := SaveCopy(w, c);
            ok && WorksOn(w, w', c.key) && Current(w', c') && c' == c.(rv := c'.rv)
            && w'.sources == w.sources && w'.workloads == w.workloads
            && w'.log == w.log + [Saved(c.key, StampOf(c.annotations))]
  {
    CalmArrive(w);
  }

  lemma CalmStatusUpdate(w: World, c: Report)
    requires IsCalm(w) && Keyed(w) && UpToDate(w, c)
    ensures var (w', stored) := UpdateStatus(w, c);
            stored.Some? && IsCalm(w') && w'.reports == w.reports[c.key := w.reports[c.key].(rv := w.rev + 1, status := c.status)]
  {
    CalmArrive(w);
  }

  lemma CalmCreate(w: World, key: Key, labels: map<LabelKey, string>)
    requires IsCalm(w) && key !in w.reports
    ensures var (w', ok) := CreateReport(w, key, labels);
            ok && IsCalm(w') && w'.reports == w.reports[key := Report(key, w.rev + 1, labels, map[], PRISTINE)]
  {
    CalmArrive(w);
  }

  lemma CalmAnnotate(w: World, c: Report)
    requires IsCalm(w) && Current(w, c)
    ensures var (w', c', _) := ExecuteAnnotate(w, c);
            WorksOn(w, w', c.key) && Current(w', c') && c'.key == c.key && StampOf(c'.annotations) == StampOf(c.annotations)
            && c'.annotations - ENFORCEMENT_KEYS == c.annotations - ENFORCEMENT_KEYS
            && w'.sources == w.sources && w'.workloads == w.workloads
            && w'.log == w.log + [Saved(c.key, StampOf(c.annotations))]
  {
    assert Annotated(c).annotations - ENFORCEMENT_KEYS == c.annotations - ENFORCEMENT_KEYS;
    CalmSave(w, Annotated(c));
  }

  function AnnotationsOf(status: Status): map<AnnotationKey, Text> {
    map[ComplianceState := Raw(StateText(status.state)), FindingSummary := Raw(SummaryText(status.summary))]
  }

  lemma AnnotatedIs(c: Report)
    ensures Annotated(c) == c.(annotations := c.annotations + AnnotationsOf(c.status))
  {
    assert Annotated(c).annotations == c.annotations + AnnotationsOf(c.status);
  }

  /** The annotations say the state and the three counts of the report, and nothing else is written. */
  lemma CalmAnnotateWrites(w: World, c: Report)
    requires IsCalm(w) && Current(w, c)
    ensures var (w', c', ok) := ExecuteAnnotate(w, c);
            ok && c.key in w'.reports && c' == w'.reports[c.key]
            && w'.reports[c.key] == c.(rv := w'.reports[c.key].rv, annotations := c.annotations + AnnotationsOf(c.status))
  {
    AnnotatedIs(c);
    CalmSave(w, Annotated(c));
  }

  lemma CalmLog(w: World, key: Key, e: Event)
    requires IsCalm(w) && EventKey(e) == Some(key)
    ensures LeavesReports(w, Log(w, e), key)
  {}

  lemma CalmPatchSource(w: World, key: Key, id: SourceId, patch: Json)
    requires IsCalm(w)
    ensures var (w', ok) := PatchSource(w, id, patch);
            (ok <==> id in w.sources) && LeavesReports(w, w', key) && w'.workloads == w.workloads && w'.log == w.log
            && w'.sources == if id in w.sources then w.sources[id := MergePatch(w.sources[id], patch)] else w.sources
  {
    CalmArrive(w);
  }

  lemma CalmSend(w: World, key: Key, e: Event, id: SourceId, patch: Json)
    requires IsCalm(w) && EventKey(e) == Some(key)
    ensures var (w', ok) := PatchSource(Log(w, e), id, patch);
            (ok <==> id in w.sources) && LeavesReports(w, w', key) && w'.workloads == w.workloads && w'.log == w.log + [e]
            && w'.sources == if id in w.sources then w.sources[id := MergePatch(w.sources[id], patch)] else w.sources
  {
    CalmLog(w, key, e);
    CalmPatchSource(Log(w, e), key, id, patch);
    WorksTransitive(w, Log(w, e), PatchSource(Log(w, e), id, patch).0, key);
  }

  function PatchedIf(listed: bool, doc: Json, patch: Json): Json {
    if listed then MergePatch(doc, patch) else doc
  }

  /** Every listed and existing Deployment and StatefulSet patched once. */
  function Relabelled(workloads: map<WorkloadRef, Json>, refs: seq<WorkloadRef>, patch: Json): map<WorkloadRef, Json> {
    map r | r in workloads :: PatchedIf(r in refs && Supported(r), workloads[r], patch)
  }

  lemma CalmPatchLabel(w: World, key: Key, ref: WorkloadRef, patch: Json)
    requires IsCalm(w) && Supported(ref)
    ensures var w' := PatchLabel(w, ref, patch).0;
            LeavesReports(w, w', key) && w'.sources == w.sources && w'.log == w.log
            && w'.workloads == Relabelled(w.workloads, [ref], patch)
  {
    var a := Arrive(w);
    CalmWait(w, key);
    CalmArrive(w);
    assert Relabelled(w.workloads, [ref], patch) ==
           if ref in w.workloads then w.workloads[ref := MergePatch(w.workloads[ref], patch)] else w.workloads;
    if ref in w.workloads {
      CalmPatchWorkload(a, key, ref, patch);
      WorksTransitive(w, a, PatchLabel(w, ref, patch).0, key);
    }
  }

  lemma CalmPatchWorkload(w: World, key: Key, ref: WorkloadRef, patch: Json)
    requires IsCalm(w) && ref in w.workloads
    ensures var (w', ok) := PatchWorkload(w, ref, patch);
            ok && LeavesReports(w, w', key) && w'.sources == w.sources && w'.log == w.log
            && w'.workloads == w.workloads[ref := MergePatch(w.workloads[ref], patch)]
  {
    CalmArrive(w);
  }

  /** Patching one workload and then the rest patches all of them, since a patch is idempotent. */
  lemma RelabelledConcat(workloads: map<WorkloadRef, Json>, ref: WorkloadRef, rest: seq<WorkloadRef>, patch: Json)
    ensures Relabelled(Relabelled(workloads, [ref], patch), rest, patch) == Relabelled(workloads, [ref] + rest, patch)
    ensures !Supported(ref) ==> Relabelled(workloads, rest, patch) == Relabelled(workloads, [ref] + rest, patch)
  {
    forall r | r in workloads
      ensures PatchedIf(r in rest && Supported(r), PatchedIf(r in [ref] && Supported(r), workloads[r], patch), patch)
           == PatchedIf(r in [ref] + rest && Supported(r), workloads[r], patch)
    {
      PatchIdempotent(workloads[r], patch);
    }
  }

  lemma {:induction false} CalmLabelWorkloads(w: World, key: Key, refs: seq<WorkloadRef>, risk: string)
    requires IsCalm(w)
    ensures var w' := ExecuteLabelWorkloads(w, refs, risk);
            LeavesReports(w, w', key) && w'.sources == w.sources && w'.log == w.log
            && w'.workloads == Relabelled(w.workloads, refs, RiskPatch(risk))
    decreases refs
  {
    if refs == [] {
      assert Relabelled(w.workloads, refs, RiskPatch(risk)) == w.workloads;
    } else {
      var w1 := LabelWorkload(w, refs[0], risk);
      if Supported(refs[0]) { CalmPatchLabel(w, key, refs[0], RiskPatch(risk)); }
      CalmLabelWorkloads(w1, key, refs[1..], risk);
      RelabelledConcat(w.workloads, refs[0], refs[1..], RiskPatch(risk));
      assert [refs[0]] + refs[1..] == refs;
    }
  }

  lemma {:induction false} CalmUnlabelWorkloads(w: World, key: Key, refs: seq<WorkloadRef>)
    requires IsCalm(w)
    ensures var w' := UnlabelWorkloads(w, refs);
            LeavesReports(w, w', key) && w'.sources == w.sources && w'.log == w.log
            && w'.workloads == Relabelled(w.workloads, refs, UnlabelPatch())
    decreases refs
  {
    if refs == [] {
      assert Relabelled(w.workloads, refs, UnlabelPatch()) == w.workloads;
    } else {
      var w1 := UnlabelWorkload(w, refs[0]);
      if Supported(refs[0]) { CalmPatchLabel(w, key, refs[0], UnlabelPatch()); }
      CalmUnlabelWorkloads(w1, key, refs[1..]);
      RelabelledConcat(w.workloads, refs[0], refs[1..], UnlabelPatch());
      assert [refs[0]] + refs[1..] == refs;
    }
  }

  /** The source documents after a patch to the object the report leads to, if there is one. */
  function Sent(w: World, c: Report, connectors: seq<Platform>, suspend: bool): map<SourceId, Json> {
    var t := Target(w.registry, connectors, c.labels);
    if t.None? || t.value !in w.sources then w.sources
    else w.sources[t.value := MergePatch(w.sources[t.value], if suspend then SuspendPatch(t.value.platform) else ResumePatch(t.value.platform))]
  }

  lemma CalmSendSuspend(w: World, c: Report, grace: Grace, connectors: seq<Platform>)
    requires IsCalm(w)
    ensures var (w', ok) := SendSuspend(w, c, grace, connectors);
            LeavesReports(w, w', c.key) && w'.workloads == w.workloads && w'.sources == Sent(w, c, connectors, true)
            && var t := Target(w.registry, connectors, c.labels);
               (ok <==> t.Some? && t.value in w.sources)
               && w'.log == w.log + if t.Some? then [Suspended(c.key, t.value, grace, w.now)] else []
  {
    var t := Target(w.registry, connectors, c.labels);
    if t.Some? {
      CalmSend(w, c.key, Suspended(c.key, t.value, grace, w.now), t.value, SuspendPatch(t.value.platform));
    }
  }

  lemma CalmSendResume(w: World, c: Report, connectors: seq<Platform>)
    requires IsCalm(w)
    ensures var w' := SendResume(w, c, connectors);
            LeavesReports(w, w', c.key) && w'.workloads == w.workloads && w'.sources == Sent(w, c, connectors, false)
  {
    var t := Target(w.registry, connectors, c.labels);
    if t.Some? {
      CalmSend(w, c.key, Resumed(c.key, t.value), t.value, ResumePatch(t.value.platform));
    }
  }

  /** The first pass over a violation starts the grace period and does nothing else. */
  lemma CalmStamping(w: World, c: Report, g: int, connectors: seq<Platform>)
    requires IsCalm(w) && Current(w, c) && StampOf(c.annotations) == None
    ensures var (w', c', ok) := ExecuteSuspendSync(w, c, Period(g), connectors);
            ok && WorksOn(w, w', c.key) && Current(w', c') && c' == Stamp(c, Arrive(w).now).(rv := c'.rv)
            && w'.sources == w.sources && w'.workloads == w.workloads
            && w'.log == w.log + [Stamped(c.key, Arrive(w).now), Saved(c.key, Some(FormatTime(Arrive(w).now)))]
  {
    var a := Arrive(w);
    var a1 := Log(a, Stamped(c.key, a.now));
    CalmWait(w, c.key);
    CalmLog(a, c.key, Stamped(c.key, a.now));
    WorksTransitive(w, a, a1, c.key);
    assert UpToDate(a1, Stamp(c, a.now));
    CalmSave(a1, Stamp(c, a.now));
    WorksTransitive(w, a1, ExecuteSuspendSync(w, c, Period(g), connectors).0, c.key);
  }

  /** Later passes wait, or send the suspension once the grace period is over. */
  lemma CalmAwait(w: World, c: Report, g: int, detected: int, connectors: seq<Platform>)
    requires IsCalm(w) && StampOf(c.annotations) == Some(Instant(detected))
    ensures var (w', c', ok) := ExecuteSuspendSync(w, c, Period(g), connectors);
            var a := Arrive(w);
            var t := Target(w.registry, connectors, c.labels);
            (ok <==> a.now - detected < g || (t.Some? && t.value in w.sources)) && LeavesReports(w, w', c.key) && c' == c && a.now <= w'.now && w'.workloads == w.workloads
            && w'.sources == (if a.now - detected < g then w.sources else Sent(w, c, connectors, true))
            && w'.log == w.log + (if a.now - detected >= g && t.Some? then [Suspended(c.key, t.value, Period(g), a.now)] else [])
  {
    var a := Arrive(w);
    CalmWait(w, c.key);
    if a.now - detected >= g {
      CalmSendSuspend(a, c, Period(g), connectors);
      WorksTransitive(w, a, SendSuspend(a, c, Period(g), connectors).0, c.key);
    }
  }

  lemma CalmSuspendSync(w: World, c: Report, grace: Grace, connectors: seq<Platform>)
    requires IsCalm(w) && Current(w, c)
    ensures var (w', c', _) := ExecuteSuspendSync(w, c, grace, connectors);
            WorksOn(w, w', c.key) && Current(w', c') && c'.key == c.key
            && c'.annotations - ENFORCEMENT_KEYS == c.annotations - ENFORCEMENT_KEYS
            && w'.workloads == w.workloads && (w'.sources == w.sources || w'.sources == Sent(w, c, connectors, true))
  {
    match grace
    case Malformed =>
    case NoGrace => CalmSendSuspend(w, c, grace, connectors);
    case Period(g) =>
      match StampOf(c.annotations)
      case None => CalmStamping(w, c, g, connectors);
      case Some(Instant(detected)) => CalmAwait(w, c, g, detected, connectors);
      case Some(Raw(_)) =>
  }

  /** What restoration does once the annotations are gone. */
  lemma CalmUndo(w: World, c: Report, connectors: seq<Platform>)
    requires IsCalm(w)
    ensures var w' := UnlabelWorkloads(SendResume(Log(w, Restored(c.key)), c, connectors), c.status.workloads);
            LeavesReports(w, w', c.key) && w'.sources == Sent(w, c, connectors, false)
            && w'.workloads == Relabelled(w.workloads, c.status.workloads, UnlabelPatch())
  {
    var w1 := Log(w, Restored(c.key));
    var w2 := SendResume(w1, c, connectors);
    CalmSendResume(w1, c, connectors);
    CalmUnlabelWorkloads(w2, c.key, c.status.workloads);
    WorksTransitive(w, w1, w2, c.key);
    WorksTransitive(w, w2, UnlabelWorkloads(w2, c.status.workloads), c.key);
  }

  lemma CalmRestore(w: World, c: Report, connectors: seq<Platform>)
    requires IsCalm(w) && Current(w, c)
    ensures var (w', _, ok) := RestoreCompliance(w, c, connectors);
            ok && WorksOn(w, w', c.key)
            && w'.reports[c.key].annotations == c.annotations - ENFORCEMENT_KEYS
            && w'.sources == Sent(w, c, connectors, false)
            && w'.workloads == Relabelled(w.workloads, c.status.workloads, UnlabelPatch())
  {
    if c.annotations.Keys !! ENFORCEMENT_KEYS {
      assert c.annotations - ENFORCEMENT_KEYS == c.annotations;
    } else {
      CalmSave(w, Cleared(c));
    }
    var (w1, c1, ok) := if c.annotations.Keys !! ENFORCEMENT_KEYS then (w, c, true) else SaveCopy(w, Cleared(c));
    CalmUndo(w1, c1, connectors);
    WorksTransitive(w, w1, RestoreCompliance(w, c, connectors).0, c.key);
  }
}
