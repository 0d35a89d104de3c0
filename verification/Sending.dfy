/** Which grace periods let a suspension be sent at all, whatever becomes of the calls and whatever others
    do: one that cannot be read, or a stamp that cannot be read, never does; a missing one always does. */
module Sending {
  import opened Wrappers
  import opened Strings
  import opened Json
  import opened Model
  import opened Compliance
  import opened Cluster
  import opened Patches
  import opened Enforcement
  import opened Calm
  import opened Unrelated

  ghost predicate NothingSent(w: World, w': World) {
    forall j :: |w.log| <= j < |w'.log| ==> !w'.log[j].Suspended?
  }

  /** No source is forgotten and reports stay under their keys; unless `loud`, no suspension is sent. */
  ghost predicate Onward(w: World, w': World, loud: bool) {
    && w.log <= w'.log && w.registry.Keys <= w'.registry.Keys && (Keyed(w) ==> Keyed(w'))
    && (loud || NothingSent(w, w'))
  }

  lemma OnwardTransitive(a: World, b: World, c: World, loud: bool)
    requires Onward(a, b, loud) && Onward(b, c, loud)
    ensures Onward(a, c, loud)
  {
    forall j | !loud && |a.log| <= j < |c.log| ensures !c.log[j].Suspended? {
      if j < |b.log| { assert c.log[j] == b.log[j]; }
    }
  }

  lemma StepOnward(w: World, s: EnvStep)
    ensures Onward(w, ApplyStep(w, s), false)
  {
    StepKeepsKeys(w, s);
    if s.DeleteReport? || s.EditSource? {
      assert |ApplyStep(w, s).log| <= |w.log| + 1;
    } else {
      assert ApplyStep(w, s).log == w.log;
    }
  }

  lemma StepKeepsKeys(w: World, s: EnvStep)
    ensures Keyed(w) ==> Keyed(ApplyStep(w, s))
  {}

  lemma {:induction false} StepsOnward(w: World, ss: seq<EnvStep>)
    ensures Onward(w, ApplySteps(w, ss), false)
    decreases ss
  {
    if ss != [] {
      StepOnward(w, ss[0]);
      StepsOnward(ApplyStep(w, ss[0]), ss[1..]);
      OnwardTransitive(w, ApplyStep(w, ss[0]), ApplySteps(w, ss), false);
    }
  }

  lemma ArriveOnward(w: World)
    ensures Onward(w, Arrive(w), false)
  {
    var w1 := w.(now := w.now + NextTurn(w).delay, turns := if w.turns == [] then [] else w.turns[1..]);
    StepsOnward(w1, NextTurn(w).before);
    OnwardTransitive(w, w1, Arrive(w), false);
  }

  /** A save, refused or not, leaves the copy with its key, labels and annotations. */
  lemma SaveOnward(w: World, c: Report)
    requires Keyed(w)
    ensures var (w', c', _) := SaveCopy(w, c);
            Onward(w, w', false) && c'.key == c.key && c'.labels == c.labels && c'.annotations == c.annotations
  {
    ArriveOnward(w);
    OnwardTransitive(w, Arrive(w), SaveCopy(w, c).0, false);
  }

  lemma PatchSourceOnward(w: World, id: SourceId, patch: Json)
    ensures Onward(w, PatchSource(w, id, patch).0, false)
  {
    ArriveOnward(w);
    OnwardTransitive(w, Arrive(w), PatchSource(w, id, patch).0, false);
  }

  lemma PatchLabelOnward(w: World, ref: WorkloadRef, patch: Json)
    ensures Onward(w, PatchLabel(w, ref, patch).0, false)
  {
    var w1, w' := Arrive(w), PatchLabel(w, ref, patch).0;
    ArriveOnward(w);
    if GetWorkload(w, ref).1.Found? {
      ArriveOnward(w1);
      OnwardTransitive(w1, Arrive(w1), w', false);
      OnwardTransitive(w, w1, w', false);
    }
  }

  lemma {:induction false} LabellingOnward(w: World, refs: seq<WorkloadRef>, risk: string)
    ensures Onward(w, ExecuteLabelWorkloads(w, refs, risk), false)
    decreases refs
  {
    if refs != [] {
      var w1 := LabelWorkload(w, refs[0], risk);
      PatchLabelOnward(w, refs[0], RiskPatch(risk));
      LabellingOnward(w1, refs[1..], risk);
      OnwardTransitive(w, w1, ExecuteLabelWorkloads(w, refs, risk), false);
    }
  }

  lemma {:induction false} UnlabellingOnward(w: World, refs: seq<WorkloadRef>)
    ensures Onward(w, UnlabelWorkloads(w, refs), false)
    decreases refs
  {
    if refs != [] {
      var w1 := UnlabelWorkload(w, refs[0]);
      PatchLabelOnward(w, refs[0], UnlabelPatch());
      UnlabellingOnward(w1, refs[1..]);
      OnwardTransitive(w, w1, UnlabelWorkloads(w, refs), false);
    }
  }

  lemma SendResumeOnward(w: World, c: Report, connectors: seq<Platform>)
    ensures Onward(w, SendResume(w, c, connectors), false)
  {
    var t := Target(w.registry, connectors, c.labels);
    if t.Some? {
      var w1 := Log(w, Resumed(c.key, t.value));
      PatchSourceOnward(w1, t.value, ResumePatch(t.value.platform));
      OnwardTransitive(w, w1, SendResume(w, c, connectors), false);
    }
  }

  lemma UndoOnward(w: World, c: Report, connectors: seq<Platform>)
    ensures Onward(w, UnlabelWorkloads(SendResume(Log(w, Restored(c.key)), c, connectors), c.status.workloads), false)
  {
    var w1 := Log(w, Restored(c.key));
    var w2 := SendResume(w1, c, connectors);
    SendResumeOnward(w1, c, connectors);
    UnlabellingOnward(w2, c.status.workloads);
    OnwardTransitive(w, w1, w2, false);
    OnwardTransitive(w, w2, UnlabelWorkloads(w2, c.status.workloads), false);
  }

  lemma RestoreOnward(w: World, c: Report, connectors: seq<Platform>)
    requires Keyed(w)
    ensures Onward(w, RestoreCompliance(w, c, connectors).0, false)
  {
    var (w1, c1, ok) := if c.annotations.Keys !! ENFORCEMENT_KEYS then (w, c, true) else SaveCopy(w, Cleared(c));
    SaveOnward(w, Cleared(c));
    if ok {
      UndoOnward(w1, c1, connectors);
      OnwardTransitive(w, w1, RestoreCompliance(w, c, connectors).0, false);
    }
  }

  lemma OtherOnward(w: World, c: Report, action: Action, level: Level, connectors: seq<Platform>)
    requires Keyed(w) && action.kind != SuspendSync
    ensures var (w', c', _) := Execute(w, c, action, level, connectors);
            Onward(w, w', false) && c'.key == c.key && c'.labels == c.labels && StampOf(c'.annotations) == StampOf(c.annotations)
  {
    match action.kind
    case Annotate =>
      assert StampOf(Annotated(c).annotations) == StampOf(c.annotations);
      SaveOnward(w, Annotated(c));
    case Alert => ArriveOnward(w);
    case LabelWorkloads => LabellingOnward(w, c.status.workloads, LowerName(level));
    case OtherAction(_) =>
  }

  /** The action is no suspendSync, or one whose grace period, or the report's stamp, cannot be read. */
  predicate Unreadable(action: Action, c: Report) {
    action.kind == SuspendSync ==>
      action.grace.Malformed? || (action.grace.Period? && StampOf(c.annotations).Some? && StampOf(c.annotations).value.Raw?)
  }

  lemma UnreadableOnward(w: World, c: Report, action: Action, level: Level, connectors: seq<Platform>)
    requires Keyed(w) && Unreadable(action, c)
    ensures var (w', c', _) := Execute(w, c, action, level, connectors);
            Onward(w, w', false) && c'.key == c.key && StampOf(c'.annotations) == StampOf(c.annotations)
  {
    if action.kind != SuspendSync { OtherOnward(w, c, action, level, connectors); }
  }

  lemma {:induction false} UnreadableActionsOnward(w: World, c: Report, actions: seq<Action>, level: Level, connectors: seq<Platform>)
    requires Keyed(w) && forall i :: 0 <= i < |actions| && TriggerMatches(actions[i].trigger, level) ==> Unreadable(actions[i], c)
    ensures Onward(w, ExecuteActions(w, c, actions, level, connectors).0, false)
    decreases actions
  {
    if actions != [] {
      if TriggerMatches(actions[0].trigger, level) {
        var (w1, c1, _) := Execute(w, c, actions[0], level, connectors);
        UnreadableOnward(w, c, actions[0], level, connectors);
        UnreadableActionsOnward(w1, c1, actions[1..], level, connectors);
        OnwardTransitive(w, w1, ExecuteActions(w, c, actions, level, connectors).0, false);
      } else {
        UnreadableActionsOnward(w, c, actions[1..], level, connectors);
      }
    }
  }

  /** If no triggered suspendSync has a grace period and a stamp that can be read, handling the report sends
      no suspension, for it or any other. */
  lemma UnreadableGraceSendsNothing(w: World, c: Report, spec: PolicySpec, connectors: seq<Platform>)
    requires Keyed(w)
    requires var level := Evaluate(spec.thresholds, c.status);
             forall i :: 0 <= i < |spec.enforcement| && TriggerMatches(spec.enforcement[i].trigger, level) ==> Unreadable(spec.enforcement[i], c)
    ensures NothingSent(w, HandleReport(w, c, spec, connectors)) && !SuspendedIn(w, HandleReport(w, c, spec, connectors), c.key)
  {
    if SelectorMatches(spec.selector, c) {
      var level := Evaluate(spec.thresholds, c.status);
      var w1 := Log(w, Evaluated(c.key, level));
      RestoreOnward(w1, c, connectors);
      UnreadableActionsOnward(w1, c, spec.enforcement, level, connectors);
      OnwardTransitive(w, w1, HandleReport(w, c, spec, connectors), false);
    }
  }

  lemma SendSuspendOnward(w: World, c: Report, grace: Grace, connectors: seq<Platform>)
    ensures var w' := SendSuspend(w, c, grace, connectors).0;
            Onward(w, w', true) && (Target(w.registry, connectors, c.labels).Some? ==> SuspendedIn(w, w', c.key))
  {
    var t := Target(w.registry, connectors, c.labels);
    if t.Some? {
      var w1 := Log(w, Suspended(c.key, t.value, grace, w.now));
      PatchSourceOnward(w1, t.value, SuspendPatch(t.value.platform));
      var w' := SendSuspend(w, c, grace, connectors).0;
      assert w1.log[|w.log|].Suspended?;
      assert w'.log[|w.log|] == w1.log[|w.log|];
    }
  }

  lemma SuspendSyncOnward(w: World, c: Report, grace: Grace, connectors: seq<Platform>)
    requires Keyed(w)
    ensures var (w', c', _) := ExecuteSuspendSync(w, c, grace, connectors);
            Onward(w, w', true) && c'.key == c.key && c'.labels == c.labels
  {
    var a := Arrive(w);
    ArriveOnward(w);
    match grace
    case Malformed =>
    case NoGrace => SendSuspendOnward(w, c, grace, connectors);
    case Period(_) =>
      match StampOf(c.annotations)
      case None =>
        var a1 := Log(a, Stamped(c.key, a.now));
        SaveOnward(a1, Stamp(c, a.now));
        OnwardTransitive(w, a, a1, true);
        OnwardTransitive(w, a1, SaveCopy(a1, Stamp(c, a.now)).0, true);
      case Some(Raw(_)) =>
      case Some(Instant(_)) =>
        SendSuspendOnward(a, c, grace, connectors);
        OnwardTransitive(w, a, SendSuspend(a, c, grace, connectors).0, true);
  }

  lemma ExecuteOnward(w: World, c: Report, action: Action, level: Level, connectors: seq<Platform>)
    requires Keyed(w)
    ensures var (w', c', _) := Execute(w, c, action, level, connectors);
            Onward(w, w', true) && c'.key == c.key && c'.labels == c.labels
  {
    if action.kind == SuspendSync {
      SuspendSyncOnward(w, c, action.grace, connectors);
    } else {
      OtherOnward(w, c, action, level, connectors);
    }
  }

  lemma {:induction false} ActionsOnward(w: World, c: Report, actions: seq<Action>, level: Level, connectors: seq<Platform>)
    requires Keyed(w)
    ensures Onward(w, ExecuteActions(w, c, actions, level, connectors).0, true)
    decreases actions
  {
    if actions != [] {
      if TriggerMatches(actions[0].trigger, level) {
        var (w1, c1, _) := Execute(w, c, actions[0], level, connectors);
        ExecuteOnward(w, c, actions[0], level, connectors);
        ActionsOnward(w1, c1, actions[1..], level, connectors);
        OnwardTransitive(w, w1, ExecuteActions(w, c, actions, level, connectors).0, true);
      } else {
        ActionsOnward(w, c, actions[1..], level, connectors);
      }
    }
  }

  /** A suspendSync without a grace period. */
  predicate Immediate(action: Action) {
    action.kind == SuspendSync && action.grace == NoGrace
  }

  lemma {:induction false} ImmediateActionsSend(w: World, c: Report, actions: seq<Action>, level: Level, connectors: seq<Platform>, i: nat)
    requires Keyed(w) && i < |actions| && Immediate(actions[i]) && TriggerMatches(actions[i].trigger, level)
    requires Target(w.registry, connectors, c.labels).Some?
    ensures SuspendedIn(w, ExecuteActions(w, c, actions, level, connectors).0, c.key)
    decreases actions
  {
    if !TriggerMatches(actions[0].trigger, level) {
      ImmediateActionsSend(w, c, actions[1..], level, connectors, i - 1);
    } else {
      var (w1, c1, _) := Execute(w, c, actions[0], level, connectors);
      var w' := ExecuteActions(w, c, actions, level, connectors).0;
      ExecuteOnward(w, c, actions[0], level, connectors);
      ActionsOnward(w1, c1, actions[1..], level, connectors);
      if i == 0 {
        SendSuspendOnward(w, c, NoGrace, connectors);
      } else {
        assert LabelOf(c1.labels, SourceName) in w1.registry.Keys;
        ImmediateActionsSend(w1, c1, actions[1..], level, connectors, i - 1);
      }
      SuspendedInParts(w, w1, w', c.key);
    }
  }

  /** A triggered suspendSync without a grace period sends a suspension whenever the labels lead to a source. */
  lemma MissingGraceSends(w: World, c: Report, spec: PolicySpec, connectors: seq<Platform>, i: nat)
    requires Keyed(w) && SelectorMatches(spec.selector, c) && Target(w.registry, connectors, c.labels).Some?
    requires i < |spec.enforcement| && Immediate(spec.enforcement[i])
    requires TriggerMatches(spec.enforcement[i].trigger, Evaluate(spec.thresholds, c.status))
    ensures SuspendedIn(w, HandleReport(w, c, spec, connectors), c.key)
  {
    var level := Evaluate(spec.thresholds, c.status);
    var w1 := Log(w, Evaluated(c.key, level));
    ImmediateActionsSend(w1, c, spec.enforcement, level, connectors, i);
    ActionsOnward(w1, c, spec.enforcement, level, connectors);
    SuspendedInParts(w, w1, HandleReport(w, c, spec, connectors), c.key);
  }

  /** The report lacks a wanted label value, an absent label reading as empty, or a kind is wanted and it is
      of none of the wanted kinds up to case. */
  predicate Deselected(sel: Selector, c: Report) {
    || (exists k :: k in sel.matchLabels && (if k in c.labels then c.labels[k] else "") != sel.matchLabels[k])
    || (sel.cicdKinds != []
        && forall i :: 0 <= i < |sel.cicdKinds| ==>
             !EqualFold(sel.cicdKinds[i], if SourceKind in c.labels then c.labels[SourceKind] else ""))
  }

  /** The selector decides: a deselected report is not touched at all, any other one is evaluated first. */
  lemma SelectionDecides(w: World, c: Report, spec: PolicySpec, connectors: seq<Platform>)
    requires Keyed(w)
    ensures Deselected(spec.selector, c) ==> HandleReport(w, c, spec, connectors) == w
    ensures !Deselected(spec.selector, c) ==>
              var log := HandleReport(w, c, spec, connectors).log;
              |w.log| < |log| && log[|w.log|] == Evaluated(c.key, Evaluate(spec.thresholds, c.status))
  {
    SelectorMatchesExactly(spec.selector, c);
    if SelectorMatches(spec.selector, c) {
      var level := Evaluate(spec.thresholds, c.status);
      var w1 := Log(w, Evaluated(c.key, level));
      RestoreOnward(w1, c, connectors);
      ActionsOnward(w1, c, spec.enforcement, level, connectors);
      assert w1.log <= HandleReport(w, c, spec, connectors).log;
    }
  }

  lemma SelectorMatchesExactly(sel: Selector, c: Report)
    ensures SelectorMatches(sel, c) <==> !Deselected(sel, c)
  {
    if sel.cicdKinds != [] && !Deselected(sel, c) {
      var i :| 0 <= i < |sel.cicdKinds| && EqualFold(sel.cicdKinds[i], LabelOf(c.labels, SourceKind));
      assert sel.cicdKinds[i] in sel.cicdKinds;
    }
  }
}
