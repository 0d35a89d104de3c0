/** Deep copies of policy specs and report statuses on the heap. A pointer, slice or map of the structs
    is a reference that may be nil; copying must give equal contents behind fresh references. */
module DeepCopy {
  import opened Wrappers
  import Model

  /** What a pointer points to. */
  class Cell<T> {
    var value: T
    constructor (value: T)
      ensures this.value == value
    {
      this.value := value;
    }
  }

  datatype EnforcementAction = EnforcementAction(action: string, trigger: string, gracePeriod: string, alertTarget: Cell?<Model.AlertTarget>)

  datatype RuleOverrideScope = RuleOverrideScope(repositories: array?<string>)

  datatype RuleOverride = RuleOverride(rule: string, severity: string, reason: string, scope: Cell?<RuleOverrideScope>)

  datatype PolicySelector = PolicySelector(cicdKinds: array?<string>, matchLabels: Cell?<map<string, string>>)

  datatype PolicyThresholds = PolicyThresholds(maxCritical: int, maxHigh: int, pinned: bool, signed: bool, branchProtection: bool)

  datatype PolicySpec = PolicySpec(selector: PolicySelector, thresholds: PolicyThresholds, interval: int,
                                   enforcement: array?<EnforcementAction>, ruleOverrides: array?<RuleOverride>)

  datatype SourceRef = SourceRef(repository: string, branch: string, workflowPath: string)

  datatype ReportStatus = ReportStatus(complianceState: string, lastEvaluated: int, source: SourceRef, summary: Model.Summary,
                                       correlatedWorkloads: array?<Model.WorkloadRef>, findings: array?<Model.Finding>)

  // ---- Contents: what a struct holds once all references are followed; None is nil ----

  ghost function Slice<T>(a: array?<T>): Option<seq<T>>
    reads a
  {
    if a == null then None else Some(a[..])
  }

  ghost function Pointee<T>(c: Cell?<T>): Option<T>
    reads c
  {
    if c == null then None else Some(c.value)
  }

  datatype ActionContents = ActionContents(action: string, trigger: string, gracePeriod: string, alertTarget: Option<Model.AlertTarget>)

  ghost function ActionOf(a: EnforcementAction): ActionContents
    reads a.alertTarget
  {
    ActionContents(a.action, a.trigger, a.gracePeriod, Pointee(a.alertTarget))
  }

  datatype OverrideContents = OverrideContents(rule: string, severity: string, reason: string, scope: Option<Option<seq<string>>>)

  function Repositories(o: RuleOverride): array?<string>
    reads o.scope
  {
    if o.scope == null then null else o.scope.value.repositories
  }

  ghost function OverrideOf(o: RuleOverride): OverrideContents
    reads o.scope, Repositories(o)
  {
    OverrideContents(o.rule, o.severity, o.reason, if o.scope == null then None else Some(Slice(Repositories(o))))
  }

  // ---- References: a pointer, slice or map that is not nil ----

  function Ref(o: object?): set<object> {
    if o == null then {} else {o}
  }

  function OverrideRefs(o: RuleOverride): set<object>
    reads o.scope
  {
    Ref(o.scope) + Ref(Repositories(o))
  }

  // ---- The DeepCopyInto methods; none has a modifies clause, so nothing that existed is written ----

  /** make and copy of a slice of plain values. */
  method CopySlice<T>(a: array?<T>) returns (out: array?<T>)
    ensures fresh(Ref(out)) && Slice(out) == Slice(a)
  {
    if a == null { return null; }
    var elements := a[..];
    out := new T[|elements|](i requires 0 <= i < |elements| => elements[i]);
    assert out[..] == elements;
  }

  method CopyAction(a: EnforcementAction) returns (out: EnforcementAction)
    ensures fresh(Ref(out.alertTarget)) && ActionOf(out) == ActionOf(a)
  {
    out := a;
    if a.alertTarget != null {
      var target := new Cell(a.alertTarget.value);
      out := out.(alertTarget := target);
    }
  }

  method CopyOverride(o: RuleOverride) returns (out: RuleOverride)
    ensures OverrideOf(out) == OverrideOf(o)
    ensures fresh(OverrideRefs(out))
  {
    out := o;
    if o.scope != null {
      var repositories := CopySlice(o.scope.value.repositories);
      var scope := new Cell(RuleOverrideScope(repositories));
      out := out.(scope := scope);
    }
  }

  method CopyActions(a: array?<EnforcementAction>) returns (out: array?<EnforcementAction>)
    ensures fresh(Ref(out)) && (out == null <==> a == null)
    ensures a != null ==> out.Length == a.Length
    ensures a != null ==> forall i :: 0 <= i < a.Length ==> ActionOf(out[i]) == ActionOf(a[i]) && fresh(Ref(out[i].alertTarget))
    ensures a != null ==> forall i, j :: 0 <= i < j < a.Length && out[i].alertTarget != null ==> out[i].alertTarget != out[j].alertTarget
  {
    if a == null { return null; }
    out := new EnforcementAction[a.Length](_ => EnforcementAction("", "", "", null));
    for i := 0 to a.Length
      modifies out
      invariant fresh(out) && out.Length == a.Length
      invariant forall k :: 0 <= k < i ==> ActionOf(out[k]) == ActionOf(a[k]) && fresh(Ref(out[k].alertTarget))
      invariant forall j, k :: 0 <= j < k < i && out[j].alertTarget != null ==> out[j].alertTarget != out[k].alertTarget
    {
      var copied := CopyAction(a[i]);
      out[i] := copied;
    }
  }

  /** One round of the loop below. */
  method CopyOverrideAt(a: array<RuleOverride>, out: array<RuleOverride>, i: nat)
    requires a != out && i < a.Length == out.Length
    modifies out
    ensures forall k :: 0 <= k < out.Length && k != i ==> out[k] == old(out[k])
    ensures OverrideOf(out[i]) == OverrideOf(a[i]) && fresh(OverrideRefs(out[i]))
  {
    var copied := CopyOverride(a[i]);
    out[i] := copied;
  }

  method CopyOverrides(a: array?<RuleOverride>) returns (out: array?<RuleOverride>)
    ensures fresh(Ref(out)) && (out == null <==> a == null)
    ensures a != null ==> out.Length == a.Length
    ensures a != null ==> forall i :: 0 <= i < a.Length ==>
              OverrideOf(out[i]) == OverrideOf(a[i]) && fresh(OverrideRefs(out[i]))
    ensures a != null ==> forall i, j :: 0 <= i < j < a.Length ==> OverrideRefs(out[i]) !! OverrideRefs(out[j])
  {
    if a == null { return null; }
    out := new RuleOverride[a.Length](_ => RuleOverride("", "", "", null));
    for i := 0 to a.Length
      modifies out
      invariant fresh(out) && out.Length == a.Length
      invariant forall k :: 0 <= k < i ==> OverrideOf(out[k]) == OverrideOf(a[k]) && fresh(OverrideRefs(out[k]))
      invariant forall j, k :: 0 <= j < k < i ==> OverrideRefs(out[j]) !! OverrideRefs(out[k])
    {
      CopyOverrideAt(a, out, i);
    }
  }

  /** make and refill of a map; nil stays nil. */
  method CopyLabels(labels: Cell?<map<string, string>>) returns (out: Cell?<map<string, string>>)
    ensures fresh(Ref(out)) && Pointee(out) == Pointee(labels)
  {
    if labels == null { return null; }
    var source := labels.value;
    var copied: map<string, string> := map[];
    var left := source.Keys;
    while left != {}
      invariant left <= source.Keys && copied.Keys == source.Keys - left
      invariant forall k :: k in copied ==> copied[k] == source[k]
      decreases |left|
    {
      var key :| key in left;
      copied := copied[key := source[key]];
      left := left - {key};
    }
    assert copied == source;
    out := new Cell(copied);
  }

  method CopySelector(s: PolicySelector) returns (out: PolicySelector)
    ensures fresh(Ref(out.cicdKinds)) && fresh(Ref(out.matchLabels))
    ensures Slice(out.cicdKinds) == Slice(s.cicdKinds) && Pointee(out.matchLabels) == Pointee(s.matchLabels)
  {
    var kinds := CopySlice(s.cicdKinds);
    var labels := CopyLabels(s.matchLabels);
    out := PolicySelector(kinds, labels);
  }

  /** The copy of a policy spec is equal in contents, nil for nil and element for element, and every
      reference reachable in it is fresh, so nothing reachable from the original is shared. */
  method CopyPolicySpec(s: PolicySpec) returns (out: PolicySpec)
    ensures out.thresholds == s.thresholds && out.interval == s.interval
    ensures Slice(out.selector.cicdKinds) == Slice(s.selector.cicdKinds) && fresh(Ref(out.selector.cicdKinds))
    ensures Pointee(out.selector.matchLabels) == Pointee(s.selector.matchLabels) && fresh(Ref(out.selector.matchLabels))
    ensures (out.enforcement == null <==> s.enforcement == null) && fresh(Ref(out.enforcement))
    ensures s.enforcement != null ==> out.enforcement.Length == s.enforcement.Length
    ensures s.enforcement != null ==> forall i :: 0 <= i < s.enforcement.Length ==>
              ActionOf(out.enforcement[i]) == ActionOf(s.enforcement[i]) && fresh(Ref(out.enforcement[i].alertTarget))
    ensures s.enforcement != null ==> forall i, j :: 0 <= i < j < s.enforcement.Length && out.enforcement[i].alertTarget != null ==>
              out.enforcement[i].alertTarget != out.enforcement[j].alertTarget
    ensures (out.ruleOverrides == null <==> s.ruleOverrides == null) && fresh(Ref(out.ruleOverrides))
    ensures s.ruleOverrides != null ==> out.ruleOverrides.Length == s.ruleOverrides.Length
    ensures s.ruleOverrides != null ==> forall i :: 0 <= i < s.ruleOverrides.Length ==>
              OverrideOf(out.ruleOverrides[i]) == OverrideOf(s.ruleOverrides[i])
              && fresh(OverrideRefs(out.ruleOverrides[i]))
    ensures s.ruleOverrides != null ==> forall i, j :: 0 <= i < j < s.ruleOverrides.Length ==>
              OverrideRefs(out.ruleOverrides[i]) !! OverrideRefs(out.ruleOverrides[j])
  {
    var selector := CopySelector(s.selector);
    var enforcement := CopyActions(s.enforcement);
    var overrides := CopyOverrides(s.ruleOverrides);
    out := PolicySpec(selector, s.thresholds, s.interval, enforcement, overrides);
  }

  method CopyReportStatus(s: ReportStatus) returns (out: ReportStatus)
    ensures out == s.(correlatedWorkloads := out.correlatedWorkloads, findings := out.findings)
    ensures Slice(out.correlatedWorkloads) == Slice(s.correlatedWorkloads) && fresh(Ref(out.correlatedWorkloads))
    ensures Slice(out.findings) == Slice(s.findings) && fresh(Ref(out.findings))
  {
    var workloads := CopySlice(s.correlatedWorkloads);
    var findings := CopySlice(s.findings);
    out := s.(correlatedWorkloads := workloads, findings := findings);
  }

  /** A copy can be changed freely: writing through any of its slices leaves the original's contents. */
  method OverwriteCopiedFindings(s: ReportStatus, replacement: Model.Finding) returns (changed: ReportStatus)
    ensures Slice(s.findings) == old(Slice(s.findings))
    ensures s.findings != null ==> changed.findings != null && changed.findings[..] == seq(s.findings.Length, _ => replacement)
  {
    changed := CopyReportStatus(s);
    if changed.findings != null {
      for i := 0 to changed.findings.Length
        invariant forall k :: 0 <= k < i ==> changed.findings[k] == replacement
        modifies changed.findings
      {
        changed.findings[i] := replacement;
      }
    }
  }
}
