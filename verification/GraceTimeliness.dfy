/** Timeliness: over any number of passes that all find the violation, a suspension is sent by every pass
    that starts once the grace period is over and by none that ends a second before that. Calls other than
    reading the policy and listing the reports may fail, and others may act at any time, short of deleting
    the report; only the first pass, which stamps it, needs its calls to succeed and the report unwritten. */
module GraceTimeliness {
  import opened Wrappers
  import opened Model
  import opened Compliance
  import opened Cluster
  import opened Enforcement
  import opened Safety
  import opened GracePeriods
  import opened Calm
  import opened Unrelated

  /** The grace periods of the triggered suspendSync actions. */
  function SuspendGraces(actions: seq<Action>, level: Level): seq<Grace> {
    if actions == [] then []
    else
      var rest := SuspendGraces(actions[1..], level);
      if actions[0].kind == SuspendSync && TriggerMatches(actions[0].trigger, level) then [actions[0].grace] + rest else rest
  }

  lemma OneGrace(actions: seq<Action>, level: Level, g: int)
    requires actions != [] && actions[0].kind == SuspendSync && TriggerMatches(actions[0].trigger, level)
    requires SuspendGraces(actions, level) == [Period(g)]
    ensures actions[0].grace == Period(g) && SuspendGraces(actions[1..], level) == []
  {
    var rest := SuspendGraces(actions[1..], level);
    assert ([actions[0].grace] + rest)[0] == actions[0].grace && |[actions[0].grace] + rest| == 1 + |rest|;
  }

  // ---- A report that is stamped, under any turns ----

  /** The copy and the stored report bear the same stamp. */
  ghost predicate StampedCopy(w: World, c: Report, d: int) {
    Kept(w, c.key) && StoredStamp(w, c.key) == Some(Instant(d)) && StampOf(c.annotations) == Some(Instant(d))
  }

  /** The copy's labels lead to a source. */
  predicate Leads(w: World, c: Report, connectors: seq<Platform>) {
    Target(w.registry, connectors, c.labels).Some?
  }

  /** Sources are never forgotten, so the labels keep leading somewhere. */
  lemma LeadsStays(w: World, w': World, c: Report, c': Report, connectors: seq<Platform>)
    requires w.registry.Keys <= w'.registry.Keys && c'.labels == c.labels && Leads(w, c, connectors)
    ensures Leads(w', c', connectors)
  {
    assert LabelOf(c.labels, SourceName) in w'.registry.Keys;
  }

  /** What a stretch of work with one triggered suspendSync action of grace `g` does about a report stamped at `d`. */
  ghost predicate GraceStep(w: World, w': World, key: Key, d: int, g: int) {
    && Progress(w, w', key) && StoredStamp(w', key) == StoredStamp(w, key)
    && (w.now >= d + g ==> SuspendedIn(w, w', key))
    && (w'.now < d + g ==> !SuspendedIn(w, w', key))
  }

  lemma NeutralThenGrace(a: World, b: World, c: World, key: Key, d: int, g: int)
    requires Neutral(a, b, key) && GraceStep(b, c, key, d, g)
    ensures GraceStep(a, c, key, d, g)
  {
    SuspendedInParts(a, b, c, key);
  }

  lemma GraceThenNeutral(a: World, b: World, c: World, key: Key, d: int, g: int)
    requires GraceStep(a, b, key, d, g) && Neutral(b, c, key)
    ensures GraceStep(a, c, key, d, g)
  {
    SuspendedInParts(a, b, c, key);
  }

  lemma AppliedStampedSave(w: World, c: Report, d: int)
    requires StampedCopy(w, c, d) && UpToDate(w, c)
    ensures var b := Store(w, w.reports[c.key].(labels := c.labels, annotations := c.annotations));
            var w' := Log(b, Saved(c.key, StampOf(c.annotations)));
            Neutral(w, w', c.key) && StampedCopy(w', c, d) && StampedCopy(w', b.reports[c.key], d)
            && b.reports[c.key].key == c.key && b.reports[c.key].labels == c.labels
  {
    var b := Store(w, w.reports[c.key].(labels := c.labels, annotations := c.annotations));
    assert b.log == w.log;
  }

  /** Whatever becomes of the save, the stamp stays where it is. */
  lemma StampedSave(w: World, c: Report, d: int)
    requires StampedCopy(w, c, d)
    ensures var (w', c', _) := SaveCopy(w, c);
            Neutral(w, w', c.key) && StampedCopy(w', c', d) && c'.key == c.key && c'.labels == c.labels
  {
    var a := Arrive(w);
    ArriveAside(w, c.key);
    if !Ending(w).Rejected? && UpToDate(a, c) {
      AppliedStampedSave(a, c, d);
      NeutralTransitive(w, a, SaveCopy(w, c).0, c.key);
    }
  }

  lemma StampedOther(w: World, c: Report, action: Action, level: Level, connectors: seq<Platform>, d: int)
    requires StampedCopy(w, c, d) && action.kind != SuspendSync
    ensures var (w', c', _) := Execute(w, c, action, level, connectors);
            Neutral(w, w', c.key) && StampedCopy(w', c', d) && c'.key == c.key && c'.labels == c.labels
  {
    match action.kind
    case Annotate =>
      assert StampOf(Annotated(c).annotations) == StampOf(c.annotations);
      StampedSave(w, Annotated(c), d);
    case Alert => ArriveAside(w, c.key);
    case LabelWorkloads => LabellingAside(w, c.status.workloads, LowerName(level), c.key);
    case OtherAction(_) =>
  }

  lemma SendSteps(w: World, c: Report, g: int, connectors: seq<Platform>)
    requires Kept(w, c.key) && Leads(w, c, connectors)
    ensures var w' := SendSuspend(w, c, Period(g), connectors).0;
            Progress(w, w', c.key) && StoredStamp(w', c.key) == StoredStamp(w, c.key) && SuspendedIn(w, w', c.key)
  {
    var t := Target(w.registry, connectors, c.labels).value;
    var e := Suspended(c.key, t, Period(g), w.now);
    var w1 := Log(w, e);
    var w' := SendSuspend(w, c, Period(g), connectors).0;
    PatchSourceAside(w1, t, Patches.SuspendPatch(t.platform), c.key);
    assert w1.log[|w.log|] == e;
    assert w'.log[|w.log|] == e;
  }

  lemma AwaitSteps(w: World, c: Report, g: int, d: int, connectors: seq<Platform>)
    requires StampedCopy(w, c, d) && Leads(w, c, connectors)
    ensures var (w', c', _) := ExecuteSuspendSync(w, c, Period(g), connectors);
            GraceStep(w, w', c.key, d, g) && StampedCopy(w', c', d) && c' == c
  {
    var a := Arrive(w);
    ArriveAside(w, c.key);
    if a.now - d >= g {
      LeadsStays(w, a, c, c, connectors);
      SendSteps(a, c, g, connectors);
      SuspendedInParts(w, a, SendSuspend(a, c, Period(g), connectors).0, c.key);
    }
  }

  lemma {:induction false} StampedActionsAreNeutral(w: World, c: Report, actions: seq<Action>, level: Level, connectors: seq<Platform>, d: int)
    requires StampedCopy(w, c, d) && SuspendGraces(actions, level) == []
    ensures Neutral(w, ExecuteActions(w, c, actions, level, connectors).0, c.key)
    decreases actions
  {
    if actions != [] {
      if TriggerMatches(actions[0].trigger, level) {
        var (w1, c1, _) := Execute(w, c, actions[0], level, connectors);
        StampedOther(w, c, actions[0], level, connectors, d);
        StampedActionsAreNeutral(w1, c1, actions[1..], level, connectors, d);
        NeutralTransitive(w, w1, ExecuteActions(w, c, actions, level, connectors).0, c.key);
      } else {
        StampedActionsAreNeutral(w, c, actions[1..], level, connectors, d);
      }
    }
  }

  lemma {:induction false} StampedActionsStep(w: World, c: Report, actions: seq<Action>, level: Level, connectors: seq<Platform>, d: int, g: int)
    requires StampedCopy(w, c, d) && Leads(w, c, connectors) && SuspendGraces(actions, level) == [Period(g)]
    ensures GraceStep(w, ExecuteActions(w, c, actions, level, connectors).0, c.key, d, g)
    decreases actions
  {
    if !TriggerMatches(actions[0].trigger, level) {
      StampedActionsStep(w, c, actions[1..], level, connectors, d, g);
    } else {
      var (w1, c1, _) := Execute(w, c, actions[0], level, connectors);
      var w' := ExecuteActions(w, c, actions, level, connectors).0;
      if actions[0].kind == SuspendSync {
        OneGrace(actions, level, g);
        AwaitSteps(w, c, g, d, connectors);
        StampedActionsAreNeutral(w1, c1, actions[1..], level, connectors, d);
        GraceThenNeutral(w, w1, w', c.key, d, g);
      } else {
        StampedOther(w, c, actions[0], level, connectors, d);
        LeadsStays(w, w1, c, c1, connectors);
        StampedActionsStep(w1, c1, actions[1..], level, connectors, d, g);
        NeutralThenGrace(w, w1, w', c.key, d, g);
      }
    }
  }

  /** The policy selects the report, finds it violated, and triggers one suspendSync, of grace `g`. */
  predicate Violated(c: Report, spec: PolicySpec, g: int) {
    var level := Evaluate(spec.thresholds, c.status);
    && SelectorMatches(spec.selector, c) && level != Compliant
    && SuspendGraces(spec.enforcement, level) == [Period(g)]
  }

  /** Handling a stamped report sends the suspension if its grace period is over and does not if it is not,
      whatever becomes of the calls and whoever writes the report meanwhile. */
  lemma StampedReportSteps(w: World, c: Report, spec: PolicySpec, connectors: seq<Platform>, d: int, g: int)
    requires StampedCopy(w, c, d) && Leads(w, c, connectors) && Violated(c, spec, g)
    ensures GraceStep(w, HandleReport(w, c, spec, connectors), c.key, d, g)
  {
    var level := Evaluate(spec.thresholds, c.status);
    var w1 := Log(w, Evaluated(c.key, level));
    LogAside(w, Evaluated(c.key, level), c.key);
    StampedActionsStep(w1, c, spec.enforcement, level, connectors, d, g);
    NeutralThenGrace(w, w1, HandleReport(w, c, spec, connectors), c.key, d, g);
  }

  ghost predicate DistinctKeys(listed: seq<Report>) {
    forall i, j :: 0 <= i < j < |listed| ==> listed[i].key != listed[j].key
  }

  lemma {:induction false} StampedReportsStep(w: World, listed: seq<Report>, spec: PolicySpec, connectors: seq<Platform>, c: Report, d: int, g: int)
    requires StampedCopy(w, c, d) && Leads(w, c, connectors) && Violated(c, spec, g) && DistinctKeys(listed) && c in listed
    ensures GraceStep(w, HandleReports(w, listed, spec, connectors), c.key, d, g)
    decreases listed
  {
    var w1 := HandleReport(w, listed[0], spec, connectors);
    if listed[0] == c {
      StampedReportSteps(w, c, spec, connectors, d, g);
      HandlingAside(w1, listed[1..], spec, connectors, c.key);
      GraceThenNeutral(w, w1, HandleReports(w, listed, spec, connectors), c.key, d, g);
    } else {
      InTail(listed, c);
      HandleReportAside(w, listed[0], spec, connectors, c.key);
      LeadsStays(w, w1, c, c, connectors);
      StampedReportsStep(w1, listed[1..], spec, connectors, c, d, g);
      NeutralThenGrace(w, w1, HandleReports(w, listed, spec, connectors), c.key, d, g);
    }
  }

  lemma InTail(listed: seq<Report>, c: Report)
    requires c in listed && listed[0] != c && DistinctKeys(listed)
    ensures c in listed[1..] && listed[0].key != c.key && DistinctKeys(listed[1..])
  {
    var i :| 0 <= i < |listed| && listed[i] == c;
    assert listed[1..][i - 1] == c;
  }

  // ---- The pass that stamps the report ----

  /** The pass holds the stored report, its calls succeed and nobody else writes the report. */
  ghost predicate Owns(w: World, c: Report) {
    LeftAlone(w, c.key) && Current(w, c)
  }

  ghost predicate StampStep(w: World, w': World, key: Key) {
    Progress(w, w', key) && !SuspendedIn(w, w', key) && exists t :: w.now <= t <= w'.now && StoredStamp(w', key) == Some(FormatTime(t))
  }

  lemma NeutralThenStamp(a: World, b: World, c: World, key: Key)
    requires Neutral(a, b, key) && StampStep(b, c, key)
    ensures StampStep(a, c, key)
  {
    SuspendedInParts(a, b, c, key);
  }

  lemma StampThenNeutral(a: World, b: World, c: World, key: Key)
    requires StampStep(a, b, key) && Neutral(b, c, key)
    ensures StampStep(a, c, key)
  {
    SuspendedInParts(a, b, c, key);
  }

  lemma OwnSave(w: World, c: Report)
    requires LeftAlone(w, c.key) && c == w.reports[c.key].(annotations := c.annotations)
    ensures var (w', c', ok) := SaveCopy(w, c);
            ok && Owns(w', c') && c' == c.(rv := c'.rv) && Progress(w, w', c.key) && !SuspendedIn(w, w', c.key)
  {
    ArriveAside(w, c.key);
    var a := Arrive(w);
    var b := Store(a, a.reports[c.key].(labels := c.labels, annotations := c.annotations));
    assert !SuspendedIn(a, Log(b, Saved(c.key, StampOf(c.annotations))), c.key);
    SuspendedInParts(w, a, SaveCopy(w, c).0, c.key);
  }

  lemma OwnOther(w: World, c: Report, action: Action, level: Level, connectors: seq<Platform>)
    requires Owns(w, c) && action.kind != SuspendSync
    ensures var (w', c', _) := Execute(w, c, action, level, connectors);
            Neutral(w, w', c.key) && Owns(w', c') && c'.key == c.key && StampOf(c'.annotations) == StampOf(c.annotations)
  {
    match action.kind
    case Annotate => OwnSave(w, Annotated(c));
    case Alert => ArriveAside(w, c.key);
    case LabelWorkloads => LabellingAside(w, c.status.workloads, LowerName(level), c.key);
    case OtherAction(_) =>
  }

  lemma StampingSteps(w: World, c: Report, g: int, connectors: seq<Platform>)
    requires Owns(w, c) && StampOf(c.annotations) == None
    ensures var (w', c', _) := ExecuteSuspendSync(w, c, Period(g), connectors);
            StampStep(w, w', c.key) && c'.key == c.key && StampedCopy(w', c', FloorToSecond(Arrive(w).now))
  {
    var a := Arrive(w);
    var a1 := Log(a, Stamped(c.key, a.now));
    ArriveAside(w, c.key);
    LogAside(a, Stamped(c.key, a.now), c.key);
    NeutralTransitive(w, a, a1, c.key);
    OwnSave(a1, Stamp(c, a.now));
    var w' := SaveCopy(a1, Stamp(c, a.now)).0;
    SuspendedInParts(w, a1, w', c.key);
    assert StoredStamp(w', c.key) == Some(FormatTime(a.now));
  }

  lemma {:induction false} StampingActionsStep(w: World, c: Report, actions: seq<Action>, level: Level, connectors: seq<Platform>, g: int)
    requires Owns(w, c) && StampOf(c.annotations) == None && SuspendGraces(actions, level) == [Period(g)]
    ensures StampStep(w, ExecuteActions(w, c, actions, level, connectors).0, c.key)
    decreases actions
  {
    if !TriggerMatches(actions[0].trigger, level) {
      StampingActionsStep(w, c, actions[1..], level, connectors, g);
    } else {
      var (w1, c1, _) := Execute(w, c, actions[0], level, connectors);
      var w' := ExecuteActions(w, c, actions, level, connectors).0;
      if actions[0].kind == SuspendSync {
        OneGrace(actions, level, g);
        StampingSteps(w, c, g, connectors);
        StampedActionsAreNeutral(w1, c1, actions[1..], level, connectors, FloorToSecond(Arrive(w).now));
        StampThenNeutral(w, w1, w', c.key);
      } else {
        OwnOther(w, c, actions[0], level, connectors);
        StampingActionsStep(w1, c1, actions[1..], level, connectors, g);
        NeutralThenStamp(w, w1, w', c.key);
      }
    }
  }

  lemma StampingReportSteps(w: World, c: Report, spec: PolicySpec, connectors: seq<Platform>, g: int)
    requires Owns(w, c) && StampOf(c.annotations) == None && Violated(c, spec, g)
    ensures StampStep(w, HandleReport(w, c, spec, connectors), c.key)
  {
    var level := Evaluate(spec.thresholds, c.status);
    var w1 := Log(w, Evaluated(c.key, level));
    LogAside(w, Evaluated(c.key, level), c.key);
    StampingActionsStep(w1, c, spec.enforcement, level, connectors, g);
    NeutralThenStamp(w, w1, HandleReport(w, c, spec, connectors), c.key);
  }

  lemma {:induction false} StampingReportsStep(w: World, listed: seq<Report>, spec: PolicySpec, connectors: seq<Platform>, c: Report, g: int)
    requires Owns(w, c) && StampOf(c.annotations) == None && Violated(c, spec, g) && DistinctKeys(listed) && c in listed
    ensures StampStep(w, HandleReports(w, listed, spec, connectors), c.key)
    decreases listed
  {
    var w1 := HandleReport(w, listed[0], spec, connectors);
    if listed[0] == c {
      StampingReportSteps(w, c, spec, connectors, g);
      HandlingAside(w1, listed[1..], spec, connectors, c.key);
      StampThenNeutral(w, w1, HandleReports(w, listed, spec, connectors), c.key);
    } else {
      InTail(listed, c);
      HandleReportAside(w, listed[0], spec, connectors, c.key);
      StampingReportsStep(w1, listed[1..], spec, connectors, c, g);
      NeutralThenStamp(w, w1, HandleReports(w, listed, spec, connectors), c.key);
    }
  }

  // ---- Passes ----

  /** The pass gets its policy and its listing, and finds the listed report violated and leading to a source. */
  ghost predicate Due(w: World, req: Request, key: Key, g: int, connectors: seq<Platform>) {
    var a := Arrive(w);
    var b := Arrive(a);
    && Ending(w).Done? && Ending(a).Done?
    && req.policy in a.policies && key in req.order && InNamespace(key, req.policy.ns) && key in b.reports
    && Leads(b, b.reports[key], connectors) && Violated(b.reports[key], a.policies[req.policy].spec, g)
  }

  lemma ListedOnce(w: World, ns: string, order: seq<Key>, key: Key)
    requires Present(w, key) && key in order && InNamespace(key, ns)
    ensures var listed := Listing(w.reports, ns, order); w.reports[key] in listed && DistinctKeys(listed)
  {
    ListingIsFaithful(w, ns, order);
  }

  /** Reading the policy and listing the reports. */
  lemma PassOpens(w: World, req: Request, key: Key)
    requires Kept(w, key) && key in req.order && InNamespace(key, req.policy.ns)
    ensures var b := Arrive(Arrive(w));
            var listed := Listing(b.reports, req.policy.ns, req.order);
            Aside(w, b, key) && b.reports[key] in listed && b.reports[key].key == key && DistinctKeys(listed)
  {
    var a := Arrive(w);
    var b := Arrive(a);
    ArriveAside(w, key);
    ArriveAside(a, key);
    AsideTransitive(w, a, b, key);
    ListedOnce(b, req.policy.ns, req.order, key);
  }

  /** The pass once its reports are handled. */
  lemma PassCloses(w: World, req: Request, key: Key, connectors: seq<Platform>)
    requires Ending(w).Done? && Ending(Arrive(w)).Done? && req.policy in Arrive(w).policies
    ensures var b := Arrive(Arrive(w));
            var c := HandleReports(b, Listing(b.reports, req.policy.ns, req.order), Arrive(w).policies[req.policy].spec, connectors);
            Kept(c, key) ==> Aside(c, PolicyPass(w, req, connectors), key)
  {
    var b := Arrive(Arrive(w));
    var p := Arrive(w).policies[req.policy];
    var listed := Listing(b.reports, req.policy.ns, req.order);
    var c := HandleReports(b, listed, p.spec, connectors);
    if Kept(c, key) { PolicyStatusAside(c, req.policy, p.(evaluated := Some(|listed|)), key); }
  }

  /** A pass over a stamped report, under any turns. */
  lemma StampedPassSteps(w: World, req: Request, key: Key, d: int, g: int, connectors: seq<Platform>)
    requires Kept(w, key) && StoredStamp(w, key) == Some(Instant(d)) && Due(w, req, key, g, connectors)
    ensures GraceStep(w, PolicyPass(w, req, connectors), key, d, g)
  {
    var w2 := Arrive(Arrive(w));
    var spec := Arrive(w).policies[req.policy].spec;
    var listed := Listing(w2.reports, req.policy.ns, req.order);
    var w3 := HandleReports(w2, listed, spec, connectors);
    PassOpens(w, req, key);
    PassCloses(w, req, key, connectors);
    StampedReportsStep(w2, listed, spec, connectors, w2.reports[key], d, g);
    NeutralThenGrace(w, w2, w3, key, d, g);
    GraceThenNeutral(w, w3, PolicyPass(w, req, connectors), key, d, g);
  }

  /** A pass over an unstamped report whose calls succeed and during which nobody writes the report. */
  lemma StampingPassSteps(w: World, req: Request, key: Key, g: int, connectors: seq<Platform>)
    requires LeftAlone(w, key) && StoredStamp(w, key) == None && Due(w, req, key, g, connectors)
    ensures StampStep(w, PolicyPass(w, req, connectors), key)
  {
    var w2 := Arrive(Arrive(w));
    var spec := Arrive(w).policies[req.policy].spec;
    var listed := Listing(w2.reports, req.policy.ns, req.order);
    var w3 := HandleReports(w2, listed, spec, connectors);
    PassOpens(w, req, key);
    PassCloses(w, req, key, connectors);
    StampingReportsStep(w2, listed, spec, connectors, w2.reports[key], g);
    NeutralThenStamp(w, w2, w3, key);
    StampThenNeutral(w, w3, PolicyPass(w, req, connectors), key);
  }

  /** Some time during which others act, then a pass with the turns of its calls. */
  datatype Episode = Episode(between: seq<EnvStep>, wait: nat, turns: seq<Turn>, pass: Request)

  function Begin(w: World, e: Episode): World {
    ApplySteps(w.(now := w.now + e.wait, turns := e.turns), e.between)
  }

  /** Nobody deletes the report, between the passes or during them. */
  ghost predicate Survives(e: Episode, key: Key) {
    DeleteReport(key) !in e.between && forall i :: 0 <= i < |e.turns| ==> Harmless(e.turns[i], key)
  }

  ghost predicate AlwaysDue(w: World, eps: seq<Episode>, key: Key, g: int, connectors: seq<Platform>)
    decreases eps
  {
    eps == [] ||
    (var s := Begin(w, eps[0]);
     Survives(eps[0], key) && Due(s, eps[0].pass, key, g, connectors)
     && AlwaysDue(PolicyPass(s, eps[0].pass, connectors), eps[1..], key, g, connectors))
  }

  /** Every pass suspends if it starts at or after the end of the grace period that began at `t0`, and
      does not if it ends a second or more before. */
  ghost predicate AllTimely(w: World, eps: seq<Episode>, key: Key, g: int, t0: int, connectors: seq<Platform>)
    decreases eps
  {
    eps == [] ||
    (var s := Begin(w, eps[0]);
     var e := PolicyPass(s, eps[0].pass, connectors);
     && (s.now >= t0 + g ==> SuspendedIn(s, e, key))
     && (e.now <= t0 + g - SECOND ==> !SuspendedIn(s, e, key))
     && AllTimely(e, eps[1..], key, g, t0, connectors))
  }

  lemma BeginKeeps(w: World, ep: Episode, key: Key)
    requires Present(w, key) && Survives(ep, key)
    ensures Kept(Begin(w, ep), key) && StoredStamp(Begin(w, ep), key) == StoredStamp(w, key)
  {
    StepsStepBy(w.(now := w.now + ep.wait, turns := ep.turns), ep.between, key);
  }

  /** From a stamped report on, every pass is timely, whatever becomes of its calls. */
  lemma {:induction false} StampedEpisodesAreTimely(w: World, eps: seq<Episode>, key: Key, g: int, t0: int, connectors: seq<Platform>)
    requires Present(w, key) && AlwaysDue(w, eps, key, g, connectors)
    requires StoredStamp(w, key) == Some(FormatTime(t0))
    ensures AllTimely(w, eps, key, g, t0, connectors)
    decreases eps
  {
    if eps != [] {
      var s := Begin(w, eps[0]);
      FormatLosesLessThanASecond(t0);
      BeginKeeps(w, eps[0], key);
      StampedPassSteps(s, eps[0].pass, key, FloorToSecond(t0), g, connectors);
      StampedEpisodesAreTimely(PolicyPass(s, eps[0].pass, connectors), eps[1..], key, g, t0, connectors);
    }
  }

  lemma FirstEpisodeStamps(w: World, ep: Episode, s: World, e: World, key: Key, g: int, connectors: seq<Platform>)
    requires Present(w, key) && StoredStamp(w, key) == None && Survives(ep, key)
    requires s == Begin(w, ep) && LeftAlone(s, key) && Due(s, ep.pass, key, g, connectors) && e == PolicyPass(s, ep.pass, connectors)
    ensures StampStep(s, e, key)
  {
    BeginKeeps(w, ep, key);
    StampingPassSteps(s, ep.pass, key, g, connectors);
  }

  /** Once some pass has stamped the report, the later ones are timely. */
  lemma LaterEpisodesAreTimely(s: World, e: World, eps: seq<Episode>, key: Key, g: int, connectors: seq<Platform>)
    requires StampStep(s, e, key) && AlwaysDue(e, eps, key, g, connectors)
    ensures exists t0 :: s.now <= t0 <= e.now && StoredStamp(e, key) == Some(FormatTime(t0)) && AllTimely(e, eps, key, g, t0, connectors)
  {
    var t0 :| s.now <= t0 <= e.now && StoredStamp(e, key) == Some(FormatTime(t0));
    StampedEpisodesAreTimely(e, eps, key, g, t0, connectors);
  }

  /** The first pass, with successful calls and the report unwritten, stamps it at some `t0` within its own
      duration without suspending; every later pass is timely with respect to that `t0`. */
  lemma SuspensionIsTimely(w: World, eps: seq<Episode>, key: Key, g: int, connectors: seq<Platform>)
    requires Present(w, key) && StoredStamp(w, key) == None && eps != [] && AlwaysDue(w, eps, key, g, connectors)
    requires LeftAlone(Begin(w, eps[0]), key)
    ensures var s := Begin(w, eps[0]);
            var e := PolicyPass(s, eps[0].pass, connectors);
            !SuspendedIn(s, e, key)
            && exists t0 :: s.now <= t0 <= e.now && StoredStamp(e, key) == Some(FormatTime(t0))
                            && AllTimely(e, eps[1..], key, g, t0, connectors)
  {
    var s := Begin(w, eps[0]);
    var e := PolicyPass(s, eps[0].pass, connectors);
    FirstEpisodeStamps(w, eps[0], s, e, key, g, connectors);
    LaterEpisodesAreTimely(s, e, eps[1..], key, g, connectors);
  }
}
