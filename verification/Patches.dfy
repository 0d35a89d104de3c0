/** The patches the operator sends, and the laws that make restoration undo enforcement. */
module Patches {
  import opened Wrappers
  import opened Json
  import opened Cluster

  const SUSPEND_PATH := ["spec", "suspend"]
  const AUTOMATED_PATH := ["spec", "syncPolicy", "automated"]
  const RISK_PATH := ["metadata", "labels", "fluxgate.north-echo.dev/pipeline-risk"]
  const AUTO_SYNC := Object(map["prune" := Bool(true), "selfHeal" := Bool(true)])

  /** The patch of a connector's Suspend. The policy controller reaches ArgoCD and Flux only. */
  function SuspendPatch(p: Platform): Json {
    if p.ArgoCD? then AtPath(AUTOMATED_PATH, Null) else AtPath(SUSPEND_PATH, Bool(true))
  }

  function ResumePatch(p: Platform): Json {
    if p.ArgoCD? then AtPath(AUTOMATED_PATH, AUTO_SYNC) else AtPath(SUSPEND_PATH, Bool(false))
  }

  function RiskPatch(risk: string): Json {
    AtPath(RISK_PATH, Str(risk))
  }

  function UnlabelPatch(): Json {
    AtPath(RISK_PATH, Null)
  }

  /** The sync setting of a source: automation switched off. */
  predicate IsSuspended(p: Platform, doc: Json) {
    if p.ArgoCD? then Lookup(doc, AUTOMATED_PATH) == None else Lookup(doc, SUSPEND_PATH) == Some(Bool(true))
  }

  function RiskLabel(doc: Json): Option<Json> {
    Lookup(doc, RISK_PATH)
  }

  /** Nothing but the two settings that Resume writes is configured under `automated`. */
  predicate OnlyManagedSettings(doc: Json) {
    var a := Lookup(doc, AUTOMATED_PATH);
    a.Some? && a.value.Object? ==> a.value.members.Keys <= {"prune", "selfHeal"}
  }

  lemma SuspendSuspends(p: Platform, doc: Json)
    ensures IsSuspended(p, MergePatch(doc, SuspendPatch(p)))
  {
    PatchHits(doc, AUTOMATED_PATH, Null);
    PatchHits(doc, SUSPEND_PATH, Bool(true));
  }

  lemma ResumeResumes(p: Platform, doc: Json)
    ensures !IsSuspended(p, MergePatch(doc, ResumePatch(p)))
  {
    PatchHits(doc, AUTOMATED_PATH, AUTO_SYNC);
    PatchHits(doc, SUSPEND_PATH, Bool(false));
  }

  /** Two more steps down a path that was just found. */
  lemma LookupConcat(doc: Json, p: seq<string>, q: seq<string>)
    ensures Lookup(doc, p + q) == if Lookup(doc, p).Some? then Lookup(Lookup(doc, p).value, q) else None
    decreases p
  {
    if p == [] {
      assert p + q == q;
    } else {
      assert (p + q)[0] == p[0] && (p + q)[1..] == p[1..] + q;
      if p[0] in Members(doc) { LookupConcat(Members(doc)[p[0]], p[1..], q); }
    }
  }

  /** What the ArgoCD patches leave, whatever the Application was: suspending removes the setting, resuming
      switches pruning and self-healing on. */
  lemma ArgoPatchesWrite(doc: Json)
    ensures Lookup(MergePatch(doc, SuspendPatch(ArgoCD)), ["spec", "syncPolicy", "automated"]) == None
    ensures Lookup(MergePatch(doc, ResumePatch(ArgoCD)), ["spec", "syncPolicy", "automated", "prune"]) == Some(Bool(true))
    ensures Lookup(MergePatch(doc, ResumePatch(ArgoCD)), ["spec", "syncPolicy", "automated", "selfHeal"]) == Some(Bool(true))
  {
    var resumed := MergePatch(doc, ResumePatch(ArgoCD));
    PatchHits(doc, AUTOMATED_PATH, Null);
    PatchHits(doc, AUTOMATED_PATH, AUTO_SYNC);
    assert AUTOMATED_PATH + ["prune"] == ["spec", "syncPolicy", "automated", "prune"];
    assert AUTOMATED_PATH + ["selfHeal"] == ["spec", "syncPolicy", "automated", "selfHeal"];
    LookupConcat(resumed, AUTOMATED_PATH, ["prune"]);
    LookupConcat(resumed, AUTOMATED_PATH, ["selfHeal"]);
    AutoSyncWrites(ValueAt(doc, AUTOMATED_PATH));
  }

  lemma AutoSyncWrites(here: Json)
    ensures Lookup(MergePatch(here, AUTO_SYNC), ["prune"]) == Some(Bool(true))
    ensures Lookup(MergePatch(here, AUTO_SYNC), ["selfHeal"]) == Some(Bool(true))
  {
    var merged := MergePatch(here, AUTO_SYNC);
    assert merged.members["prune"] == MergePatch(Member(here, "prune"), Bool(true));
    assert merged.members["selfHeal"] == MergePatch(Member(here, "selfHeal"), Bool(true));
    assert ["prune"][1..] == [] && ["selfHeal"][1..] == [];
  }

  /** What the Flux patches leave, whatever the Kustomization was. */
  lemma FluxPatchesWrite(doc: Json)
    ensures Lookup(MergePatch(doc, SuspendPatch(Flux)), ["spec", "suspend"]) == Some(Bool(true))
    ensures Lookup(MergePatch(doc, ResumePatch(Flux)), ["spec", "suspend"]) == Some(Bool(false))
  {
    PatchHits(doc, SUSPEND_PATH, Bool(true));
    PatchHits(doc, SUSPEND_PATH, Bool(false));
  }

  /** What the label patches leave under the operator's label. */
  lemma LabelPatchesWrite(doc: Json, risk: string)
    ensures Lookup(MergePatch(doc, RiskPatch(risk)), ["metadata", "labels", "fluxgate.north-echo.dev/pipeline-risk"]) == Some(Str(risk))
    ensures Lookup(MergePatch(doc, UnlabelPatch()), ["metadata", "labels", "fluxgate.north-echo.dev/pipeline-risk"]) == None
  {
    RiskLabelAfter(doc, risk);
  }

  lemma RiskLabelAfter(doc: Json, risk: string)
    ensures RiskLabel(MergePatch(doc, RiskPatch(risk))) == Some(Str(risk))
    ensures RiskLabel(MergePatch(doc, UnlabelPatch())) == None
  {
    PatchHits(doc, RISK_PATH, Str(risk));
    PatchHits(doc, RISK_PATH, Null);
  }

  /** A later label patch, or an unlabel patch, makes an earlier label patch unobservable. */
  lemma LabelIsOverwritten(doc: Json, risk: string, risk': string)
    ensures MergePatch(MergePatch(doc, RiskPatch(risk)), RiskPatch(risk')) == MergePatch(doc, RiskPatch(risk'))
    ensures MergePatch(MergePatch(doc, RiskPatch(risk)), UnlabelPatch()) == MergePatch(doc, UnlabelPatch())
  {
    SamePathCovers(RISK_PATH, Str(risk), Str(risk'));
    SamePathCovers(RISK_PATH, Str(risk), Null);
    CoveredPatchIsAbsorbed(doc, RiskPatch(risk), RiskPatch(risk'));
    CoveredPatchIsAbsorbed(doc, RiskPatch(risk), UnlabelPatch());
  }

  lemma FluxResumeUndoesSuspend(p: Platform, doc: Json)
    requires !p.ArgoCD?
    ensures MergePatch(MergePatch(doc, SuspendPatch(p)), ResumePatch(p)) == MergePatch(doc, ResumePatch(p))
  {
    SamePathCovers(SUSPEND_PATH, Bool(true), Bool(false));
    CoveredPatchIsAbsorbed(doc, SuspendPatch(p), ResumePatch(p));
  }

  lemma KeysAtKey(doc: Json, k: string, q: Json)
    ensures var merged := MergePatch(doc, Object(map[k := q]));
            merged.Object? && merged.members.Keys == if q.Null? then Members(doc).Keys - {k} else Members(doc).Keys + {k}
  {
    assert map[k := q].Keys == {k};
  }

  lemma ValueAtKey(doc: Json, k: string, q: Json, x: string)
    requires x in MergePatch(doc, Object(map[k := q])).members
    ensures MergePatch(doc, Object(map[k := q])).members[x] == if x == k then MergePatch(Member(doc, k), q) else Member(doc, x)
  {}

  /** A patch of one key removes or merges the value there and leaves the other members. */
  lemma MergeAtKey(doc: Json, k: string, q: Json)
    ensures MergePatch(doc, Object(map[k := q])) ==
            Object(if q.Null? then Members(doc) - {k} else Members(doc)[k := MergePatch(Member(doc, k), q)])
  {
    var merged := MergePatch(doc, Object(map[k := q])).members;
    var wanted := if q.Null? then Members(doc) - {k} else Members(doc)[k := MergePatch(Member(doc, k), q)];
    KeysAtKey(doc, k, q);
    assert merged.Keys == wanted.Keys;
    forall x | x in merged ensures merged[x] == wanted[x] {
      ValueAtKey(doc, k, q, x);
    }
    assert merged == wanted;
  }

  /** The value at a path, with Null for an absent one. */
  function ValueAt(doc: Json, path: seq<string>): Json {
    var v := Lookup(doc, path);
    if v.Some? then v.value else Null
  }

  lemma ValueOneStepDown(doc: Json, path: seq<string>)
    requires path != []
    ensures ValueAt(doc, path) == ValueAt(Member(doc, path[0]), path[1..])
  {
    if path[0] !in Members(doc) {
      assert Lookup(Null, path[1..]) == if path[1..] == [] then Some(Null) else None;
    }
  }

  lemma MergeTwiceAtKey(doc: Json, k: string, p: Json, q: Json)
    requires !q.Null?
    ensures MergePatch(MergePatch(doc, Object(map[k := p])), Object(map[k := q])) == MergePatch(doc, Object(map[k := q]))
       <==> MergePatch(if p.Null? then Null else MergePatch(Member(doc, k), p), q) == MergePatch(Member(doc, k), q)
  {
    var once := MergePatch(doc, Object(map[k := p]));
    MergeAtKey(doc, k, p);
    MergeAtKey(once, k, q);
    MergeAtKey(doc, k, q);
    var both, direct := MergePatch(once, Object(map[k := q])).members, MergePatch(doc, Object(map[k := q])).members;
    assert both[k] == direct[k] <==> both == direct;
  }

  /** Two merges at one path, the later with an object, only concern the value there. */
  lemma {:induction false} MergeTwiceAt(doc: Json, path: seq<string>, v: Json, w: Json)
    requires path != [] && w.Object?
    ensures MergePatch(MergePatch(doc, AtPath(path, v)), AtPath(path, w)) == MergePatch(doc, AtPath(path, w))
       <==> MergePatch(if v.Null? then Null else MergePatch(ValueAt(doc, path), v), w) == MergePatch(ValueAt(doc, path), w)
    decreases path
  {
    var k, rest := path[0], path[1..];
    MergeTwiceAtKey(doc, k, AtPath(rest, v), AtPath(rest, w));
    ValueOneStepDown(doc, path);
    if rest == [] {
      assert ValueAt(Member(doc, k), rest) == Member(doc, k);
    } else {
      MergeTwiceAt(Member(doc, k), rest, v, w);
    }
  }

  predicate Flat(patch: Json) {
    patch.Object? && forall k :: k in patch.members ==> !patch.members[k].Object? && !patch.members[k].Null?
  }

  /** A patch of plain values gives the same result on a value as on nothing exactly when the value has
      no member the patch does not set. */
  lemma FlatPatchForgets(here: Json, patch: Json)
    requires Flat(patch)
    ensures MergePatch(Null, patch) == MergePatch(here, patch) <==> Members(here).Keys <= patch.members.Keys
  {
    var off, on := MergePatch(Null, patch).members, MergePatch(here, patch).members;
    forall k | k in patch.members
      ensures k in off && off[k] == patch.members[k] && k in on && on[k] == patch.members[k]
    {
      var v := patch.members[k];
      assert !v.Object? && !v.Null?;
      assert MergePatch(Member(Null, k), v) == v && MergePatch(Member(here, k), v) == v;
    }
    assert off == patch.members;
    assert on.Keys == Members(here).Keys + patch.members.Keys;
    if Members(here).Keys <= patch.members.Keys {
      assert on == off;
    }
  }

  /** Resuming an ArgoCD Application forgets the suspension exactly when `automated` configured
      nothing but prune and selfHeal; any other member is lost by suspend and kept by resume alone. */
  lemma ArgoResumeUndoesSuspendExactly(doc: Json)
    ensures MergePatch(MergePatch(doc, SuspendPatch(ArgoCD)), ResumePatch(ArgoCD)) == MergePatch(doc, ResumePatch(ArgoCD))
       <==> OnlyManagedSettings(doc)
  {
    var here := ValueAt(doc, AUTOMATED_PATH);
    MergeTwiceAt(doc, AUTOMATED_PATH, Null, AUTO_SYNC);
    FlatPatchForgets(here, AUTO_SYNC);
    ManagedKeys(doc);
  }

  lemma ManagedKeys(doc: Json)
    ensures OnlyManagedSettings(doc) <==> Members(ValueAt(doc, AUTOMATED_PATH)).Keys <= AUTO_SYNC.members.Keys
  {
    assert AUTO_SYNC.members.Keys == {"prune", "selfHeal"};
  }

  /** Resuming forgets a suspension: always for Flux, under the condition above for ArgoCD. */
  lemma ResumeUndoesSuspend(p: Platform, doc: Json)
    requires p.ArgoCD? ==> OnlyManagedSettings(doc)
    ensures MergePatch(MergePatch(doc, SuspendPatch(p)), ResumePatch(p)) == MergePatch(doc, ResumePatch(p))
  {
    if p.ArgoCD? { ArgoResumeUndoesSuspendExactly(doc); } else { FluxResumeUndoesSuspend(p, doc); }
  }

  lemma {:induction false} LookupAtPath(path: seq<string>, v: Json)
    ensures Lookup(AtPath(path, v), path) == Some(v)
    decreases path
  {
    if path != [] { LookupAtPath(path[1..], v); }
  }

  const ALLOW_EMPTY := Object(map["allowEmpty" := Bool(true)])

  lemma AutoSyncOver(here: Json)
    requires here == Null || here == ALLOW_EMPTY
    ensures MergePatch(here, AUTO_SYNC) == if here == Null then AUTO_SYNC else Object(AUTO_SYNC.members["allowEmpty" := Bool(true)])
  {
    assert MergePatch(here, AUTO_SYNC).members ==
           if here == Null then AUTO_SYNC.members else AUTO_SYNC.members["allowEmpty" := Bool(true)];
  }

  /** An Application with allowEmpty under `automated`: resuming alone keeps it, suspending and resuming
      leaves prune and selfHeal only. */
  lemma AllowEmptyIsLost()
    ensures var doc := AtPath(AUTOMATED_PATH, ALLOW_EMPTY);
            !OnlyManagedSettings(doc)
            && Lookup(MergePatch(doc, ResumePatch(ArgoCD)), AUTOMATED_PATH) == Some(Object(AUTO_SYNC.members["allowEmpty" := Bool(true)]))
            && Lookup(MergePatch(MergePatch(doc, SuspendPatch(ArgoCD)), ResumePatch(ArgoCD)), AUTOMATED_PATH) == Some(AUTO_SYNC)
            && MergePatch(MergePatch(doc, SuspendPatch(ArgoCD)), ResumePatch(ArgoCD)) != MergePatch(doc, ResumePatch(ArgoCD))
  {
    var doc := AtPath(AUTOMATED_PATH, ALLOW_EMPTY);
    LookupAtPath(AUTOMATED_PATH, ALLOW_EMPTY);
    assert "allowEmpty" in ALLOW_EMPTY.members;
    ArgoResumeUndoesSuspendExactly(doc);
    PatchHits(doc, AUTOMATED_PATH, AUTO_SYNC);
    PatchHits(doc, AUTOMATED_PATH, Null);
    PatchHits(MergePatch(doc, SuspendPatch(ArgoCD)), AUTOMATED_PATH, AUTO_SYNC);
    AutoSyncOver(Null);
    AutoSyncOver(ALLOW_EMPTY);
  }
}
