/** Where a report's source labels lead. Suspend and resume look the source-name label up in the
    registry, whose keys are source names; for a Kustomization the two differ. */
module LabelLookup {
  import opened Wrappers
  import opened Model
  import opened Registry
  import opened Cluster
  import opened Enforcement
  import opened RepoUrl
  import opened FluxJoin
  import opened Reports

  predicate Names(srcs: seq<PipelineSource>, name: string) {
    exists i :: 0 <= i < |srcs| && srcs[i].name == name
  }

  lemma NamesInConcat(a: seq<PipelineSource>, b: seq<PipelineSource>, name: string)
    ensures Names(a + b, name) <==> Names(a, name) || Names(b, name)
  {
    var all := a + b;
    if Names(a, name) {
      var i :| 0 <= i < |a| && a[i].name == name;
      assert all[i].name == name;
    }
    if Names(b, name) {
      var i :| 0 <= i < |b| && b[i].name == name;
      assert all[|a| + i].name == name;
    }
  }

  lemma {:induction false} LastNamedFinds(srcs: seq<PipelineSource>, name: string)
    ensures LastNamed(srcs, name).Some? <==> Names(srcs, name)
    ensures LastNamed(srcs, name).Some? ==> LastNamed(srcs, name).value.name == name
    decreases |srcs|
  {
    if srcs != [] {
      var init, last := srcs[..|srcs| - 1], srcs[|srcs| - 1..];
      assert srcs == init + last;
      LastNamedFinds(init, name);
      NamesInConcat(init, last, name);
    }
  }

  /** The keys of a registry that was filled by discovery are the discovered names. */
  lemma RegistryKeys(srcs: seq<PipelineSource>, name: string)
    ensures KeyedByName(GuardedPutAll(map[], srcs))
    ensures name in GuardedPutAll(map[], srcs) <==> Names(srcs, name)
  {
    GuardedRefinesPlain(map[], srcs);
    assert AgreesAt(map[], GuardedPutAll(map[], srcs), PutAll(map[], srcs), LastNamed(srcs, name), name);
    LastNamedFinds(srcs, name);
  }

  /** The GitRepository has that name and can be parsed, and no Kustomization refers to it. */
  predicate FallsBack(g: GitRepo, kss: seq<Kustomization>, urlPath: string -> Option<string>, name: string) {
    g.name == name && ParseRepoURL(g.url, urlPath).Some? && Referring(kss, g) == []
  }

  predicate Unreferenced(gs: seq<GitRepo>, kss: seq<Kustomization>, urlPath: string -> Option<string>, name: string) {
    exists i :: 0 <= i < |gs| && FallsBack(gs[i], kss, urlPath, name)
  }

  lemma UnreferencedInTail(gs: seq<GitRepo>, kss: seq<Kustomization>, urlPath: string -> Option<string>, name: string)
    requires gs != []
    ensures Unreferenced(gs, kss, urlPath, name) <==> FallsBack(gs[0], kss, urlPath, name) || Unreferenced(gs[1..], kss, urlPath, name)
  {
    if Unreferenced(gs[1..], kss, urlPath, name) {
      var i :| 0 <= i < |gs[1..]| && FallsBack(gs[1..][i], kss, urlPath, name);
      assert gs[i + 1] == gs[1..][i];
    }
    if Unreferenced(gs, kss, urlPath, name) && !FallsBack(gs[0], kss, urlPath, name) {
      var i :| 0 <= i < |gs| && FallsBack(gs[i], kss, urlPath, name);
      assert gs[1..][i - 1] == gs[i];
    }
  }

  lemma NamesOfOne(g: GitRepo, refs: seq<Kustomization>, urlPath: string -> Option<string>, name: string)
    requires '/' !in name
    ensures Names(SourcesOf(g, refs, urlPath), name) <==> ParseRepoURL(g.url, urlPath).Some? && refs == [] && g.name == name
  {
    var srcs := SourcesOf(g, refs, urlPath);
    if ParseRepoURL(g.url, urlPath).Some? {
      if refs == [] {
        assert srcs[0].name == g.name;
      } else {
        forall i | 0 <= i < |srcs| ensures srcs[i].name != name {
          assert srcs[i].name == g.name + "/" + refs[i].name;
          assert srcs[i].name[|g.name|] == '/';
        }
      }
    }
  }

  /** Flux discovery produces a slash-free name only for a repository that nothing refers to. */
  lemma {:induction false} SlashFreeSourceNames(gs: seq<GitRepo>, kss: seq<Kustomization>, urlPath: string -> Option<string>, name: string)
    requires '/' !in name
    ensures Names(NestedJoin(gs, kss, urlPath), name) <==> Unreferenced(gs, kss, urlPath, name)
    decreases gs
  {
    if gs != [] {
      var g, rest := gs[0], gs[1..];
      NamesOfOne(g, Referring(kss, g), urlPath, name);
      SlashFreeSourceNames(rest, kss, urlPath, name);
      NamesInConcat(SourcesOf(g, Referring(kss, g), urlPath), NestedJoin(rest, kss, urlPath), name);
      UnreferencedInTail(gs, kss, urlPath, name);
    }
  }

  /** The registry after discovery by other connectors and then by Flux. */
  function Filled(others: seq<PipelineSource>, gs: seq<GitRepo>, kss: seq<Kustomization>, urlPath: string -> Option<string>): map<string, PipelineSource> {
    GuardedPutAll(map[], others + NestedJoin(gs, kss, urlPath))
  }

  lemma TargetOfLabels(registry: map<string, PipelineSource>, connectors: seq<Platform>, src: PipelineSource)
    ensures Target(registry, connectors, SourceLabels(src)).Some? <==>
            src.sourceName != "" && src.sourceKind != "" && src.sourceName in registry && FindConnector(connectors, src.sourceKind).Some?
  {}

  /** Exactly when a report of a Kustomization leads anywhere: a Flux connector runs, and the name of the
      Kustomization happens to be that of another source, be it of another connector or the fallback of a
      GitRepository that nothing refers to. The Kustomization's own entry is never the one found. */
  lemma KustomizationLabelsResolveExactly(others: seq<PipelineSource>, gs: seq<GitRepo>, kss: seq<Kustomization>,
                                          urlPath: string -> Option<string>, connectors: seq<Platform>,
                                          g: GitRepo, r: Repo, ks: Kustomization)
    requires '/' !in ks.name && ks.name != ""
    ensures var registry := Filled(others, gs, kss, urlPath);
            var src := JoinedSource(g, r, ks);
            Target(registry, connectors, SourceLabels(src)).Some? <==>
              FindConnector(connectors, KUSTOMIZATION).Some? && (Names(others, ks.name) || Unreferenced(gs, kss, urlPath, ks.name))
    ensures var registry := Filled(others, gs, kss, urlPath);
            ks.name in registry ==> registry[ks.name] != JoinedSource(g, r, ks)
  {
    var srcs := others + NestedJoin(gs, kss, urlPath);
    var src := JoinedSource(g, r, ks);
    RegistryKeys(srcs, ks.name);
    NamesInConcat(others, NestedJoin(gs, kss, urlPath), ks.name);
    SlashFreeSourceNames(gs, kss, urlPath, ks.name);
    TargetOfLabels(GuardedPutAll(map[], srcs), connectors, src);
    assert src.name[|g.name|] == '/';
    assert src.name != ks.name;
  }

  lemma {:induction false} EntriesAreDiscovered(srcs: seq<PipelineSource>, name: string)
    requires name in GuardedPutAll(map[], srcs)
    ensures GuardedPutAll(map[], srcs)[name] in srcs
    decreases |srcs|
  {
    if srcs != [] {
      var init, last := srcs[..|srcs| - 1], srcs[|srcs| - 1];
      assert srcs == init + [last];
      GuardedPutAllSnoc(map[], init, last);
      if name in GuardedPutAll(map[], init) { EntriesAreDiscovered(init, name); }
    }
  }

  /** A source that is named like its object and shares that name with no other leads to that object,
      exactly when a connector serves its kind. */
  lemma OwnNameLeadsHome(srcs: seq<PipelineSource>, connectors: seq<Platform>, src: PipelineSource, p: Platform)
    requires src in srcs && src.name == src.sourceName && src.name != "" && src.sourceKind != ""
    requires forall i :: 0 <= i < |srcs| && srcs[i].name == src.name ==> srcs[i] == src
    ensures Target(GuardedPutAll(map[], srcs), connectors, SourceLabels(src)) == Some(SourceId(p, src.namespace, src.sourceName))
       <==> p in connectors && Serves(src.sourceKind, p)
  {
    RegistryKeys(srcs, src.name);
    var i :| 0 <= i < |srcs| && srcs[i] == src;
    assert Names(srcs, src.name);
    EntriesAreDiscovered(srcs, src.name);
    assert GuardedPutAll(map[], srcs)[src.name] == src;
    ConnectorIsDetermined(connectors, src.sourceKind, p);
  }

  /** Exactly when a report of a Kustomization leads to a Kustomization of that name in a given namespace,
      such as its own: if exactly one other source bears the name, that source has to stand for an object of
      the same name there, as the fallback of an equally named GitRepository does, and a Flux connector has
      to run; if it stands for another object, or lives elsewhere, the report leads to the wrong one. */
  lemma KustomizationLabelsLeadHomeExactly(others: seq<PipelineSource>, gs: seq<GitRepo>, kss: seq<Kustomization>,
                                           urlPath: string -> Option<string>, connectors: seq<Platform>,
                                           g: GitRepo, r: Repo, ks: Kustomization, ns: string, homonym: PipelineSource)
    requires ks.name != "" && homonym.name == ks.name
    requires var srcs := others + NestedJoin(gs, kss, urlPath);
             homonym in srcs && forall i :: 0 <= i < |srcs| && srcs[i].name == ks.name ==> srcs[i] == homonym
    ensures Target(Filled(others, gs, kss, urlPath), connectors, SourceLabels(JoinedSource(g, r, ks))) == Some(SourceId(Flux, ns, ks.name))
       <==> Flux in connectors && homonym.namespace == ns && homonym.sourceName == ks.name
  {
    var srcs := others + NestedJoin(gs, kss, urlPath);
    var i :| 0 <= i < |srcs| && srcs[i] == homonym;
    assert Names(srcs, ks.name);
    RegistryKeys(srcs, ks.name);
    EntriesAreDiscovered(srcs, ks.name);
    assert Filled(others, gs, kss, urlPath)[ks.name] == homonym;
    ConnectorIsDetermined(connectors, KUSTOMIZATION, Flux);
  }

  // The usual layout of a fleet: the Kustomization `apps` of the GitRepository `flux-system`.
  const FLEET := GitRepo("flux-system", "flux-system", map[], "git@" + "github.com" + ":" + "org" + "/" + "fleet" + ".git", None)
  const APPS := Kustomization("apps", "flux-system", GIT_REPOSITORY, "flux-system", "./apps", "")

  lemma OneKustomization(g: GitRepo, r: Repo, ks: Kustomization, urlPath: string -> Option<string>)
    requires ParseRepoURL(g.url, urlPath) == Some(r) && ks.refKind == GIT_REPOSITORY && ks.refName == g.name
    ensures NestedJoin([g], [ks], urlPath) == [JoinedSource(g, r, ks)] && Referring([ks], g) == [ks]
  {
    assert [g][1..] == [] && [ks][1..] == [];
    assert Referring([ks], g) == [ks];
    assert JoinEach(g, r, [ks]) == [JoinedSource(g, r, ks)];
  }

  /** The report of `apps` leads nowhere, although every connector runs and its source was discovered. */
  lemma AppsLeadsNowhere(urlPath: string -> Option<string>)
    ensures var src := JoinedSource(FLEET, Repo("org", "fleet"), APPS);
            var registry := Filled([], [FLEET], [APPS], urlPath);
            src.name in registry && Target(registry, [ArgoCD, Flux, Tekton], SourceLabels(src)) == None
  {
    var src := JoinedSource(FLEET, Repo("org", "fleet"), APPS);
    SshRoundTrip("github.com", "org", "fleet", urlPath);
    OneKustomization(FLEET, Repo("org", "fleet"), APPS, urlPath);
    assert [] + [src] == [src];
    RegistryKeys([src], src.name);
    assert [src][0].name == src.name;
    assert !Unreferenced([FLEET], [APPS], urlPath, "apps");
    assert !Names([], "apps");
    KustomizationLabelsResolveExactly([], [FLEET], [APPS], urlPath, [ArgoCD, Flux, Tekton], FLEET, Repo("org", "fleet"), APPS);
  }
}
