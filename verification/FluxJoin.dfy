/** Flux discovery: the index-based join of GitRepositories and Kustomizations. */
module FluxJoin {
  import opened Wrappers
  import opened Strings
  import opened Model
  import opened RepoUrl

  datatype Reference = Reference(branch: string, tag: string)

  datatype GitRepo = GitRepo(name: string, namespace: string, labels: map<string, string>, url: string, ref: Option<Reference>)

  datatype Kustomization = Kustomization(name: string, namespace: string, refKind: string, refName: string, path: string, targetNamespace: string)

  function BranchOf(g: GitRepo): string {
    if g.ref.None? then "main"
    else if g.ref.value.branch != "" then g.ref.value.branch
    else if g.ref.value.tag != "" then g.ref.value.tag
    else "main"
  }

  function FallbackSource(g: GitRepo, r: Repo): PipelineSource {
    PipelineSource(g.name, g.url, BranchOf(g), [], "github-actions", g.labels, g.namespace, g.name, GIT_REPOSITORY, r.owner, r.repo, "")
  }

  function JoinedSource(g: GitRepo, r: Repo, ks: Kustomization): PipelineSource {
    PipelineSource(g.name + "/" + ks.name, g.url, BranchOf(g), if ks.path == "" then [] else [ks.path], "github-actions", g.labels,
                   g.namespace, ks.name, KUSTOMIZATION, r.owner, r.repo,
                   if ks.targetNamespace == "" then ks.namespace else ks.targetNamespace)
  }

  /** The Kustomizations that refer to a GitRepository, in list order. */
  function Referring(kss: seq<Kustomization>, g: GitRepo): seq<Kustomization> {
    if kss == [] then []
    else (if kss[0].refKind == GIT_REPOSITORY && kss[0].refName == g.name then [kss[0]] else []) + Referring(kss[1..], g)
  }

  function JoinEach(g: GitRepo, r: Repo, refs: seq<Kustomization>): seq<PipelineSource> {
    seq(|refs|, i requires 0 <= i < |refs| => JoinedSource(g, r, refs[i]))
  }

  /** The sources of one repository given the Kustomizations that refer to it. */
  function SourcesOf(g: GitRepo, refs: seq<Kustomization>, urlPath: string -> Option<string>): seq<PipelineSource> {
    match ParseRepoURL(g.url, urlPath)
    case None => []
    case Some(r) => if refs == [] then [FallbackSource(g, r)] else JoinEach(g, r, refs)
  }

  /** The nested-loop join. */
  function NestedJoin(gs: seq<GitRepo>, kss: seq<Kustomization>, urlPath: string -> Option<string>): seq<PipelineSource> {
    if gs == [] then [] else SourcesOf(gs[0], Referring(kss, gs[0]), urlPath) + NestedJoin(gs[1..], kss, urlPath)
  }

  /** The items that unmarshal. */
  function Decoded<T>(items: seq<Option<T>>): seq<T> {
    if items == [] then [] else (if items[0].Some? then [items[0].value] else []) + Decoded(items[1..])
  }

  function IndexKey(kind: string, name: string): string {
    kind + "/" + name
  }

  function WithKey(kss: seq<Kustomization>, key: string): seq<Kustomization> {
    if kss == [] then []
    else (if IndexKey(kss[0].refKind, kss[0].refName) == key then [kss[0]] else []) + WithKey(kss[1..], key)
  }

  /** The sources of one repository through the index. */
  function Indexed(g: GitRepo, kss: seq<Kustomization>, urlPath: string -> Option<string>): seq<PipelineSource> {
    SourcesOf(g, WithKey(kss, IndexKey(GIT_REPOSITORY, g.name)), urlPath)
  }

  /** The join by index key, which is what the code computes on every input. */
  function IndexJoin(gs: seq<GitRepo>, kss: seq<Kustomization>, urlPath: string -> Option<string>): seq<PipelineSource> {
    if gs == [] then [] else Indexed(gs[0], kss, urlPath) + IndexJoin(gs[1..], kss, urlPath)
  }

  predicate SlashFreeKinds(kss: seq<Kustomization>) {
    forall i :: 0 <= i < |kss| ==> '/' !in kss[i].refKind
  }

  predicate SlashFreeNames(gs: seq<GitRepo>) {
    forall i :: 0 <= i < |gs| ==> '/' !in gs[i].name
  }

  lemma KeyTellsReferences(ks: Kustomization, name: string)
    requires '/' !in ks.refKind || '/' !in name
    ensures IndexKey(ks.refKind, ks.refName) == IndexKey(GIT_REPOSITORY, name) <==> ks.refKind == GIT_REPOSITORY && ks.refName == name
  {
    if IndexKey(ks.refKind, ks.refName) == IndexKey(GIT_REPOSITORY, name) {
      assert ks.refKind + ['/'] + ks.refName == GIT_REPOSITORY + ['/'] + name;
      if '/' !in name {
        OneSlash(ks.refKind, ks.refName, GIT_REPOSITORY, name);
      } else {
        SplitUnique(ks.refKind, ks.refName, GIT_REPOSITORY, name, '/');
      }
    }
  }

  lemma OneSlash(a: string, b: string, c: string, d: string)
    requires a + ['/'] + b == c + ['/'] + d && '/' !in c && '/' !in d
    ensures a == c && b == d
  {
    var l, r := a + ['/'] + b, c + ['/'] + d;
    assert l[|a|] == '/';
    assert forall i :: 0 <= i < |c| ==> r[i] == c[i];
    assert forall i :: |c| < i < |r| ==> r[i] == d[i - |c| - 1];
    assert l[..|a|] == a && r[..|c|] == c && l[|a| + 1..] == b && r[|c| + 1..] == d;
  }

  lemma {:induction false} KeyedIsReferring(kss: seq<Kustomization>, g: GitRepo)
    requires SlashFreeKinds(kss) || '/' !in g.name
    ensures WithKey(kss, IndexKey(GIT_REPOSITORY, g.name)) == Referring(kss, g)
  {
    if kss != [] {
      KeyedIsReferring(kss[1..], g);
      KeyTellsReferences(kss[0], g.name);
    }
  }

  /** The index join is the nested-loop join when the referenced kinds, or the repository names, are
      free of slashes. */
  lemma {:induction false} IndexJoinIsNestedJoin(gs: seq<GitRepo>, kss: seq<Kustomization>, urlPath: string -> Option<string>)
    requires SlashFreeKinds(kss) || SlashFreeNames(gs)
    ensures IndexJoin(gs, kss, urlPath) == NestedJoin(gs, kss, urlPath)
  {
    if gs != [] {
      KeyedIsReferring(kss, gs[0]);
      IndexJoinIsNestedJoin(gs[1..], kss, urlPath);
    }
  }

  lemma Associate<T>(a: seq<T>, b: seq<T>, c: seq<T>)
    ensures a + (b + c) == (a + b) + c
  {}

  lemma {:induction false} WithKeySnoc(kss: seq<Kustomization>, ks: Kustomization, key: string)
    ensures WithKey(kss + [ks], key) == WithKey(kss, key) + if IndexKey(ks.refKind, ks.refName) == key then [ks] else []
  {
    if kss == [] {
      assert (kss + [ks])[1..] == [];
    } else {
      assert (kss + [ks])[1..] == kss[1..] + [ks];
      WithKeySnoc(kss[1..], ks, key);
      var first := if IndexKey(kss[0].refKind, kss[0].refName) == key then [kss[0]] else [];
      var last := if IndexKey(ks.refKind, ks.refName) == key then [ks] else [];
      Associate(first, WithKey(kss[1..], key), last);
    }
  }

  lemma {:induction false} DecodedSnoc<T>(items: seq<Option<T>>, item: Option<T>)
    ensures Decoded(items + [item]) == Decoded(items) + if item.Some? then [item.value] else []
  {
    if items == [] {
      assert (items + [item])[1..] == [];
    } else {
      assert (items + [item])[1..] == items[1..] + [item];
      DecodedSnoc(items[1..], item);
      var first := if items[0].Some? then [items[0].value] else [];
      var last := if item.Some? then [item.value] else [];
      Associate(first, Decoded(items[1..]), last);
    }
  }

  lemma {:induction false} IndexJoinSnoc(gs: seq<GitRepo>, g: GitRepo, kss: seq<Kustomization>, urlPath: string -> Option<string>)
    ensures IndexJoin(gs + [g], kss, urlPath) == IndexJoin(gs, kss, urlPath) + Indexed(g, kss, urlPath)
    decreases gs
  {
    if gs == [] {
      assert (gs + [g])[1..] == [];
      assert Indexed(g, kss, urlPath) + [] == [] + Indexed(g, kss, urlPath);
    } else {
      assert (gs + [g])[1..] == gs[1..] + [g];
      IndexJoinSnoc(gs[1..], g, kss, urlPath);
      Associate(Indexed(gs[0], kss, urlPath), IndexJoin(gs[1..], kss, urlPath), Indexed(g, kss, urlPath));
    }
  }

  function At(index: map<string, seq<Kustomization>>, key: string): seq<Kustomization> {
    if key in index then index[key] else []
  }

  /** The index: every key that occurs, with its Kustomizations in list order. */
  method BuildIndex(items: seq<Option<Kustomization>>) returns (index: map<string, seq<Kustomization>>)
    ensures forall key :: At(index, key) == WithKey(Decoded(items), key)
  {
    index := map[];
    for i := 0 to |items|
      invariant forall key :: At(index, key) == WithKey(Decoded(items[..i]), key)
    {
      ghost var before, after := Decoded(items[..i]), Decoded(items[..i + 1]);
      assert items[..i + 1] == items[..i] + [items[i]];
      DecodedSnoc(items[..i], items[i]);
      if items[i].None? {
        assert after == before;
        continue;
      }
      var ks := items[i].value;
      var key := IndexKey(ks.refKind, ks.refName);
      ghost var index0 := index;
      index := index[key := At(index, key) + [ks]];
      forall k ensures At(index, k) == WithKey(after, k) {
        assert At(index0, k) == WithKey(before, k);
        WithKeySnoc(before, ks, k);
      }
    }
    assert items[..|items|] == items;
  }

  method JoinAll(g: GitRepo, r: Repo, refs: seq<Kustomization>) returns (sources: seq<PipelineSource>)
    ensures sources == JoinEach(g, r, refs)
  {
    sources := [];
    for j := 0 to |refs|
      invariant |sources| == j && forall k :: 0 <= k < j ==> sources[k] == JoinedSource(g, r, refs[k])
    {
      sources := sources + [JoinedSource(g, r, refs[j])];
    }
  }

  /** The sources of one repository, one per Kustomization found, or the fallback. */
  method SourcesFor(g: GitRepo, refs: seq<Kustomization>, urlPath: string -> Option<string>) returns (sources: seq<PipelineSource>)
    ensures sources == SourcesOf(g, refs, urlPath)
  {
    var parsed := ParseRepoURL(g.url, urlPath);
    if parsed.None? { return []; }
    if |refs| == 0 { return [FallbackSource(g, parsed.value)]; }
    sources := JoinAll(g, parsed.value, refs);
  }

  function SourceCount(gs: seq<GitRepo>, kss: seq<Kustomization>, urlPath: string -> Option<string>): nat {
    if gs == [] then 0
    else
      var refs := |Referring(kss, gs[0])|;
      (if ParseRepoURL(gs[0].url, urlPath).None? then 0 else if refs == 0 then 1 else refs) + SourceCount(gs[1..], kss, urlPath)
  }

  predicate DistinctNames(srcs: seq<PipelineSource>) {
    forall i, j :: 0 <= i < j < |srcs| ==> srcs[i].name != srcs[j].name
  }

  predicate ProperRepos(gs: seq<GitRepo>) {
    && SlashFreeNames(gs)
    && forall i, j :: 0 <= i < j < |gs| ==> gs[i].name != gs[j].name
  }

  predicate DistinctKustomizations(kss: seq<Kustomization>) {
    forall i, j :: 0 <= i < j < |kss| ==> kss[i].name != kss[j].name
  }

  /** The part of a source name before its first slash. */
  function Stem(name: string): string {
    name[..IndexOf(name, '/')]
  }

  lemma {:induction false} ReferringIsDistinct(kss: seq<Kustomization>, g: GitRepo)
    requires DistinctKustomizations(kss)
    ensures DistinctKustomizations(Referring(kss, g)) && forall ks :: ks in Referring(kss, g) ==> ks in kss
  {
    if kss != [] {
      ReferringIsDistinct(kss[1..], g);
      var rest := Referring(kss[1..], g);
      forall i | 0 <= i < |rest| ensures rest[i].name != kss[0].name {
        assert rest[i] in rest;
      }
    }
  }

  lemma SourcesOfOne(g: GitRepo, refs: seq<Kustomization>, urlPath: string -> Option<string>)
    requires '/' !in g.name && DistinctKustomizations(refs)
    ensures var srcs := SourcesOf(g, refs, urlPath);
            DistinctNames(srcs) && forall i :: 0 <= i < |srcs| ==> Stem(srcs[i].name) == g.name
  {
    var srcs := SourcesOf(g, refs, urlPath);
    forall i | 0 <= i < |srcs| ensures Stem(srcs[i].name) == g.name {
      if refs == [] {
        assert srcs[i].name == g.name;
      } else {
        assert srcs[i].name == g.name + ['/'] + refs[i].name;
        FirstIndex(g.name, '/', refs[i].name);
      }
    }
    forall i, j | 0 <= i < j < |srcs| ensures srcs[i].name != srcs[j].name {
      assert srcs[i].name[|g.name| + 1..] == refs[i].name && srcs[j].name[|g.name| + 1..] == refs[j].name;
    }
  }

  /** The join has max(1, references) sources per parseable repository. */
  lemma {:induction false} JoinCounts(gs: seq<GitRepo>, kss: seq<Kustomization>, urlPath: string -> Option<string>)
    ensures |NestedJoin(gs, kss, urlPath)| == SourceCount(gs, kss, urlPath)
  {
    if gs != [] { JoinCounts(gs[1..], kss, urlPath); }
  }

  predicate StemIsName(src: PipelineSource, gs: seq<GitRepo>) {
    exists i :: 0 <= i < |gs| && Stem(src.name) == gs[i].name
  }

  /** The names that key the registry are pairwise distinct when object names are unique and slash-free. */
  lemma {:induction false} JoinNames(gs: seq<GitRepo>, kss: seq<Kustomization>, urlPath: string -> Option<string>)
    requires ProperRepos(gs) && DistinctKustomizations(kss)
    ensures var srcs := NestedJoin(gs, kss, urlPath);
            DistinctNames(srcs) && forall i :: 0 <= i < |srcs| ==> StemIsName(srcs[i], gs)
  {
    if gs != [] {
      var g, rest := gs[0], gs[1..];
      var here, there := SourcesOf(g, Referring(kss, g), urlPath), NestedJoin(rest, kss, urlPath);
      JoinNames(rest, kss, urlPath);
      ReferringIsDistinct(kss, g);
      SourcesOfOne(g, Referring(kss, g), urlPath);
      forall i | 0 <= i < |here| ensures StemIsName(here[i], gs) { assert Stem(here[i].name) == gs[0].name; }
      forall j | 0 <= j < |there| ensures StemIsName(there[j], gs) && Stem(there[j].name) != g.name {
        var k :| 0 <= k < |rest| && Stem(there[j].name) == rest[k].name;
        assert rest[k] == gs[k + 1];
      }
    }
  }

  /** The two laws for what discovery returns, which is the join through the index. */
  lemma DiscoveryProperties(gs: seq<GitRepo>, kss: seq<Kustomization>, urlPath: string -> Option<string>)
    ensures SlashFreeKinds(kss) || SlashFreeNames(gs) ==>
              IndexJoin(gs, kss, urlPath) == NestedJoin(gs, kss, urlPath) && |IndexJoin(gs, kss, urlPath)| == SourceCount(gs, kss, urlPath)
    ensures ProperRepos(gs) && DistinctKustomizations(kss) ==> DistinctNames(IndexJoin(gs, kss, urlPath))
  {
    if SlashFreeKinds(kss) || SlashFreeNames(gs) {
      IndexJoinIsNestedJoin(gs, kss, urlPath);
      JoinCounts(gs, kss, urlPath);
    }
    if ProperRepos(gs) && DistinctKustomizations(kss) { JoinNames(gs, kss, urlPath); }
  }

  lemma NextRepo(items: seq<Option<GitRepo>>, i: nat, kss: seq<Kustomization>, urlPath: string -> Option<string>)
    requires i < |items|
    ensures var before, after := IndexJoin(Decoded(items[..i]), kss, urlPath), IndexJoin(Decoded(items[..i + 1]), kss, urlPath);
            after == if items[i].None? then before else before + Indexed(items[i].value, kss, urlPath)
  {
    assert items[..i + 1] == items[..i] + [items[i]];
    DecodedSnoc(items[..i], items[i]);
    if items[i].None? {
      assert Decoded(items[..i]) + [] == Decoded(items[..i]);
    } else {
      IndexJoinSnoc(Decoded(items[..i]), items[i].value, kss, urlPath);
    }
  }

  /** Discover: the join through the index. */
  method Discover(gitRepos: seq<Option<GitRepo>>, kustomizations: seq<Option<Kustomization>>, urlPath: string -> Option<string>)
    returns (sources: seq<PipelineSource>)
    ensures sources == IndexJoin(Decoded(gitRepos), Decoded(kustomizations), urlPath)
    ensures var gs, kss := Decoded(gitRepos), Decoded(kustomizations);
            (SlashFreeKinds(kss) || SlashFreeNames(gs) ==> sources == NestedJoin(gs, kss, urlPath) && |sources| == SourceCount(gs, kss, urlPath))
            && (ProperRepos(gs) && DistinctKustomizations(kss) ==> DistinctNames(sources))
  {
    ghost var kss := Decoded(kustomizations);
    var index := BuildIndex(kustomizations);
    sources := [];
    for i := 0 to |gitRepos|
      invariant sources == IndexJoin(Decoded(gitRepos[..i]), kss, urlPath)
    {
      NextRepo(gitRepos, i, kss, urlPath);
      if gitRepos[i].None? { continue; }
      var g := gitRepos[i].value;
      var found := SourcesFor(g, At(index, IndexKey(GIT_REPOSITORY, g.name)), urlPath);
      sources := sources + found;
    }
    assert gitRepos[..|gitRepos|] == gitRepos;
    DiscoveryProperties(Decoded(gitRepos), kss, urlPath);
  }

  /** The source belongs to the repository: its URL and what it parses to, its branch, namespace and labels. */
  predicate OfRepository(src: PipelineSource, g: GitRepo, urlPath: string -> Option<string>) {
    && ParseRepoURL(g.url, urlPath) == Some(Repo(src.owner, src.repo)) && src.repository == g.url
    && src.namespace == g.namespace && src.labels == g.labels && src.platform == "github-actions"
    && (g.ref.None? ==> src.branch == "main")
    && (g.ref.Some? && g.ref.value.branch != "" ==> src.branch == g.ref.value.branch)
    && (g.ref.Some? && g.ref.value.branch == "" && g.ref.value.tag != "" ==> src.branch == g.ref.value.tag)
    && (g.ref.Some? && g.ref.value.branch == "" && g.ref.value.tag == "" ==> src.branch == "main")
  }

  predicate ForRepository(src: PipelineSource, g: GitRepo) {
    src.name == g.name == src.sourceName && src.sourceKind == "GitRepository" && src.paths == [] && src.targetNamespace == ""
  }

  /** The source stands for a Kustomization that refers to the repository. */
  predicate ForKustomization(src: PipelineSource, g: GitRepo, ks: Kustomization) {
    && ks.refKind == "GitRepository" && ks.refName == g.name
    && src.name == g.name + "/" + ks.name && src.sourceName == ks.name && src.sourceKind == "Kustomization"
    && (if ks.path == "" then src.paths == [] else src.paths == [ks.path])
    && (if ks.targetNamespace == "" then src.targetNamespace == ks.namespace else src.targetNamespace == ks.targetNamespace)
  }

  predicate HasOrigin(src: PipelineSource, g: GitRepo, kss: seq<Kustomization>, urlPath: string -> Option<string>) {
    OfRepository(src, g, urlPath) && (ForRepository(src, g) || exists ks :: ks in kss && ForKustomization(src, g, ks))
  }

  lemma {:induction false} ReferringRefer(kss: seq<Kustomization>, g: GitRepo)
    ensures forall ks :: ks in Referring(kss, g) ==> ks in kss && ks.refKind == "GitRepository" && ks.refName == g.name
  {
    if kss != [] { ReferringRefer(kss[1..], g); }
  }

  lemma OriginOfOne(g: GitRepo, kss: seq<Kustomization>, urlPath: string -> Option<string>, i: nat)
    requires i < |SourcesOf(g, Referring(kss, g), urlPath)|
    ensures HasOrigin(SourcesOf(g, Referring(kss, g), urlPath)[i], g, kss, urlPath)
  {
    var refs := Referring(kss, g);
    var src := SourcesOf(g, refs, urlPath)[i];
    ReferringRefer(kss, g);
    if refs == [] {
      assert ForRepository(src, g);
    } else {
      assert refs[i] in refs;
      assert ForKustomization(src, g, refs[i]);
    }
  }

  /** Every discovered source carries the data of a listed repository, and of the Kustomization it stands for. */
  lemma {:induction false} SourcesCarryOrigin(gs: seq<GitRepo>, kss: seq<Kustomization>, urlPath: string -> Option<string>, i: nat)
    requires i < |NestedJoin(gs, kss, urlPath)|
    ensures exists g :: g in gs && HasOrigin(NestedJoin(gs, kss, urlPath)[i], g, kss, urlPath)
    decreases gs
  {
    var here := SourcesOf(gs[0], Referring(kss, gs[0]), urlPath);
    if i < |here| {
      OriginOfOne(gs[0], kss, urlPath, i);
      assert gs[0] in gs;
    } else {
      SourcesCarryOrigin(gs[1..], kss, urlPath, i - |here|);
      var g :| g in gs[1..] && HasOrigin(NestedJoin(gs[1..], kss, urlPath)[i - |here|], g, kss, urlPath);
      assert g in gs;
    }
  }
}
