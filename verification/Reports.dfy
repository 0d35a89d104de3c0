/** The controllers that write report status: analysis and report reconciliation. */
module Reports {
  import opened Wrappers
  import opened Strings
  import opened Model
  import opened Compliance
  import opened Cluster
  import opened Enforcement
  import opened Safety
  import opened GracePeriods
  import opened Calm
  import opened Naming

  /** ReportController.Reconcile. */
  function ReconcileReport(w: World, key: Key): World {
    var (w1, got) := GetReport(w, key);
    match got
    case Found(c) => if Recomputed(c.status) == c.status then w1 else UpdateStatus(w1, c.(status := Recomputed(c.status))).0
    case NotFound => w1
    case Failed => w1
  }

  /** Whether a report reconcile returns without error. */
  predicate ReconcileSucceeds(w: World, key: Key) {
    var (w1, got) := GetReport(w, key);
    match got
    case Found(c) => Recomputed(c.status) == c.status || UpdateStatus(w1, c.(status := Recomputed(c.status))).1.Some?
    case NotFound => true
    case Failed => false
  }

  /** Success means that the report was gone when read, or is stored with a consistent status. */
  lemma SuccessMeansConsistent(w: World, key: Key)
    requires Inv(w) && ReconcileSucceeds(w, key)
    ensures var w' := ReconcileReport(w, key);
            key !in Arrive(w).reports || (key in w'.reports && Consistent(w'.reports[key].status))
  {
    ArriveKeeps(w);
    ArriveKeeps(Arrive(w));
    if key in Arrive(w).reports { assert ReportOk(Arrive(w), key); }
  }

  /** What the analysis controller learns about a source: findings, or an error, and each matching
      connector's workloads, or an error. */
  datatype Knowledge = Knowledge(analyze: PipelineSource -> Option<seq<Finding>>,
                                 resolve: (Platform, PipelineSource) -> Option<seq<WorkloadRef>>)

  function PlatformName(p: Platform): string {
    match p
    case ArgoCD => "argocd"
    case Flux => "flux"
    case Tekton => "tekton"
  }

  predicate Resolves(p: Platform, kind: string) {
    PlatformName(p) == TrimSuffix(kind, "ation") || Serves(kind, p)
  }

  /** A connector resolves workloads for the kinds it discovers, and for kinds that are its name with or
      without the ending that is cut off. */
  lemma ResolvesExactly(p: Platform, kind: string)
    ensures Resolves(p, kind) <==>
            || (p == ArgoCD && kind in ["Application", "argocd", "argocdation"])
            || (p == Flux && kind in ["Kustomization", "GitRepository", "flux", "fluxation"])
            || (p == Tekton && kind in ["tekton", "tektonation"])
  {
    ServesExactly(kind, p);
    SuffixCutExactly(kind, PlatformName(p), "ation");
    assert !HasSuffix("argocd", "ation") && !HasSuffix("flux", "ation") && !HasSuffix("tekton", "ation");
    assert "argocd" + "ation" == "argocdation" && "flux" + "ation" == "fluxation" && "tekton" + "ation" == "tektonation";
  }

  lemma SuffixCutExactly(s: string, cut: string, suffix: string)
    ensures TrimSuffix(s, suffix) == cut <==> s == cut + suffix || (s == cut && !HasSuffix(s, suffix))
  {
    if HasSuffix(s, suffix) { assert s == s[..|s| - |suffix|] + suffix; }
    if s == cut + suffix { assert s[|cut|..] == suffix && s[..|cut|] == cut; }
  }

  /** One connector's contribution: nothing if it does not match or fails. */
  function ResolvedBy(p: Platform, src: PipelineSource, kn: Knowledge): seq<WorkloadRef> {
    if !Resolves(p, src.sourceKind) then []
    else
      var refs := kn.resolve(p, src);
      if refs.Some? then refs.value else []
  }

  function Correlated(src: PipelineSource, connectors: seq<Platform>, kn: Knowledge): seq<WorkloadRef> {
    if connectors == [] then [] else ResolvedBy(connectors[0], src, kn) + Correlated(src, connectors[1..], kn)
  }

  lemma {:induction false} CorrelatedSnoc(src: PipelineSource, connectors: seq<Platform>, p: Platform, kn: Knowledge)
    ensures Correlated(src, connectors + [p], kn) == Correlated(src, connectors, kn) + ResolvedBy(p, src, kn)
  {
    if connectors == [] {
      assert (connectors + [p])[1..] == [];
    } else {
      assert (connectors + [p])[1..] == connectors[1..] + [p];
      CorrelatedSnoc(src, connectors[1..], p, kn);
    }
  }

  predicate Contributes(p: Platform, src: PipelineSource, kn: Knowledge, ref: WorkloadRef) {
    Resolves(p, src.sourceKind) && kn.resolve(p, src).Some? && ref in kn.resolve(p, src).value
  }

  /** A workload is correlated exactly when a connector present resolves it; one that fails hides no other. */
  lemma {:induction false} CorrelatedExactly(src: PipelineSource, connectors: seq<Platform>, kn: Knowledge, ref: WorkloadRef)
    ensures ref in Correlated(src, connectors, kn) <==> exists p :: p in connectors && Contributes(p, src, kn, ref)
    decreases connectors
  {
    if connectors != [] {
      CorrelatedExactly(src, connectors[1..], kn, ref);
      assert connectors == [connectors[0]] + connectors[1..];
      assert ref in ResolvedBy(connectors[0], src, kn) <==> Contributes(connectors[0], src, kn, ref);
    }
  }

  function ReportNamespace(src: PipelineSource): string {
    if src.namespace == "" then "default" else src.namespace
  }

  function ReportName(owner: string, repo: string): string {
    "psr-" + owner + "-" + repo
  }

  function ReportKey(src: PipelineSource): Key {
    Key(ReportNamespace(src), SanitizeName(ReportName(src.owner, src.repo)))
  }

  /** The longer owner is the shorter one, a dash and a rest, which the other's repository starts with. */
  predicate Overlaps(longer: string, repo: string, shorter: string, repo': string) {
    |shorter| < |longer| && longer[..|shorter|] == shorter && longer[|shorter|] == '-'
    && repo' == longer[|shorter| + 1..] + "-" + repo
  }

  predicate Coincide(owner: string, repo: string, owner': string, repo': string) {
    (owner == owner' && repo == repo') || Overlaps(owner, repo, owner', repo') || Overlaps(owner', repo', owner, repo)
  }

  lemma OverlapExactly(longer: string, repo: string, shorter: string, repo': string)
    requires |shorter| < |longer|
    ensures longer + "-" + repo == shorter + "-" + repo' <==> Overlaps(longer, repo, shorter, repo')
  {
    var k := |shorter|;
    var l, r := longer + "-" + repo, shorter + "-" + repo';
    assert l[..k] == longer[..k] && l[k] == longer[k] && l[k + 1..] == longer[k + 1..] + "-" + repo;
    assert r[..k] == shorter && r[k] == '-' && r[k + 1..] == repo';
    assert l == l[..k] + [l[k]] + l[k + 1..] && r == r[..k] + [r[k]] + r[k + 1..];
  }

  /** Two pairs have the same text around a dash exactly when they are equal or overlap. */
  lemma DashedTextsExactly(owner: string, repo: string, owner': string, repo': string)
    ensures owner + "-" + repo == owner' + "-" + repo' <==> Coincide(owner, repo, owner', repo')
  {
    var l, r := owner + "-" + repo, owner' + "-" + repo';
    if |owner| == |owner'| {
      assert l[..|owner|] == owner && l[|owner| + 1..] == repo && r[..|owner|] == owner' && r[|owner| + 1..] == repo';
    } else if |owner| > |owner'| {
      OverlapExactly(owner, repo, owner', repo');
    } else {
      OverlapExactly(owner', repo', owner, repo);
    }
  }

  /** The cleaned name needs no cut and ends on a letter or digit, so it is the report's name. */
  predicate Fits(src: PipelineSource) {
    var name := ReportName(src.owner, src.repo);
    |name| <= MAX_LENGTH && src.repo != "" && !Edge(Clean(src.repo)[|src.repo| - 1])
  }

  lemma CleanName(owner: string, repo: string)
    ensures Clean(ReportName(owner, repo)) == ReportName(Clean(owner), Clean(repo)) == "psr-" + (Clean(owner) + "-" + Clean(repo))
  {
    CleanConcat("psr-", owner);
    CleanConcat("psr-" + owner, "-");
    CleanConcat("psr-" + owner + "-", repo);
    assert AllAllowed("psr-") && AllAllowed("-");
    CleanAlready("psr-");
    CleanAlready("-");
    assert ReportName(Clean(owner), Clean(repo)) == "psr-" + (Clean(owner) + "-" + Clean(repo));
  }

  lemma FittingName(src: PipelineSource)
    requires Fits(src)
    ensures SanitizeName(ReportName(src.owner, src.repo)) == ReportName(Clean(src.owner), Clean(src.repo))
  {
    CleanName(src.owner, src.repo);
    var c := Clean(ReportName(src.owner, src.repo));
    assert c[0] == 'p' && c[|c| - 1] == Clean(src.repo)[|src.repo| - 1];
  }

  lemma CleanExample()
    ensures Clean("Org") == "org" && Clean("My_App") == "my-app"
  {
    assert LowerChar('O') == 'o' && LowerChar('M') == 'm' && LowerChar('A') == 'a';
  }

  /** A source without a namespace is reported in `default`; the name is made of owner and repository. */
  lemma ReportKeyExample(src: PipelineSource)
    requires src.owner == "Org" && src.repo == "My_App"
    ensures ReportKey(src) == Key(if src.namespace == "" then "default" else src.namespace, "psr-org-my-app")
  {
    CleanExample();
    assert Fits(src) by { assert |ReportName(src.owner, src.repo)| == 14; }
    FittingName(src);
    assert ReportName("org", "my-app") == "psr-org-my-app";
  }

  /** Which repositories share a report. Whatever the names, those whose cleaned owners and repositories are
      equal or overlap do, in one namespace; where no name is cut or ends on a separator, exactly those. */
  lemma ReportsCoincideExactly(a: PipelineSource, b: PipelineSource)
    ensures ReportNamespace(a) == ReportNamespace(b) && Coincide(Clean(a.owner), Clean(a.repo), Clean(b.owner), Clean(b.repo))
            ==> ReportKey(a) == ReportKey(b)
    ensures Fits(a) && Fits(b) ==>
              (ReportKey(a) == ReportKey(b) <==>
                 ReportNamespace(a) == ReportNamespace(b) && Coincide(Clean(a.owner), Clean(a.repo), Clean(b.owner), Clean(b.repo)))
  {
    CleanName(a.owner, a.repo);
    CleanName(b.owner, b.repo);
    DashedTextsExactly(Clean(a.owner), Clean(a.repo), Clean(b.owner), Clean(b.repo));
    if Fits(a) && Fits(b) {
      FittingName(a);
      FittingName(b);
      var x, y := Clean(a.owner) + "-" + Clean(a.repo), Clean(b.owner) + "-" + Clean(b.repo);
      assert ("psr-" + x)[4..] == x && ("psr-" + y)[4..] == y;
    }
  }

  /** Repository c of owner a-b and repository b-c of owner a share their report in every namespace. */
  lemma TwoRepositoriesOneReport(a: PipelineSource, b: PipelineSource)
    requires a.namespace == b.namespace && a.owner == "a-b" && a.repo == "c" && b.owner == "a" && b.repo == "b-c"
    ensures ReportKey(a) == ReportKey(b) && Overlaps(a.owner, a.repo, b.owner, b.repo)
  {
    assert "a-b" + "-" + "c" == "a" + "-" + "b-c";
    DashedTextsExactly("a-b", "c", "a", "b-c");
    assert ReportName(a.owner, a.repo) == "psr-" + ("a-b" + "-" + "c") == "psr-" + ("a" + "-" + "b-c") == ReportName(b.owner, b.repo);
  }

  function SourceLabels(src: PipelineSource): map<LabelKey, string> {
    map[SourceKind := src.sourceKind, SourceName := src.sourceName]
  }

  function StatusFor(src: PipelineSource, at: int, connectors: seq<Platform>, kn: Knowledge): Status
    requires kn.analyze(src).Some?
  {
    AnalysisStatus(at, src.repository, src.branch, Correlated(src, connectors, kn), kn.analyze(src).value)
  }

  /** analyzeSource: create the report, or write the status of an existing one. */
  function AnalyzeSource(w: World, src: PipelineSource, connectors: seq<Platform>, kn: Knowledge): (World, bool) {
    if kn.analyze(src).None? then (w, false)
    else
      var (w1, got) := GetReport(w, ReportKey(src));
      match got
      case NotFound => CreateReport(w1, ReportKey(src), SourceLabels(src))
      case Failed => (w1, false)
      case Found(c) =>
        var (w2, stored) := UpdateStatus(w1, c.(status := StatusFor(src, w1.now, connectors, kn)));
        (w2, stored.Some?)
  }

  /** Every field of a report that the analysis controller writes. */
  predicate WrittenFor(r: Report, src: PipelineSource, at: int, findings: seq<Finding>, workloads: seq<WorkloadRef>) {
    && r.status.repository == src.repository && r.status.branch == src.branch && r.status.lastEvaluated == at
    && r.status.findings == findings && r.status.workloads == workloads && Consistent(r.status)
  }

  /** Without findings, or if the report cannot be read, nothing is written. */
  lemma AnalyzeSourceGivesUp(w: World, src: PipelineSource, connectors: seq<Platform>, kn: Knowledge)
    ensures kn.analyze(src).None? ==> AnalyzeSource(w, src, connectors, kn) == (w, false)
    ensures kn.analyze(src).Some? && Ending(w) != Done ==> AnalyzeSource(w, src, connectors, kn) == (Arrive(w), false)
  {}

  /** A missing report is created with its two labels and no status, under any turns; success means it was. */
  lemma AnalyzeSourceCreates(w: World, src: PipelineSource, connectors: seq<Platform>, kn: Knowledge)
    requires kn.analyze(src).Some? && Ending(w) == Done && ReportKey(src) !in Arrive(w).reports
    ensures var b, key := Arrive(Arrive(w)), ReportKey(src);
            var (w', ok) := AnalyzeSource(w, src, connectors, kn);
            (w' == b && !ok)
            || (key !in b.reports
                && w'.reports == b.reports[key := Report(key, b.rev + 1, map[SourceKind := src.sourceKind, SourceName := src.sourceName], map[], PRISTINE)])
  {}

  /** An existing report gets the status of these findings, unless another write came between; its labels and
      annotations stay, and so does every other report. */
  lemma AnalyzeSourceUpdates(w: World, src: PipelineSource, connectors: seq<Platform>, kn: Knowledge)
    requires Inv(w) && kn.analyze(src).Some? && Ending(w) == Done && ReportKey(src) in Arrive(w).reports
    ensures var a, key := Arrive(w), ReportKey(src);
            var b := Arrive(a);
            var (w', ok) := AnalyzeSource(w, src, connectors, kn);
            (w' == b && !ok)
            || (key in b.reports && key in w'.reports && b.reports[key].rv == a.reports[key].rv
                && w'.reports == b.reports[key := b.reports[key].(rv := b.rev + 1, status := w'.reports[key].status)]
                && WrittenFor(w'.reports[key], src, a.now, kn.analyze(src).value, Correlated(src, connectors, kn)))
  {
    var a := Arrive(w);
    ArriveKeeps(w);
    ArriveKeeps(a);
    assert ReportOk(a, ReportKey(src));
    var status := StatusFor(src, a.now, connectors, kn);
    var c := a.reports[ReportKey(src)].(status := status);
    assert AnalyzeSource(w, src, connectors, kn) == (UpdateStatus(a, c).0, UpdateStatus(a, c).1.Some?);
    StatusWrite(a, c);
  }

  lemma StatusWrite(a: World, c: Report)
    requires Inv(Arrive(a))
    ensures var b := Arrive(a);
            var (w', stored) := UpdateStatus(a, c);
            (w' == b && stored == None)
            || (c.key in b.reports && b.reports[c.key].rv == c.rv && w'.reports == b.reports[c.key := b.reports[c.key].(rv := b.rev + 1, status := c.status)])
  {
    if c.key in Arrive(a).reports { assert ReportOk(Arrive(a), c.key); }
  }

  function AnalyzeAll(w: World, srcs: seq<PipelineSource>, connectors: seq<Platform>, kn: Knowledge): World
    decreases srcs
  {
    if srcs == [] then w else AnalyzeAll(AnalyzeSource(w, srcs[0], connectors, kn).0, srcs[1..], connectors, kn)
  }

  // ---- The two controllers as steps of the environment of a policy pass ----

  /** Reading a report is a ReadReport step that leaves the copy with the worker. */
  lemma ReadIsStep(w: World, worker: nat, key: Key)
    requires Inv(w)
    ensures var (a, got) := GetReport(w, key);
            got.Found? ==> var b := ApplyStep(a, ReadReport(worker, key));
                           Holds(b, worker, key) && b.copies[worker] == got.value && b == a.(copies := b.copies)
  {
    ArriveKeeps(w);
    if key in Arrive(w).reports { assert ReportOk(Arrive(w), key); }
  }

  /** The report controller's status update is served as a WriteRecomputed step or not at all. */
  lemma ReportWriteIsStep(w: World, worker: nat, key: Key)
    requires Holds(Arrive(w), worker, key)
    ensures var c := Arrive(w).copies[worker];
            var served := UpdateStatus(w, c.(status := Recomputed(c.status))).0;
            served == Arrive(w) || served == ApplyStep(Arrive(w), WriteRecomputed(worker, key))
  {}

  /** The same for the status that the analysis controller writes. */
  lemma AnalysisWriteIsStep(w: World, worker: nat, src: PipelineSource, at: int, connectors: seq<Platform>, kn: Knowledge)
    requires Holds(Arrive(w), worker, ReportKey(src)) && kn.analyze(src).Some?
    ensures var served := UpdateStatus(w, Arrive(w).copies[worker].(status := StatusFor(src, at, connectors, kn))).0;
            served == Arrive(w) ||
            served == ApplyStep(Arrive(w), WriteAnalysis(worker, ReportKey(src), at, src.repository, src.branch,
                                                         Correlated(src, connectors, kn), kn.analyze(src).value))
  {}

  /** Its Create is a CreatePristine step or nothing. */
  lemma AnalysisCreateIsStep(w: World, src: PipelineSource)
    ensures var created := CreateReport(w, ReportKey(src), SourceLabels(src)).0;
            created == Arrive(w) || created == ApplyStep(Arrive(w), CreatePristine(ReportKey(src), SourceLabels(src)))
  {}

  /** Either nothing happens, or the stored report's own findings are summarised anew. */
  ghost predicate RecomputesStored(w: World, w': World, key: Key) {
    w' == w || (key in w.reports && w' == Store(w, w.reports[key].(status := Recomputed(w.reports[key].status))))
  }

  /** No update is lost: at every moment of every run, also in the middle of a policy pass, the report
      controller's write from a copy read any number of steps earlier concerns the stored findings. */
  lemma ReportWriteIsCurrent(w: World, worker: nat, key: Key)
    requires Inv(w)
    ensures RecomputesStored(w, ApplyStep(w, WriteRecomputed(worker, key)), key)
  {
    if Holds(w, worker, key) { assert CopyCurrent(w, worker); }
  }

  /** Read a report, let any policy passes run with any interleaving, then write: the update is served
      as a recomputation of the stored report or not at all. */
  lemma ReadRunWrite(w: World, reqs: seq<Request>, connectors: seq<Platform>, key: Key)
    requires Inv(w) && key in w.reports
    ensures var w' := RunPasses(w, reqs, connectors);
            var c := w.reports[key];
            RecomputesStored(Arrive(w'), UpdateStatus(w', c.(status := Recomputed(c.status))).0, key)
  {
    var w' := RunPasses(w, reqs, connectors);
    RunKeeps(w, reqs, connectors);
    ArriveKeeps(w');
    assert ReportOk(w, key);
    assert Versions(w, Arrive(w'));
  }

  /** A report reconcile writes exactly when the report it reads is not consistent; in particular not
      after an analysis status update, and not a second time. */
  lemma ReconcileWritesOnlyInconsistent(w: World, key: Key)
    ensures var a := Arrive(w);
            (key in a.reports ==> (Recomputed(a.reports[key].status) == a.reports[key].status <==> Consistent(a.reports[key].status)))
            && (key !in a.reports || Consistent(a.reports[key].status) ==> ReconcileReport(w, key) == a)
  {}

  /** In calm a reconcile changes the store exactly when the report exists and is inconsistent. */
  lemma ReconcileWritesExactlyInconsistent(w: World, key: Key)
    requires IsCalm(w) && Keyed(w)
    ensures ReconcileReport(w, key).reports != w.reports <==> key in w.reports && !Consistent(w.reports[key].status)
  {
    CalmArrive(w);
    CalmArrive(Arrive(w));
    ReconcileWritesOnlyInconsistent(w, key);
    if key in w.reports && !Consistent(w.reports[key].status) {
      assert ReconcileReport(w, key).reports[key].status == Recomputed(w.reports[key].status) != w.reports[key].status;
    }
  }

  lemma CalmReconcile(w: World, key: Key)
    requires IsCalm(w) && Keyed(w)
    ensures var once := ReconcileReport(w, key); IsCalm(once) && (key in once.reports ==> Consistent(once.reports[key].status))
  {
    var a := Arrive(w);
    CalmArrive(w);
    if key in a.reports { CalmStatusUpdate(a, a.reports[key].(status := Recomputed(a.reports[key].status))); }
  }

  lemma SecondReconcileWritesNothing(w: World, key: Key)
    requires IsCalm(w) && Keyed(w)
    ensures var once := ReconcileReport(w, key);
            var twice := ReconcileReport(once, key);
            IsCalm(once) && twice.reports == once.reports && twice.rev == once.rev
            && (key in once.reports ==> Consistent(once.reports[key].status))
  {
    CalmReconcile(w, key);
    CalmArrive(ReconcileReport(w, key));
    ReconcileWritesOnlyInconsistent(ReconcileReport(w, key), key);
  }

  /** In calm a reconcile succeeds, and the analysis of a source fails only for want of findings. */
  lemma CalmCallsSucceed(w: World, key: Key, src: PipelineSource, connectors: seq<Platform>, kn: Knowledge)
    requires IsCalm(w) && Keyed(w)
    ensures ReconcileSucceeds(w, key)
    ensures AnalyzeSource(w, src, connectors, kn).1 <==> kn.analyze(src).Some?
  {
    CalmArrive(w);
    CalmArrive(Arrive(w));
  }

  // ---- Analysis of a whole registry listing ----

  /** A report up to its resource version and evaluation time. */
  function Erased(r: Report): Report {
    r.(rv := 0, status := r.status.(lastEvaluated := 0))
  }

  function Seen(w: World, k: Key): Option<Report> {
    if k in w.reports then Some(Erased(w.reports[k])) else None
  }

  /** The successfully analysed sources that map to a report, in listing order. */
  function Mine(srcs: seq<PipelineSource>, k: Key, kn: Knowledge): seq<PipelineSource> {
    if srcs == [] then []
    else
      var rest := Mine(srcs[1..], k, kn);
      if ReportKey(srcs[0]) == k && kn.analyze(srcs[0]).Some? then [srcs[0]] + rest else rest
  }

  predicate AllAnalysed(mine: seq<PipelineSource>, kn: Knowledge) {
    forall i :: 0 <= i < |mine| ==> kn.analyze(mine[i]).Some?
  }

  /** An existing report keeps its labels and gets the last source's status; an absent one is created
      with the first source's labels, and gets a status only if another source follows. */
  function AfterAnalysis(before: Option<Report>, k: Key, mine: seq<PipelineSource>, connectors: seq<Platform>, kn: Knowledge): Option<Report>
    requires AllAnalysed(mine, kn)
  {
    if mine == [] then before
    else
      var last := StatusFor(mine[|mine| - 1], 0, connectors, kn);
      match before
      case Some(r) => Some(r.(status := last))
      case None => Some(Report(k, 0, SourceLabels(mine[0]), map[], if |mine| == 1 then PRISTINE else last))
  }

  lemma {:induction false} MineAnalysed(srcs: seq<PipelineSource>, k: Key, kn: Knowledge)
    ensures AllAnalysed(Mine(srcs, k, kn), kn)
  {
    if srcs != [] { MineAnalysed(srcs[1..], k, kn); }
  }

  lemma MineOfOne(s: PipelineSource, k: Key, kn: Knowledge)
    ensures Mine([s], k, kn) == if ReportKey(s) == k && kn.analyze(s).Some? then [s] else []
  {
    assert [s][1..] == [];
  }

  /** The reports after one analysed source. */
  lemma CalmAnalyzeSource(w: World, src: PipelineSource, connectors: seq<Platform>, kn: Knowledge)
    requires IsCalm(w) && Keyed(w) && kn.analyze(src).Some?
    ensures var w' := AnalyzeSource(w, src, connectors, kn).0;
            var key := ReportKey(src);
            IsCalm(w')
            && w'.reports == w.reports[key := if key in w.reports
                                              then w.reports[key].(rv := w.rev + 1, status := StatusFor(src, Arrive(w).now, connectors, kn))
                                              else Report(key, w.rev + 1, SourceLabels(src), map[], PRISTINE)]
  {
    var a := Arrive(w);
    CalmArrive(w);
    if ReportKey(src) in w.reports {
      CalmStatusUpdate(a, a.reports[ReportKey(src)].(status := StatusFor(src, a.now, connectors, kn)));
    } else {
      CalmCreate(a, ReportKey(src), SourceLabels(src));
    }
  }

  /** After an analysis status update a report reconcile has nothing to write. */
  lemma AnalysisNeedsNoReconcile(w: World, src: PipelineSource, connectors: seq<Platform>, kn: Knowledge)
    requires IsCalm(w) && Keyed(w) && kn.analyze(src).Some? && ReportKey(src) in w.reports
    ensures var w1 := AnalyzeSource(w, src, connectors, kn).0;
            ReconcileReport(w1, ReportKey(src)).reports == w1.reports
  {
    CalmAnalyzeSource(w, src, connectors, kn);
    ReconcileWritesExactlyInconsistent(AnalyzeSource(w, src, connectors, kn).0, ReportKey(src));
  }

  lemma CalmAnalyzeSeen(w: World, src: PipelineSource, connectors: seq<Platform>, kn: Knowledge, k: Key)
    requires IsCalm(w) && Keyed(w)
    ensures var w' := AnalyzeSource(w, src, connectors, kn).0;
            IsCalm(w') && Keyed(w') && AllAnalysed(Mine([src], k, kn), kn)
            && Seen(w', k) == AfterAnalysis(Seen(w, k), k, Mine([src], k, kn), connectors, kn)
  {
    MineOfOne(src, k, kn);
    if kn.analyze(src).Some? { CalmAnalyzeSource(w, src, connectors, kn); }
  }

  lemma AfterAnalysisConcat(before: Option<Report>, k: Key, s: PipelineSource, rest: seq<PipelineSource>, connectors: seq<Platform>, kn: Knowledge)
    requires AllAnalysed([s] + rest, kn) && AllAnalysed([s], kn) && AllAnalysed(rest, kn)
    ensures AfterAnalysis(AfterAnalysis(before, k, [s], connectors, kn), k, rest, connectors, kn)
         == AfterAnalysis(before, k, [s] + rest, connectors, kn)
  {}

  /** Every report after an analysis pass, in closed form: reports of no source are untouched, and with
      several sources the last decides the status while the labels stay the first creator's. */
  lemma {:induction false} AnalysisInClosedForm(w: World, srcs: seq<PipelineSource>, connectors: seq<Platform>, kn: Knowledge, k: Key)
    requires IsCalm(w) && Keyed(w)
    ensures AllAnalysed(Mine(srcs, k, kn), kn)
    ensures Seen(AnalyzeAll(w, srcs, connectors, kn), k) == AfterAnalysis(Seen(w, k), k, Mine(srcs, k, kn), connectors, kn)
    decreases srcs
  {
    MineAnalysed(srcs, k, kn);
    if srcs != [] {
      var s, rest := srcs[0], srcs[1..];
      CalmAnalyzeSeen(w, s, connectors, kn, k);
      AnalysisInClosedForm(AnalyzeSource(w, s, connectors, kn).0, rest, connectors, kn, k);
      MineOfOne(s, k, kn);
      if Mine([s], k, kn) == [s] {
        AfterAnalysisConcat(Seen(w, k), k, s, Mine(rest, k, kn), connectors, kn);
      }
    }
  }

  /** No source occurs twice and no two share a report. */
  predicate NoCollision(srcs: multiset<PipelineSource>) {
    && (forall s :: s in srcs ==> srcs[s] == 1)
    && (forall s, t :: s in srcs && t in srcs && s != t ==> ReportKey(s) != ReportKey(t))
  }

  lemma TailWithoutCollision(s: PipelineSource, rest: seq<PipelineSource>, srcs: seq<PipelineSource>)
    requires srcs == [s] + rest && NoCollision(multiset(srcs))
    ensures NoCollision(multiset(rest)) && s !in multiset(rest)
    ensures forall t :: t in multiset(srcs) <==> t == s || t in multiset(rest)
    ensures forall t :: t in multiset(rest) ==> ReportKey(t) != ReportKey(s)
  {
    assert multiset(srcs) == multiset{s} + multiset(rest);
    forall t | t in multiset(rest) ensures multiset(rest)[t] == 1 && t != s && t in multiset(srcs) {
      assert multiset(srcs)[t] == 1;
    }
    assert s in multiset(srcs);
  }

  lemma {:induction false} MineWithoutCollision(srcs: seq<PipelineSource>, k: Key, kn: Knowledge)
    requires NoCollision(multiset(srcs))
    ensures var mine := Mine(srcs, k, kn);
            |mine| <= 1 && forall s :: s in mine <==> s in multiset(srcs) && ReportKey(s) == k && kn.analyze(s).Some?
  {
    if srcs != [] {
      var s, rest := srcs[0], srcs[1..];
      TailWithoutCollision(s, rest, srcs);
      MineWithoutCollision(rest, k, kn);
      assert forall t :: t in Mine(rest, k, kn) ==> t in multiset(rest);
      assert |Mine(rest, k, kn)| == 0 || Mine(rest, k, kn)[0] in Mine(rest, k, kn);
    }
  }

  /** Without collisions the order in which the registry is listed does not matter. */
  lemma AnalysisIsOrderIndependent(w: World, srcs: seq<PipelineSource>, srcs': seq<PipelineSource>, connectors: seq<Platform>, kn: Knowledge)
    requires IsCalm(w) && Keyed(w)
    requires multiset(srcs) == multiset(srcs') && NoCollision(multiset(srcs))
    ensures forall k :: Seen(AnalyzeAll(w, srcs, connectors, kn), k) == Seen(AnalyzeAll(w, srcs', connectors, kn), k)
  {
    forall k ensures Seen(AnalyzeAll(w, srcs, connectors, kn), k) == Seen(AnalyzeAll(w, srcs', connectors, kn), k) {
      AnalysisInClosedForm(w, srcs, connectors, kn, k);
      AnalysisInClosedForm(w, srcs', connectors, kn, k);
      MineWithoutCollision(srcs, k, kn);
      MineWithoutCollision(srcs', k, kn);
      AtMostOne(Mine(srcs, k, kn), Mine(srcs', k, kn));
    }
  }

  lemma AtMostOne<T>(a: seq<T>, b: seq<T>)
    requires |a| <= 1 && |b| <= 1 && forall x :: x in a <==> x in b
    ensures a == b
  {
    if a != [] { assert a[0] in b; }
    if b != [] { assert b[0] in a; }
  }
}
