/** The report controller and the analysis controller as they run. */
module StatusControllers {
  import opened Wrappers
  import opened Model
  import opened Compliance
  import opened Cluster
  import opened Client
  import opened Reports

  class ReportController {
    const client: ApiClient

    constructor (client: ApiClient)
      ensures this.client == client
    {
      this.client := client;
    }

    method Reconcile(key: Key) returns (ok: bool)
      modifies client
      ensures client.w == ReconcileReport(old(client.w), key)
      ensures ok <==> ReconcileSucceeds(old(client.w), key)
    {
      var got := client.Get(key);
      if !got.Found? { return got.NotFound?; }
      var report := got.value;
      var state, summary := ComputeComplianceState(report.status.findings);
      ghost var read := report.View();
      var needsUpdate := false;
      if report.status.state != Some(state) {
        report.status := report.status.(state := Some(state));
        needsUpdate := true;
      }
      if report.status.summary != summary {
        report.status := report.status.(summary := summary);
        needsUpdate := true;
      }
      assert report.View() == read.(status := Recomputed(read.status));
      assert needsUpdate <==> Recomputed(read.status) != read.status;
      ok := true;
      if needsUpdate {
        ok := client.StatusUpdate(report);
      }
    }
  }

  class AnalysisController {
    const client: ApiClient
    const connectors: seq<Platform>
    const kn: Knowledge

    constructor (client: ApiClient, connectors: seq<Platform>, kn: Knowledge)
      ensures this.client == client && this.connectors == connectors && this.kn == kn
    {
      this.client, this.connectors, this.kn := client, connectors, kn;
    }

    method ResolveWorkloads(src: PipelineSource) returns (workloads: seq<WorkloadRef>)
      ensures workloads == Correlated(src, connectors, kn)
    {
      workloads := [];
      for i := 0 to |connectors|
        invariant workloads == Correlated(src, connectors[..i], kn)
      {
        CorrelatedSnoc(src, connectors[..i], connectors[i], kn);
        assert connectors[..i + 1] == connectors[..i] + [connectors[i]];
        if Resolves(connectors[i], src.sourceKind) {
          var refs := kn.resolve(connectors[i], src);
          if refs.Some? {
            workloads := workloads + refs.value;
          }
        }
      }
      assert connectors[..|connectors|] == connectors;
    }

    method AnalyzeSource(src: PipelineSource) returns (ok: bool)
      modifies client
      ensures (client.w, ok) == Reports.AnalyzeSource(old(client.w), src, connectors, kn)
    {
      var findings := kn.analyze(src);
      if findings.None? { return false; }
      var workloads := ResolveWorkloads(src);
      var state, summary := ComputeComplianceState(findings.value);
      var got := client.Get(ReportKey(src));
      if got.NotFound? {
        ok := client.Create(ReportKey(src), SourceLabels(src));
        return;
      }
      if got.Failed? { return false; }
      var report := got.value;
      report.status := Status(Some(state), client.w.now, src.repository, src.branch, summary, workloads, findings.value);
      ok := client.StatusUpdate(report);
    }

    /** One pass over the registry, in whatever order it was listed; a failing source is skipped. */
    method Reconcile(sources: seq<PipelineSource>)
      modifies client
      ensures client.w == AnalyzeAll(old(client.w), sources, connectors, kn)
    {
      ghost var start := client.w;
      for i := 0 to |sources|
        invariant AnalyzeAll(client.w, sources[i..], connectors, kn) == AnalyzeAll(start, sources, connectors, kn)
      {
        var _ := AnalyzeSource(sources[i]);
      }
    }
  }
}
