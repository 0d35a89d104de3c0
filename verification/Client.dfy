/** Decoded reports and the client of the API server. Every call changes the world as Cluster says. */
module Client {
  import opened Wrappers
  import opened Json
  import opened Model
  import opened Cluster
  import opened Enforcement

  /** A decoded PipelineSecurityReport. An absent annotation map is nil, and writing to nil would panic. */
  class ReportObject {
    var key: Key
    var rv: nat
    var labels: map<LabelKey, string>
    var annotations: Option<map<AnnotationKey, Text>>
    var status: Status

    constructor (r: Report)
      ensures View() == r
    {
      key, rv, labels, status := r.key, r.rv, r.labels, r.status;
      annotations := if r.annotations == map[] then None else Some(r.annotations);
    }

    function View(): Report
      reads this
    {
      Report(key, rv, labels, if annotations.Some? then annotations.value else map[], status)
    }

    /** Take over the server's answer. */
    method Refresh(r: Report)
      modifies this
      ensures View() == r
    {
      key, rv, labels, status := r.key, r.rv, r.labels, r.status;
      annotations := if r.annotations == map[] then None else Some(r.annotations);
    }

    method MakeAnnotations()
      modifies this
      ensures View() == old(View()) && annotations.Some?
    {
      if annotations.None? {
        annotations := Some(map[]);
      }
    }
  }

  /** The client of the API server. */
  class ApiClient {
    var w: World

    constructor (w: World)
      ensures this.w == w
    {
      this.w := w;
    }

    method Record(e: Event)
      modifies this
      ensures w == Log(old(w), e)
    {
      w := Log(w, e);
    }

    /** Wait until the next clock reading. */
    method Now() returns (t: int)
      modifies this
      ensures w == Arrive(old(w)) && t == w.now
    {
      w := Arrive(w);
      t := w.now;
    }

    method Update(r: ReportObject) returns (ok: bool)
      modifies this, r
      ensures (w, r.View(), ok) == SaveCopy(old(w), old(r.View()))
    {
      var (w', stored) := UpdateReport(w, r.View());
      w := w';
      ok := stored.Some?;
      if ok {
        r.Refresh(stored.value);
      }
    }

    method List(ns: string, order: seq<Key>) returns (items: Option<seq<ReportObject>>)
      modifies this
      ensures w == ListReports(old(w), ns, order).0
      ensures var listed := ListReports(old(w), ns, order).1;
              items.Some? == listed.Some?
              && (items.Some? ==> |items.value| == |listed.value|)
              && (items.Some? ==> forall i :: 0 <= i < |items.value| ==>
                    fresh(items.value[i]) && items.value[i].View() == listed.value[i])
              && (items.Some? ==> forall i, j :: 0 <= i < j < |items.value| ==> items.value[i] != items.value[j])
    {
      var (w', listed) := ListReports(w, ns, order);
      w := w';
      if listed.None? { return None; }
      var objects: seq<ReportObject> := [];
      for i := 0 to |listed.value|
        invariant w == w' && |objects| == i
        invariant forall k :: 0 <= k < i ==> fresh(objects[k]) && objects[k].View() == listed.value[k]
        invariant forall k, l :: 0 <= k < l < i ==> objects[k] != objects[l]
      {
        var o := new ReportObject(listed.value[i]);
        objects := objects + [o];
      }
      return Some(objects);
    }

    method Patch(id: SourceId, patch: Json) returns (ok: bool)
      modifies this
      ensures (w, ok) == PatchSource(old(w), id, patch)
    {
      var (w', done) := PatchSource(w, id, patch);
      w, ok := w', done;
    }

    method Get(key: Key) returns (got: Got<ReportObject>)
      modifies this
      ensures w == GetReport(old(w), key).0
      ensures match GetReport(old(w), key).1
              case Found(r) => got.Found? && fresh(got.value) && got.value.View() == r
              case NotFound => got == NotFound
              case Failed => got == Failed
    {
      var (w', found) := GetReport(w, key);
      w := w';
      match found
      case Found(r) =>
        var o := new ReportObject(r);
        got := Found(o);
      case NotFound => got := NotFound;
      case Failed => got := Failed;
    }

    method Create(key: Key, labels: map<LabelKey, string>) returns (ok: bool)
      modifies this
      ensures (w, ok) == CreateReport(old(w), key, labels)
    {
      var (w', done) := CreateReport(w, key, labels);
      w, ok := w', done;
    }

    method StatusUpdate(r: ReportObject) returns (ok: bool)
      modifies this, r
      ensures w == UpdateStatus(old(w), old(r.View())).0
      ensures var stored := UpdateStatus(old(w), old(r.View())).1;
              ok == stored.Some? && r.View() == if ok then stored.value else old(r.View())
    {
      var (w', stored) := UpdateStatus(w, r.View());
      w := w';
      ok := stored.Some?;
      if ok {
        r.Refresh(stored.value);
      }
    }
  }
}
