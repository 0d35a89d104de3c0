/** What holds in every state of every run: grace periods are respected, the first-detected stamp is
    written once, and suspensions and resumptions follow from the latest evaluation. */
module Safety {
  import opened Wrappers
  import opened Json
  import opened Model
  import opened Compliance
  import opened Cluster

  /** An applied Update that leaves the stored report without a stamp. */
  predicate Clears(e: Event, key: Key) {
    e.Saved? && e.key == key && e.stamp.None?
  }

  /** A report's grace period starts afresh: after a restoration, or a save that clears the stamp. */
  predicate IsReset(e: Event) {
    e.Restored? || (e.Saved? && e.stamp.None?)
  }

  predicate Resets(e: Event, key: Key) {
    IsReset(e) && e.key == key
  }

  ghost predicate NoReset(log: seq<Event>, from: nat, key: Key) {
    forall j :: from <= j < |log| ==> !Resets(log[j], key)
  }

  /** The stamping step at `i` explains a stamp that reads `ns`, and nothing has reset it since. */
  ghost predicate Explains(log: seq<Event>, i: nat, key: Key, ns: int) {
    i < |log| && log[i].Stamped? && log[i].key == key && FloorToSecond(log[i].at) == ns && NoReset(log, i, key)
  }

  ghost predicate StampExplained(log: seq<Event>, key: Key, stamp: Option<Text>) {
    stamp.Some? ==> stamp.value.Instant? && exists i: nat :: Explains(log, i, key, stamp.value.ns)
  }

  /** The stamping at `i` warrants the suspension at `j`: same report, more than the grace period less
      one second earlier, neither restored nor cleared in between. */
  ghost predicate Warrants(log: seq<Event>, i: nat, j: nat)
    requires j < |log| && log[j].Suspended? && log[j].grace.Period?
  {
    && i < j && log[i].Stamped? && log[i].key == log[j].key
    && log[j].at - log[i].at > log[j].grace.ns - SECOND
    && forall m :: i < m < j ==> !Resets(log[m], log[j].key)
  }

  /** The stored stamp that a prefix of the log leaves behind. */
  function Replay(log: seq<Event>, key: Key): Option<Text> {
    if log == [] then None
    else
      var e := log[|log| - 1];
      if e.Saved? && e.key == key then e.stamp
      else if e == Deleted(key) then None
      else Replay(log[..|log| - 1], key)
  }

  /** The level of the latest evaluation of a report. */
  function LatestLevel(log: seq<Event>, key: Key): Option<Level> {
    if log == [] then None
    else
      var e := log[|log| - 1];
      if e.Evaluated? && e.key == key then Some(e.level) else LatestLevel(log[..|log| - 1], key)
  }

  /** What every event must look like in the light of the events before it. */
  ghost predicate EventOk(log: seq<Event>, j: nat)
    requires j < |log|
  {
    match log[j]
    case Suspended(key, _, grace, _) =>
      && (grace.Period? ==> exists i: nat :: Warrants(log, i, j))
      && LatestLevel(log[..j], key).Some? && LatestLevel(log[..j], key) != Some(Compliant)
    case Resumed(key, _) => LatestLevel(log[..j], key) == Some(Compliant)
    case Restored(key) => LatestLevel(log[..j], key) == Some(Compliant)
    case Saved(key, stamp) =>
      Replay(log[..j], key) == None || Replay(log[..j], key) == stamp
      || (stamp == None && LatestLevel(log[..j], key) == Some(Compliant))
    case _ => true
  }

  ghost predicate LogOk(log: seq<Event>) {
    forall j :: 0 <= j < |log| ==> EventOk(log, j)
  }

  function StoredStamp(w: World, key: Key): Option<Text> {
    if key in w.reports then StampOf(w.reports[key].annotations) else None
  }

  ghost predicate ReportOk(w: World, key: Key)
    requires key in w.reports
  {
    var r := w.reports[key];
    r.key == key && r.rv <= w.rev && StampExplained(w.log, key, StampOf(r.annotations))
  }

  /** A copy that some worker read earlier: as long as its version is current, it is the stored report. */
  ghost predicate CopyCurrent(w: World, worker: nat)
    requires worker in w.copies
  {
    var c := w.copies[worker];
    c.rv <= w.rev && (UpToDate(w, c) ==> w.reports[c.key] == c)
  }

  ghost predicate Inv(w: World) {
    && LogOk(w.log)
    && (forall t :: t in w.copies ==> CopyCurrent(w, t))
    && (forall k :: k in w.reports ==> ReportOk(w, k))
    && (forall k :: Replay(w.log, k) == StoredStamp(w, k))
  }

  /** A world before the operator's first pass. */
  ghost predicate Initial(w: World) {
    && w.log == []
    && w.copies == map[]
    && forall k :: k in w.reports ==> w.reports[k].key == k && w.reports[k].rv <= w.rev && StampOf(w.reports[k].annotations) == None
  }

  /** Just created, or with derived fields that agree with the findings. */
  predicate StatusSound(s: Status) {
    s == PRISTINE || Consistent(s)
  }

  /** Every status is an earlier one of the same report, or sound. */
  ghost predicate SoundStatuses(w: World, w': World) {
    forall k :: k in w'.reports ==> StatusSound(w'.reports[k].status) || (k in w.reports && w'.reports[k].status == w.reports[k].status)
  }

  /** Whatever changed in the store got a resource version above every earlier one. */
  ghost predicate Versions(w: World, w': World) {
    && w.rev <= w'.rev
    && forall k :: k in w'.reports ==> w'.reports[k].rv > w.rev || (k in w.reports && w'.reports[k] == w.reports[k])
  }

  /** What also holds between the ends of whole passes and runs. */
  ghost predicate Evolves(w: World, w': World) {
    w.log <= w'.log && SoundStatuses(w, w') && Versions(w, w')
  }

  /** How a world may move on: only reports in `touched` are reset or get a stamp, changes get new
      resource versions, and new statuses are sound. */
  ghost predicate Grows(w: World, w': World, touched: set<Key>) {
    && Evolves(w, w')
    && (forall j :: |w.log| <= j < |w'.log| && IsReset(w'.log[j]) ==> w'.log[j].key in touched)
    && (forall k :: k !in touched ==> StoredStamp(w', k) == StoredStamp(w, k) || StoredStamp(w', k) == None)
  }

  /** No evaluation happened, so the latest levels stand. */
  ghost predicate SameLevels(w: World, w': World) {
    forall k :: LatestLevel(w'.log, k) == LatestLevel(w.log, k)
  }

  /** An in-memory copy that may be used: its stamp is explained, and the stored report has no other. */
  ghost predicate CopyOk(w: World, c: Report) {
    && c.rv <= w.rev
    && StampExplained(w.log, c.key, StampOf(c.annotations))
    && (StoredStamp(w, c.key) == None || StoredStamp(w, c.key) == StampOf(c.annotations))
  }

  lemma GrowsTransitive(a: World, b: World, c: World, touched: set<Key>)
    requires Grows(a, b, touched) && Grows(b, c, touched)
    ensures Grows(a, c, touched)
  {
    forall j | |a.log| <= j < |c.log| && IsReset(c.log[j]) ensures c.log[j].key in touched {
      if j < |b.log| { assert b.log[j] == c.log[j]; }
    }
  }

  lemma GrowsWeaken(a: World, b: World, touched: set<Key>)
    requires Grows(a, b, {})
    ensures Grows(a, b, touched)
  {}

  /** A copy survives whatever does not touch its report. */
  lemma CopySurvives(w: World, w': World, touched: set<Key>, c: Report)
    requires Grows(w, w', touched) && CopyOk(w, c) && c.key !in touched
    ensures CopyOk(w', c)
  {
    ExplanationSurvives(w.log, w'.log, c.key, StampOf(c.annotations));
  }

  lemma ExplanationSurvives(log: seq<Event>, log': seq<Event>, key: Key, stamp: Option<Text>)
    requires log <= log' && StampExplained(log, key, stamp)
    requires forall j :: |log| <= j < |log'| ==> !Resets(log'[j], key)
    ensures StampExplained(log', key, stamp)
  {
    if stamp.Some? {
      var i: nat :| Explains(log, i, key, stamp.value.ns);
      forall j | i <= j < |log'| ensures !Resets(log'[j], key) {
        if j < |log| { assert log'[j] == log[j]; }
      }
      assert Explains(log', i, key, stamp.value.ns);
    }
  }

  /** Appending a proper event keeps the log proper. */
  lemma LogGrows(log: seq<Event>, e: Event)
    requires LogOk(log)
    requires EventOk(log + [e], |log|)
    ensures LogOk(log + [e])
  {
    var log' := log + [e];
    forall j | 0 <= j < |log'| ensures EventOk(log', j) {
      if j < |log| {
        assert EventOk(log, j);
        assert log'[..j] == log[..j];
        if log[j].Suspended? && log[j].grace.Period? {
          var i: nat :| Warrants(log, i, j);
          assert Warrants(log', i, j);
        }
      }
    }
  }

  lemma CopiesStayCurrent(w: World, w': World)
    requires Inv(w) && Versions(w, w') && w'.copies == w.copies
    ensures forall t :: t in w'.copies ==> CopyCurrent(w', t)
  {
    forall t | t in w'.copies ensures CopyCurrent(w', t) { assert CopyCurrent(w, t); }
  }

  lemma LastEvent(log: seq<Event>, e: Event, key: Key)
    ensures Replay(log + [e], key) ==
            if e.Saved? && e.key == key then e.stamp else if e == Deleted(key) then None else Replay(log, key)
    ensures LatestLevel(log + [e], key) == if e.Evaluated? && e.key == key then Some(e.level) else LatestLevel(log, key)
  {
    assert (log + [e])[..|log|] == log;
  }

  /** Logging something that is no save and no deletion; a reset only of a report without a stamp. */
  lemma LogKeeps(w: World, e: Event)
    requires Inv(w) && EventOk(w.log + [e], |w.log|)
    requires !e.Saved? && !e.Deleted?
    requires e.Restored? ==> StoredStamp(w, e.key) == None
    ensures Inv(Log(w, e)) && Grows(w, Log(w, e), if e.Restored? then {e.key} else {})
    ensures !e.Evaluated? ==> SameLevels(w, Log(w, e))
  {
    LogGrows(w.log, e);
    CopiesStayCurrent(w, Log(w, e));
    forall k ensures Replay(w.log + [e], k) == Replay(w.log, k)
                  && (!e.Evaluated? ==> LatestLevel(w.log + [e], k) == LatestLevel(w.log, k)) {
      LastEvent(w.log, e, k);
    }
    forall k | k in w.reports ensures ReportOk(Log(w, e), k) {
      assert ReportOk(w, k);
      if StampOf(w.reports[k].annotations).Some? {
        ExplanationSurvives(w.log, w.log + [e], k, StampOf(w.reports[k].annotations));
      }
    }
  }

  /** Storing a report under a fresh version without touching its stamp. */
  lemma StoreKeeps(w: World, r: Report)
    requires Inv(w) && StampOf(r.annotations) == StoredStamp(w, r.key)
    requires StatusSound(r.status) || (r.key in w.reports && r.status == w.reports[r.key].status)
    ensures Inv(Store(w, r)) && Grows(w, Store(w, r), {}) && SameLevels(w, Store(w, r))
  {
    var w' := Store(w, r);
    StoreGrows(w, r);
    CopiesStayCurrent(w, w');
    forall k | k in w'.reports ensures ReportOk(w', k) {
      if k != r.key { assert ReportOk(w, k); } else if StampOf(r.annotations).Some? { assert ReportOk(w, k); }
    }
  }

  lemma StoreGrows(w: World, r: Report)
    requires StampOf(r.annotations) == StoredStamp(w, r.key)
    requires StatusSound(r.status) || (r.key in w.reports && r.status == w.reports[r.key].status)
    ensures Grows(w, Store(w, r), {})
    ensures forall k :: StoredStamp(Store(w, r), k) == StoredStamp(w, k)
  {}

  lemma ReadKeeps(w: World, worker: nat, key: Key)
    requires Inv(w)
    ensures var w' := ApplyStep(w, ReadReport(worker, key)); Inv(w') && Grows(w, w', {}) && SameLevels(w, w')
  {
    var w' := ApplyStep(w, ReadReport(worker, key));
    forall t | t in w'.copies ensures CopyCurrent(w', t) {
      if t == worker { assert ReportOk(w, key); } else { assert CopyCurrent(w, t); }
    }
    forall k | k in w'.reports ensures ReportOk(w', k) { assert ReportOk(w, k); }
    forall k ensures Replay(w'.log, k) == StoredStamp(w', k) {}
  }

  lemma ServeKeeps(w: World, c: Report)
    requires Inv(w) && StatusSound(c.status)
    ensures Inv(ServeStatus(w, c)) && Grows(w, ServeStatus(w, c), {}) && SameLevels(w, ServeStatus(w, c))
  {
    FrameKeeps(w, w);
    if UpToDate(w, c) {
      assert ReportOk(w, c.key);
      StoreKeeps(w, w.reports[c.key].(status := c.status));
    }
  }

  lemma WorkerKeeps(w: World, s: EnvStep)
    requires Inv(w) && (s.WriteAnalysis? || s.WriteRecomputed?)
    ensures Inv(ApplyStep(w, s)) && Grows(w, ApplyStep(w, s), {}) && SameLevels(w, ApplyStep(w, s))
  {
    FrameKeeps(w, w);
    if Holds(w, s.worker, s.key) {
      var c := w.copies[s.worker];
      ServeKeeps(w, c.(status := if s.WriteRecomputed? then Recomputed(c.status)
                                 else AnalysisStatus(s.at, s.repository, s.branch, s.workloads, s.findings)));
    }
  }

  lemma EditSourceKeeps(w: World, id: SourceId, doc: Option<Json>)
    requires Inv(w)
    ensures var w' := ApplyStep(w, EditSource(id, doc)); Inv(w') && Grows(w, w', {}) && SameLevels(w, w')
  {
    var w1 := w.(sources := WithDoc(w.sources, id, doc));
    FrameKeeps(w, w1);
    LogKeeps(w1, SourceEdited(id));
  }

  lemma StepKeeps(w: World, s: EnvStep)
    requires Inv(w)
    ensures Inv(ApplyStep(w, s)) && Grows(w, ApplyStep(w, s), {}) && SameLevels(w, ApplyStep(w, s))
  {
    FrameKeeps(w, w);
    match s
    case CreatePristine(key, labels) =>
      if key !in w.reports { StoreKeeps(w, Report(key, 0, labels, map[], PRISTINE)); }
    case ReadReport(worker, key) => ReadKeeps(w, worker, key);
    case WriteAnalysis(_, _, _, _, _, _, _) => WorkerKeeps(w, s);
    case WriteRecomputed(_, _) => WorkerKeeps(w, s);
    case DeleteReport(key) => if key in w.reports { DeleteKeeps(w, key); }
    case EditSource(id, doc) => EditSourceKeeps(w, id, doc);
    case Discover(_) => FrameKeeps(w, ApplyStep(w, s));
    case EditPolicy(_, _) => FrameKeeps(w, ApplyStep(w, s));
    case EditWorkload(_, _) => FrameKeeps(w, ApplyStep(w, s));
  }

  /** Changing nothing about reports, copies and the log. */
  lemma FrameKeeps(w: World, w': World)
    requires Inv(w) && w'.reports == w.reports && w'.log == w.log && w'.copies == w.copies && w.rev <= w'.rev
    ensures Inv(w') && Grows(w, w', {}) && SameLevels(w, w')
  {
    CopiesStayCurrent(w, w');
    forall k | k in w'.reports ensures ReportOk(w', k) { assert ReportOk(w, k); }
    forall k ensures Replay(w'.log, k) == StoredStamp(w', k) {}
  }

  lemma DeleteKeeps(w: World, key: Key)
    requires Inv(w) && key in w.reports
    ensures var w' := Log(w.(reports := w.reports - {key}), Deleted(key));
            Inv(w') && Grows(w, w', {}) && SameLevels(w, w')
  {
    var e := Deleted(key);
    var w' := Log(w.(reports := w.reports - {key}), e);
    LogGrows(w.log, e);
    CopiesStayCurrent(w, w');
    forall k | k in w'.reports ensures ReportOk(w', k) {
      assert ReportOk(w, k);
      ExplanationSurvives(w.log, w'.log, k, StampOf(w.reports[k].annotations));
    }
    forall k ensures Replay(w'.log, k) == StoredStamp(w', k) && LatestLevel(w'.log, k) == LatestLevel(w.log, k) {
      LastEvent(w.log, e, k);
    }
  }

  lemma {:induction false} StepsKeep(w: World, ss: seq<EnvStep>)
    requires Inv(w)
    ensures Inv(ApplySteps(w, ss)) && Grows(w, ApplySteps(w, ss), {}) && SameLevels(w, ApplySteps(w, ss))
    decreases ss
  {
    if ss == [] {
      FrameKeeps(w, w);
    } else {
      StepKeeps(w, ss[0]);
      StepsKeep(ApplyStep(w, ss[0]), ss[1..]);
      GrowsTransitive(w, ApplyStep(w, ss[0]), ApplySteps(w, ss), {});
    }
  }

  /** Whatever happens before a call is served, or before the clock is read. */
  lemma ArriveKeeps(w: World)
    requires Inv(w)
    ensures Inv(Arrive(w)) && Grows(w, Arrive(w), {}) && SameLevels(w, Arrive(w))
  {
    var t := NextTurn(w);
    var w1 := w.(now := w.now + t.delay, turns := if w.turns == [] then [] else w.turns[1..]);
    FrameKeeps(w, w1);
    StepsKeep(w1, t.before);
    GrowsTransitive(w, w1, Arrive(w), {});
  }
}
