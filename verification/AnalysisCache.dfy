/** The analyzer's result cache, shared by concurrent Analyze calls. A call is a lookup under the read
    lock and, after a miss, a fetch and a store under the write lock; other calls run in between. */
module AnalysisCache {
  import opened Wrappers
  import opened Strings
  import opened Model
  import opened RepoUrl

  datatype RepoRef = RepoRef(owner: string, repo: string, branch: string)

  function KeyOf(r: RepoRef): string {
    CacheKey(r.owner, r.repo, r.branch)
  }

  datatype Cached = Cached(findings: seq<Finding>, fetchedAt: int)

  /** One critical section, or the failure of a fetch, of a calling thread. */
  datatype Step =
    | Lookup(thread: nat, ref: RepoRef, delay: nat)
    | StoreResult(thread: nat, findings: seq<Finding>, delay: nat)
    | FetchFails(thread: nat)

  datatype CacheEvent = Hit(ref: RepoRef, findings: seq<Finding>, at: int) | Stored(ref: RepoRef, findings: seq<Finding>, at: int)

  /** `pending` holds the calls that missed and are fetching. */
  datatype State = State(cache: map<string, Cached>, pending: map<nat, RepoRef>, now: int, log: seq<CacheEvent>)

  function Valid(cache: map<string, Cached>, key: string, at: int, ttl: int): Option<seq<Finding>> {
    if key in cache && at - cache[key].fetchedAt < ttl then Some(cache[key].findings) else None
  }

  function Apply(s: State, step: Step, ttl: int): State {
    match step
    case Lookup(thread, ref, delay) =>
      if thread in s.pending then s
      else
        var at := s.now + delay;
        var hit := Valid(s.cache, KeyOf(ref), at, ttl);
        if hit.Some? then s.(now := at, log := s.log + [Hit(ref, hit.value, at)])
        else s.(now := at, pending := s.pending[thread := ref])
    case StoreResult(thread, findings, delay) =>
      if thread !in s.pending then s
      else
        var at := s.now + delay;
        var ref := s.pending[thread];
        State(s.cache[KeyOf(ref) := Cached(findings, at)], s.pending - {thread}, at, s.log + [Stored(ref, findings, at)])
    case FetchFails(thread) => s.(pending := s.pending - {thread})
  }

  function Run(s: State, steps: seq<Step>, ttl: int): State
    decreases steps
  {
    if steps == [] then s else Run(Apply(s, steps[0], ttl), steps[1..], ttl)
  }

  predicate StoresKey(e: CacheEvent, key: string) {
    e.Stored? && KeyOf(e.ref) == key
  }

  /** The store at `i` is the last one for the key before position `until`. */
  ghost predicate LastStore(log: seq<CacheEvent>, i: nat, until: nat, key: string) {
    i < until <= |log| && StoresKey(log[i], key) && forall j :: i < j < until ==> !StoresKey(log[j], key)
  }

  /** The store at `i` accounts for the hit at `j`: same key, the very findings, less than the TTL
      older, and not superseded. */
  ghost predicate Accounts(log: seq<CacheEvent>, i: nat, j: nat, ttl: int)
    requires j < |log| && log[j].Hit?
  {
    LastStore(log, i, j, KeyOf(log[j].ref)) && log[i].findings == log[j].findings && log[j].at - log[i].at < ttl
  }

  ghost predicate EntryOk(s: State, key: string)
    requires key in s.cache
  {
    exists i: nat :: LastStore(s.log, i, |s.log|, key) && s.cache[key] == Cached(s.log[i].findings, s.log[i].at)
  }

  /** Nothing that was stored is dropped. */
  ghost predicate StoresAreCached(s: State) {
    forall j :: 0 <= j < |s.log| && s.log[j].Stored? ==> KeyOf(s.log[j].ref) in s.cache
  }

  lemma StoresStayCached(s: State, s': State, e: CacheEvent)
    requires StoresAreCached(s) && s.cache.Keys <= s'.cache.Keys && s'.log == s.log + [e]
    requires e.Stored? ==> KeyOf(e.ref) in s'.cache
    ensures StoresAreCached(s')
  {}

  ghost predicate Inv(s: State, ttl: int) {
    && (forall k :: k in s.cache ==> EntryOk(s, k))
    && StoresAreCached(s)
    && (forall j :: 0 <= j < |s.log| && s.log[j].Hit? ==> exists i: nat :: Accounts(s.log, i, j, ttl))
    && InOrder(s)
  }

  ghost predicate InOrder(s: State) {
    && (forall i, j :: 0 <= i < j < |s.log| ==> s.log[i].at <= s.log[j].at)
    && (forall i :: 0 <= i < |s.log| ==> s.log[i].at <= s.now)
  }

  lemma StaysInOrder(s: State, s': State, e: CacheEvent)
    requires InOrder(s) && s'.log == s.log + [e] && s.now <= e.at == s'.now
    ensures InOrder(s')
  {}

  lemma LogStep(log: seq<CacheEvent>, e: CacheEvent, i: nat, until: nat, key: string)
    ensures LastStore(log, i, until, key) ==> LastStore(log + [e], i, until, key)
    ensures LastStore(log, i, |log|, key) && !StoresKey(e, key) ==> LastStore(log + [e], i, |log| + 1, key)
  {}

  /** Accounted hits stay accounted when the log grows. */
  lemma HitsSurvive(s: State, e: CacheEvent, ttl: int)
    requires Inv(s, ttl)
    ensures forall j :: 0 <= j < |s.log| && s.log[j].Hit? ==> exists i: nat :: Accounts(s.log + [e], i, j, ttl)
  {
    forall j | 0 <= j < |s.log| && s.log[j].Hit? ensures exists i: nat :: Accounts(s.log + [e], i, j, ttl) {
      var i: nat :| Accounts(s.log, i, j, ttl);
      LogStep(s.log, e, i, j, KeyOf(s.log[j].ref));
      assert Accounts(s.log + [e], i, j, ttl);
    }
  }

  /** An entry keeps its last store while no store for its key is logged. */
  lemma EntrySurvives(s: State, s': State, e: CacheEvent, key: string)
    requires key in s.cache && key in s'.cache && s'.cache[key] == s.cache[key] && EntryOk(s, key)
    requires s'.log == s.log + [e] && !StoresKey(e, key)
    ensures EntryOk(s', key)
  {
    var m: nat :| LastStore(s.log, m, |s.log|, key) && s.cache[key] == Cached(s.log[m].findings, s.log[m].at);
    LogStep(s.log, e, m, |s.log|, key);
    assert LastStore(s'.log, m, |s'.log|, key);
  }

  /** A valid entry accounts for the hit it serves. */
  lemma EntryAccounts(s: State, e: CacheEvent, ttl: int)
    requires e.Hit? && KeyOf(e.ref) in s.cache && EntryOk(s, KeyOf(e.ref))
    requires Valid(s.cache, KeyOf(e.ref), e.at, ttl) == Some(e.findings)
    ensures exists i: nat :: Accounts(s.log + [e], i, |s.log|, ttl)
  {
    var key := KeyOf(e.ref);
    var i: nat :| LastStore(s.log, i, |s.log|, key) && s.cache[key] == Cached(s.log[i].findings, s.log[i].at);
    LogStep(s.log, e, i, |s.log|, key);
    assert Accounts(s.log + [e], i, |s.log|, ttl);
  }

  lemma HitKeeps(s: State, s': State, ref: RepoRef, ttl: int)
    requires Inv(s, ttl) && s'.now >= s.now && Valid(s.cache, KeyOf(ref), s'.now, ttl).Some?
    requires s'.cache == s.cache && s'.log == s.log + [Hit(ref, Valid(s.cache, KeyOf(ref), s'.now, ttl).value, s'.now)]
    ensures Inv(s', ttl)
  {
    var e := Hit(ref, Valid(s.cache, KeyOf(ref), s'.now, ttl).value, s'.now);
    HitsSurvive(s, e, ttl);
    StoresStayCached(s, s', e);
    StaysInOrder(s, s', e);
    EntryAccounts(s, e, ttl);
    forall k | k in s'.cache ensures EntryOk(s', k) { EntrySurvives(s, s', e, k); }
  }

  lemma StoreKeeps(s: State, s': State, ref: RepoRef, findings: seq<Finding>, ttl: int)
    requires Inv(s, ttl) && s'.now >= s.now
    requires s'.cache == s.cache[KeyOf(ref) := Cached(findings, s'.now)] && s'.log == s.log + [Stored(ref, findings, s'.now)]
    ensures Inv(s', ttl)
  {
    var e := Stored(ref, findings, s'.now);
    HitsSurvive(s, e, ttl);
    StoresStayCached(s, s', e);
    StaysInOrder(s, s', e);
    forall k | k in s'.cache ensures EntryOk(s', k) {
      if k == KeyOf(ref) {
        assert LastStore(s'.log, |s.log|, |s'.log|, k);
      } else {
        EntrySurvives(s, s', e, k);
      }
    }
  }

  lemma ApplyKeeps(s: State, step: Step, ttl: int)
    requires Inv(s, ttl)
    ensures Inv(Apply(s, step, ttl), ttl)
  {
    match step
    case Lookup(thread, ref, delay) =>
      if thread !in s.pending {
        if Valid(s.cache, KeyOf(ref), s.now + delay, ttl).Some? {
          HitKeeps(s, Apply(s, step, ttl), ref, ttl);
        } else {
          QuietKeeps(s, Apply(s, step, ttl), ttl);
        }
      }
    case StoreResult(thread, findings, delay) =>
      if thread in s.pending {
        StoreKeeps(s, Apply(s, step, ttl), s.pending[thread], findings, ttl);
      }
    case FetchFails(_) => QuietKeeps(s, Apply(s, step, ttl), ttl);
  }

  lemma QuietKeeps(s: State, s': State, ttl: int)
    requires Inv(s, ttl) && s'.cache == s.cache && s'.log == s.log && s.now <= s'.now
    ensures Inv(s', ttl)
  {
    forall k | k in s'.cache ensures EntryOk(s', k) { assert EntryOk(s, k); }
  }

  lemma {:induction false} RunKeeps(s: State, steps: seq<Step>, ttl: int)
    requires Inv(s, ttl)
    ensures Inv(Run(s, steps, ttl), ttl)
    decreases steps
  {
    if steps != [] {
      ApplyKeeps(s, steps[0], ttl);
      RunKeeps(Apply(s, steps[0], ttl), steps[1..], ttl);
    }
  }

  /** Owners come from ParseRepoURL and repository names hold no '@'. */
  predicate ProperRef(r: RepoRef) {
    '/' !in r.owner && '@' !in r.repo
  }

  /** In every interleaving of calls, a hit returns exactly what the latest store for its key recorded,
      less than the TTL before; for proper names that store was for the same repository and branch. */
  lemma CacheIsSound(start: int, steps: seq<Step>, ttl: int)
    ensures var log := Run(State(map[], map[], start, []), steps, ttl).log;
            forall j :: 0 <= j < |log| && log[j].Hit? ==>
              exists i: nat :: Accounts(log, i, j, ttl) && (ProperRef(log[i].ref) && ProperRef(log[j].ref) ==> log[i].ref == log[j].ref)
  {
    var s0 := State(map[], map[], start, []);
    RunKeeps(s0, steps, ttl);
    var log := Run(s0, steps, ttl).log;
    forall j | 0 <= j < |log| && log[j].Hit?
      ensures exists i: nat :: Accounts(log, i, j, ttl) && (ProperRef(log[i].ref) && ProperRef(log[j].ref) ==> log[i].ref == log[j].ref)
    {
      var i: nat :| Accounts(log, i, j, ttl);
      var a, b := log[i].ref, log[j].ref;
      if ProperRef(a) && ProperRef(b) { CacheKeysIdentify(a.owner, a.repo, a.branch, b.owner, b.repo, b.branch); }
    }
  }

  lemma EntryTimes(s: State, step: Step, ttl: int, key: string)
    requires Inv(s, ttl) && key in s.cache
    ensures var s' := Apply(s, step, ttl);
            key in s'.cache && s.cache[key].fetchedAt <= s'.cache[key].fetchedAt && (s'.cache != s.cache ==> step.StoreResult?)
  {
    assert EntryOk(s, key);
  }

  /** Entries are never dropped, their fetch times never decrease, and without stores (failed fetches
      and lookups alone) the cache does not change. */
  lemma {:induction false} FetchTimesNeverDecrease(s: State, steps: seq<Step>, ttl: int, key: string)
    requires Inv(s, ttl) && key in s.cache
    ensures var s' := Run(s, steps, ttl);
            key in s'.cache && s.cache[key].fetchedAt <= s'.cache[key].fetchedAt
            && (s'.cache != s.cache ==> exists i :: 0 <= i < |steps| && steps[i].StoreResult?)
    decreases steps
  {
    if steps != [] {
      var s1 := Apply(s, steps[0], ttl);
      EntryTimes(s, steps[0], ttl, key);
      ApplyKeeps(s, steps[0], ttl);
      FetchTimesNeverDecrease(s1, steps[1..], ttl, key);
      if Run(s, steps, ttl).cache != s1.cache {
        var i :| 0 <= i < |steps[1..]| && steps[1..][i].StoreResult?;
        assert steps[i + 1].StoreResult?;
      }
    }
  }

  // ---- The scan of the fetched files and one whole call ----

  datatype File = File(name: string, content: string)

  datatype ScanFinding = ScanFinding(rule: string, severity: Severity, file: string, line: int, message: string, mitigations: seq<string>)

  function Convert(sf: ScanFinding): Finding {
    Finding(sf.rule, sf.severity, sf.file, sf.line, sf.message, Join(sf.mitigations, "; "))
  }

  function ConvertAll(sfs: seq<ScanFinding>): seq<Finding> {
    seq(|sfs|, i requires 0 <= i < |sfs| => Convert(sfs[i]))
  }

  /** The findings of all files that parse, in file order. */
  function FindingsOf(files: seq<File>, scan: (string, string) -> Option<seq<ScanFinding>>): seq<Finding> {
    if files == [] then []
    else
      var last := files[|files| - 1];
      var found := scan(last.content, ".github/workflows/" + last.name);
      FindingsOf(files[..|files| - 1], scan) + if found.Some? then ConvertAll(found.value) else []
  }

  predicate Mentions(step: Step, thread: nat) {
    step.thread == thread
  }

  lemma {:induction false} OthersLeavePending(s: State, steps: seq<Step>, ttl: int, thread: nat)
    requires forall i :: 0 <= i < |steps| ==> !Mentions(steps[i], thread)
    ensures var s' := Run(s, steps, ttl); (thread in s'.pending <==> thread in s.pending) && (thread in s.pending ==> s'.pending[thread] == s.pending[thread])
    decreases steps
  {
    if steps != [] {
      assert !Mentions(steps[0], thread);
      forall i | 0 <= i < |steps[1..]| ensures !Mentions(steps[1..][i], thread) { assert !Mentions(steps[i + 1], thread); }
      OthersLeavePending(Apply(s, steps[0], ttl), steps[1..], ttl, thread);
    }
  }

  class Analyzer {
    const ttl: int
    var s: State

    constructor (ttl: int, start: int)
      ensures this.ttl == ttl && s == State(map[], map[], start, [])
    {
      this.ttl := ttl;
      s := State(map[], map[], start, []);
    }

    method Scan(files: seq<File>, scan: (string, string) -> Option<seq<ScanFinding>>) returns (all: seq<Finding>)
      ensures all == FindingsOf(files, scan)
    {
      all := [];
      for i := 0 to |files|
        invariant all == FindingsOf(files[..i], scan)
      {
        assert files[..i + 1][..i] == files[..i];
        var found := scan(files[i].content, ".github/workflows/" + files[i].name);
        if found.None? { continue; }
        ghost var before := all;
        for j := 0 to |found.value|
          invariant all == before + ConvertAll(found.value[..j])
        {
          assert ConvertAll(found.value[..j + 1]) == ConvertAll(found.value[..j]) + [Convert(found.value[j])];
          all := all + [Convert(found.value[j])];
        }
        assert found.value[..|found.value|] == found.value;
      }
      assert files[..|files|] == files;
    }

    /** Analyze: `others` is what other threads do while this one fetches, and `files` the outcome of the
        fetch. The call is the corresponding steps of the shared state. */
    method Analyze(thread: nat, ref: RepoRef, delay: nat, others: seq<Step>, files: Option<seq<File>>,
                   scan: (string, string) -> Option<seq<ScanFinding>>, delay': nat)
      returns (result: Option<seq<Finding>>)
      requires thread !in s.pending && forall i :: 0 <= i < |others| ==> !Mentions(others[i], thread)
      modifies this
      ensures var look := Apply(old(s), Lookup(thread, ref, delay), ttl);
              var hit := Valid(old(s).cache, KeyOf(ref), old(s).now + delay, ttl);
              if hit.Some? then result == hit && s == look
              else if files.None? then result == None && s == Apply(Run(look, others, ttl), FetchFails(thread), ttl)
              else result == Some(FindingsOf(files.value, scan))
                   && s == Apply(Run(look, others, ttl), StoreResult(thread, FindingsOf(files.value, scan), delay'), ttl)
                   && KeyOf(ref) in s.cache && s.cache[KeyOf(ref)].findings == FindingsOf(files.value, scan)
    {
      var key := KeyOf(ref);
      var at := s.now + delay;
      if key in s.cache {
        if at - s.cache[key].fetchedAt < ttl {
          result := Some(s.cache[key].findings);
          s := s.(now := at, log := s.log + [Hit(ref, result.value, at)]);
          return;
        }
      }
      s := s.(now := at, pending := s.pending[thread := ref]);
      OthersLeavePending(s, others, ttl, thread);
      s := Run(s, others, ttl);
      if files.None? {
        s := s.(pending := s.pending - {thread});
        return None;
      }
      var allFindings := Scan(files.value, scan);
      var stored := s.now + delay';
      s := State(s.cache[key := Cached(allFindings, stored)], s.pending - {thread}, stored, s.log + [Stored(ref, allFindings, stored)]);
      return Some(allFindings);
    }
  }

  lemma LastStoreUnique(log: seq<CacheEvent>, i: nat, m: nat, until: nat, key: string)
    requires LastStore(log, i, until, key) && LastStore(log, m, until, key)
    ensures i == m
  {}

  /** Within the TTL a lookup is served from the cache: in every state of every interleaving, if the latest
      store of its key is less than the TTL old, the lookup returns what was stored and fetches nothing. */
  lemma LookupHitsWithinTtl(start: int, steps: seq<Step>, ttl: int, thread: nat, ref: RepoRef, delay: nat, i: nat)
    requires var s := Run(State(map[], map[], start, []), steps, ttl);
             thread !in s.pending && LastStore(s.log, i, |s.log|, KeyOf(ref)) && s.now + delay - s.log[i].at < ttl
    ensures var s := Run(State(map[], map[], start, []), steps, ttl);
            var s' := Apply(s, Lookup(thread, ref, delay), ttl);
            s'.log == s.log + [Hit(ref, s.log[i].findings, s.now + delay)] && s'.pending == s.pending && s'.cache == s.cache
  {
    var s0 := State(map[], map[], start, []);
    RunKeeps(s0, steps, ttl);
    var s := Run(s0, steps, ttl);
    var key := KeyOf(ref);
    assert key in s.cache && EntryOk(s, key);
    var m: nat :| LastStore(s.log, m, |s.log|, key) && s.cache[key] == Cached(s.log[m].findings, s.log[m].at);
    LastStoreUnique(s.log, i, m, |s.log|, key);
  }

  /** Past the TTL, or without a store, a lookup fetches. */
  lemma LookupFetchesOtherwise(s: State, ttl: int, thread: nat, ref: RepoRef, delay: nat)
    requires Inv(s, ttl) && thread !in s.pending
    requires forall i: nat :: LastStore(s.log, i, |s.log|, KeyOf(ref)) ==> s.now + delay - s.log[i].at >= ttl
    ensures var s' := Apply(s, Lookup(thread, ref, delay), ttl); s'.log == s.log && thread in s'.pending && s'.pending[thread] == ref
  {
    var key := KeyOf(ref);
    if key in s.cache {
      assert EntryOk(s, key);
      var m: nat :| LastStore(s.log, m, |s.log|, key) && s.cache[key] == Cached(s.log[m].findings, s.log[m].at);
    }
  }

  /** The findings of more files are appended, whichever files before them failed to parse. */
  lemma {:induction false} FindingsConcat(a: seq<File>, b: seq<File>, scan: (string, string) -> Option<seq<ScanFinding>>)
    ensures FindingsOf(a + b, scan) == FindingsOf(a, scan) + FindingsOf(b, scan)
    decreases |b|
  {
    if b == [] {
      assert a + b == a;
    } else {
      var last := b[|b| - 1];
      var found := scan(last.content, ".github/workflows/" + last.name);
      assert (a + b)[|a + b| - 1] == last && (a + b)[..|a + b| - 1] == a + b[..|b| - 1];
      FindingsConcat(a, b[..|b| - 1], scan);
      var more := if found.Some? then ConvertAll(found.value) else [];
      assert FindingsOf(a, scan) + (FindingsOf(b[..|b| - 1], scan) + more) == FindingsOf(a, scan) + FindingsOf(b[..|b| - 1], scan) + more;
    }
  }

  /** A file is scanned under its path in the workflows directory. */
  lemma OneFile(f: File, scan: (string, string) -> Option<seq<ScanFinding>>)
    ensures var found := scan(f.content, ".github/workflows/" + f.name);
            FindingsOf([f], scan) == if found.Some? then ConvertAll(found.value) else []
  {
    assert [f][..0] == [];
    var found := scan(f.content, ".github/workflows/" + f.name);
    var mine := if found.Some? then ConvertAll(found.value) else [];
    assert FindingsOf([f][..0], scan) == [];
    assert [] + mine == mine;
  }

  /** What a scanner finding becomes: its own fields, and its mitigations joined. */
  lemma ConvertedExactly(sfs: seq<ScanFinding>, i: nat)
    requires i < |sfs|
    ensures var f, sf := ConvertAll(sfs)[i], sfs[i];
            f.rule == sf.rule && f.severity == sf.severity && f.file == sf.file && f.line == sf.line && f.message == sf.message
            && (sf.mitigations == [] ==> f.remediation == "")
            && (|sf.mitigations| == 1 ==> f.remediation == sf.mitigations[0])
            && (|sf.mitigations| == 2 ==> f.remediation == sf.mitigations[0] + "; " + sf.mitigations[1])
  {
    var sf := sfs[i];
    assert ConvertAll(sfs)[i] == Convert(sf);
    if |sf.mitigations| == 2 {
      assert sf.mitigations == [sf.mitigations[0]] + [sf.mitigations[1]];
      JoinCons(sf.mitigations[0], [sf.mitigations[1]], "; ");
    }
  }
}
