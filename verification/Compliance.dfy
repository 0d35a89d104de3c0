/** The compliance state of a list of findings, and how a policy turns it into a level and actions. */
module Compliance {
  import opened Wrappers
  import opened Strings
  import opened Model

  function Severities(fs: seq<Finding>): seq<Severity> {
    seq(|fs|, i requires 0 <= i < |fs| => fs[i].severity)
  }

  function CountOf(fs: seq<Finding>, sev: Severity): nat {
    multiset(Severities(fs))[sev]
  }

  /** The five severity counts and the length. */
  function Summarise(fs: seq<Finding>): Summary {
    Summary(CountOf(fs, CriticalSeverity), CountOf(fs, High), CountOf(fs, Medium), CountOf(fs, Low), CountOf(fs, Info), |fs|)
  }

  /** The worst severity that occurs, as a level. */
  function StateOf(s: Summary): Level {
    if s.critical > 0 then Critical
    else if s.high > 0 then NonCompliant
    else if s.medium > 0 then Warning
    else Compliant
  }

  /** A status whose derived fields agree with its findings. */
  predicate Consistent(s: Status) {
    s.summary == Summarise(s.findings) && s.state == Some(StateOf(s.summary))
  }

  lemma SeveritiesOfConcat(a: seq<Finding>, b: seq<Finding>)
    ensures Severities(a + b) == Severities(a) + Severities(b)
    ensures forall sev :: CountOf(a + b, sev) == CountOf(a, sev) + CountOf(b, sev)
  {
    assert Severities(a + b) == Severities(a) + Severities(b);
  }

  lemma CountsOfOne(f: Finding)
    ensures forall sev :: CountOf([f], sev) == if f.severity == sev then 1 else 0
  {
    assert Severities([f]) == [f.severity];
  }

  lemma CountPositive(fs: seq<Finding>, sev: Severity)
    ensures CountOf(fs, sev) > 0 <==> exists f :: f in fs && f.severity == sev
  {
    var all := Severities(fs);
    assert sev in multiset(all) <==> sev in all;
    if sev in all {
      var i :| 0 <= i < |all| && all[i] == sev;
      assert fs[i] in fs;
    } else {
      forall f | f in fs ensures f.severity != sev {
        var i :| 0 <= i < |fs| && fs[i] == f;
        assert all[i] == f.severity;
      }
    }
  }

  predicate HasSeverity(fs: seq<Finding>, sev: Severity) {
    exists f :: f in fs && f.severity == sev
  }

  /** Each state means that its severity occurs and no worse one does. */
  lemma StateTellsSeverities(fs: seq<Finding>)
    ensures StateOf(Summarise(fs)) == Critical <==> HasSeverity(fs, CriticalSeverity)
    ensures StateOf(Summarise(fs)) == NonCompliant <==> !HasSeverity(fs, CriticalSeverity) && HasSeverity(fs, High)
    ensures StateOf(Summarise(fs)) == Warning <==>
            !HasSeverity(fs, CriticalSeverity) && !HasSeverity(fs, High) && HasSeverity(fs, Medium)
  {
    CountPositive(fs, CriticalSeverity);
    CountPositive(fs, High);
    CountPositive(fs, Medium);
  }

  ghost function Positions(fs: seq<Finding>, sev: Severity): set<int> {
    set i | 0 <= i < |fs| && fs[i].severity == sev
  }

  lemma PositionsSnoc(fs: seq<Finding>, f: Finding, sev: Severity)
    ensures |Positions(fs + [f], sev)| == |Positions(fs, sev)| + if f.severity == sev then 1 else 0
  {
    var all, before := Positions(fs + [f], sev), Positions(fs, sev);
    assert |fs| !in before;
    assert forall i :: 0 <= i < |fs| ==> (fs + [f])[i] == fs[i];
    assert forall i :: i in all <==> i in before || (i == |fs| && f.severity == sev);
    if f.severity == sev {
      assert all == before + {|fs|};
    } else {
      assert all == before;
    }
  }

  /** A count is the number of positions at which the severity stands. */
  lemma {:induction false} CountIsCardinality(fs: seq<Finding>, sev: Severity)
    ensures CountOf(fs, sev) == |Positions(fs, sev)|
    decreases |fs|
  {
    if fs == [] {
      assert Positions(fs, sev) == {} && Severities(fs) == [];
    } else {
      var init, last := fs[..|fs| - 1], fs[|fs| - 1];
      assert fs == init + [last];
      CountIsCardinality(init, sev);
      SeveritiesOfConcat(init, [last]);
      CountsOfOne(last);
      PositionsSnoc(init, last, sev);
    }
  }

  lemma SummaryIsCardinalities(fs: seq<Finding>)
    ensures var s := Summarise(fs);
            s.critical == |Positions(fs, CriticalSeverity)| && s.high == |Positions(fs, High)| && s.medium == |Positions(fs, Medium)|
            && s.low == |Positions(fs, Low)| && s.info == |Positions(fs, Info)|
  {
    CountIsCardinality(fs, CriticalSeverity);
    CountIsCardinality(fs, High);
    CountIsCardinality(fs, Medium);
    CountIsCardinality(fs, Low);
    CountIsCardinality(fs, Info);
  }

  /** One more finding adds one to the count of its severity, if that is known, and to the total. */
  lemma SummariseSnoc(fs: seq<Finding>, f: Finding)
    ensures var s := Summarise(fs);
            Summarise(fs + [f]) ==
            Summary(s.critical + (if f.severity == CriticalSeverity then 1 else 0), s.high + (if f.severity == High then 1 else 0),
                    s.medium + (if f.severity == Medium then 1 else 0), s.low + (if f.severity == Low then 1 else 0),
                    s.info + (if f.severity == Info then 1 else 0), s.total + 1)
  {
    SeveritiesOfConcat(fs, [f]);
    CountsOfOne(f);
  }

  /** ComputeComplianceState: one pass with five counters. Each counts its own severity, and the state is the
      worst severity that occurs. */
  method ComputeComplianceState(findings: seq<Finding>) returns (state: Level, summary: Summary)
    ensures summary == Summarise(findings) && state == StateOf(summary)
    ensures summary.critical == |set i | 0 <= i < |findings| && findings[i].severity == CriticalSeverity|
    ensures summary.high == |set i | 0 <= i < |findings| && findings[i].severity == High|
    ensures summary.medium == |set i | 0 <= i < |findings| && findings[i].severity == Medium|
    ensures summary.low == |set i | 0 <= i < |findings| && findings[i].severity == Low|
    ensures summary.info == |set i | 0 <= i < |findings| && findings[i].severity == Info|
    ensures summary.total == |findings|
    ensures state == Critical <==> exists f :: f in findings && f.severity == CriticalSeverity
    ensures state == NonCompliant <==>
            (forall f :: f in findings ==> f.severity != CriticalSeverity) && exists f :: f in findings && f.severity == High
    ensures state == Warning <==>
            (forall f :: f in findings ==> f.severity != CriticalSeverity && f.severity != High)
            && exists f :: f in findings && f.severity == Medium
    ensures state == Compliant <==>
            forall f :: f in findings ==> f.severity != CriticalSeverity && f.severity != High && f.severity != Medium
  {
    var critical, high, medium, low, info, total := 0, 0, 0, 0, 0, 0;
    for i := 0 to |findings|
      invariant Summary(critical, high, medium, low, info, total) == Summarise(findings[..i])
    {
      assert findings[..i + 1] == findings[..i] + [findings[i]];
      SummariseSnoc(findings[..i], findings[i]);
      total := total + 1;
      match findings[i].severity
      case CriticalSeverity => critical := critical + 1;
      case High => high := high + 1;
      case Medium => medium := medium + 1;
      case Low => low := low + 1;
      case Info => info := info + 1;
      case Unknown(_) =>
    }
    assert findings[..|findings|] == findings;
    summary := Summary(critical, high, medium, low, info, total);
    state := Compliant;
    if summary.critical > 0 {
      state := Critical;
    } else if summary.high > 0 {
      state := NonCompliant;
    } else if summary.medium > 0 {
      state := Warning;
    }
    StateTellsSeverities(findings);
    SummaryIsCardinalities(findings);
  }

  function Plus(a: Summary, b: Summary): Summary {
    Summary(a.critical + b.critical, a.high + b.high, a.medium + b.medium, a.low + b.low, a.info + b.info, a.total + b.total)
  }

  function Worse(a: Level, b: Level): Level {
    if Rank(a) < Rank(b) then b else a
  }

  lemma StateOfPlus(a: Summary, b: Summary)
    requires a.critical >= 0 && a.high >= 0 && a.medium >= 0
    requires b.critical >= 0 && b.high >= 0 && b.medium >= 0
    ensures StateOf(Plus(a, b)) == Worse(StateOf(a), StateOf(b))
  {}

  /** Concatenating findings adds the summaries and takes the worse state. */
  lemma SummaryIsHomomorphism(a: seq<Finding>, b: seq<Finding>)
    ensures Summarise(a + b) == Plus(Summarise(a), Summarise(b))
    ensures StateOf(Summarise(a + b)) == Worse(StateOf(Summarise(a)), StateOf(Summarise(b)))
  {
    SeveritiesOfConcat(a, b);
    StateOfPlus(Summarise(a), Summarise(b));
  }

  lemma SplitOff(b: seq<Finding>, i: nat)
    requires i < |b|
    ensures multiset(b) == multiset(b[..i] + b[i + 1..]) + multiset{b[i]}
    ensures multiset(Severities(b)) == multiset(Severities(b[..i] + b[i + 1..])) + multiset{b[i].severity}
  {
    var before, here, after := b[..i], [b[i]], b[i + 1..];
    assert b == before + (here + after);
    SeveritiesOfConcat(before, here + after);
    SeveritiesOfConcat(here, after);
    SeveritiesOfConcat(before, after);
    assert Severities(here) == [b[i].severity];
  }

  lemma Cancel<T>(x: multiset<T>, y: multiset<T>, e: T)
    requires x + multiset{e} <= y + multiset{e}
    ensures x <= y
  {
    forall k ensures x[k] <= y[k] {
      assert (x + multiset{e})[k] <= (y + multiset{e})[k];
    }
  }

  /** Take one occurrence of `a`'s first finding out of both lists. */
  lemma RemoveFirst(a: seq<Finding>, b: seq<Finding>) returns (rest: seq<Finding>)
    requires a != [] && multiset(a) <= multiset(b)
    ensures multiset(a[1..]) <= multiset(rest)
    ensures multiset(Severities(b)) == multiset(Severities(rest)) + multiset{a[0].severity}
  {
    assert a[0] in multiset(b);
    var i :| 0 <= i < |b| && b[i] == a[0];
    rest := b[..i] + b[i + 1..];
    SplitOff(b, i);
    assert multiset(a) == multiset(a[1..]) + multiset{a[0]} by {
      assert a == [a[0]] + a[1..];
    }
    Cancel(multiset(a[1..]), multiset(rest), a[0]);
  }

  /** The severities grow with the multiset of findings, whatever their order. */
  lemma {:induction false} SeveritiesMonotone(a: seq<Finding>, b: seq<Finding>)
    requires multiset(a) <= multiset(b)
    ensures multiset(Severities(a)) <= multiset(Severities(b))
    decreases |a|
  {
    if a != [] {
      var rest := RemoveFirst(a, b);
      SeveritiesMonotone(a[1..], rest);
      assert Severities(a) == [a[0].severity] + Severities(a[1..]);
    }
  }

  /** The order of the findings does not matter. */
  lemma SummaryOfPermutation(a: seq<Finding>, b: seq<Finding>)
    requires multiset(a) == multiset(b)
    ensures Summarise(a) == Summarise(b)
  {
    assert |a| == |multiset(a)| == |multiset(b)| == |b|;
    SeveritiesMonotone(a, b);
    SeveritiesMonotone(b, a);
  }

  function KnownCount(s: Summary): int {
    s.critical + s.high + s.medium + s.low + s.info
  }

  predicate AllKnown(fs: seq<Finding>) {
    forall f :: f in fs ==> !f.severity.Unknown?
  }

  /** The severity counts never exceed the total, and reach it exactly when every severity is known. */
  lemma {:induction false} CountsSumToTotal(fs: seq<Finding>)
    ensures KnownCount(Summarise(fs)) <= Summarise(fs).total
    ensures KnownCount(Summarise(fs)) == Summarise(fs).total <==> AllKnown(fs)
  {
    if fs == [] {
      assert Severities(fs) == [];
    } else {
      var head, tail := [fs[0]], fs[1..];
      assert fs == head + tail;
      CountsSumToTotal(tail);
      SummaryIsHomomorphism(head, tail);
      CountsOfOne(fs[0]);
      assert AllKnown(fs) <==> !fs[0].severity.Unknown? && AllKnown(tail);
    }
  }

  /** A finding that requirePinnedActions objects to. */
  predicate Unpinned(f: Finding) {
    Contains(Lower(f.rule), "pin") || Contains(Lower(f.message), "unpinned") || Contains(Lower(f.message), "not pinned")
  }

  /** What the pin requirement looks for, in the finding's own text. */
  lemma UnpinnedExactly(f: Finding)
    ensures Unpinned(f) <==>
            || (exists a, b :: Around(Lower(f.rule), a, "pin", b))
            || (exists a, b :: Around(Lower(f.message), a, "unpinned", b))
            || (exists a, b :: Around(Lower(f.message), a, "not pinned", b))
  {
    ContainsExactly(Lower(f.rule), "pin");
    ContainsExactly(Lower(f.message), "unpinned");
    ContainsExactly(Lower(f.message), "not pinned");
  }

  /** evaluateThresholds. */
  function Evaluate(t: Thresholds, s: Status): Level {
    if s.summary.critical > t.maxCritical then Critical
    else if s.summary.high > t.maxHigh then NonCompliant
    else if t.requirePinnedActions && exists f :: f in s.findings && Unpinned(f) then NonCompliant
    else if s.summary.medium > 0 then Warning
    else Compliant
  }

  /** A report that was just created, with its status dropped, passes for compliant exactly under
      thresholds that tolerate zero findings. */
  lemma PristineIsCompliantExactly(t: Thresholds)
    ensures Evaluate(t, PRISTINE) == Compliant <==> t.maxCritical >= 0 && t.maxHigh >= 0
  {}

  predicate Tighter(t: Thresholds, u: Thresholds) {
    t.maxCritical <= u.maxCritical && t.maxHigh <= u.maxHigh && (u.requirePinnedActions ==> t.requirePinnedActions)
  }

  /** triggerMatches: a level at or above a trigger, neither of them Compliant. */
  predicate TriggerMatches(trigger: Option<Level>, l: Level) {
    trigger.Some? && trigger.value != Compliant && l != Compliant && Rank(l) >= Rank(trigger.value)
  }

  function Triggered(actions: seq<Action>, l: Level): seq<Action> {
    if actions == [] then []
    else (if TriggerMatches(actions[0].trigger, l) then [actions[0]] else []) + Triggered(actions[1..], l)
  }

  predicate Subsequence<T(==)>(a: seq<T>, b: seq<T>) {
    if a == [] then true
    else if b == [] then false
    else (a[0] == b[0] && Subsequence(a[1..], b[1..])) || Subsequence(a, b[1..])
  }

  lemma {:induction false} TriggeredMonotone(actions: seq<Action>, l: Level, m: Level)
    requires Rank(l) <= Rank(m)
    ensures Subsequence(Triggered(actions, l), Triggered(actions, m))
  {
    if actions != [] {
      var a, b := Triggered(actions[1..], l), Triggered(actions[1..], m);
      TriggeredMonotone(actions[1..], l, m);
      assert ([actions[0]] + a)[1..] == a && ([actions[0]] + b)[1..] == b;
      assert [] + a == a && [] + b == b;
    }
  }

  /** More findings or tighter thresholds never lower the level, and never lose a triggered action. */
  lemma EnforcementMonotone(t: Thresholds, s: Status, t': Thresholds, s': Status, actions: seq<Action>)
    requires Consistent(s) && Consistent(s')
    requires multiset(s.findings) <= multiset(s'.findings) && Tighter(t', t)
    ensures Rank(Evaluate(t, s)) <= Rank(Evaluate(t', s'))
    ensures Subsequence(Triggered(actions, Evaluate(t, s)), Triggered(actions, Evaluate(t', s')))
  {
    SeveritiesMonotone(s.findings, s'.findings);
    forall f | f in s.findings ensures f in s'.findings {
      assert f in multiset(s.findings);
      assert f in multiset(s'.findings);
    }
    TriggeredMonotone(actions, Evaluate(t, s), Evaluate(t', s'));
  }

  /** With no tolerance and no pin requirement a policy sees exactly the stored compliance state. */
  lemma ZeroToleranceIsState(s: Status)
    requires Consistent(s)
    ensures Some(Evaluate(Thresholds(0, 0, false), s)) == s.state
  {}
}
