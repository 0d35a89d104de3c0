/** The source registry and the discovery pass that fills it. */
module Registry {
  import opened Wrappers
  import opened Strings
  import opened Model

  /** fmt.Sprintf("%v", paths). */
  function Printed(paths: seq<string>): string {
    "[" + Join(paths, " ") + "]"
  }

  /** The part of a source that sourceChanged compares. */
  function View(src: PipelineSource): SourceView {
    SourceView(src.repository, src.branch, Printed(src.paths))
  }

  datatype SourceView = SourceView(repository: string, branch: string, paths: string)

  function Put(m: map<string, PipelineSource>, src: PipelineSource): map<string, PipelineSource> {
    m[src.name := src]
  }

  /** One step of the discovery loop: an entry with an unchanged view is kept. */
  function GuardedPut(m: map<string, PipelineSource>, src: PipelineSource): map<string, PipelineSource> {
    if src.name in m && View(m[src.name]) == View(src) then m else Put(m, src)
  }

  function GuardedPutAll(m: map<string, PipelineSource>, srcs: seq<PipelineSource>): map<string, PipelineSource>
    decreases srcs
  {
    if srcs == [] then m else GuardedPutAll(GuardedPut(m, srcs[0]), srcs[1..])
  }

  function PutAll(m: map<string, PipelineSource>, srcs: seq<PipelineSource>): map<string, PipelineSource>
    decreases srcs
  {
    if srcs == [] then m else PutAll(Put(m, srcs[0]), srcs[1..])
  }

  /** What the connectors report, in order, with the failing ones (None) skipped. */
  function Discovered(outputs: seq<Option<seq<PipelineSource>>>): seq<PipelineSource> {
    if outputs == [] then []
    else (if outputs[0].Some? then outputs[0].value else []) + Discovered(outputs[1..])
  }

  /** The last discovered source of a name. */
  function LastNamed(srcs: seq<PipelineSource>, name: string): Option<PipelineSource> {
    if srcs == [] then None
    else if srcs[|srcs| - 1].name == name then Some(srcs[|srcs| - 1])
    else LastNamed(srcs[..|srcs| - 1], name)
  }

  predicate KeyedByName(m: map<string, PipelineSource>) {
    forall k :: k in m ==> m[k].name == k
  }

  /** Exactly when a discovered source replaces the stored one: a new name, another repository, another
      branch, or paths that print differently. */
  lemma GuardedPutExactly(m: map<string, PipelineSource>, src: PipelineSource)
    ensures var g := GuardedPut(m, src);
            src.name in g && (forall k :: k != src.name ==> (k in g <==> k in m) && (k in m ==> g[k] == m[k]))
            && (if src.name !in m || m[src.name].repository != src.repository || m[src.name].branch != src.branch
                   || Join(m[src.name].paths, " ") != Join(src.paths, " ")
                then g[src.name] == src else g[src.name] == m[src.name])
  {
    if src.name in m {
      var l, r := Printed(m[src.name].paths), Printed(src.paths);
      assert l[1..|l| - 1] == Join(m[src.name].paths, " ") && r[1..|r| - 1] == Join(src.paths, " ");
    }
  }

  lemma {:induction false} GuardedPutAllSnoc(m: map<string, PipelineSource>, srcs: seq<PipelineSource>, src: PipelineSource)
    ensures GuardedPutAll(m, srcs + [src]) == GuardedPut(GuardedPutAll(m, srcs), src)
    decreases srcs
  {
    if srcs == [] {
      assert (srcs + [src])[1..] == [];
    } else {
      assert (srcs + [src])[1..] == srcs[1..] + [src];
      GuardedPutAllSnoc(GuardedPut(m, srcs[0]), srcs[1..], src);
    }
  }

  lemma {:induction false} PutAllSnoc(m: map<string, PipelineSource>, srcs: seq<PipelineSource>, src: PipelineSource)
    ensures PutAll(m, srcs + [src]) == Put(PutAll(m, srcs), src)
    decreases srcs
  {
    if srcs == [] {
      assert (srcs + [src])[1..] == [];
    } else {
      assert (srcs + [src])[1..] == srcs[1..] + [src];
      PutAllSnoc(Put(m, srcs[0]), srcs[1..], src);
    }
  }

  lemma {:induction false} GuardedPutAllConcat(m: map<string, PipelineSource>, a: seq<PipelineSource>, b: seq<PipelineSource>)
    ensures GuardedPutAll(m, a + b) == GuardedPutAll(GuardedPutAll(m, a), b)
    decreases a
  {
    if a == [] {
      assert a + b == b;
    } else {
      assert (a + b)[1..] == a[1..] + b;
      GuardedPutAllConcat(GuardedPut(m, a[0]), a[1..], b);
    }
  }

  /** One name's entry agrees with what plain puts and the last discovered source say. */
  ghost predicate AgreesAt(m: map<string, PipelineSource>, g: map<string, PipelineSource>,
                           p: map<string, PipelineSource>, last: Option<PipelineSource>, k: string)
  {
    && (k in g <==> k in p)
    && (k in g ==> View(g[k]) == View(p[k]))
    && (last.Some? ==> k in g && View(g[k]) == View(last.value))
    && (last.None? ==> (k in g <==> k in m) && (k in m ==> g[k] == m[k]))
  }

  /** Guarded put refines plain put: no key is lost, every entry is filed under its own name, under
      each discovered name is the view of its last source, and other names keep their entry. */
  lemma {:induction false} GuardedRefinesPlain(m: map<string, PipelineSource>, srcs: seq<PipelineSource>)
    requires KeyedByName(m)
    ensures KeyedByName(GuardedPutAll(m, srcs))
    ensures forall k :: AgreesAt(m, GuardedPutAll(m, srcs), PutAll(m, srcs), LastNamed(srcs, k), k)
    decreases |srcs|
  {
    if srcs != [] {
      var init, last := srcs[..|srcs| - 1], srcs[|srcs| - 1];
      assert srcs == init + [last];
      GuardedRefinesPlain(m, init);
      GuardedPutAllSnoc(m, init, last);
      PutAllSnoc(m, init, last);
      forall k ensures AgreesAt(m, GuardedPutAll(m, srcs), PutAll(m, srcs), LastNamed(srcs, k), k) {
        assert AgreesAt(m, GuardedPutAll(m, init), PutAll(m, init), LastNamed(init, k), k);
      }
    }
  }

  /** Where two different views of a name occur, the outcome for that name does not depend on the start. */
  lemma {:induction false} OutcomeAfterChange(m: map<string, PipelineSource>, m': map<string, PipelineSource>,
                                              srcs: seq<PipelineSource>, name: string)
    requires name in m && name in m' && KeyedByName(m) && KeyedByName(m')
    requires View(m[name]) == View(m'[name])
    ensures var g, g' := GuardedPutAll(m, srcs), GuardedPutAll(m', srcs);
            name in g && name in g' && View(g[name]) == View(g'[name])
            && (g[name] == g'[name] || (g[name] == m[name] && g'[name] == m'[name]))
    decreases |srcs|
  {
    if srcs != [] {
      var init, last := srcs[..|srcs| - 1], srcs[|srcs| - 1];
      assert srcs == init + [last];
      OutcomeAfterChange(m, m', init, name);
      GuardedPutAllSnoc(m, init, last);
      GuardedPutAllSnoc(m', init, last);
    }
  }

  /** From a start whose entry is already the outcome of some run, the outcome repeats. */
  lemma {:induction false} SettlesFrom(m: map<string, PipelineSource>, start: map<string, PipelineSource>,
                                       srcs: seq<PipelineSource>, name: string)
    requires KeyedByName(m) && KeyedByName(start)
    requires name in GuardedPutAll(m, srcs) && name in start && start[name] == GuardedPutAll(m, srcs)[name]
    ensures name in GuardedPutAll(start, srcs)
    ensures GuardedPutAll(start, srcs)[name] == start[name]
    decreases |srcs|
  {
    if srcs != [] {
      var first, rest := srcs[0], srcs[1..];
      var m1, s1 := GuardedPut(m, first), GuardedPut(start, first);
      if first.name != name {
        SettlesFrom(m1, s1, rest, name);
      } else {
        OutcomeAfterChange(m1, s1, rest, name);
      }
    }
  }

  /** Running discovery again on the same output leaves the whole registry as it is, even when
      names repeat with different content. */
  lemma RediscoveryIsIdempotent(m: map<string, PipelineSource>, srcs: seq<PipelineSource>)
    requires KeyedByName(m)
    ensures GuardedPutAll(GuardedPutAll(m, srcs), srcs) == GuardedPutAll(m, srcs)
  {
    var once := GuardedPutAll(m, srcs);
    GuardedRefinesPlain(m, srcs);
    GuardedRefinesPlain(once, srcs);
    var twice := GuardedPutAll(once, srcs);
    forall k ensures (k in twice <==> k in once) && (k in twice ==> twice[k] == once[k]) {
      assert AgreesAt(m, once, PutAll(m, srcs), LastNamed(srcs, k), k);
      assert AgreesAt(once, twice, PutAll(once, srcs), LastNamed(srcs, k), k);
      if LastNamed(srcs, k).Some? && k in once {
        SettlesFrom(m, once, srcs, k);
      }
    }
    assert twice == once;
  }

  /** SourceRegistry; the lock makes every method atomic. The constructor establishes KeyedByName and Put keeps it. */
  class SourceRegistry {
    var sources: map<string, PipelineSource>

    constructor ()
      ensures sources == map[] && KeyedByName(sources)
    {
      sources := map[];
    }

    method Put(src: PipelineSource)
      modifies this
      ensures sources == old(sources)[src.name := src]
      ensures old(KeyedByName(sources)) ==> KeyedByName(sources)
    {
      sources := sources[src.name := src];
    }

    method Get(name: string) returns (src: Option<PipelineSource>)
      ensures src.Some? <==> name in sources
      ensures src.Some? ==> src.value == sources[name]
      ensures KeyedByName(sources) ==> (src.Some? <==> exists k :: k in sources && sources[k].name == name)
      ensures KeyedByName(sources) && src.Some? ==> src.value.name == name
    {
      src := if name in sources then Some(sources[name]) else None;
    }

    /** List: every stored source once, in whatever order the map is ranged over. */
    method List() returns (result: seq<PipelineSource>)
      requires KeyedByName(sources)
      ensures |result| == |sources|
      ensures forall k :: k in sources ==> sources[k] in result
      ensures forall i :: 0 <= i < |result| ==> result[i].name in sources && sources[result[i].name] == result[i]
      ensures forall i, j :: 0 <= i < j < |result| ==> result[i].name != result[j].name
    {
      result := [];
      var left := sources.Keys;
      while left != {}
        invariant left <= sources.Keys && |result| + |left| == |sources|
        invariant forall k :: k in sources && k !in left ==> sources[k] in result
        invariant forall i :: 0 <= i < |result| ==>
                    result[i].name in sources && result[i].name !in left && sources[result[i].name] == result[i]
        invariant forall i, j :: 0 <= i < j < |result| ==> result[i].name != result[j].name
        decreases |left|
      {
        var k :| k in left;
        left := left - {k};
        result := result + [sources[k]];
      }
    }
  }

  predicate SourceChanged(stored: PipelineSource, src: PipelineSource) {
    stored.repository != src.repository || stored.branch != src.branch || Printed(stored.paths) != Printed(src.paths)
  }

  lemma {:induction false} DiscoveredSnoc(outputs: seq<Option<seq<PipelineSource>>>, o: Option<seq<PipelineSource>>)
    ensures Discovered(outputs + [o]) == Discovered(outputs) + (if o.Some? then o.value else [])
  {
    if outputs != [] {
      assert (outputs + [o])[1..] == outputs[1..] + [o];
      DiscoveredSnoc(outputs[1..], o);
    } else {
      assert (outputs + [o])[1..] == [];
    }
  }

  /** DiscoveryController.Reconcile: `outputs` is what each connector's Discover returned, None an error. */
  method Discover(registry: SourceRegistry, outputs: seq<Option<seq<PipelineSource>>>)
    requires KeyedByName(registry.sources)
    modifies registry
    ensures registry.sources == GuardedPutAll(old(registry.sources), Discovered(outputs))
    ensures KeyedByName(registry.sources)
  {
    ghost var start := registry.sources;
    for i := 0 to |outputs|
      invariant KeyedByName(registry.sources)
      invariant registry.sources == GuardedPutAll(start, Discovered(outputs[..i]))
    {
      DiscoveredSnoc(outputs[..i], outputs[i]);
      assert outputs[..i + 1] == outputs[..i] + [outputs[i]];
      if outputs[i].None? {
        assert Discovered(outputs[..i]) + [] == Discovered(outputs[..i]);
        continue;
      }
      var sources := outputs[i].value;
      ghost var before := registry.sources;
      for j := 0 to |sources|
        invariant KeyedByName(registry.sources)
        invariant registry.sources == GuardedPutAll(before, sources[..j])
      {
        var existing := registry.Get(sources[j].name);
        if existing.None? || SourceChanged(existing.value, sources[j]) {
          registry.Put(sources[j]);
        }
        assert sources[..j + 1] == sources[..j] + [sources[j]];
        GuardedPutAllSnoc(before, sources[..j], sources[j]);
      }
      assert sources[..|sources|] == sources;
      GuardedPutAllConcat(start, Discovered(outputs[..i]), sources);
    }
    assert outputs[..|outputs|] == outputs;
  }
}
