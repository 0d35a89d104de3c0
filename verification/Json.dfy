/** JSON documents and the merge patch of section 2 of RFC 7396, with the laws that
    the suspend, resume, label and unlabel patches of the operator rely on. */
module Json {

  import opened Wrappers

  datatype Json =
    | Null
    | Bool(b: bool)
    | Number(n: int)
    | Str(s: string)
    | Array(items: seq<Json>)
    | Object(members: map<string, Json>)

  /** The members of a document; anything that is not an object has none. */
  function Members(doc: Json): map<string, Json> {
    if doc.Object? then doc.members else map[]
  }

  /** The value under a key, with Null standing for an absent one (a patch treats both alike). */
  function Member(doc: Json, k: string): Json {
    if k in Members(doc) then Members(doc)[k] else Null
  }

  /** MergePatch of RFC 7396: objects are merged member by member, null removes, anything else replaces. */
  function MergePatch(target: Json, patch: Json): Json
    decreases patch
  {
    if !patch.Object? then patch
    else
      var t, p := Members(target), patch.members;
      Object(map k | k in t.Keys + p.Keys && !(k in p && p[k].Null?) ::
               if k in p then MergePatch(Member(target, k), p[k]) else t[k])
  }

  /** The value at a path, if every step of the path exists. */
  function Lookup(doc: Json, path: seq<string>): Option<Json>
    decreases path
  {
    if path == [] then Some(doc)
    else if path[0] in Members(doc) then Lookup(Members(doc)[path[0]], path[1..])
    else None
  }

  /** The document whose only content is `v` at `path`. */
  function AtPath(path: seq<string>, v: Json): Json
    decreases path
  {
    if path == [] then v else Object(map[path[0] := AtPath(path[1..], v)])
  }

  predicate Diverge(p: seq<string>, q: seq<string>) {
    !(p <= q) && !(q <= p)
  }

  /** Applying any patch twice equals applying it once, for every document. */
  lemma {:induction false} PatchIdempotent(t: Json, p: Json)
    ensures MergePatch(MergePatch(t, p), p) == MergePatch(t, p)
    decreases p
  {
    if p.Object? {
      var once := MergePatch(t, p);
      forall k | k in p.members && !p.members[k].Null?
        ensures MergePatch(Member(once, k), p.members[k]) == once.members[k]
      {
        PatchIdempotent(Member(t, k), p.members[k]);
      }
      assert MergePatch(once, p).members == once.members;
    }
  }

  /** `q` overwrites everything `p` writes. */
  predicate Covers(q: Json, p: Json)
    decreases q
  {
    q.Object? ==>
      p.Object? && forall k :: k in p.members ==> k in q.members && Covers(q.members[k], p.members[k])
  }

  lemma {:induction false} CoveredPatchIsAbsorbed(t: Json, p: Json, q: Json)
    requires Covers(q, p)
    ensures MergePatch(MergePatch(t, p), q) == MergePatch(t, q)
    decreases q
  {
    if q.Object? {
      var once := MergePatch(t, p);
      var both, direct := MergePatch(once, q), MergePatch(t, q);
      forall k | k in q.members && !q.members[k].Null?
        ensures MergePatch(Member(once, k), q.members[k]) == MergePatch(Member(t, k), q.members[k])
      {
        if k in p.members {
          if p.members[k].Null? {
            assert Member(once, k) == MergePatch(Member(t, k), p.members[k]);
          }
          CoveredPatchIsAbsorbed(Member(t, k), p.members[k], q.members[k]);
        }
      }
      assert both.members == direct.members;
    }
  }

  /** A key longer than every key of a finite set of keys. */
  lemma {:induction false} FreshKey(keys: set<string>) returns (k: string)
    ensures forall x :: x in keys ==> |x| < |k|
    decreases |keys|
  {
    if keys == {} {
      k := "a";
    } else {
      var y :| y in keys;
      var j := FreshKey(keys - {y});
      k := j + y + "a";
      forall x | x in keys ensures |x| < |k| {
        if x != y { assert x in keys - {y}; }
      }
    }
  }

  lemma {:induction false} UncoveredPatchShows(p: Json, q: Json) returns (t: Json)
    requires !Covers(q, p)
    ensures MergePatch(MergePatch(t, p), q) != MergePatch(t, q)
    decreases q
  {
    if !p.Object? {
      var novel := FreshKey(q.members.Keys);
      t := Object(map[novel := Bool(true)]);
      assert novel !in q.members;
      assert novel in MergePatch(t, q).members;
      assert novel !in MergePatch(p, q).members;
    } else {
      var k :| k in p.members && !(k in q.members && Covers(q.members[k], p.members[k]));
      if k !in q.members {
        t := if p.members[k].Null? then Object(map[k := Bool(true)]) else Object(map[]);
        var once := MergePatch(t, p);
        assert k in once.members <==> k !in t.members;
        assert k in MergePatch(once, q).members <==> k in once.members;
        assert k in MergePatch(t, q).members <==> k in t.members;
      } else {
        var u := UncoveredPatchShows(p.members[k], q.members[k]);
        t := Object(map[k := u]);
        var once := MergePatch(t, p);
        assert Member(t, k) == u;
        assert Member(once, k) == MergePatch(u, p.members[k]);
        assert MergePatch(once, q).members[k] == MergePatch(Member(once, k), q.members[k]);
        assert MergePatch(t, q).members[k] == MergePatch(u, q.members[k]);
      }
    }
  }

  /** Exactly when a later patch makes an earlier one unobservable on every document. */
  lemma AbsorptionExact(p: Json, q: Json)
    ensures Covers(q, p) <==> forall t :: MergePatch(MergePatch(t, p), q) == MergePatch(t, q)
  {
    if Covers(q, p) {
      forall t ensures MergePatch(MergePatch(t, p), q) == MergePatch(t, q) {
        CoveredPatchIsAbsorbed(t, p, q);
      }
    } else {
      var t := UncoveredPatchShows(p, q);
    }
  }

  /** A patch at one path leaves every path that diverges from it alone, in every document. */
  lemma {:induction false} PatchIsLocal(t: Json, path: seq<string>, v: Json, q: seq<string>)
    requires Diverge(path, q)
    ensures Lookup(MergePatch(t, AtPath(path, v)), q) == Lookup(t, q)
    decreases path
  {
    var patch := AtPath(path, v);
    var k := path[0];
    if q[0] == k {
      assert path == [k] + path[1..] && q == [k] + q[1..];
      assert path[1..] != [];
      PatchIsLocal(Member(t, k), path[1..], v, q[1..]);
      assert MergePatch(t, patch).members[k] == MergePatch(Member(t, k), AtPath(path[1..], v));
      if k !in Members(t) { assert Lookup(Null, q[1..]) == None; }
    } else {
      assert q[0] in MergePatch(t, patch).members <==> q[0] in Members(t);
    }
  }

  /** What a patch leaves at its own path. */
  lemma {:induction false} PatchHits(t: Json, path: seq<string>, v: Json)
    requires path != []
    ensures var r := Lookup(MergePatch(t, AtPath(path, v)), path);
            if v.Null? then r == None
            else r == Some(MergePatch(if Lookup(t, path).Some? then Lookup(t, path).value else Null, v))
    decreases path
  {
    var k, rest := path[0], path[1..];
    var patched := MergePatch(t, AtPath(path, v));
    if rest == [] {
      assert AtPath(rest, v) == v;
      if !v.Null? {
        assert Lookup(patched, path) == Lookup(patched.members[k], rest) == Some(MergePatch(Member(t, k), v));
      }
    } else {
      PatchHits(Member(t, k), rest, v);
      assert Lookup(patched, path) == Lookup(MergePatch(Member(t, k), AtPath(rest, v)), rest);
      assert Lookup(t, path) == if k in Members(t) then Lookup(Member(t, k), rest) else None;
    }
  }

  /** Writing a scalar or null at a path covers any earlier write at the same path. */
  lemma {:induction false} SamePathCovers(path: seq<string>, v: Json, w: Json)
    requires !w.Object?
    ensures Covers(AtPath(path, w), AtPath(path, v))
    decreases path
  {
    if path != [] { SamePathCovers(path[1..], v, w); }
  }
}
