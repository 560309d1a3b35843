/**
 * The scene graph of `prompting/scene_graph.py`: objects with attribute
 * lists, keyed by id in an insertion-ordered dict, and relationships
 * (subject, predicate, object) in a list.  A graph is built from object and
 * relation records, rendered to the text grammar
 * `obj-id:[a, b]; ...; rel-n:(s, p, o); ...`, and parsed back from it.
 */
module SceneGraphs {
  import opened Wrappers
  import opened Text
  import opened Dicts
  import opened Seqs
  import opened TripleRegex

  datatype SceneObject = SceneObject(id: string, attributes: seq<string>)

  /** A relationship id: the record index on the record path, the text read back by `parse`. */
  datatype RelationId = Index(n: nat) | Label(text: string)

  datatype SceneRelationship = SceneRelationship(id: RelationId, subj: string, pred: string, obj: string)

  /** The two fields of a `SceneGraph`: `objects` (id to object) and `relationships`. */
  datatype Graph = Graph(objects: Dict<string, SceneObject>, relationships: seq<SceneRelationship>)

  /** Every object is stored under its own id. */
  predicate WellKeyed(g: Graph) {
    && g.objects.Valid()
    && forall k :: k in g.objects.entries ==> g.objects.entries[k].id == k
  }

  /** Every relationship endpoint names an object of the graph. */
  predicate EndpointsKnown(g: Graph) {
    forall j :: 0 <= j < |g.relationships| ==>
      g.relationships[j].subj in g.objects.entries && g.relationships[j].obj in g.objects.entries
  }

  function EmptyGraph(): (g: Graph)
    ensures WellKeyed(g) && EndpointsKnown(g)
  {
    Graph(Empty(), [])
  }

  /** `add_object`: store under the object's id (a repeated id keeps its place). */
  function WithObject(g: Graph, o: SceneObject): (r: Graph)
    requires WellKeyed(g)
    ensures WellKeyed(r)
    ensures r.objects.entries == g.objects.entries[o.id := o] && r.relationships == g.relationships
  {
    Graph(g.objects.Put(o.id, o), g.relationships)
  }

  // ---------------------------------------------------------------------
  // Rendering: __repr__ and to_json

  /** `str(rel.id)` */
  function IdText(id: RelationId): string {
    match id
    case Index(n) => NatToString(n)
    case Label(t) => t
  }

  /** `SceneObject.__repr__` */
  function ObjectRepr(o: SceneObject): string {
    "obj-" + o.id + ":[" + Join(o.attributes, ", ") + "]"
  }

  /** `SceneRelationship.__repr__` */
  function RelationRepr(r: SceneRelationship): string {
    "rel-" + IdText(r.id) + ":(" + r.subj + ", " + r.pred + ", " + r.obj + ")"
  }

  function ObjectReprs(os: seq<SceneObject>): (ss: seq<string>)
    ensures |ss| == |os| && forall i :: 0 <= i < |os| ==> ss[i] == ObjectRepr(os[i])
  {
    seq(|os|, i requires 0 <= i < |os| => ObjectRepr(os[i]))
  }

  function RelationReprs(rs: seq<SceneRelationship>): (ss: seq<string>)
    ensures |ss| == |rs| && forall i :: 0 <= i < |rs| ==> ss[i] == RelationRepr(rs[i])
  {
    seq(|rs|, i requires 0 <= i < |rs| => RelationRepr(rs[i]))
  }

  /**
   * `SceneGraph.__repr__`: the objects in dict order joined by "; ", then
   * "; ", then the relationships joined by "; ".  The middle separator is
   * always there, so a graph without relationships ends in "; " and one
   * without objects starts with it.
   */
  function Render(g: Graph): (s: string)
    requires g.objects.Valid()
    ensures g.relationships == [] ==> EndsWith(s, "; ")
    ensures g.objects.keys == [] ==> StartsWith(s, "; ")
  {
    var objectPart := Join(ObjectReprs(g.objects.Values()), "; ");
    var relationPart := Join(RelationReprs(g.relationships), "; ");
    assert g.relationships == [] ==> relationPart == [];
    assert g.objects.keys == [] ==> objectPart == [];
    objectPart + "; " + relationPart
  }

  /** What `to_json` returns: the object attribute lists by id, and the relationship triples. */
  datatype JsonGraph = JsonGraph(objects: Dict<string, seq<string>>, relationships: seq<(string, string, string)>)

  /** `(obj.id, obj.attributes)` for each object, in dict order */
  function AttributePairs(g: Graph): (kvs: seq<(string, seq<string>)>)
    requires g.objects.Valid()
    ensures |kvs| == |g.objects.keys|
  {
    var vs := g.objects.Values();
    seq(|vs|, i requires 0 <= i < |vs| => (vs[i].id, vs[i].attributes))
  }

  /** `to_json`: the same ids in the same order, each with its attribute list; the triples in order. */
  function JsonView(g: Graph): (j: JsonGraph)
    requires WellKeyed(g)
    ensures j.objects.Valid() && j.objects.keys == g.objects.keys
    ensures forall k :: k in g.objects.entries ==>
              k in j.objects.entries && j.objects.entries[k] == g.objects.entries[k].attributes
    ensures |j.relationships| == |g.relationships|
    ensures forall i :: 0 <= i < |g.relationships| ==>
              j.relationships[i] == (g.relationships[i].subj, g.relationships[i].pred, g.relationships[i].obj)
  {
    JsonObjects(g);
    var rs := g.relationships;
    JsonGraph(PutAll(Empty(), AttributePairs(g)),
              seq(|rs|, i requires 0 <= i < |rs| => (rs[i].subj, rs[i].pred, rs[i].obj)))
  }

  lemma JsonObjects(g: Graph)
    requires WellKeyed(g)
    ensures PutAll(Empty(), AttributePairs(g)).keys == g.objects.keys
    ensures forall k :: k in g.objects.entries ==>
              k in PutAll(Empty(), AttributePairs(g)).entries
              && PutAll(Empty(), AttributePairs(g)).entries[k] == g.objects.entries[k].attributes
  {
    var kvs := AttributePairs(g);
    var ks := g.objects.keys;
    var e: Dict<string, seq<string>> := Empty();
    forall i | 0 <= i < |kvs| ensures kvs[i] == (ks[i], g.objects.entries[ks[i]].attributes) {
      assert g.objects.Values()[i] == g.objects.entries[ks[i]];
    }
    DistinctKeys(kvs);
    assert Firsts(kvs) == ks;
    PutAllEntries(e, kvs);
    assert e.entries == map[];
    AttributeMap(g, kvs);
  }

  lemma AttributeMap(g: Graph, kvs: seq<(string, seq<string>)>)
    requires WellKeyed(g) && |kvs| == |g.objects.keys|
    requires forall i :: 0 <= i < |kvs| ==> kvs[i] == (g.objects.keys[i], g.objects.entries[g.objects.keys[i]].attributes)
    ensures forall k :: k in g.objects.entries ==> k in MapOf(kvs) && MapOf(kvs)[k] == g.objects.entries[k].attributes
  {
    var ks := g.objects.keys;
    forall k | k in g.objects.entries
      ensures k in MapOf(kvs) && MapOf(kvs)[k] == g.objects.entries[k].attributes
    {
      var i :| 0 <= i < |ks| && ks[i] == k;
      MapOfLastWins(kvs, i);
    }
  }

  // ---------------------------------------------------------------------
  // The record path: SceneGraph(objects, relations) and parse_args

  /** An object record: a label and its attribute groups in dict order. */
  datatype ObjectRecord = ObjectRecord(objectLabel: string, attributes: seq<(string, seq<string>)>)

  datatype RelationRecord = RelationRecord(subjectName: string, relationName: string, objectName: string)

  /** `s.replace(' ', '-')` */
  function Hyphenate(s: string): (r: string)
    ensures ' ' !in r
  {
    ReplaceCharRemoves(s, ' ', "-");
    ReplaceAll(s, " ", "-")
  }

  function HyphenateAll(xs: seq<string>): (ys: seq<string>)
    ensures |ys| == |xs| && forall i :: 0 <= i < |xs| ==> ys[i] == Hyphenate(xs[i])
  {
    seq(|xs|, i requires 0 <= i < |xs| => Hyphenate(xs[i]))
  }

  /** The attribute list of an object record: every group's attributes, hyphenated, in group order. */
  function FlattenGroups(groups: seq<(string, seq<string>)>): (attrs: seq<string>)
    ensures forall a :: a in attrs ==> ' ' !in a
  {
    if groups == [] then []
    else FlattenGroups(groups[..|groups| - 1]) + HyphenateAll(groups[|groups| - 1].1)
  }

  function ObjectFromRecord(rec: ObjectRecord): SceneObject {
    SceneObject(Hyphenate(rec.objectLabel), FlattenGroups(rec.attributes))
  }

  /** The `add_object` calls the object records make, as (id, object) pairs. */
  function ObjectEntries(recs: seq<ObjectRecord>): (kvs: seq<(string, SceneObject)>)
    ensures |kvs| == |recs|
    ensures forall i :: 0 <= i < |recs| ==> kvs[i] == (Hyphenate(recs[i].objectLabel), ObjectFromRecord(recs[i]))
  {
    seq(|recs|, i requires 0 <= i < |recs| => (Hyphenate(recs[i].objectLabel), ObjectFromRecord(recs[i])))
  }

  function RelationFromRecord(idx: nat, rec: RelationRecord): SceneRelationship {
    SceneRelationship(Index(idx), Hyphenate(rec.subjectName), rec.relationName, Hyphenate(rec.objectName))
  }

  /** `'same' in predicate`: a relation the record path skips */
  predicate Trivial(rec: RelationRecord) {
    Contains(rec.relationName, "same")
  }

  /** Adds an object with no attributes under `name` unless one is there already. */
  function EnsureObject(g: Graph, name: string): (r: Graph)
    requires WellKeyed(g)
    ensures WellKeyed(r) && r.relationships == g.relationships
    ensures name in r.objects.entries
    ensures r.objects.entries.Keys == g.objects.entries.Keys + {name}
  {
    if name in g.objects.entries then g else WithObject(g, SceneObject(name, []))
  }

  /** One pass of the relation loop of `parse_args`, for the record at index `idx`. */
  function AddRelationRecord(g: Graph, idx: nat, rec: RelationRecord): (r: Graph)
    requires WellKeyed(g)
    ensures WellKeyed(r)
  {
    if Trivial(rec) then g
    else
      var rel := RelationFromRecord(idx, rec);
      var g' := EnsureObject(EnsureObject(g, rel.subj), rel.obj);
      Graph(g'.objects, g'.relationships + [rel])
  }

  /** The relation loop of `parse_args` over `recs`, each record with its index. */
  function AddRelationRecords(g: Graph, recs: seq<RelationRecord>): (r: Graph)
    requires WellKeyed(g)
    ensures WellKeyed(r)
  {
    if recs == [] then g
    else AddRelationRecord(AddRelationRecords(g, recs[..|recs| - 1]), |recs| - 1, recs[|recs| - 1])
  }

  /** The object loop of `parse_args`. */
  function AddObjectRecords(g: Graph, recs: seq<ObjectRecord>): (r: Graph)
    requires WellKeyed(g)
    ensures WellKeyed(r)
  {
    StoredObjectsKeyed(g.objects, ObjectEntries(recs));
    Graph(PutAll(g.objects, ObjectEntries(recs)), g.relationships)
  }

  /** `parse_args`: the object records if given, then the relation records if given. */
  function AddRecords(g: Graph, objectRecords: Option<seq<ObjectRecord>>,
                      relationRecords: Option<seq<RelationRecord>>): (r: Graph)
    requires WellKeyed(g)
    ensures WellKeyed(r)
  {
    var g1 := if objectRecords.Some? then AddObjectRecords(g, objectRecords.value) else g;
    if relationRecords.Some? then AddRelationRecords(g1, relationRecords.value) else g1
  }

  /** `SceneGraph(objects, relations)` */
  function FromRecords(objectRecords: Option<seq<ObjectRecord>>,
                       relationRecords: Option<seq<RelationRecord>>): (r: Graph)
    ensures WellKeyed(r)
  {
    AddRecords(EmptyGraph(), objectRecords, relationRecords)
  }

  lemma {:induction false} StoredObjectsKeyed(d: Dict<string, SceneObject>, kvs: seq<(string, SceneObject)>)
    requires WellKeyed(Graph(d, []))
    requires forall i :: 0 <= i < |kvs| ==> kvs[i].1.id == kvs[i].0
    ensures WellKeyed(Graph(PutAll(d, kvs), []))
    decreases |kvs|
  {
    if kvs != [] {
      var d' := d.Put(kvs[0].0, kvs[0].1);
      assert WellKeyed(Graph(d', []));
      forall i | 0 <= i < |kvs[1..]| ensures kvs[1..][i].1.id == kvs[1..][i].0 {
        assert kvs[1..][i] == kvs[i + 1];
      }
      StoredObjectsKeyed(d', kvs[1..]);
    }
  }

  /** One pass of the object loop stores the record's object under its hyphenated label. */
  lemma ObjectEntriesStep(d: Dict<string, SceneObject>, recs: seq<ObjectRecord>, i: nat)
    requires d.Valid() && i < |recs|
    ensures PutAll(d, ObjectEntries(recs[..i + 1]))
         == PutAll(d, ObjectEntries(recs[..i])).Put(Hyphenate(recs[i].objectLabel), ObjectFromRecord(recs[i]))
  {
    var entry := (Hyphenate(recs[i].objectLabel), ObjectFromRecord(recs[i]));
    assert ObjectEntries(recs[..i + 1]) == ObjectEntries(recs[..i]) + [entry];
    PutAllSnoc(d, ObjectEntries(recs[..i]), entry.0, entry.1);
  }

  /** One pass of the relation loop appends the record's relationship unless it is trivial. */
  lemma RelationStep(h: Graph, n: nat, rec: RelationRecord)
    requires WellKeyed(h)
    ensures AddRelationRecord(h, n, rec).relationships
            == if Trivial(rec) then h.relationships else h.relationships + [RelationFromRecord(n, rec)]
  {
  }

  /** The relation loop keeps the relationships already there, in front. */
  lemma {:induction false} RecordRelationsPrefix(g: Graph, recs: seq<RelationRecord>)
    requires WellKeyed(g)
    ensures var out := AddRelationRecords(g, recs).relationships;
            |out| >= |g.relationships| && out[..|g.relationships|] == g.relationships
    decreases |recs|
  {
    if recs != [] {
      var n := |recs| - 1;
      RecordRelationsPrefix(g, recs[..n]);
      var h := AddRelationRecords(g, recs[..n]);
      var hr := h.relationships;
      RelationStep(h, n, recs[n]);
      var more := if Trivial(recs[n]) then [] else [RelationFromRecord(n, recs[n])];
      assert AddRelationRecords(g, recs).relationships == hr + more;
      PrefixOfConcat(hr, more, |g.relationships|);
    }
  }

  /** Each relationship the loop appends is built from a record whose predicate does not contain "same". */
  predicate FromNonTrivial(recs: seq<RelationRecord>, r: SceneRelationship) {
    && r.id.Index? && r.id.n < |recs| && !Trivial(recs[r.id.n])
    && r == RelationFromRecord(r.id.n, recs[r.id.n])
  }

  lemma FromNonTrivialLonger(recs: seq<RelationRecord>, n: nat, r: SceneRelationship)
    requires n <= |recs| && FromNonTrivial(recs[..n], r)
    ensures FromNonTrivial(recs, r)
  {
    assert recs[..n][r.id.n] == recs[r.id.n];
  }

  lemma {:induction false} RecordRelationsFrom(g: Graph, recs: seq<RelationRecord>)
    requires WellKeyed(g)
    ensures forall j :: |g.relationships| <= j < |AddRelationRecords(g, recs).relationships| ==>
              FromNonTrivial(recs, AddRelationRecords(g, recs).relationships[j])
    decreases |recs|
  {
    if recs != [] {
      var n := |recs| - 1;
      RecordRelationsFrom(g, recs[..n]);
      var h := AddRelationRecords(g, recs[..n]);
      var hr := h.relationships;
      RelationStep(h, n, recs[n]);
      var out := AddRelationRecords(g, recs).relationships;
      forall j | |g.relationships| <= j < |out| ensures FromNonTrivial(recs, out[j]) {
        if j < |hr| {
          assert out[j] == hr[j];
          FromNonTrivialLonger(recs, n, hr[j]);
        }
      }
    }
  }

  lemma {:induction false} RecordRelationsOrdered(g: Graph, recs: seq<RelationRecord>)
    requires WellKeyed(g)
    ensures forall j, j' :: |g.relationships| <= j < j' < |AddRelationRecords(g, recs).relationships| ==>
              IndexOf(AddRelationRecords(g, recs).relationships[j]) < IndexOf(AddRelationRecords(g, recs).relationships[j'])
    decreases |recs|
  {
    if recs != [] {
      var n := |recs| - 1;
      RecordRelationsOrdered(g, recs[..n]);
      RecordRelationsFrom(g, recs[..n]);
      var h := AddRelationRecords(g, recs[..n]);
      var hr := h.relationships;
      RelationStep(h, n, recs[n]);
      var out := AddRelationRecords(g, recs).relationships;
      forall j, j' | |g.relationships| <= j < j' < |out| ensures IndexOf(out[j]) < IndexOf(out[j']) {
        assert out[j] == hr[j];
        if j' < |hr| {
          assert out[j'] == hr[j'];
        } else {
          assert FromNonTrivial(recs[..n], hr[j]);
        }
      }
    }
  }

  /**
   * The relation loop appends, after the relationships already there, only
   * relationships built from records whose predicate does not contain
   * "same", each with its record's index as id, its endpoints hyphenated
   * and its predicate as given, in increasing index order.
   */
  lemma RecordRelations(g: Graph, recs: seq<RelationRecord>)
    requires WellKeyed(g)
    ensures var out := AddRelationRecords(g, recs).relationships;
            |out| >= |g.relationships| && out[..|g.relationships|] == g.relationships
    ensures var out := AddRelationRecords(g, recs).relationships;
            forall j :: |g.relationships| <= j < |out| ==>
              && out[j].id.Index? && out[j].id.n < |recs| && !Trivial(recs[out[j].id.n])
              && out[j] == RelationFromRecord(out[j].id.n, recs[out[j].id.n])
    ensures var out := AddRelationRecords(g, recs).relationships;
            forall j, j' :: |g.relationships| <= j < j' < |out| ==> IndexOf(out[j]) < IndexOf(out[j'])
  {
    RecordRelationsPrefix(g, recs);
    RecordRelationsFrom(g, recs);
    RecordRelationsOrdered(g, recs);
  }

  /** One of the relationships from index `lo` on was built from record `i`. */
  predicate Covers(rs: seq<SceneRelationship>, lo: nat, i: nat) {
    exists j :: lo <= j < |rs| && rs[j].id == Index(i)
  }

  lemma CoversLonger(rs: seq<SceneRelationship>, more: seq<SceneRelationship>, lo: nat, i: nat)
    requires Covers(rs, lo, i)
    ensures Covers(rs + more, lo, i)
  {
    var j :| lo <= j < |rs| && rs[j].id == Index(i);
    assert (rs + more)[j] == rs[j];
  }

  /** Every record whose predicate does not contain "same" gives a relationship. */
  lemma {:induction false} RecordRelationsComplete(g: Graph, recs: seq<RelationRecord>)
    requires WellKeyed(g)
    ensures forall i :: 0 <= i < |recs| && !Trivial(recs[i]) ==>
              Covers(AddRelationRecords(g, recs).relationships, |g.relationships|, i)
    decreases |recs|
  {
    if recs != [] {
      var n := |recs| - 1;
      var pre := recs[..n];
      RecordRelationsComplete(g, pre);
      RecordRelationsPrefix(g, pre);
      var h := AddRelationRecords(g, pre);
      var hr := h.relationships;
      RelationStep(h, n, recs[n]);
      var out := AddRelationRecords(g, recs).relationships;
      var more := if Trivial(recs[n]) then [] else [RelationFromRecord(n, recs[n])];
      assert out == hr + more;
      forall i | 0 <= i < |recs| && !Trivial(recs[i])
        ensures Covers(out, |g.relationships|, i)
      {
        if i == n {
          var j := |out| - 1;
          assert |g.relationships| <= j < |out| && out[j].id == Index(n);
        } else {
          assert pre[i] == recs[i];
          CoversLonger(hr, more, |g.relationships|, i);
        }
      }
    }
  }

  /** The record index of a relationship built from records (-1 for one read back by `parse`). */
  function IndexOf(r: SceneRelationship): int {
    if r.id.Index? then r.id.n else -1
  }

  /** The relation loop keeps every endpoint known, creating the missing ones. */
  lemma {:induction false} RecordEndpointsKnown(g: Graph, recs: seq<RelationRecord>)
    requires WellKeyed(g) && EndpointsKnown(g)
    ensures EndpointsKnown(AddRelationRecords(g, recs))
    decreases |recs|
  {
    if recs != [] {
      var n := |recs| - 1;
      RecordEndpointsKnown(g, recs[..n]);
      var h := AddRelationRecords(g, recs[..n]);
      if !Trivial(recs[n]) {
        var rel := RelationFromRecord(n, recs[n]);
        var h1 := EnsureObject(h, rel.subj);
        var h2 := EnsureObject(h1, rel.obj);
        assert h.objects.entries.Keys <= h2.objects.entries.Keys;
        assert AddRelationRecords(g, recs) == Graph(h2.objects, h.relationships + [rel]);
      }
    }
  }

  /** Every relationship a graph built from records holds names one of its objects. */
  lemma FromRecordsEndpointsKnown(objectRecords: Option<seq<ObjectRecord>>,
                                  relationRecords: Option<seq<RelationRecord>>)
    ensures EndpointsKnown(FromRecords(objectRecords, relationRecords))
  {
    var g1 := if objectRecords.Some? then AddObjectRecords(EmptyGraph(), objectRecords.value) else EmptyGraph();
    assert g1.relationships == [];
    if relationRecords.Some? {
      RecordEndpointsKnown(g1, relationRecords.value);
    }
  }

  /** No object id or attribute holds a space. */
  predicate ObjectsHyphenated(entries: map<string, SceneObject>) {
    forall k :: k in entries ==> ' ' !in k && forall a :: a in entries[k].attributes ==> ' ' !in a
  }

  /** No relationship endpoint holds a space. */
  predicate EndpointsHyphenated(rs: seq<SceneRelationship>) {
    forall j :: 0 <= j < |rs| ==> ' ' !in rs[j].subj && ' ' !in rs[j].obj
  }

  /** No object id, attribute or relationship endpoint holds a space. */
  predicate Hyphenated(g: Graph) {
    ObjectsHyphenated(g.objects.entries) && EndpointsHyphenated(g.relationships)
  }

  lemma EnsureObjectHyphenated(g: Graph, name: string)
    requires WellKeyed(g) && ObjectsHyphenated(g.objects.entries) && ' ' !in name
    ensures ObjectsHyphenated(EnsureObject(g, name).objects.entries)
  {
    if name !in g.objects.entries {
      assert EnsureObject(g, name).objects.entries == g.objects.entries[name := SceneObject(name, [])];
    }
  }

  lemma EndpointsHyphenatedSnoc(rs: seq<SceneRelationship>, r: SceneRelationship)
    requires EndpointsHyphenated(rs) && ' ' !in r.subj && ' ' !in r.obj
    ensures EndpointsHyphenated(rs + [r])
  {
  }

  lemma RelationRecordHyphenated(h: Graph, n: nat, rec: RelationRecord)
    requires WellKeyed(h) && Hyphenated(h)
    ensures Hyphenated(AddRelationRecord(h, n, rec))
  {
    if !Trivial(rec) {
      var rel := RelationFromRecord(n, rec);
      var h1 := EnsureObject(h, rel.subj);
      EnsureObjectHyphenated(h, rel.subj);
      EnsureObjectHyphenated(h1, rel.obj);
      EndpointsHyphenatedSnoc(h.relationships, rel);
    }
  }

  lemma {:induction false} RecordRelationsHyphenated(g: Graph, recs: seq<RelationRecord>)
    requires WellKeyed(g) && Hyphenated(g)
    ensures Hyphenated(AddRelationRecords(g, recs))
    decreases |recs|
  {
    if recs != [] {
      var n := |recs| - 1;
      RecordRelationsHyphenated(g, recs[..n]);
      RelationRecordHyphenated(AddRelationRecords(g, recs[..n]), n, recs[n]);
    }
  }

  lemma ObjectRecordsHyphenated(recs: seq<ObjectRecord>)
    ensures ObjectsHyphenated(FromRecords(Some(recs), None).objects.entries)
  {
    var kvs := ObjectEntries(recs);
    ObjectRecordsMap(recs);
    MapOfValues(kvs);
    forall k | k in MapOf(kvs)
      ensures ' ' !in k && forall a :: a in MapOf(kvs)[k].attributes ==> ' ' !in a
    {
      var i :| 0 <= i < |kvs| && kvs[i] == (k, MapOf(kvs)[k]);
      assert kvs[i] == (Hyphenate(recs[i].objectLabel), ObjectFromRecord(recs[i]));
    }
  }

  /**
   * Building from records hyphenates every label, attribute and endpoint
   * name (predicates keep their spaces, see `RecordRelations`).
   */
  lemma FromRecordsHyphenated(objectRecords: Option<seq<ObjectRecord>>,
                              relationRecords: Option<seq<RelationRecord>>)
    ensures Hyphenated(FromRecords(objectRecords, relationRecords))
  {
    var g1 := EmptyGraph();
    if objectRecords.Some? {
      ObjectRecordsHyphenated(objectRecords.value);
      g1 := AddObjectRecords(EmptyGraph(), objectRecords.value);
      assert g1 == FromRecords(objectRecords, None);
    }
    assert Hyphenated(g1);
    if relationRecords.Some? {
      RecordRelationsHyphenated(g1, relationRecords.value);
    }
  }

  /** The objects built from records are `dict` of the (label, object) pairs. */
  lemma ObjectRecordsMap(recs: seq<ObjectRecord>)
    ensures FromRecords(Some(recs), None).objects.entries == MapOf(ObjectEntries(recs))
  {
    var kvs := ObjectEntries(recs);
    var e: Dict<string, SceneObject> := Empty();
    PutAllEntries(e, kvs);
    assert e.entries == map[];
    EmptyUnion(MapOf(kvs));
  }

  /** `k` is the hyphenated label of one of the records */
  predicate LabelledBy(recs: seq<ObjectRecord>, k: string) {
    exists i :: 0 <= i < |recs| && Hyphenate(recs[i].objectLabel) == k
  }

  lemma LabelledByKey(recs: seq<ObjectRecord>, k: string)
    ensures HasKey(ObjectEntries(recs), k) <==> LabelledBy(recs, k)
  {
    var kvs := ObjectEntries(recs);
    if HasKey(kvs, k) {
      var i :| 0 <= i < |kvs| && kvs[i].0 == k;
      assert Hyphenate(recs[i].objectLabel) == k;
    }
    if LabelledBy(recs, k) {
      var i :| 0 <= i < |recs| && Hyphenate(recs[i].objectLabel) == k;
      assert kvs[i].0 == k;
    }
  }

  /** Objects built from records: one per distinct hyphenated label. */
  lemma ObjectRecordsKeys(recs: seq<ObjectRecord>)
    ensures forall k :: k in FromRecords(Some(recs), None).objects.entries <==> LabelledBy(recs, k)
  {
    var kvs := ObjectEntries(recs);
    ObjectRecordsMap(recs);
    MapOfKeys(kvs);
    forall k ensures HasKey(kvs, k) <==> LabelledBy(recs, k) {
      LabelledByKey(recs, k);
    }
  }

  /** A label given twice holds the object of its last record. */
  lemma ObjectRecordsLastWins(recs: seq<ObjectRecord>)
    ensures var d := FromRecords(Some(recs), None).objects;
            forall i :: 0 <= i < |recs| &&
                        (forall j :: i < j < |recs| ==> Hyphenate(recs[j].objectLabel) != Hyphenate(recs[i].objectLabel)) ==>
              Hyphenate(recs[i].objectLabel) in d.entries && d.entries[Hyphenate(recs[i].objectLabel)] == ObjectFromRecord(recs[i])
  {
    var kvs := ObjectEntries(recs);
    ObjectRecordsMap(recs);
    forall i | 0 <= i < |recs| &&
               (forall j :: i < j < |recs| ==> Hyphenate(recs[j].objectLabel) != Hyphenate(recs[i].objectLabel))
      ensures Hyphenate(recs[i].objectLabel) in MapOf(kvs) && MapOf(kvs)[Hyphenate(recs[i].objectLabel)] == ObjectFromRecord(recs[i])
    {
      MapOfLastWins(kvs, i);
    }
  }

  // ---------------------------------------------------------------------
  // Parsing: SceneGraph.parse

  /** `[part.strip() for part in parts if part.strip().startswith(prefix)]` */
  function Declarations(parts: seq<string>, prefix: string): (decls: seq<string>)
    ensures forall i :: 0 <= i < |decls| ==> StartsWith(decls[i], prefix)
  {
    if parts == [] then []
    else
      var d := Strip(parts[0]);
      (if StartsWith(d, prefix) then [d] else []) + Declarations(parts[1..], prefix)
  }

  function StripAll(xs: seq<string>): (ys: seq<string>)
    ensures |ys| == |xs| && forall i :: 0 <= i < |xs| ==> ys[i] == Strip(xs[i])
  {
    seq(|xs|, i requires 0 <= i < |xs| => Strip(xs[i]))
  }

  /**
   * One object declaration: `None` where `parse` prints an error and drops
   * it (the split on ':' does not give exactly two parts), else the id with
   * every 'obj-' removed and the attributes, brackets deleted, split on ','
   * and stripped.  The attribute list is never empty.
   */
  function ParseObjectDecl(decl: string): (r: Option<(string, seq<string>)>)
    ensures r.None? <==> |Split(decl, ":")| != 2
    ensures r.Some? ==> |r.value.1| >= 1
  {
    var halves := Split(decl, ":");
    if |halves| != 2 then None
    else
      var id := ReplaceAll(Strip(halves[0]), "obj-", "");
      var attrs := Split(ReplaceAll(ReplaceAll(halves[1], "[", ""), "]", ""), ",");
      Some((id, StripAll(attrs)))
  }

  /** A relationship as `parse` collects it: id text, subject, predicate, object. */
  datatype ParsedRelation = ParsedRelation(id: string, subj: string, pred: string, obj: string)

  /**
   * One relationship declaration: `None` where `parse` prints an error and
   * drops it (no two parts around ':', or no match of `\((.*), (.*), (.*)\)`
   * in the second), else the id with every 'rel-' removed and the three
   * stripped groups of the match.
   */
  function ParseRelationDecl(decl: string): Option<ParsedRelation> {
    var halves := Split(decl, ":");
    if |halves| != 2 then None
    else
      match Search(halves[1])
      case None => None
      case Some(m) =>
        var groups := Groups(halves[1], m);
        Some(ParsedRelation(ReplaceAll(Strip(halves[0]), "rel-", ""),
                            Strip(groups.0), Strip(groups.1), Strip(groups.2)))
  }

  /** A relationship declaration is dropped exactly when it has no two parts or its second part has no match. */
  lemma ParseRelationDeclDrops(decl: string)
    ensures ParseRelationDecl(decl).None? <==>
              |Split(decl, ":")| != 2 || forall m: Match :: !IsMatch(Split(decl, ":")[1], m)
  {
  }

  /** The `objects` dict the first loop of `parse` fills. */
  function ParsedObjects(decls: seq<string>): (d: Dict<string, seq<string>>)
    ensures d.Valid()
  {
    if decls == [] then Empty()
    else
      var d := ParsedObjects(decls[..|decls| - 1]);
      match ParseObjectDecl(decls[|decls| - 1])
      case None => d
      case Some(p) => d.Put(p.0, p.1)
  }

  /** The `relationships` list the second loop of `parse` fills. */
  function ParsedRelations(decls: seq<string>): seq<ParsedRelation> {
    if decls == [] then []
    else
      var rs := ParsedRelations(decls[..|decls| - 1]);
      match ParseRelationDecl(decls[|decls| - 1])
      case None => rs
      case Some(r) => rs + [r]
  }

  /** `SceneObject(obj_id, attributes)` for each entry of the parsed `objects` dict */
  function ParsedObjectEntries(items: seq<(string, seq<string>)>): (kvs: seq<(string, SceneObject)>)
    ensures |kvs| == |items|
    ensures forall i :: 0 <= i < |items| ==> kvs[i] == (items[i].0, SceneObject(items[i].0, items[i].1))
  {
    seq(|items|, i requires 0 <= i < |items| => (items[i].0, SceneObject(items[i].0, items[i].1)))
  }

  function ToRelationship(p: ParsedRelation): SceneRelationship {
    SceneRelationship(Label(p.id), p.subj, p.pred, p.obj)
  }

  function ToRelationships(ps: seq<ParsedRelation>): (rs: seq<SceneRelationship>)
    ensures |rs| == |ps| && forall i :: 0 <= i < |ps| ==> rs[i] == ToRelationship(ps[i])
  {
    seq(|ps|, i requires 0 <= i < |ps| => ToRelationship(ps[i]))
  }

  /**
   * `SceneGraph.parse(sentence)` as a value: the object declarations in
   * order (a repeated id keeps its first place and its last attributes),
   * then the relationship declarations, with no object created for an
   * endpoint that was not declared.
   */
  function ParseGraph(sentence: string): (g: Graph)
    ensures WellKeyed(g)
    ensures forall j :: 0 <= j < |g.relationships| ==> g.relationships[j].id.Label?
  {
    var parts := Split(sentence, ";");
    var objects := ParsedObjects(Declarations(parts, "obj-"));
    var relations := ParsedRelations(Declarations(parts, "rel-"));
    StoredObjectsKeyed(Empty(), ParsedObjectEntries(objects.Items()));
    Graph(PutAll(Empty(), ParsedObjectEntries(objects.Items())), ToRelationships(relations))
  }

  // ---------------------------------------------------------------------
  // The SceneGraph object

  class SceneGraph {
    var objects: Dict<string, SceneObject>
    var relationships: seq<SceneRelationship>

    function Value(): Graph
      reads this
    {
      Graph(objects, relationships)
    }

    /** `SceneGraph(objects=None, relations=None)`: the record loops of `parse_args` run at construction. */
    constructor (objectRecords: Option<seq<ObjectRecord>>, relationRecords: Option<seq<RelationRecord>>)
      ensures Value() == FromRecords(objectRecords, relationRecords)
    {
      objects := Empty();
      relationships := [];
      new;
      ParseArgs(objectRecords, relationRecords);
    }

    /** `parse_args` */
    method ParseArgs(objectRecords: Option<seq<ObjectRecord>>, relationRecords: Option<seq<RelationRecord>>)
      requires WellKeyed(Value())
      modifies this`objects, this`relationships
      ensures Value() == AddRecords(old(Value()), objectRecords, relationRecords)
    {
      if objectRecords.Some? {
        AddObjectRecordLoop(objectRecords.value);
      }
      if relationRecords.Some? {
        AddRelationRecordLoop(relationRecords.value);
      }
    }

    /** The object loop of `parse_args`. */
    method AddObjectRecordLoop(recs: seq<ObjectRecord>)
      requires WellKeyed(Value())
      modifies this`objects
      ensures Value() == AddObjectRecords(old(Value()), recs)
    {
      ghost var g0 := Value();
      for i := 0 to |recs|
        invariant objects == PutAll(g0.objects, ObjectEntries(recs[..i]))
      {
        var name := Hyphenate(recs[i].objectLabel);
        var attributes := RecordAttributes(recs[i].attributes);
        AddObject(SceneObject(name, attributes));
        ObjectEntriesStep(g0.objects, recs, i);
      }
      assert recs[..|recs|] == recs;
    }

    /** The attribute list of one object record, extended group by group. */
    static method RecordAttributes(groups: seq<(string, seq<string>)>) returns (attributes: seq<string>)
      ensures attributes == FlattenGroups(groups)
    {
      attributes := [];
      for j := 0 to |groups|
        invariant attributes == FlattenGroups(groups[..j])
      {
        assert groups[..j + 1][..j] == groups[..j];
        attributes := attributes + HyphenateAll(groups[j].1);
      }
      assert groups[..|groups|] == groups;
    }

    /** The relation loop of `parse_args`. */
    method AddRelationRecordLoop(recs: seq<RelationRecord>)
      requires WellKeyed(Value())
      modifies this`objects, this`relationships
      ensures Value() == AddRelationRecords(old(Value()), recs)
    {
      ghost var g0 := Value();
      for idx := 0 to |recs|
        invariant WellKeyed(Value())
        invariant Value() == AddRelationRecords(g0, recs[..idx])
      {
        assert recs[..idx + 1][..idx] == recs[..idx];
        var subject := Hyphenate(recs[idx].subjectName);
        var pred := recs[idx].relationName;
        var obj := Hyphenate(recs[idx].objectName);
        if Contains(pred, "same") {
          continue;
        }
        if subject !in objects.entries {
          AddObject(SceneObject(subject, []));
        }
        if obj !in objects.entries {
          AddObject(SceneObject(obj, []));
        }
        AddRelationship(SceneRelationship(Index(idx), subject, pred, obj));
      }
      assert recs[..|recs|] == recs;
    }

    /** `add_object`: store by id; a repeated id replaces the object in its original position. */
    method AddObject(o: SceneObject)
      requires objects.Valid()
      modifies this`objects
      ensures objects == old(objects).Put(o.id, o)
    {
      objects := objects.Put(o.id, o);
    }

    /** `add_relationship`: append. */
    method AddRelationship(r: SceneRelationship)
      modifies this`relationships
      ensures relationships == old(relationships) + [r]
    {
      relationships := relationships + [r];
    }

    function ToJson(): (j: JsonGraph)
      requires WellKeyed(Value())
      reads this
      ensures j == JsonView(Value())
    {
      JsonView(Value())
    }

    /** `__repr__` */
    function Repr(): (s: string)
      requires objects.Valid()
      reads this
      ensures s == Render(Value())
    {
      Render(Value())
    }

    /** `SceneGraph.parse`: the loops that fill `objects` and `relationships`, then the new graph. */
    static method Parse(sentence: string) returns (g: SceneGraph)
      ensures fresh(g) && g.Value() == ParseGraph(sentence)
    {
      var parts := Split(sentence, ";");
      var parsedObjects := CollectObjects(Declarations(parts, "obj-"));
      var parsedRelations := CollectRelations(Declarations(parts, "rel-"));
      g := new SceneGraph(None, None);
      assert g.Value() == EmptyGraph();
      g.AddParsedObjects(parsedObjects.Items());
      g.AddParsedRelations(parsedRelations);
    }

    /** The third loop of `parse`: `add_object` for each parsed (id, attributes) entry. */
    method AddParsedObjects(items: seq<(string, seq<string>)>)
      requires objects.Valid()
      modifies this`objects
      ensures objects == PutAll(old(objects), ParsedObjectEntries(items))
    {
      ghost var d0 := objects;
      for i := 0 to |items|
        invariant objects == PutAll(d0, ParsedObjectEntries(items[..i]))
      {
        var entry := (items[i].0, SceneObject(items[i].0, items[i].1));
        assert ParsedObjectEntries(items[..i + 1]) == ParsedObjectEntries(items[..i]) + [entry];
        PutAllSnoc(d0, ParsedObjectEntries(items[..i]), entry.0, entry.1);
        AddObject(entry.1);
      }
      assert items[..|items|] == items;
    }

    /** The last loop of `parse`: `add_relationship` for each parsed relationship. */
    method AddParsedRelations(parsed: seq<ParsedRelation>)
      modifies this`relationships
      ensures relationships == old(relationships) + ToRelationships(parsed)
    {
      ghost var rs0 := relationships;
      for i := 0 to |parsed|
        invariant relationships == rs0 + ToRelationships(parsed[..i])
      {
        AddRelationship(ToRelationship(parsed[i]));
      }
      assert parsed[..|parsed|] == parsed;
    }

    /** The first loop of `parse`: each object declaration that parses is stored under its id. */
    static method CollectObjects(decls: seq<string>) returns (objects: Dict<string, seq<string>>)
      ensures objects == ParsedObjects(decls)
    {
      objects := Empty();
      for i := 0 to |decls|
        invariant objects == ParsedObjects(decls[..i])
      {
        assert decls[..i + 1][..i] == decls[..i];
        match ParseObjectDecl(decls[i]) {
          case Some(p) => objects := objects.Put(p.0, p.1);
          case None =>
        }
      }
      assert decls[..|decls|] == decls;
    }

    /** The second loop of `parse`: each relationship declaration that parses is appended. */
    static method CollectRelations(decls: seq<string>) returns (relationships: seq<ParsedRelation>)
      ensures relationships == ParsedRelations(decls)
    {
      relationships := [];
      for i := 0 to |decls|
        invariant relationships == ParsedRelations(decls[..i])
      {
        assert decls[..i + 1][..i] == decls[..i];
        match ParseRelationDecl(decls[i]) {
          case Some(r) => relationships := relationships + [r];
          case None =>
        }
      }
      assert decls[..|decls|] == decls;
    }
  }
}
