/**
 * Loading the 3DSSG dataset from its parsed JSON: each scan's object list,
 * each scan's map from instance id to global id, one map from global id to
 * label over all scans, and each scan's relations with the ignored ones
 * dropped and the endpoints named `label-instanceid`.  JSON ids enter as
 * their `str()` image.
 */
module Ssg {
  import opened Wrappers
  import opened Dicts

  /** One object of `objects.json`: instance id, global id, label. */
  datatype ObjectEntry = ObjectEntry(id: string, globalId: string, objectLabel: string)

  /** One scan of `objects.json` */
  datatype ScanObjects = ScanObjects(scan: string, objects: seq<ObjectEntry>)

  /** One `[subject, object, relation id, relation name]` row of `relationships.json` */
  datatype RawRelation = RawRelation(subject: string, obj: string, relationId: string, relationName: string)

  /** One scan of `relationships.json` */
  datatype ScanRelations = ScanRelations(scan: string, relationships: seq<RawRelation>)

  /** A relation as `load_relationships` stores it. */
  datatype Relation = Relation(subjectId: string, subjectName: string, objectId: string,
                               objectName: string, relationId: string, relationName: string)

  /** The `KeyError` a failed lookup raises, with the key it could not find. */
  datatype KeyError = KeyError(key: string)

  // ---------------------------------------------------------------------
  // load_objects

  function ScanPairs(data: seq<ScanObjects>): (kvs: seq<(string, seq<ObjectEntry>)>)
    ensures |kvs| == |data| && forall i :: 0 <= i < |data| ==> kvs[i] == (data[i].scan, data[i].objects)
  {
    seq(|data|, i requires 0 <= i < |data| => (data[i].scan, data[i].objects))
  }

  /** `scan_objects = {s['scan']: s['objects'] for s in objects_data}` */
  function ScanObjectsIndex(data: seq<ScanObjects>): (d: Dict<string, seq<ObjectEntry>>)
    ensures d.Valid()
  {
    PutAll(Empty(), ScanPairs(data))
  }

  /** `(str(o['id']), str(o['global_id']))` for each object */
  function IdPairs(objects: seq<ObjectEntry>): (kvs: seq<(string, string)>)
    ensures |kvs| == |objects| && forall j :: 0 <= j < |objects| ==> kvs[j] == (objects[j].id, objects[j].globalId)
  {
    seq(|objects|, j requires 0 <= j < |objects| => (objects[j].id, objects[j].globalId))
  }

  /** `(str(o['global_id']), o['label'])` for each object */
  function LabelPairs(objects: seq<ObjectEntry>): (kvs: seq<(string, string)>)
    ensures |kvs| == |objects| && forall j :: 0 <= j < |objects| ==> kvs[j] == (objects[j].globalId, objects[j].objectLabel)
  {
    seq(|objects|, j requires 0 <= j < |objects| => (objects[j].globalId, objects[j].objectLabel))
  }

  /** The assignments `id2global[scan_id] = {...}` in the order the loop makes them */
  function IdMaps(data: seq<ScanObjects>): (kvs: seq<(string, map<string, string>)>)
    ensures |kvs| == |data|
    ensures forall i :: 0 <= i < |data| ==> kvs[i] == (data[i].scan, MapOf(IdPairs(data[i].objects)))
  {
    seq(|data|, i requires 0 <= i < |data| => (data[i].scan, MapOf(IdPairs(data[i].objects))))
  }

  /** Every object of every scan, scan after scan */
  function AllObjects(data: seq<ScanObjects>): seq<ObjectEntry> {
    if data == [] then [] else AllObjects(data[..|data| - 1]) + data[|data| - 1].objects
  }

  function Id2Global(data: seq<ScanObjects>): map<string, map<string, string>> {
    MapOf(IdMaps(data))
  }

  function Global2Label(data: seq<ScanObjects>): map<string, string> {
    MapOf(LabelPairs(AllObjects(data)))
  }

  /** One more pass of the loop stores the next scan's id map. */
  lemma IdMapsStep(data: seq<ScanObjects>, i: nat)
    requires i < |data|
    ensures MapOf(IdMaps(data[..i + 1])) == MapOf(IdMaps(data[..i]))[data[i].scan := MapOf(IdPairs(data[i].objects))]
  {
    var s := data[i];
    assert IdMaps(data[..i + 1]) == IdMaps(data[..i]) + [(s.scan, MapOf(IdPairs(s.objects)))];
    MapOfSnoc(IdMaps(data[..i]), s.scan, MapOf(IdPairs(s.objects)));
  }

  /** One more pass of the loop adds the next scan's labels over the earlier ones. */
  lemma LabelsStep(data: seq<ScanObjects>, i: nat)
    requires i < |data|
    ensures MapOf(LabelPairs(AllObjects(data[..i + 1]))) ==
              MapOf(LabelPairs(AllObjects(data[..i]))) + MapOf(LabelPairs(data[i].objects))
  {
    var s := data[i];
    var before := data[..i];
    assert data[..i + 1][..i] == before;
    assert AllObjects(data[..i + 1]) == AllObjects(before) + s.objects;
    assert LabelPairs(AllObjects(before) + s.objects) == LabelPairs(AllObjects(before)) + LabelPairs(s.objects);
    MapOfConcat(LabelPairs(AllObjects(before)), LabelPairs(s.objects));
  }

  /** `load_objects`, once `objects.json` is parsed */
  method LoadObjects(data: seq<ScanObjects>)
    returns (scanObjects: Dict<string, seq<ObjectEntry>>, id2global: map<string, map<string, string>>,
             global2label: map<string, string>)
    ensures scanObjects == ScanObjectsIndex(data)
    ensures id2global == Id2Global(data)
    ensures global2label == Global2Label(data)
  {
    scanObjects := ScanObjectsIndex(data);
    id2global := map[];
    global2label := map[];
    for i := 0 to |data|
      invariant id2global == MapOf(IdMaps(data[..i]))
      invariant global2label == MapOf(LabelPairs(AllObjects(data[..i])))
    {
      var s := data[i];
      IdMapsStep(data, i);
      id2global := id2global[s.scan := MapOf(IdPairs(s.objects))];
      LabelsStep(data, i);
      global2label := global2label + MapOf(LabelPairs(s.objects));
    }
    assert data[..|data|] == data;
  }

  /** `scan_objects` holds every scan, each with the object list of its last occurrence, unchanged. */
  lemma ScanObjectsOfScan(data: seq<ScanObjects>, i: nat)
    requires i < |data| && forall j :: i < j < |data| ==> data[j].scan != data[i].scan
    ensures data[i].scan in ScanObjectsIndex(data).entries
    ensures ScanObjectsIndex(data).entries[data[i].scan] == data[i].objects
  {
    var kvs := ScanPairs(data);
    PutAllEntries(Empty(), kvs);
    EmptyUnion(MapOf(kvs));
    MapOfLastWins(kvs, i);
  }

  /** `id2global[scan]` maps exactly the instance ids of that scan's objects (its last listing). */
  lemma Id2GlobalOfScan(data: seq<ScanObjects>, i: nat)
    requires i < |data| && forall j :: i < j < |data| ==> data[j].scan != data[i].scan
    ensures data[i].scan in Id2Global(data)
    ensures Id2Global(data)[data[i].scan] == MapOf(IdPairs(data[i].objects))
    ensures forall id :: id in Id2Global(data)[data[i].scan] <==> HasKey(IdPairs(data[i].objects), id)
  {
    MapOfLastWins(IdMaps(data), i);
    MapOfKeys(IdPairs(data[i].objects));
  }

  /** An instance id maps to the global id of the last object of the scan carrying it. */
  lemma Id2GlobalOfObject(data: seq<ScanObjects>, i: nat, j: nat)
    requires i < |data| && forall k :: i < k < |data| ==> data[k].scan != data[i].scan
    requires j < |data[i].objects|
    requires forall k :: j < k < |data[i].objects| ==> data[i].objects[k].id != data[i].objects[j].id
    ensures data[i].scan in Id2Global(data) && data[i].objects[j].id in Id2Global(data)[data[i].scan]
    ensures Id2Global(data)[data[i].scan][data[i].objects[j].id] == data[i].objects[j].globalId
  {
    Id2GlobalOfScan(data, i);
    MapOfLastWins(IdPairs(data[i].objects), j);
  }

  /** `global2label` holds exactly the global ids of the objects of all scans. */
  lemma Global2LabelKeys(data: seq<ScanObjects>)
    ensures forall g :: g in Global2Label(data) <==> HasKey(LabelPairs(AllObjects(data)), g)
  {
    MapOfKeys(LabelPairs(AllObjects(data)));
  }

  /** The label of a global id is that of the last object, over all scans, carrying it. */
  lemma Global2LabelLastWins(data: seq<ScanObjects>, n: nat)
    requires n < |AllObjects(data)|
    requires forall m :: n < m < |AllObjects(data)| ==> AllObjects(data)[m].globalId != AllObjects(data)[n].globalId
    ensures AllObjects(data)[n].globalId in Global2Label(data)
    ensures Global2Label(data)[AllObjects(data)[n].globalId] == AllObjects(data)[n].objectLabel
  {
    MapOfLastWins(LabelPairs(AllObjects(data)), n);
  }

  // ---------------------------------------------------------------------
  // load_relationships

  /** The relation names `load_relationships` drops, compared whole. */
  const IgnoreList: seq<string> := ["none", "same symmetry as", "same as", "same object type"]

  predicate Ignored(name: string) {
    name in IgnoreList
  }

  /** Every lookup the loop body makes succeeds for this row. */
  predicate Resolvable(id2global: map<string, map<string, string>>, global2label: map<string, string>,
                       scan: string, rel: RawRelation)
  {
    && scan in id2global
    && rel.subject in id2global[scan] && rel.obj in id2global[scan]
    && id2global[scan][rel.subject] in global2label && id2global[scan][rel.obj] in global2label
  }

  /**
   * The loop body's lookups for one row, in the order it makes them: the
   * first missing key raises, else the row with global ids and with names
   * `label-instanceid`.
   */
  function Resolve(id2global: map<string, map<string, string>>, global2label: map<string, string>,
                   scan: string, rel: RawRelation): (r: Result<Relation, KeyError>)
    ensures r.Ok? <==> Resolvable(id2global, global2label, scan, rel)
    ensures r.Ok? ==>
              && r.value.subjectId == id2global[scan][rel.subject]
              && r.value.objectId == id2global[scan][rel.obj]
              && r.value.subjectName == global2label[r.value.subjectId] + "-" + rel.subject
              && r.value.objectName == global2label[r.value.objectId] + "-" + rel.obj
              && r.value.relationId == rel.relationId && r.value.relationName == rel.relationName
  {
    if scan !in id2global then Err(KeyError(scan))
    else
      var ids := id2global[scan];
      if rel.subject !in ids then Err(KeyError(rel.subject))
      else if rel.obj !in ids then Err(KeyError(rel.obj))
      else if ids[rel.subject] !in global2label then Err(KeyError(ids[rel.subject]))
      else if ids[rel.obj] !in global2label then Err(KeyError(ids[rel.obj]))
      else
        Ok(Relation(ids[rel.subject], global2label[ids[rel.subject]] + "-" + rel.subject,
                    ids[rel.obj], global2label[ids[rel.obj]] + "-" + rel.obj,
                    rel.relationId, rel.relationName))
  }

  /** The `relations` list of one scan, or the `KeyError` its loop raises. */
  function ScanKept(id2global: map<string, map<string, string>>, global2label: map<string, string>,
                    scan: string, rels: seq<RawRelation>): Result<seq<Relation>, KeyError>
    decreases |rels|
  {
    if rels == [] then Ok([])
    else
      var n := |rels| - 1;
      match ScanKept(id2global, global2label, scan, rels[..n])
      case Err(e) => Err(e)
      case Ok(kept) =>
        match Resolve(id2global, global2label, scan, rels[n])
        case Err(e) => Err(e)
        case Ok(r) => if Ignored(r.relationName) then Ok(kept) else Ok(kept + [r])
  }

  /** Once a prefix of the rows has raised, the whole scan raises the same error. */
  lemma {:induction false} ScanKeptErrSticks(id2global: map<string, map<string, string>>, global2label: map<string, string>,
                                             scan: string, rels: seq<RawRelation>, j: nat)
    requires j <= |rels| && ScanKept(id2global, global2label, scan, rels[..j]).Err?
    ensures ScanKept(id2global, global2label, scan, rels) == ScanKept(id2global, global2label, scan, rels[..j])
    decreases |rels| - j
  {
    if j < |rels| {
      var n := |rels| - 1;
      assert rels[..n][..j] == rels[..j];
      ScanKeptErrSticks(id2global, global2label, scan, rels[..n], j);
    } else {
      assert rels[..j] == rels;
    }
  }

  /** A scan raises iff some row, ignored or not, has a missing key. */
  lemma {:induction false} ScanKeptOk(id2global: map<string, map<string, string>>, global2label: map<string, string>,
                                      scan: string, rels: seq<RawRelation>)
    ensures ScanKept(id2global, global2label, scan, rels).Ok? <==>
              forall j :: 0 <= j < |rels| ==> Resolvable(id2global, global2label, scan, rels[j])
    decreases |rels|
  {
    if rels != [] {
      var n := |rels| - 1;
      ScanKeptOk(id2global, global2label, scan, rels[..n]);
      assert forall j :: 0 <= j < n ==> rels[..n][j] == rels[j];
    }
  }

  /** The error a scan raises is that of its first row with a missing key. */
  lemma {:induction false} ScanKeptFirstError(id2global: map<string, map<string, string>>, global2label: map<string, string>,
                                              scan: string, rels: seq<RawRelation>)
    requires ScanKept(id2global, global2label, scan, rels).Err?
    ensures exists j :: 0 <= j < |rels| &&
              Resolve(id2global, global2label, scan, rels[j]) == Err(ScanKept(id2global, global2label, scan, rels).error) &&
              forall k :: 0 <= k < j ==> Resolvable(id2global, global2label, scan, rels[k])
    decreases |rels|
  {
    var n := |rels| - 1;
    var front := rels[..n];
    assert forall k :: 0 <= k < n ==> front[k] == rels[k];
    if ScanKept(id2global, global2label, scan, front).Err? {
      ScanKeptFirstError(id2global, global2label, scan, front);
      var j :| 0 <= j < |front| &&
               Resolve(id2global, global2label, scan, front[j]) == Err(ScanKept(id2global, global2label, scan, front).error) &&
               forall k :: 0 <= k < j ==> Resolvable(id2global, global2label, scan, front[k]);
      assert rels[j] == front[j];
    } else {
      ScanKeptOk(id2global, global2label, scan, front);
      assert Resolve(id2global, global2label, scan, rels[n]) == Err(ScanKept(id2global, global2label, scan, rels).error);
    }
  }

  /** The last row of a scan that loads: the rows before it load, and it is kept unless ignored. */
  lemma ScanKeptLast(id2global: map<string, map<string, string>>, global2label: map<string, string>,
                     scan: string, rels: seq<RawRelation>)
    requires rels != [] && ScanKept(id2global, global2label, scan, rels).Ok?
    ensures ScanKept(id2global, global2label, scan, rels[..|rels| - 1]).Ok?
    ensures Resolve(id2global, global2label, scan, rels[|rels| - 1]).Ok?
    ensures ScanKept(id2global, global2label, scan, rels).value ==
              ScanKept(id2global, global2label, scan, rels[..|rels| - 1]).value +
              (if Ignored(rels[|rels| - 1].relationName) then []
               else [Resolve(id2global, global2label, scan, rels[|rels| - 1]).value])
  {
  }

  /** A row whose relation is kept */
  predicate KeptRow(id2global: map<string, map<string, string>>, global2label: map<string, string>,
                    scan: string, rels: seq<RawRelation>, x: Relation)
  {
    exists j :: 0 <= j < |rels| && Resolve(id2global, global2label, scan, rels[j]) == Ok(x) && !Ignored(rels[j].relationName)
  }

  /** A relation is kept iff its row resolves and its name is not on the ignore list. */
  lemma {:induction false} ScanKeptMembers(id2global: map<string, map<string, string>>, global2label: map<string, string>,
                                           scan: string, rels: seq<RawRelation>)
    requires ScanKept(id2global, global2label, scan, rels).Ok?
    ensures forall x :: x in ScanKept(id2global, global2label, scan, rels).value <==>
              KeptRow(id2global, global2label, scan, rels, x)
    decreases |rels|
  {
    if rels != [] {
      var n := |rels| - 1;
      var front := rels[..n];
      ScanKeptLast(id2global, global2label, scan, rels);
      ScanKeptMembers(id2global, global2label, scan, front);
      var before := ScanKept(id2global, global2label, scan, front).value;
      var kept := ScanKept(id2global, global2label, scan, rels).value;
      forall x | x in kept ensures KeptRow(id2global, global2label, scan, rels, x) {
        if x in before {
          var j :| 0 <= j < |front| && Resolve(id2global, global2label, scan, front[j]) == Ok(x) && !Ignored(front[j].relationName);
          assert rels[j] == front[j];
        } else {
          assert Resolve(id2global, global2label, scan, rels[n]) == Ok(x) && !Ignored(rels[n].relationName);
        }
      }
      forall x | KeptRow(id2global, global2label, scan, rels, x) ensures x in kept {
        var j :| 0 <= j < |rels| && Resolve(id2global, global2label, scan, rels[j]) == Ok(x) && !Ignored(rels[j].relationName);
        if j < n {
          assert front[j] == rels[j];
          assert KeptRow(id2global, global2label, scan, front, x);
        }
      }
    }
  }

  /** The inner loop of `load_relationships` over one scan's rows. */
  method CollectScan(id2global: map<string, map<string, string>>, global2label: map<string, string>,
                     scan: string, rels: seq<RawRelation>)
    returns (r: Result<seq<Relation>, KeyError>)
    ensures r == ScanKept(id2global, global2label, scan, rels)
  {
    var relations := [];
    for j := 0 to |rels|
      invariant ScanKept(id2global, global2label, scan, rels[..j]) == Ok(relations)
    {
      var rel := rels[j];
      assert rels[..j + 1][..j] == rels[..j];
      if scan !in id2global || rel.subject !in id2global[scan] || rel.obj !in id2global[scan] {
        var key := if scan !in id2global then scan else if rel.subject !in id2global[scan] then rel.subject else rel.obj;
        ScanKeptErrSticks(id2global, global2label, scan, rels, j + 1);
        return Err(KeyError(key));
      }
      var subjectGlobal := id2global[scan][rel.subject];
      var objectGlobal := id2global[scan][rel.obj];
      if subjectGlobal !in global2label || objectGlobal !in global2label {
        var key := if subjectGlobal !in global2label then subjectGlobal else objectGlobal;
        ScanKeptErrSticks(id2global, global2label, scan, rels, j + 1);
        return Err(KeyError(key));
      }
      var subjectName := global2label[subjectGlobal];
      var objectName := global2label[objectGlobal];
      if rel.relationName in IgnoreList {
        continue;
      }
      relations := relations + [Relation(subjectGlobal, subjectName + "-" + rel.subject,
                                         objectGlobal, objectName + "-" + rel.obj,
                                         rel.relationId, rel.relationName)];
    }
    assert rels[..|rels|] == rels;
    return Ok(relations);
  }

  /** `scan_relations`, or the `KeyError` `load_relationships` raises. */
  function Loaded(id2global: map<string, map<string, string>>, global2label: map<string, string>,
                  data: seq<ScanRelations>): (r: Result<Dict<string, seq<Relation>>, KeyError>)
    ensures r.Ok? ==> r.value.Valid()
    decreases |data|
  {
    if data == [] then Ok(Empty())
    else
      var n := |data| - 1;
      match Loaded(id2global, global2label, data[..n])
      case Err(e) => Err(e)
      case Ok(d) =>
        match ScanKept(id2global, global2label, data[n].scan, data[n].relationships)
        case Err(e) => Err(e)
        case Ok(rs) => Ok(d.Put(data[n].scan, rs))
  }

  lemma {:induction false} LoadedErrSticks(id2global: map<string, map<string, string>>, global2label: map<string, string>,
                                           data: seq<ScanRelations>, i: nat)
    requires i <= |data| && Loaded(id2global, global2label, data[..i]).Err?
    ensures Loaded(id2global, global2label, data) == Loaded(id2global, global2label, data[..i])
    decreases |data| - i
  {
    if i < |data| {
      var n := |data| - 1;
      assert data[..n][..i] == data[..i];
      LoadedErrSticks(id2global, global2label, data[..n], i);
    } else {
      assert data[..i] == data;
    }
  }

  /** `load_relationships` after the file is parsed */
  method LoadRelationships(data: seq<ScanRelations>, id2global: map<string, map<string, string>>,
                           global2label: map<string, string>)
    returns (r: Result<Dict<string, seq<Relation>>, KeyError>)
    ensures r == Loaded(id2global, global2label, data)
  {
    var scanRelations: Dict<string, seq<Relation>> := Empty();
    for i := 0 to |data|
      invariant Loaded(id2global, global2label, data[..i]) == Ok(scanRelations)
    {
      assert data[..i + 1][..i] == data[..i];
      var relations := CollectScan(id2global, global2label, data[i].scan, data[i].relationships);
      if relations.Err? {
        LoadedErrSticks(id2global, global2label, data, i + 1);
        return Err(relations.error);
      }
      scanRelations := scanRelations.Put(data[i].scan, relations.value);
    }
    assert data[..|data|] == data;
    return Ok(scanRelations);
  }

  /** Every row of the scan has all its keys. */
  predicate ScanResolvable(id2global: map<string, map<string, string>>, global2label: map<string, string>, s: ScanRelations) {
    forall j :: 0 <= j < |s.relationships| ==> Resolvable(id2global, global2label, s.scan, s.relationships[j])
  }

  /** Every row of every scan has all its keys. */
  predicate AllResolvable(id2global: map<string, map<string, string>>, global2label: map<string, string>,
                          data: seq<ScanRelations>) {
    forall i :: 0 <= i < |data| ==> ScanResolvable(id2global, global2label, data[i])
  }

  lemma AllResolvableSnoc(id2global: map<string, map<string, string>>, global2label: map<string, string>,
                          data: seq<ScanRelations>)
    requires data != []
    ensures AllResolvable(id2global, global2label, data) <==>
              AllResolvable(id2global, global2label, data[..|data| - 1])
              && ScanResolvable(id2global, global2label, data[|data| - 1])
  {
    assert forall i :: 0 <= i < |data| - 1 ==> data[..|data| - 1][i] == data[i];
  }

  /** A successful load of a non-empty file is the load of all but its last scan, plus that scan's entry. */
  lemma LoadedSnoc(id2global: map<string, map<string, string>>, global2label: map<string, string>,
                   data: seq<ScanRelations>)
    requires data != []
    ensures Loaded(id2global, global2label, data).Ok? <==>
              Loaded(id2global, global2label, data[..|data| - 1]).Ok? &&
              ScanKept(id2global, global2label, data[|data| - 1].scan, data[|data| - 1].relationships).Ok?
    ensures Loaded(id2global, global2label, data).Ok? ==>
              Loaded(id2global, global2label, data).value ==
              Loaded(id2global, global2label, data[..|data| - 1]).value.Put(
                data[|data| - 1].scan,
                ScanKept(id2global, global2label, data[|data| - 1].scan, data[|data| - 1].relationships).value)
  {
  }

  /** Loading raises iff some row of some scan, ignored or not, has a missing key. */
  lemma {:induction false} LoadedOk(id2global: map<string, map<string, string>>, global2label: map<string, string>,
                                    data: seq<ScanRelations>)
    ensures Loaded(id2global, global2label, data).Ok? <==> AllResolvable(id2global, global2label, data)
    decreases |data|
  {
    if data != [] {
      var n := |data| - 1;
      LoadedSnoc(id2global, global2label, data);
      LoadedOk(id2global, global2label, data[..n]);
      ScanKeptOk(id2global, global2label, data[n].scan, data[n].relationships);
      AllResolvableSnoc(id2global, global2label, data);
    }
  }

  /** Some listing of the file is of scan `k`. */
  predicate Listed(data: seq<ScanRelations>, k: string) {
    exists i :: 0 <= i < |data| && data[i].scan == k
  }

  lemma ListedSnoc(data: seq<ScanRelations>, k: string)
    requires data != []
    ensures Listed(data, k) <==> Listed(data[..|data| - 1], k) || data[|data| - 1].scan == k
  {
    var n := |data| - 1;
    if Listed(data, k) && data[n].scan != k {
      var i :| 0 <= i < |data| && data[i].scan == k;
      assert data[..n][i] == data[i];
    }
    if Listed(data[..n], k) {
      var i :| 0 <= i < n && data[..n][i].scan == k;
      assert data[i].scan == k;
    }
  }

  /** Every scan of the file gets an entry, an empty list when it keeps no relation; no other key appears. */
  lemma {:induction false} LoadedKeys(id2global: map<string, map<string, string>>, global2label: map<string, string>,
                                      data: seq<ScanRelations>)
    requires Loaded(id2global, global2label, data).Ok?
    ensures forall k :: k in Loaded(id2global, global2label, data).value.entries <==> Listed(data, k)
    decreases |data|
  {
    if data != [] {
      var n := |data| - 1;
      LoadedSnoc(id2global, global2label, data);
      LoadedKeys(id2global, global2label, data[..n]);
      forall k ensures Listed(data, k) <==> Listed(data[..n], k) || data[n].scan == k {
        ListedSnoc(data, k);
      }
    }
  }

  /** The entry of a scan is the kept relation list of its last listing. */
  lemma {:induction false} LoadedOfScan(id2global: map<string, map<string, string>>, global2label: map<string, string>,
                                        data: seq<ScanRelations>, i: nat)
    requires Loaded(id2global, global2label, data).Ok?
    requires i < |data| && forall j :: i < j < |data| ==> data[j].scan != data[i].scan
    ensures ScanKept(id2global, global2label, data[i].scan, data[i].relationships).Ok?
    ensures data[i].scan in Loaded(id2global, global2label, data).value.entries
    ensures Loaded(id2global, global2label, data).value.entries[data[i].scan] ==
              ScanKept(id2global, global2label, data[i].scan, data[i].relationships).value
    decreases |data|
  {
    var n := |data| - 1;
    LoadedSnoc(id2global, global2label, data);
    if i < n {
      assert data[..n][i] == data[i];
      assert forall j :: i < j < n ==> data[..n][j] == data[j];
      LoadedOfScan(id2global, global2label, data[..n], i);
    }
  }

  /** `load_3dssg` */
  method Load3dssg(objectsData: seq<ScanObjects>, relationsData: seq<ScanRelations>)
    returns (scanObjects: Dict<string, seq<ObjectEntry>>, scanRelations: Result<Dict<string, seq<Relation>>, KeyError>)
    ensures scanObjects == ScanObjectsIndex(objectsData)
    ensures scanRelations == Loaded(Id2Global(objectsData), Global2Label(objectsData), relationsData)
  {
    var id2global, global2label;
    scanObjects, id2global, global2label := LoadObjects(objectsData);
    scanRelations := LoadRelationships(relationsData, id2global, global2label);
  }
}
