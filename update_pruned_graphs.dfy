/**
 * Building the scenario-specific scene graphs of 3DSSG: first the human
 * feedback replaces the object list of every scenario it covers, then each
 * scan's graph is pruned, per scenario, to the objects the scenario names
 * and the relations between two of them.
 */
module UpdatePrunedGraphs {
  import opened Wrappers
  import opened Dicts
  import opened Ssg

  /** One scenario of `scenarios.json`: its description and the labels of the objects it needs */
  datatype Scenario = Scenario(description: string, objects: seq<string>)

  /** One scan of `scenarios.json` */
  datatype ScanScenarios = ScanScenarios(scan: string, scenarios: seq<Scenario>)

  /** One object of a feedback item: a label the annotator selected or not */
  datatype FeedbackObject = FeedbackObject(objectLabel: string, selected: bool)

  /** One item of `feedback_response.json` */
  datatype Feedback = Feedback(scan: string, scenario: string, objects: seq<FeedbackObject>)

  /** One record of `scenarios_refined.json` */
  datatype Sample = Sample(scan: string, scenario: string, scenarioObjects: seq<ObjectEntry>,
                           scenarioRelations: seq<Relation>)

  /** What the pruning loop leaves behind: the records and its two counters */
  datatype Pruned = Pruned(data: seq<Sample>, numSkipped: nat, numProcessed: nat)

  /**
   * Why `main` stops: a lookup of a missing key, or the `IndexError` of
   * `data[0]` when there is no record to show as a sample.
   */
  datatype RunError = Lookup(missing: KeyError) | NoSample

  // ---------------------------------------------------------------------
  // Indexes

  function ScenarioPairs(items: seq<ScanScenarios>): (kvs: seq<(string, seq<Scenario>)>)
    ensures |kvs| == |items| && forall i :: 0 <= i < |items| ==> kvs[i] == (items[i].scan, items[i].scenarios)
  {
    seq(|items|, i requires 0 <= i < |items| => (items[i].scan, items[i].scenarios))
  }

  /** `scenarios_index = {item['scan']: item for item in scenarios}` */
  function ScenariosIndex(items: seq<ScanScenarios>): (d: Dict<string, seq<Scenario>>)
    ensures d.Valid()
  {
    PutAll(Empty(), ScenarioPairs(items))
  }

  function FeedbackPairs(items: seq<Feedback>): (kvs: seq<((string, string), seq<FeedbackObject>)>)
    ensures |kvs| == |items|
    ensures forall i :: 0 <= i < |items| ==> kvs[i] == ((items[i].scan, items[i].scenario), items[i].objects)
  {
    seq(|items|, i requires 0 <= i < |items| => ((items[i].scan, items[i].scenario), items[i].objects))
  }

  /** `feedback_index = {(item['scan'], item['scenario']): item for item in feedback}` */
  function FeedbackIndex(items: seq<Feedback>): map<(string, string), seq<FeedbackObject>> {
    MapOf(FeedbackPairs(items))
  }

  /** The feedback index holds the last feedback item given for a scenario. */
  lemma FeedbackIndexLastWins(items: seq<Feedback>, i: nat)
    requires i < |items|
    requires forall j :: i < j < |items| ==> (items[j].scan, items[j].scenario) != (items[i].scan, items[i].scenario)
    ensures (items[i].scan, items[i].scenario) in FeedbackIndex(items)
    ensures FeedbackIndex(items)[(items[i].scan, items[i].scenario)] == items[i].objects
  {
    MapOfLastWins(FeedbackPairs(items), i);
  }

  // ---------------------------------------------------------------------
  // Feedback merge

  /** `[o['label'] for o in feedback_item['objects'] if o['selected']]` */
  function SelectedLabels(objs: seq<FeedbackObject>): (labels: seq<string>)
    ensures |labels| <= |objs|
  {
    if objs == [] then []
    else
      var n := |objs| - 1;
      SelectedLabels(objs[..n]) + (if objs[n].selected then [objs[n].objectLabel] else [])
  }

  /** Some selected feedback object carries label `x`. */
  predicate SelectedWith(objs: seq<FeedbackObject>, x: string) {
    exists i :: 0 <= i < |objs| && objs[i].selected && objs[i].objectLabel == x
  }

  lemma SelectedWithSnoc(objs: seq<FeedbackObject>, x: string)
    requires objs != []
    ensures var n := |objs| - 1;
            SelectedWith(objs, x) <==> SelectedWith(objs[..n], x) || (objs[n].selected && objs[n].objectLabel == x)
  {
    var n := |objs| - 1;
    if SelectedWith(objs, x) && !(objs[n].selected && objs[n].objectLabel == x) {
      var i :| 0 <= i < |objs| && objs[i].selected && objs[i].objectLabel == x;
      assert objs[..n][i] == objs[i];
    }
    if SelectedWith(objs[..n], x) {
      var i :| 0 <= i < n && objs[..n][i].selected && objs[..n][i].objectLabel == x;
      assert objs[i] == objs[..n][i];
    }
  }

  /** A label is in the list iff some selected feedback object carries it. */
  lemma {:induction false} SelectedLabelsMembers(objs: seq<FeedbackObject>)
    ensures forall x :: x in SelectedLabels(objs) <==> SelectedWith(objs, x)
    decreases |objs|
  {
    if objs != [] {
      var n := |objs| - 1;
      SelectedLabelsMembers(objs[..n]);
      forall x ensures x in SelectedLabels(objs) <==> SelectedWith(objs, x) {
        SelectedWithSnoc(objs, x);
      }
    }
  }

  /** Selected labels keep the feedback order: selecting from a longer list extends the shorter one's labels. */
  lemma SelectedLabelsAppend(objs: seq<FeedbackObject>, o: FeedbackObject)
    ensures SelectedLabels(objs + [o]) == SelectedLabels(objs) + (if o.selected then [o.objectLabel] else [])
  {
    assert (objs + [o])[..|objs|] == objs;
  }

  /** One scenario after the merge */
  function Refined(scan: string, s: Scenario, feedback: map<(string, string), seq<FeedbackObject>>): Scenario {
    if (scan, s.description) in feedback then s.(objects := SelectedLabels(feedback[(scan, s.description)])) else s
  }

  /** A scan's scenarios after the merge */
  function RefinedAll(scan: string, ss: seq<Scenario>, feedback: map<(string, string), seq<FeedbackObject>>): (rs: seq<Scenario>)
    ensures |rs| == |ss| && forall j :: 0 <= j < |ss| ==> rs[j] == Refined(scan, ss[j], feedback)
  {
    seq(|ss|, j requires 0 <= j < |ss| => Refined(scan, ss[j], feedback))
  }

  /** How many of a scan's scenarios have feedback */
  function WithFeedback(scan: string, ss: seq<Scenario>, feedback: map<(string, string), seq<FeedbackObject>>): (n: nat)
    ensures n <= |ss|
  {
    if ss == [] then 0
    else
      var m := |ss| - 1;
      WithFeedback(scan, ss[..m], feedback) + (if (scan, ss[m].description) in feedback then 1 else 0)
  }

  /**
   * A scenario keeps its description; its objects become the labels of the
   * selected feedback objects, in feedback order, exactly when feedback
   * exists for (scan, scenario); otherwise the scenario is left as it was.
   */
  lemma RefinedScenario(scan: string, s: Scenario, feedback: map<(string, string), seq<FeedbackObject>>)
    ensures Refined(scan, s, feedback).description == s.description
    ensures (scan, s.description) in feedback ==>
              forall x :: x in Refined(scan, s, feedback).objects <==>
                exists i :: 0 <= i < |feedback[(scan, s.description)]| &&
                  feedback[(scan, s.description)][i].selected && feedback[(scan, s.description)][i].objectLabel == x
    ensures (scan, s.description) !in feedback ==> Refined(scan, s, feedback) == s
  {
    if (scan, s.description) in feedback {
      SelectedLabelsMembers(feedback[(scan, s.description)]);
    }
  }

  /** The inner loop of the merge: one scan's scenarios, overwritten in place where feedback exists. */
  method RefineScan(scan: string, scenarios: seq<Scenario>, feedback: map<(string, string), seq<FeedbackObject>>)
    returns (refined: seq<Scenario>, updated: nat, seen: nat)
    ensures refined == RefinedAll(scan, scenarios, feedback)
    ensures updated == WithFeedback(scan, scenarios, feedback) && seen == |scenarios|
  {
    refined := scenarios;
    updated, seen := 0, 0;
    for j := 0 to |scenarios|
      invariant |refined| == |scenarios| && seen == j
      invariant forall k :: 0 <= k < j ==> refined[k] == Refined(scan, scenarios[k], feedback)
      invariant forall k :: j <= k < |scenarios| ==> refined[k] == scenarios[k]
      invariant updated == WithFeedback(scan, scenarios[..j], feedback)
    {
      assert scenarios[..j + 1][..j] == scenarios[..j];
      var key := (scan, refined[j].description);
      if key in feedback {
        refined := refined[j := refined[j].(objects := SelectedLabels(feedback[key]))];
        updated := updated + 1;
      }
      seen := seen + 1;
    }
    assert scenarios[..|scenarios|] == scenarios;
  }

  /** The scenarios of the first `n` scans of the index */
  function TotalScenarios(d: Dict<string, seq<Scenario>>, n: nat): nat
    requires d.Valid() && n <= |d.keys|
  {
    if n == 0 then 0 else TotalScenarios(d, n - 1) + |d.entries[d.keys[n - 1]]|
  }

  /** The scenarios with feedback among those of the first `n` scans of the index */
  function UpdatedScenarios(d: Dict<string, seq<Scenario>>, n: nat,
                            feedback: map<(string, string), seq<FeedbackObject>>): nat
    requires d.Valid() && n <= |d.keys|
  {
    if n == 0 then 0
    else UpdatedScenarios(d, n - 1, feedback) + WithFeedback(d.keys[n - 1], d.entries[d.keys[n - 1]], feedback)
  }

  /** `num_updated <= total_scenarios`: only scenarios that are counted can be updated. */
  lemma {:induction false} UpdatedAtMostTotal(d: Dict<string, seq<Scenario>>, n: nat,
                                              feedback: map<(string, string), seq<FeedbackObject>>)
    requires d.Valid() && n <= |d.keys|
    ensures UpdatedScenarios(d, n, feedback) <= TotalScenarios(d, n)
    decreases n
  {
    if n > 0 {
      UpdatedAtMostTotal(d, n - 1, feedback);
    }
  }

  /** The pairs `(scan, refined scenarios)` of the first `n` scans, as `updated_scenarios` lists them */
  function RefinedItems(d: Dict<string, seq<Scenario>>, n: nat, feedback: map<(string, string), seq<FeedbackObject>>)
    : (kvs: seq<(string, seq<Scenario>)>)
    requires d.Valid() && n <= |d.keys|
    ensures |kvs| == n
    ensures forall i :: 0 <= i < n ==> kvs[i] == (d.keys[i], RefinedAll(d.keys[i], d.entries[d.keys[i]], feedback))
  {
    seq(n, i requires 0 <= i < n && n <= |d.keys| && d.Valid() => (d.keys[i], RefinedAll(d.keys[i], d.entries[d.keys[i]], feedback)))
  }

  lemma RefinedItemsStep(d: Dict<string, seq<Scenario>>, n: nat, feedback: map<(string, string), seq<FeedbackObject>>)
    requires d.Valid() && n < |d.keys|
    ensures RefinedItems(d, n + 1, feedback) ==
              RefinedItems(d, n, feedback) + [(d.keys[n], RefinedAll(d.keys[n], d.entries[d.keys[n]], feedback))]
  {
  }

  /** `scenario_data` lists the same scans in the same order. */
  lemma RefinedIndexKeys(d: Dict<string, seq<Scenario>>, feedback: map<(string, string), seq<FeedbackObject>>)
    requires d.Valid()
    ensures PutAll(Empty(), RefinedItems(d, |d.keys|, feedback)).keys == d.keys
  {
    var kvs := RefinedItems(d, |d.keys|, feedback);
    RefinedItemsDistinct(d, feedback);
    DistinctKeys(kvs);
    RefinedItemsFirsts(d, feedback);
  }

  /** The refined pairs carry the scans' keys, which are distinct. */
  lemma RefinedItemsDistinct(d: Dict<string, seq<Scenario>>, feedback: map<(string, string), seq<FeedbackObject>>)
    requires d.Valid()
    ensures var kvs := RefinedItems(d, |d.keys|, feedback);
            forall i, j :: 0 <= i < j < |kvs| ==> kvs[i].0 != kvs[j].0
  {
    var kvs := RefinedItems(d, |d.keys|, feedback);
    forall i, j | 0 <= i < j < |kvs| ensures kvs[i].0 != kvs[j].0 {
      assert kvs[i].0 == d.keys[i] && kvs[j].0 == d.keys[j];
    }
  }

  /** The keys of the refined pairs are the scans' keys in order. */
  lemma RefinedItemsFirsts(d: Dict<string, seq<Scenario>>, feedback: map<(string, string), seq<FeedbackObject>>)
    requires d.Valid()
    ensures Firsts(RefinedItems(d, |d.keys|, feedback)) == d.keys
  {
    var firsts := Firsts(RefinedItems(d, |d.keys|, feedback));
    assert |firsts| == |d.keys|;
    assert forall i :: 0 <= i < |firsts| ==> firsts[i] == d.keys[i];
  }

  /** `scenario_data` gives every scan its refined scenarios. */
  lemma RefinedIndexEntries(d: Dict<string, seq<Scenario>>, feedback: map<(string, string), seq<FeedbackObject>>)
    requires d.Valid()
    ensures forall k :: k in d.entries ==>
              k in PutAll(Empty(), RefinedItems(d, |d.keys|, feedback)).entries &&
              PutAll(Empty(), RefinedItems(d, |d.keys|, feedback)).entries[k] == RefinedAll(k, d.entries[k], feedback)
  {
    var kvs := RefinedItems(d, |d.keys|, feedback);
    PutAllEntries(Empty(), kvs);
    EmptyUnion(MapOf(kvs));
    forall k | k in d.entries
      ensures k in MapOf(kvs) && MapOf(kvs)[k] == RefinedAll(k, d.entries[k], feedback)
    {
      var i :| 0 <= i < |d.keys| && d.keys[i] == k;
      forall j | i < j < |kvs| ensures kvs[j].0 != kvs[i].0 {
        assert kvs[j].0 == d.keys[j];
      }
      MapOfLastWins(kvs, i);
    }
  }

  /** `scenario_data` holds the scans of the index, in order, each with its refined scenarios. */
  lemma RefinedIndex(d: Dict<string, seq<Scenario>>, feedback: map<(string, string), seq<FeedbackObject>>)
    requires d.Valid()
    ensures PutAll(Empty(), RefinedItems(d, |d.keys|, feedback)).Valid()
    ensures PutAll(Empty(), RefinedItems(d, |d.keys|, feedback)).keys == d.keys
    ensures forall k :: k in d.entries ==>
              k in PutAll(Empty(), RefinedItems(d, |d.keys|, feedback)).entries &&
              PutAll(Empty(), RefinedItems(d, |d.keys|, feedback)).entries[k] == RefinedAll(k, d.entries[k], feedback)
  {
    RefinedIndexKeys(d, feedback);
    RefinedIndexEntries(d, feedback);
  }

  /** `scenario_data`: the refined scans re-indexed by scan */
  function Merged(index: Dict<string, seq<Scenario>>, feedback: map<(string, string), seq<FeedbackObject>>)
    : Dict<string, seq<Scenario>>
    requires index.Valid()
  {
    PutAll(Empty(), RefinedItems(index, |index.keys|, feedback))
  }

  /**
   * The first loop of `main`: every scenario of every scan is counted, the
   * ones with feedback get the selected labels and are counted as updated,
   * and the result is re-indexed by scan.
   */
  method MergeFeedback(index: Dict<string, seq<Scenario>>, feedback: map<(string, string), seq<FeedbackObject>>)
    returns (scenarioData: Dict<string, seq<Scenario>>, numUpdated: nat, totalScenarios: nat)
    requires index.Valid()
    ensures scenarioData == Merged(index, feedback)
    ensures scenarioData.Valid() && scenarioData.keys == index.keys
    ensures forall k :: k in index.entries ==>
              k in scenarioData.entries && scenarioData.entries[k] == RefinedAll(k, index.entries[k], feedback)
    ensures totalScenarios == TotalScenarios(index, |index.keys|)
    ensures numUpdated == UpdatedScenarios(index, |index.keys|, feedback)
    ensures numUpdated <= totalScenarios
  {
    var updatedScenarios: seq<(string, seq<Scenario>)> := [];
    numUpdated, totalScenarios := 0, 0;
    for i := 0 to |index.keys|
      invariant updatedScenarios == RefinedItems(index, i, feedback)
      invariant totalScenarios == TotalScenarios(index, i)
      invariant numUpdated == UpdatedScenarios(index, i, feedback)
    {
      var scanId := index.keys[i];
      var refined, updated, seen := RefineScan(scanId, index.entries[scanId], feedback);
      numUpdated := numUpdated + updated;
      totalScenarios := totalScenarios + seen;
      RefinedItemsStep(index, i, feedback);
      updatedScenarios := updatedScenarios + [(scanId, refined)];
    }
    scenarioData := PutAll(Empty(), updatedScenarios);
    RefinedIndex(index, feedback);
    UpdatedAtMostTotal(index, |index.keys|, feedback);
  }

  // ---------------------------------------------------------------------
  // Pruning

  /** `[o for o in scan_objects_ if o['label'] in scenario_object_names]` */
  function ScenarioObjects(objs: seq<ObjectEntry>, names: seq<string>): (kept: seq<ObjectEntry>)
    ensures |kept| <= |objs|
  {
    if objs == [] then []
    else
      var n := |objs| - 1;
      ScenarioObjects(objs[..n], names) + (if objs[n].objectLabel in names then [objs[n]] else [])
  }

  /** An object is kept iff it is one of the scan's objects and its label is named; every instance of a label is. */
  lemma {:induction false} ScenarioObjectsMembers(objs: seq<ObjectEntry>, names: seq<string>)
    ensures forall o :: o in ScenarioObjects(objs, names) <==> o in objs && o.objectLabel in names
    decreases |objs|
  {
    if objs != [] {
      var n := |objs| - 1;
      ScenarioObjectsMembers(objs[..n], names);
      assert objs == objs[..n] + [objs[n]];
    }
  }

  /** `[str(o['global_id']) for o in scenario_objects]` */
  function GlobalIds(objs: seq<ObjectEntry>): (ids: seq<string>)
    ensures |ids| == |objs| && forall i :: 0 <= i < |objs| ==> ids[i] == objs[i].globalId
  {
    seq(|objs|, i requires 0 <= i < |objs| => objs[i].globalId)
  }

  /** Both endpoints are among the scenario's objects. */
  predicate Between(rel: Relation, ids: seq<string>) {
    rel.subjectId in ids && rel.objectId in ids
  }

  /** The relations the inner pruning loop collects, in scan order */
  function ScenarioRelations(rels: seq<Relation>, ids: seq<string>): (kept: seq<Relation>)
    ensures |kept| <= |rels|
  {
    if rels == [] then []
    else
      var n := |rels| - 1;
      ScenarioRelations(rels[..n], ids) + (if Between(rels[n], ids) then [rels[n]] else [])
  }

  /** A relation is kept iff it is one of the scan's and both its endpoints are scenario objects. */
  lemma {:induction false} ScenarioRelationsMembers(rels: seq<Relation>, ids: seq<string>)
    ensures forall r :: r in ScenarioRelations(rels, ids) <==> r in rels && Between(r, ids)
    decreases |rels|
  {
    if rels != [] {
      var n := |rels| - 1;
      ScenarioRelationsMembers(rels[..n], ids);
      assert rels == rels[..n] + [rels[n]];
    }
  }

  /** The loop over `scan_relations_` that appends the relations between two scenario objects */
  method FilterRelations(rels: seq<Relation>, ids: seq<string>) returns (kept: seq<Relation>)
    ensures kept == ScenarioRelations(rels, ids)
  {
    kept := [];
    for j := 0 to |rels|
      invariant kept == ScenarioRelations(rels[..j], ids)
    {
      assert rels[..j + 1][..j] == rels[..j];
      if rels[j].subjectId in ids && rels[j].objectId in ids {
        kept := kept + [rels[j]];
      }
    }
    assert rels[..|rels|] == rels;
  }

  /** The record for one scenario */
  function ScenarioSample(scan: string, objs: seq<ObjectEntry>, rels: seq<Relation>, s: Scenario): Sample {
    var scenarioObjects := ScenarioObjects(objs, s.objects);
    Sample(scan, s.description, scenarioObjects, ScenarioRelations(rels, GlobalIds(scenarioObjects)))
  }

  /**
   * A record names its scan and scenario, holds the scan's objects whose
   * label the scenario lists, and holds exactly the scan's relations whose
   * two endpoints are among them: the record is a closed subgraph.
   */
  lemma ScenarioSampleFacts(scan: string, objs: seq<ObjectEntry>, rels: seq<Relation>, s: Scenario)
    ensures ScenarioSample(scan, objs, rels, s).scan == scan
    ensures ScenarioSample(scan, objs, rels, s).scenario == s.description
    ensures forall o :: o in ScenarioSample(scan, objs, rels, s).scenarioObjects <==> o in objs && o.objectLabel in s.objects
    ensures forall r :: r in ScenarioSample(scan, objs, rels, s).scenarioRelations <==>
              r in rels && Between(r, GlobalIds(ScenarioSample(scan, objs, rels, s).scenarioObjects))
  {
    ScenarioObjectsMembers(objs, s.objects);
    ScenarioRelationsMembers(rels, GlobalIds(ScenarioObjects(objs, s.objects)));
  }

  function ScanSamples(scan: string, objs: seq<ObjectEntry>, rels: seq<Relation>, ss: seq<Scenario>): (samples: seq<Sample>)
    ensures |samples| == |ss| && forall j :: 0 <= j < |ss| ==> samples[j] == ScenarioSample(scan, objs, rels, ss[j])
  {
    seq(|ss|, j requires 0 <= j < |ss| => ScenarioSample(scan, objs, rels, ss[j]))
  }

  /** How many records have no relation */
  function CountEmpty(samples: seq<Sample>): (n: nat)
    ensures n <= |samples|
  {
    if samples == [] then 0
    else
      var m := |samples| - 1;
      CountEmpty(samples[..m]) + (if samples[m].scenarioRelations == [] then 1 else 0)
  }

  lemma CountEmptyAppend(a: seq<Sample>, b: seq<Sample>)
    ensures CountEmpty(a + b) == CountEmpty(a) + CountEmpty(b)
    decreases |b|
  {
    if b != [] {
      var m := |b| - 1;
      assert (a + b)[..|a + b| - 1] == a + b[..m];
      CountEmptyAppend(a, b[..m]);
    } else {
      assert a + b == a;
    }
  }

  /** The scenario loop for one scan: one record per scenario, relations or not. */
  method PruneScan(scan: string, objs: seq<ObjectEntry>, rels: seq<Relation>, scenarios: seq<Scenario>)
    returns (samples: seq<Sample>, skipped: nat, processed: nat)
    ensures samples == ScanSamples(scan, objs, rels, scenarios)
    ensures skipped == CountEmpty(samples) && processed == |scenarios|
  {
    samples := [];
    skipped, processed := 0, 0;
    for j := 0 to |scenarios|
      invariant processed == j
      invariant samples == ScanSamples(scan, objs, rels, scenarios[..j])
      invariant skipped == CountEmpty(samples)
    {
      processed := processed + 1;
      var scenario := scenarios[j];
      var scenarioObjects := ScenarioObjects(objs, scenario.objects);
      var scenarioRelations := FilterRelations(rels, GlobalIds(scenarioObjects));
      if |scenarioRelations| == 0 {
        skipped := skipped + 1;
      }
      var sample := Sample(scan, scenario.description, scenarioObjects, scenarioRelations);
      assert ScanSamples(scan, objs, rels, scenarios[..j + 1]) == samples + [sample];
      CountEmptyAppend(samples, [sample]);
      samples := samples + [sample];
    }
    assert scenarios[..|scenarios|] == scenarios;
  }

  /** `scan_relations.get(scan_id, [])` */
  function RelationsOf(scanRelations: Dict<string, seq<Relation>>, scan: string): seq<Relation> {
    if scan in scanRelations.entries then scanRelations.entries[scan] else []
  }

  /** Every scan with objects has an entry in `scenario_data`. */
  predicate Covered(scanObjects: Dict<string, seq<ObjectEntry>>, scenarioData: Dict<string, seq<Scenario>>, n: nat)
    requires n <= |scanObjects.keys|
  {
    forall i :: 0 <= i < n ==> scanObjects.keys[i] in scenarioData.entries
  }

  /** The records of the first `n` scans of `scan_objects` */
  function PrunedSamples(scanObjects: Dict<string, seq<ObjectEntry>>, scanRelations: Dict<string, seq<Relation>>,
                         scenarioData: Dict<string, seq<Scenario>>, n: nat): seq<Sample>
    requires scanObjects.Valid() && n <= |scanObjects.keys| && Covered(scanObjects, scenarioData, n)
  {
    if n == 0 then []
    else
      var scan := scanObjects.keys[n - 1];
      PrunedSamples(scanObjects, scanRelations, scenarioData, n - 1) +
      ScanSamples(scan, scanObjects.entries[scan], RelationsOf(scanRelations, scan), scenarioData.entries[scan])
  }

  /** One record per scenario: `len(data) == num_processed`, the scenarios of every scan in turn. */
  lemma {:induction false} PrunedSamplesCount(scanObjects: Dict<string, seq<ObjectEntry>>, scanRelations: Dict<string, seq<Relation>>,
                                              scenarioData: Dict<string, seq<Scenario>>, n: nat)
    requires scanObjects.Valid() && n <= |scanObjects.keys| && Covered(scanObjects, scenarioData, n)
    ensures |PrunedSamples(scanObjects, scanRelations, scenarioData, n)| ==
              ScenarioCount(scanObjects.keys, scenarioData, n)
    decreases n
  {
    if n > 0 {
      PrunedSamplesCount(scanObjects, scanRelations, scenarioData, n - 1);
    }
  }

  /** How many scenarios `scenario_data` lists for the first `n` scans of `keys` */
  function ScenarioCount(keys: seq<string>, scenarioData: Dict<string, seq<Scenario>>, n: nat): nat
    requires n <= |keys| && forall i :: 0 <= i < n ==> keys[i] in scenarioData.entries
  {
    if n == 0 then 0 else ScenarioCount(keys, scenarioData, n - 1) + |scenarioData.entries[keys[n - 1]]|
  }

  /**
   * The second loop of `main`: for every scan with objects, one record per
   * scenario of that scan, or the `KeyError` for the first scan that has
   * objects but no scenario entry.
   */
  method Prune(scanObjects: Dict<string, seq<ObjectEntry>>, scanRelations: Dict<string, seq<Relation>>,
               scenarioData: Dict<string, seq<Scenario>>)
    returns (r: Result<Pruned, KeyError>)
    requires scanObjects.Valid()
    ensures r.Ok? <==> Covered(scanObjects, scenarioData, |scanObjects.keys|)
    ensures r.Err? ==> exists i :: 0 <= i < |scanObjects.keys| && Covered(scanObjects, scenarioData, i) &&
                          scanObjects.keys[i] !in scenarioData.entries && r.error == KeyError(scanObjects.keys[i])
    ensures r.Ok? ==> r.value.data == PrunedSamples(scanObjects, scanRelations, scenarioData, |scanObjects.keys|)
    ensures r.Ok? ==> r.value.numProcessed == |r.value.data| && r.value.numSkipped == CountEmpty(r.value.data)
  {
    var data: seq<Sample> := [];
    var numSkipped, numProcessed := 0, 0;
    for i := 0 to |scanObjects.keys|
      invariant Covered(scanObjects, scenarioData, i)
      invariant data == PrunedSamples(scanObjects, scanRelations, scenarioData, i)
      invariant numProcessed == |data| && numSkipped == CountEmpty(data)
    {
      var scanId := scanObjects.keys[i];
      var scanRelations_ := RelationsOf(scanRelations, scanId);
      if scanId !in scenarioData.entries {
        return Err(KeyError(scanId));
      }
      var samples, skipped, processed := PruneScan(scanId, scanObjects.entries[scanId], scanRelations_,
                                                   scenarioData.entries[scanId]);
      CountEmptyAppend(data, samples);
      data := data + samples;
      numSkipped := numSkipped + skipped;
      numProcessed := numProcessed + processed;
    }
    return Ok(Pruned(data, numSkipped, numProcessed));
  }

  /**
   * `main` once its input files are parsed: the merge, then the pruning,
   * then `data[0]` for the sample it shows, before the records are saved.
   */
  method Run(objectsData: seq<ScanObjects>, relationsData: seq<ScanRelations>,
             scenarios: seq<ScanScenarios>, feedback: seq<Feedback>)
    returns (r: Result<Pruned, RunError>, numUpdated: nat, totalScenarios: nat)
    ensures numUpdated <= totalScenarios
    ensures Loaded(Id2Global(objectsData), Global2Label(objectsData), relationsData).Err? ==>
              r == Err(Lookup(Loaded(Id2Global(objectsData), Global2Label(objectsData), relationsData).error))
    ensures Loaded(Id2Global(objectsData), Global2Label(objectsData), relationsData).Ok? ==>
              var index := ScenariosIndex(scenarios);
              var feedbackIndex := FeedbackIndex(feedback);
              var scanObjects := ScanObjectsIndex(objectsData);
              var scenarioData := Merged(index, feedbackIndex);
              var scanRelations := Loaded(Id2Global(objectsData), Global2Label(objectsData), relationsData).value;
              && totalScenarios == TotalScenarios(index, |index.keys|)
              && numUpdated == UpdatedScenarios(index, |index.keys|, feedbackIndex)
              && (!Covered(scanObjects, scenarioData, |scanObjects.keys|) ==> r.Err? && r.error.Lookup?)
              && (Covered(scanObjects, scenarioData, |scanObjects.keys|) ==>
                    var data := PrunedSamples(scanObjects, scanRelations, scenarioData, |scanObjects.keys|);
                    && (data == [] <==> r == Err(NoSample))
                    && (data != [] ==> r.Ok? && r.value.data == data))
    ensures r.Ok? ==> r.value.data != [] && r.value.numProcessed == |r.value.data|
                      && r.value.numSkipped <= r.value.numProcessed
  {
    numUpdated, totalScenarios := 0, 0;
    var scanObjects, scanRelations := Load3dssg(objectsData, relationsData);
    if scanRelations.Err? {
      return Err(Lookup(scanRelations.error)), numUpdated, totalScenarios;
    }
    var index := ScenariosIndex(scenarios);
    var feedbackIndex := FeedbackIndex(feedback);
    var scenarioData;
    scenarioData, numUpdated, totalScenarios := MergeFeedback(index, feedbackIndex);
    var pruned := Prune(scanObjects, scanRelations.value, scenarioData);
    if pruned.Err? {
      return Err(Lookup(pruned.error)), numUpdated, totalScenarios;
    }
    if |pruned.value.data| == 0 {
      return Err(NoSample), numUpdated, totalScenarios;
    }
    r := Ok(pruned.value);
  }
}
