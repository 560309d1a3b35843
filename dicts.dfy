/**
 * Python's `dict` as the pipeline uses it: a finite map that remembers the
 * order in which its keys were first stored.  Storing under a key that is
 * already present replaces the value and keeps the key where it was.
 */
module Dicts {
  import opened Seqs

  datatype Dict<K(==), V> = Dict(keys: seq<K>, entries: map<K, V>) {

    /** The keys are listed once each, and they are exactly the keys of `entries`. */
    predicate Valid() {
      && (forall i, j :: 0 <= i < j < |keys| ==> keys[i] != keys[j])
      && (forall i :: 0 <= i < |keys| ==> keys[i] in entries)
      && (forall k :: k in entries ==> k in keys)
    }

    /** `d[k] = v` */
    function Put(k: K, v: V): (d: Dict<K, V>)
      requires Valid()
      ensures d.Valid()
      ensures d.entries == entries[k := v]
      ensures k in entries ==> d.keys == keys
      ensures k !in entries ==> d.keys == keys + [k]
    {
      if k in entries then Dict(keys, entries[k := v]) else Dict(keys + [k], entries[k := v])
    }

    /** `list(d.values())` */
    function Values(): (vs: seq<V>)
      requires Valid()
      ensures |vs| == |keys|
      ensures forall i :: 0 <= i < |keys| ==> vs[i] == entries[keys[i]]
    {
      seq(|keys|, i requires 0 <= i < |keys| && Valid() => entries[keys[i]])
    }

    /** `list(d.items())` */
    function Items(): (kvs: seq<(K, V)>)
      requires Valid()
      ensures |kvs| == |keys|
      ensures forall i :: 0 <= i < |keys| ==> kvs[i] == (keys[i], entries[keys[i]])
    {
      seq(|keys|, i requires 0 <= i < |keys| && Valid() => (keys[i], entries[keys[i]]))
    }
  }

  /** `{}` */
  function Empty<K(==), V>(): (d: Dict<K, V>)
    ensures d.Valid() && d.keys == [] && d.entries == map[]
  {
    Dict([], map[])
  }

  /** `d.update(kvs)`: a store per pair, in order. */
  function PutAll<K(==), V>(d: Dict<K, V>, kvs: seq<(K, V)>): (r: Dict<K, V>)
    requires d.Valid()
    ensures r.Valid()
    ensures |r.keys| >= |d.keys| && r.keys[..|d.keys|] == d.keys
    decreases |kvs|
  {
    if kvs == [] then d
    else
      var d' := d.Put(kvs[0].0, kvs[0].1);
      var r := PutAll(d', kvs[1..]);
      assert r.keys[..|d.keys|] == r.keys[..|d'.keys|][..|d.keys|];
      r
  }

  /** The stores of `PutAll` leave the old entries overridden by the pairs. */
  lemma {:induction false} PutAllEntries<K, V>(d: Dict<K, V>, kvs: seq<(K, V)>)
    requires d.Valid()
    ensures PutAll(d, kvs).entries == d.entries + MapOf(kvs)
    decreases |kvs|
  {
    if kvs != [] {
      var (k0, v0) := kvs[0];
      PutAllEntries(d.Put(k0, v0), kvs[1..]);
      var a, b := d.entries, MapOf(kvs[1..]);
      assert MapOf(kvs) == map[k0 := v0] + b;
      assert PutAll(d, kvs) == PutAll(d.Put(k0, v0), kvs[1..]);
      MapUpdateAssoc(a, k0, v0, b);
    }
  }

  /** The map that `dict(kvs)` builds: a later pair overrides an earlier one with the same key. */
  function MapOf<K(==), V>(kvs: seq<(K, V)>): map<K, V>
    decreases |kvs|
  {
    if kvs == [] then map[] else map[kvs[0].0 := kvs[0].1] + MapOf(kvs[1..])
  }

  /** Pairs that all agree with a map `m` describe `m` on their keys. */
  lemma {:induction false} MapOfAgrees<K, V>(kvs: seq<(K, V)>, m: map<K, V>)
    requires forall i :: 0 <= i < |kvs| ==> kvs[i].0 in m && kvs[i].1 == m[kvs[i].0]
    ensures forall k :: k in MapOf(kvs) ==> k in m && MapOf(kvs)[k] == m[k]
    ensures forall i :: 0 <= i < |kvs| ==> kvs[i].0 in MapOf(kvs)
    decreases |kvs|
  {
    if kvs != [] {
      MapOfAgrees(kvs[1..], m);
      forall i | 0 < i < |kvs| ensures kvs[i].0 in MapOf(kvs) {
        assert kvs[1..][i - 1] == kvs[i];
      }
    }
  }

  /** `d.update(e)`: the entries of `e` override those of `d`; keys new to `d` follow its own keys. */
  function Update<K(==), V>(d: Dict<K, V>, e: Dict<K, V>): (r: Dict<K, V>)
    requires d.Valid() && e.Valid()
    ensures r.Valid()
    ensures r.entries == d.entries + e.entries
    ensures |r.keys| >= |d.keys| && r.keys[..|d.keys|] == d.keys
  {
    var items := e.Items();
    MapOfAgrees(items, e.entries);
    assert MapOf(items) == e.entries by {
      forall k | k in e.entries ensures k in MapOf(items) {
        var i :| 0 <= i < |e.keys| && e.keys[i] == k;
        assert items[i].0 == k;
      }
    }
    PutAllEntries(d, items);
    PutAll(d, items)
  }

  /** The keys of `ks` that are not in `seen`, in the order `ks` lists them. */
  function Unseen<K(==)>(ks: seq<K>, seen: set<K>): seq<K>
  {
    if ks == [] then []
    else if ks[0] in seen then Unseen(ks[1..], seen)
    else [ks[0]] + Unseen(ks[1..], seen)
  }

  /** With nothing seen, every key is unseen. */
  lemma {:induction false} UnseenNothing<K>(ks: seq<K>)
    ensures Unseen(ks, {}) == ks
    decreases |ks|
  {
    if ks != [] {
      UnseenNothing(ks[1..]);
      assert [ks[0]] + ks[1..] == ks;
    }
  }

  /** `Unseen` only looks at whether each listed key was seen. */
  lemma {:induction false} UnseenSameSeen<K>(ks: seq<K>, seen: set<K>, seen': set<K>)
    requires forall i :: 0 <= i < |ks| ==> (ks[i] in seen <==> ks[i] in seen')
    ensures Unseen(ks, seen) == Unseen(ks, seen')
    decreases |ks|
  {
    if ks != [] {
      forall i | 0 <= i < |ks[1..]| ensures ks[1..][i] in seen <==> ks[1..][i] in seen' {
        assert ks[1..][i] == ks[i + 1];
      }
      UnseenSameSeen(ks[1..], seen, seen');
    }
  }

  /** Storing a key that the later pairs do not repeat changes nothing unseen among them. */
  lemma UnseenAfterPut<K, V>(d: Dict<K, V>, kvs: seq<(K, V)>)
    requires d.Valid() && kvs != []
    requires forall i :: 0 <= i < |kvs[1..]| ==> kvs[1..][i].0 != kvs[0].0
    ensures Unseen(Firsts(kvs[1..]), d.Put(kvs[0].0, kvs[0].1).entries.Keys)
            == Unseen(Firsts(kvs[1..]), d.entries.Keys)
  {
    var fr := Firsts(kvs[1..]);
    var seen, seen' := d.entries.Keys, d.Put(kvs[0].0, kvs[0].1).entries.Keys;
    assert seen' == seen + {kvs[0].0};
    forall i | 0 <= i < |fr| ensures fr[i] in seen <==> fr[i] in seen' {
      assert fr[i] == kvs[1..][i].0;
    }
    UnseenSameSeen(fr, seen, seen');
  }

  /** One store in front of a run: its key is appended exactly when the dict did not hold it. */
  lemma KeysStep<K>(keys: seq<K>, keys': seq<K>, k: K, held: bool, u: seq<K>, r: seq<K>)
    requires keys' == if held then keys else keys + [k]
    requires r == keys' + u
    ensures r == keys + (if held then u else [k] + u)
  {
    if !held {
      ConcatAssoc(keys, [k], u);
    }
  }

  /** The unseen keys of a run of pairs: its first key when unseen, then the unseen rest. */
  lemma UnseenFirsts<K, V>(kvs: seq<(K, V)>, seen: set<K>)
    requires kvs != []
    ensures Unseen(Firsts(kvs), seen)
            == if kvs[0].0 in seen then Unseen(Firsts(kvs[1..]), seen) else [kvs[0].0] + Unseen(Firsts(kvs[1..]), seen)
  {
    FirstsCons(kvs);
    assert Firsts(kvs)[1..] == Firsts(kvs[1..]);
  }

  /** Pairs with distinct keys append, in order, exactly the keys the dict did not hold. */
  lemma {:induction false} PutAllKeys<K, V>(d: Dict<K, V>, kvs: seq<(K, V)>)
    requires d.Valid()
    requires forall i, j :: 0 <= i < j < |kvs| ==> kvs[i].0 != kvs[j].0
    ensures PutAll(d, kvs).keys == d.keys + Unseen(Firsts(kvs), d.entries.Keys)
    decreases |kvs|
  {
    if kvs == [] {
      assert d.keys + Unseen(Firsts(kvs), d.entries.Keys) == d.keys;
    } else {
      var rest := kvs[1..];
      forall i, j | 0 <= i < j < |rest| ensures rest[i].0 != rest[j].0 {
        assert rest[i] == kvs[i + 1] && rest[j] == kvs[j + 1];
      }
      forall i | 0 <= i < |rest| ensures rest[i].0 != kvs[0].0 {
        assert rest[i] == kvs[i + 1];
      }
      PutAllKeys(d.Put(kvs[0].0, kvs[0].1), rest);
      UnseenAfterPut(d, kvs);
      PutAllCons(d, kvs);
      var d' := d.Put(kvs[0].0, kvs[0].1);
      KeysStep(d.keys, d'.keys, kvs[0].0, kvs[0].0 in d.entries, Unseen(Firsts(rest), d.entries.Keys), PutAll(d, kvs).keys);
      UnseenFirsts(kvs, d.entries.Keys);
    }
  }

  /** `d.update(e)` lists the keys of `d`, then the keys of `e` that `d` lacked, in the order of `e`. */
  lemma UpdateKeys<K, V>(d: Dict<K, V>, e: Dict<K, V>)
    requires d.Valid() && e.Valid()
    ensures Update(d, e).keys == d.keys + Unseen(e.keys, d.entries.Keys)
  {
    var items := e.Items();
    assert Firsts(items) == e.keys;
    forall i, j | 0 <= i < j < |items| ensures items[i].0 != items[j].0 {
      assert items[i].0 == e.keys[i] && items[j].0 == e.keys[j];
    }
    PutAllKeys(d, items);
  }

  /** Storing one more pair after a run of stores is one more `Put`. */
  lemma {:induction false} PutAllSnoc<K, V>(d: Dict<K, V>, kvs: seq<(K, V)>, k: K, v: V)
    requires d.Valid()
    ensures PutAll(d, kvs + [(k, v)]) == PutAll(d, kvs).Put(k, v)
    decreases |kvs|
  {
    if kvs == [] {
      assert [(k, v)][1..] == [];
    } else {
      assert (kvs + [(k, v)])[0] == kvs[0];
      assert (kvs + [(k, v)])[1..] == kvs[1..] + [(k, v)];
      PutAllSnoc(d.Put(kvs[0].0, kvs[0].1), kvs[1..], k, v);
    }
  }

  /** The keys of a run of pairs, in order. */
  function Firsts<K, V>(kvs: seq<(K, V)>): (ks: seq<K>)
    ensures |ks| == |kvs| && forall i :: 0 <= i < |kvs| ==> ks[i] == kvs[i].0
  {
    if kvs == [] then [] else [kvs[0].0] + Firsts(kvs[1..])
  }

  /** Each key of the pairs is new when it comes: not in `ks`, nor among the keys before it. */
  predicate AllFresh<K(==), V>(ks: set<K>, kvs: seq<(K, V)>)
    decreases |kvs|
  {
    kvs == [] || (kvs[0].0 !in ks && AllFresh(ks + {kvs[0].0}, kvs[1..]))
  }

  /** Keys outside `ks` and distinct from each other are all fresh. */
  lemma {:induction false} DistinctAllFresh<K, V>(ks: set<K>, kvs: seq<(K, V)>)
    requires forall i :: 0 <= i < |kvs| ==> kvs[i].0 !in ks
    requires forall i, j :: 0 <= i < j < |kvs| ==> kvs[i].0 != kvs[j].0
    ensures AllFresh(ks, kvs)
    decreases |kvs|
  {
    if kvs != [] {
      var ks', rest := ks + {kvs[0].0}, kvs[1..];
      forall i | 0 <= i < |rest| ensures rest[i].0 !in ks' {
        assert rest[i] == kvs[i + 1];
      }
      forall i, j | 0 <= i < j < |rest| ensures rest[i].0 != rest[j].0 {
        assert rest[i] == kvs[i + 1] && rest[j] == kvs[j + 1];
      }
      DistinctAllFresh(ks', rest);
    }
  }

  lemma FirstsCons<K, V>(kvs: seq<(K, V)>)
    requires kvs != []
    ensures Firsts(kvs) == [kvs[0].0] + Firsts(kvs[1..])
  {
  }

  /** After the first store, the remaining keys are fresh for the new dict. */
  lemma FreshTail<K, V>(d: Dict<K, V>, kvs: seq<(K, V)>)
    requires d.Valid() && kvs != [] && AllFresh(d.entries.Keys, kvs)
    ensures AllFresh(d.Put(kvs[0].0, kvs[0].1).entries.Keys, kvs[1..])
    ensures d.Put(kvs[0].0, kvs[0].1).keys == d.keys + [kvs[0].0]
  {
    assert d.Put(kvs[0].0, kvs[0].1).entries.Keys == d.entries.Keys + {kvs[0].0};
  }

  lemma FreshKeysStep<K, V>(d: Dict<K, V>, kvs: seq<(K, V)>)
    requires d.Valid() && kvs != []
    requires d.Put(kvs[0].0, kvs[0].1).keys == d.keys + [kvs[0].0]
    requires PutAll(d.Put(kvs[0].0, kvs[0].1), kvs[1..]).keys == d.Put(kvs[0].0, kvs[0].1).keys + Firsts(kvs[1..])
    ensures PutAll(d, kvs).keys == d.keys + Firsts(kvs)
  {
    var k, rest := kvs[0].0, kvs[1..];
    var d' := d.Put(k, kvs[0].1);
    PutAllCons(d, kvs);
    FirstsCons(kvs);
    calc {
      PutAll(d, kvs).keys;
      PutAll(d', rest).keys;
      d'.keys + Firsts(rest);
      (d.keys + [k]) + Firsts(rest);
      { ConcatAssoc(d.keys, [k], Firsts(rest)); }
      d.keys + ([k] + Firsts(rest));
      d.keys + Firsts(kvs);
    }
  }

  lemma PutAllCons<K, V>(d: Dict<K, V>, kvs: seq<(K, V)>)
    requires d.Valid() && kvs != []
    ensures PutAll(d, kvs) == PutAll(d.Put(kvs[0].0, kvs[0].1), kvs[1..])
  {
  }

  /** Keys stored for the first time are appended in the order they come. */
  lemma {:induction false} PutAllFreshKeys<K, V>(d: Dict<K, V>, kvs: seq<(K, V)>)
    requires d.Valid() && AllFresh(d.entries.Keys, kvs)
    ensures PutAll(d, kvs).keys == d.keys + Firsts(kvs)
    decreases |kvs|
  {
    if kvs == [] {
      assert d.keys + Firsts(kvs) == d.keys;
    } else {
      FreshTail(d, kvs);
      PutAllFreshKeys(d.Put(kvs[0].0, kvs[0].1), kvs[1..]);
      FreshKeysStep(d, kvs);
    }
  }

  /** Pairs with distinct keys, stored into an empty dict, keep their keys in order. */
  lemma DistinctKeys<K, V>(kvs: seq<(K, V)>)
    requires forall i, j :: 0 <= i < j < |kvs| ==> kvs[i].0 != kvs[j].0
    ensures PutAll(Empty(), kvs).keys == Firsts(kvs)
  {
    var empty: Dict<K, V> := Empty();
    DistinctAllFresh(empty.entries.Keys, kvs);
    PutAllFreshKeys(empty, kvs);
    assert empty.keys + Firsts(kvs) == Firsts(kvs);
  }

  /** `k` is the key of one of the pairs */
  predicate HasKey<K(==), V>(kvs: seq<(K, V)>, k: K) {
    exists i :: 0 <= i < |kvs| && kvs[i].0 == k
  }

  /** `dict(kvs)` holds exactly the keys of the pairs. */
  lemma {:induction false} MapOfKeys<K, V>(kvs: seq<(K, V)>)
    ensures forall k :: k in MapOf(kvs) <==> HasKey(kvs, k)
    decreases |kvs|
  {
    if kvs != [] {
      var rest := kvs[1..];
      MapOfKeys(rest);
      assert MapOf(kvs) == map[kvs[0].0 := kvs[0].1] + MapOf(rest);
      forall k | k in MapOf(kvs) ensures HasKey(kvs, k) {
        if k != kvs[0].0 {
          assert HasKey(rest, k);
          var i :| 0 <= i < |rest| && rest[i].0 == k;
          assert kvs[i + 1].0 == k;
        }
      }
      forall k | HasKey(kvs, k) ensures k in MapOf(kvs) {
        var i :| 0 <= i < |kvs| && kvs[i].0 == k;
        if i > 0 {
          assert rest[i - 1].0 == k;
        }
      }
    }
  }

  /** In `dict(kvs)` a key holds the value of its last pair. */
  lemma {:induction false} MapOfLastWins<K, V>(kvs: seq<(K, V)>, i: nat)
    requires i < |kvs|
    requires forall j :: i < j < |kvs| ==> kvs[j].0 != kvs[i].0
    ensures kvs[i].0 in MapOf(kvs) && MapOf(kvs)[kvs[i].0] == kvs[i].1
    decreases |kvs|
  {
    var rest := kvs[1..];
    assert MapOf(kvs) == map[kvs[0].0 := kvs[0].1] + MapOf(rest);
    if i > 0 {
      assert rest[i - 1] == kvs[i];
      forall j | i - 1 < j < |rest| ensures rest[j].0 != rest[i - 1].0 {
        assert rest[j] == kvs[j + 1];
      }
      MapOfLastWins(rest, i - 1);
    } else {
      MapOfKeys(rest);
      forall j | 0 <= j < |rest| ensures rest[j].0 != kvs[0].0 {
        assert rest[j] == kvs[j + 1];
      }
      assert !HasKey(rest, kvs[0].0);
    }
  }

  /** Every entry of `dict(kvs)` comes from one of the pairs. */
  lemma {:induction false} MapOfValues<K, V>(kvs: seq<(K, V)>)
    ensures forall k :: k in MapOf(kvs) ==> exists i :: 0 <= i < |kvs| && kvs[i] == (k, MapOf(kvs)[k])
    decreases |kvs|
  {
    if kvs != [] {
      var rest := kvs[1..];
      MapOfValues(rest);
      assert MapOf(kvs) == map[kvs[0].0 := kvs[0].1] + MapOf(rest);
      forall k | k in MapOf(kvs) ensures exists i :: 0 <= i < |kvs| && kvs[i] == (k, MapOf(kvs)[k]) {
        if k !in MapOf(rest) {
          assert kvs[0] == (k, MapOf(kvs)[k]);
        } else {
          assert MapOf(kvs)[k] == MapOf(rest)[k];
          var i :| 0 <= i < |rest| && rest[i] == (k, MapOf(rest)[k]);
          assert kvs[i + 1] == rest[i];
        }
      }
    }
  }

  /** `dict(d.items()) == d`, order included. */
  lemma PutAllItems<K, V>(d: Dict<K, V>)
    requires d.Valid()
    ensures PutAll(Empty(), d.Items()) == d
  {
    PutAllItemsKeys(d);
    PutAllItemsEntries(d);
  }

  lemma PutAllItemsKeys<K, V>(d: Dict<K, V>)
    requires d.Valid()
    ensures PutAll(Empty(), d.Items()).keys == d.keys
  {
    var kvs := d.Items();
    DistinctKeys(kvs);
    assert Firsts(kvs) == d.keys;
  }

  lemma PutAllItemsEntries<K, V>(d: Dict<K, V>)
    requires d.Valid()
    ensures PutAll(Empty(), d.Items()).entries == d.entries
  {
    var kvs := d.Items();
    PutAllEntries(Empty(), kvs);
    ItemsMap(d);
    EmptyUnion(MapOf(kvs));
  }

  lemma EmptyUnion<K, V>(m: map<K, V>)
    ensures map[] + m == m
  {
  }

  lemma ItemsMap<K, V>(d: Dict<K, V>)
    requires d.Valid()
    ensures MapOf(d.Items()) == d.entries
  {
    var kvs := d.Items();
    MapOfKeys(kvs);
    forall k | k in d.entries ensures k in MapOf(kvs) && MapOf(kvs)[k] == d.entries[k] {
      var i :| 0 <= i < |d.keys| && d.keys[i] == k;
      MapOfLastWins(kvs, i);
    }
    forall k | k in MapOf(kvs) ensures k in d.entries {
      assert HasKey(kvs, k);
    }
  }

  lemma MapUpdateAssoc<K, V>(a: map<K, V>, k0: K, v0: V, b: map<K, V>)
    ensures a[k0 := v0] + b == a + (map[k0 := v0] + b)
  {
  }

  /** Building a dict from two runs of pairs in turn: the second run's pairs win. */
  lemma {:induction false} MapOfConcat<K, V>(a: seq<(K, V)>, b: seq<(K, V)>)
    ensures MapOf(a + b) == MapOf(a) + MapOf(b)
    decreases |a|
  {
    if a == [] {
      assert a + b == b;
      EmptyUnion(MapOf(b));
    } else {
      assert (a + b)[1..] == a[1..] + b;
      MapOfConcat(a[1..], b);
    }
  }

  /** `m[k] = v` after a run of pairs */
  lemma MapOfSnoc<K, V>(a: seq<(K, V)>, k: K, v: V)
    ensures MapOf(a + [(k, v)]) == MapOf(a)[k := v]
  {
    MapOfConcat(a, [(k, v)]);
    assert MapOf([(k, v)]) == map[k := v] + MapOf([]);
  }
}
