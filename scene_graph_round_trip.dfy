/**
 * Rendering a scene graph and parsing the text back (what the viewer does
 * with a stored rendering) gives the same graph, for graphs whose names stay
 * clear of the grammar's punctuation: the same objects in the same order
 * with the same attribute lists, and the same relationship triples in the
 * same order, each relationship id now held as the text it was rendered as.
 */
module SceneGraphRoundTrip {
  import opened Wrappers
  import opened Text
  import opened Dicts
  import opened TripleRegex
  import opened SceneGraphs

  /** The characters the text grammar gives a meaning to. */
  predicate Reserved(c: char) {
    c == ';' || c == ':' || c == ',' || c == '[' || c == ']' || c == '(' || c == ')' || c == '\n'
  }

  /** A name the grammar carries unchanged: no reserved character, no whitespace at either end. */
  predicate Plain(s: string) {
    Trimmed(s) && forall c :: c in s ==> !Reserved(c)
  }

  /** An object that survives the round trip: plain names, no 'obj-' in its id, at least one attribute. */
  predicate PlainObject(o: SceneObject) {
    && Plain(o.id) && !Contains(o.id, "obj-")
    && o.attributes != []
    && forall a :: a in o.attributes ==> Plain(a)
  }

  /** A relationship that survives the round trip: plain names, and a text id that is plain and has no 'rel-'. */
  predicate PlainRelation(r: SceneRelationship) {
    && Plain(r.subj) && Plain(r.pred) && Plain(r.obj)
    && (r.id.Label? ==> Plain(r.id.text) && !Contains(r.id.text, "rel-"))
  }

  predicate RoundTrippable(g: Graph) {
    && WellKeyed(g)
    && (forall k :: k in g.objects.entries ==> PlainObject(g.objects.entries[k]))
    && (forall j :: 0 <= j < |g.relationships| ==> PlainRelation(g.relationships[j]))
  }

  /** The relationships with each id replaced by the text it renders as. */
  function Relabelled(rs: seq<SceneRelationship>): (out: seq<SceneRelationship>)
    ensures |out| == |rs|
    ensures forall i :: 0 <= i < |rs| ==> out[i] == rs[i].(id := Label(IdText(rs[i].id)))
  {
    seq(|rs|, i requires 0 <= i < |rs| => rs[i].(id := Label(IdText(rs[i].id))))
  }

  // ---------------------------------------------------------------------
  // One declaration

  /** A record index renders as a plain numeral. */
  lemma IdTextPlain(r: SceneRelationship)
    requires PlainRelation(r)
    ensures Plain(IdText(r.id)) && !Contains(IdText(r.id), "rel-")
  {
    if r.id.Index? {
      var t := NatToString(r.id.n);
      NatToStringDigits(r.id.n);
      assert forall c :: c in t ==> '0' <= c <= '9';
      ContainsNeedsFirstChar(t, "rel-");
    }
  }

  /** The text `(s, p, o)`: brackets and separators where they belong, no reserved character elsewhere. */
  predicate TripleLayout(t: string, c1: nat, c2: nat, e3: nat) {
    && 1 <= c1 && c1 + 2 <= c2 && c2 + 2 <= e3 && |t| == e3 + 1
    && t[0] == '(' && t[c1] == ',' && t[c1 + 1] == ' ' && t[c2] == ',' && t[c2 + 1] == ' ' && t[e3] == ')'
    && (forall i :: 1 <= i < c1 ==> !Reserved(t[i]))
    && (forall i :: c1 + 2 <= i < c2 ==> !Reserved(t[i]))
    && (forall i :: c2 + 2 <= i < e3 ==> !Reserved(t[i]))
  }

  lemma TripleText(s: string, p: string, o: string)
    requires Plain(s) && Plain(p) && Plain(o)
    ensures var t := "(" + s + ", " + p + ", " + o + ")";
            var c1 := 1 + |s|;
            var c2 := c1 + 2 + |p|;
            TripleLayout(t, c1, c2, c2 + 2 + |o|)
            && t[1..c1] == s && t[c1 + 2..c2] == p && t[c2 + 2..c2 + 2 + |o|] == o
  {
    var t := "(" + s + ", " + p + ", " + o + ")";
    var c1 := 1 + |s|;
    var c2 := c1 + 2 + |p|;
    var e3 := c2 + 2 + |o|;
    assert |t| == e3 + 1;
    assert t[1..c1] == s && t[c1 + 2..c2] == p && t[c2 + 2..e3] == o;
    forall i | 1 <= i < c1 ensures !Reserved(t[i]) {
      assert t[i] == s[i - 1] && s[i - 1] in s;
    }
    forall i | c1 + 2 <= i < c2 ensures !Reserved(t[i]) {
      assert t[i] == p[i - c1 - 2] && p[i - c1 - 2] in p;
    }
    forall i | c2 + 2 <= i < e3 ensures !Reserved(t[i]) {
      assert t[i] == o[i - c2 - 2] && o[i - c2 - 2] in o;
    }
  }

  /** In such a text the pattern matches in one way only, with its groups between the separators. */
  lemma LayoutSearch(t: string, c1: nat, c2: nat, e3: nat)
    requires TripleLayout(t, c1, c2, e3)
    ensures Search(t) == Some(Match(0, c1, c2, e3)) && IsMatch(t, Match(0, c1, c2, e3))
  {
    var m := Match(0, c1, c2, e3);
    assert IsMatch(t, m);
    var r := Search(t);
    assert r.Some? && r.value.start == 0 && TriedNoLaterThan(r.value, m);
    var w := r.value;
    assert w.e1 == c1 && w.e2 == c2 by {
      assert t[w.e1] == ',' && t[w.e2] == ',';
      assert w.e1 == c1 || w.e1 == c2;
      assert w.e2 == c1 || w.e2 == c2;
    }
    assert t[w.e3] == ')';
  }

  /** The pattern matches `(s, p, o)` in one way only when no name holds ',', ')' or a newline. */
  lemma TripleSearch(s: string, p: string, o: string)
    requires Plain(s) && Plain(p) && Plain(o)
    ensures var t := "(" + s + ", " + p + ", " + o + ")";
            var m := Match(0, 1 + |s|, 3 + |s| + |p|, 5 + |s| + |p| + |o|);
            Search(t) == Some(m) && IsMatch(t, m) && Groups(t, m) == (s, p, o)
  {
    var c1 := 1 + |s|;
    var c2 := c1 + 2 + |p|;
    TripleText(s, p, o);
    LayoutSearch("(" + s + ", " + p + ", " + o + ")", c1, c2, c2 + 2 + |o|);
  }

  lemma NoneReserved(xs: seq<string>)
    requires forall a :: a in xs ==> Plain(a)
    ensures forall c :: Reserved(c) && c != ',' ==> c !in Join(xs, ", ")
  {
    forall c | Reserved(c) && c != ',' ensures c !in Join(xs, ", ") {
      forall i | 0 <= i < |xs| ensures c !in xs[i] {
        assert xs[i] in xs;
      }
      NotInJoin(xs, ", ", c);
    }
  }

  /** A declaration with one ':' splits into the two sides of it. */
  lemma DeclHalves(x: string, y: string)
    requires ':' !in x && ':' !in y
    ensures Split(x + [':'] + y, ":") == [x, y]
  {
    SplitCharConcat(x, ':', y);
    SplitCharAbsent(x, ':');
    SplitCharAbsent(y, ':');
  }

  /** The id side of a declaration reads back as the id. */
  lemma DeclIdRoundTrip(prefix: string, id: string)
    requires prefix == "obj-" || prefix == "rel-"
    requires Trimmed(id) && !Contains(id, prefix)
    ensures ReplaceAll(Strip(prefix + id), prefix, "") == id
  {
    var x := prefix + id;
    assert x[0] == prefix[0];
    assert x[|x| - 1] == if id == [] then '-' else id[|id| - 1];
    StripTrimmed(x);
    ReplaceLeading(prefix, id, "");
  }

  /** Deleting '[' and then ']' from `[body]` leaves `body`. */
  lemma BracketsRemoved(body: string)
    requires '[' !in body && ']' !in body
    ensures ReplaceAll(ReplaceAll("[" + body + "]", "[", ""), "]", "") == body
  {
    var tail := body + "]";
    assert "[" + body + "]" == "[" + tail;
    ReplaceCharConcat("[", tail, '[', "");
    ReplaceCharConcat(body, "]", '[', "");
    ReplaceCharAbsent(body, '[', "");
    ReplaceCharAbsent("]", '[', "");
    assert ReplaceAll("[", "[", "") == "";
    var once := ReplaceAll("[" + body + "]", "[", "");
    assert once == tail;
    ReplaceCharConcat(body, "]", ']', "");
    ReplaceCharAbsent(body, ']', "");
    assert ReplaceAll("]", "]", "") == "";
  }

  /** A non-empty attribute list joined by ", " splits on ',' and strips back to itself. */
  lemma AttributesRoundTrip(attrs: seq<string>)
    requires attrs != [] && forall a :: a in attrs ==> Plain(a)
    ensures StripAll(Split(Join(attrs, ", "), ",")) == attrs
  {
    assert ", " == "," + " ";
    JoinLongerSeparator(attrs, ",", " ");
    var padded := PadTail(attrs, " ");
    forall i | 0 <= i < |padded| ensures ',' !in padded[i] {
      assert attrs[i] in attrs;
    }
    SplitJoinChar(padded, ',');
    forall i | 0 <= i < |attrs| ensures Strip(padded[i]) == attrs[i] {
      assert attrs[i] in attrs;
      if i == 0 {
        StripTrimmed(attrs[i]);
      } else {
        StripSpaceBefore(attrs[i]);
      }
    }
  }

  /** `parse` reads an object declaration back as its id and attribute list. */
  lemma ObjectDeclRoundTrip(o: SceneObject)
    requires PlainObject(o)
    ensures ParseObjectDecl(ObjectRepr(o)) == Some((o.id, o.attributes))
  {
    var x := "obj-" + o.id;
    var body := Join(o.attributes, ", ");
    var y := "[" + body + "]";
    assert ObjectRepr(o) == x + [':'] + y;
    NoneReserved(o.attributes);
    DeclHalves(x, y);
    DeclIdRoundTrip("obj-", o.id);
    BracketsRemoved(body);
    AttributesRoundTrip(o.attributes);
  }

  /** `parse` reads a relationship declaration back as its id text and its triple. */
  lemma RelationDeclRoundTrip(r: SceneRelationship)
    requires PlainRelation(r)
    ensures ParseRelationDecl(RelationRepr(r)) == Some(ParsedRelation(IdText(r.id), r.subj, r.pred, r.obj))
  {
    IdTextPlain(r);
    var x := "rel-" + IdText(r.id);
    var t := "(" + r.subj + ", " + r.pred + ", " + r.obj + ")";
    assert RelationRepr(r) == x + [':'] + t;
    DeclHalves(x, t);
    DeclIdRoundTrip("rel-", IdText(r.id));
    TripleSearch(r.subj, r.pred, r.obj);
    StripTrimmed(r.subj);
    StripTrimmed(r.pred);
    StripTrimmed(r.obj);
  }

  // ---------------------------------------------------------------------
  // All declarations

  lemma ObjectReprFacts(o: SceneObject)
    requires PlainObject(o)
    ensures Trimmed(ObjectRepr(o)) && ';' !in ObjectRepr(o)
    ensures StartsWith(ObjectRepr(o), "obj-") && !StartsWith(ObjectRepr(o), "rel-")
  {
    NoneReserved(o.attributes);
    assert ObjectRepr(o)[..4] == "obj-";
  }

  lemma RelationReprFacts(r: SceneRelationship)
    requires PlainRelation(r)
    ensures Trimmed(RelationRepr(r)) && ';' !in RelationRepr(r)
    ensures StartsWith(RelationRepr(r), "rel-") && !StartsWith(RelationRepr(r), "obj-")
  {
    IdTextPlain(r);
    assert RelationRepr(r)[..4] == "rel-";
  }

  /** `[""]` in place of an empty run of declarations: the empty side of the middle "; ". */
  function NonEmpty(xs: seq<string>): (ys: seq<string>)
    ensures ys != [] && Join(ys, "; ") == Join(xs, "; ")
  {
    if xs == [] then [""] else xs
  }

  /** What `split(';')` of a rendering sees, before stripping. */
  function Segments(g: Graph): seq<string>
    requires g.objects.Valid()
  {
    NonEmpty(ObjectReprs(g.objects.Values())) + NonEmpty(RelationReprs(g.relationships))
  }

  lemma PlainValues(g: Graph)
    requires RoundTrippable(g)
    ensures forall i :: 0 <= i < |g.objects.keys| ==> PlainObject(g.objects.Values()[i])
  {
  }

  lemma SegmentFacts(g: Graph)
    requires RoundTrippable(g)
    ensures forall i :: 0 <= i < |Segments(g)| ==> Trimmed(Segments(g)[i]) && ';' !in Segments(g)[i]
  {
    var vs := g.objects.Values();
    PlainValues(g);
    forall i | 0 <= i < |vs| ensures Trimmed(ObjectRepr(vs[i])) && ';' !in ObjectRepr(vs[i]) {
      ObjectReprFacts(vs[i]);
    }
    forall j | 0 <= j < |g.relationships|
      ensures Trimmed(RelationRepr(g.relationships[j])) && ';' !in RelationRepr(g.relationships[j])
    {
      RelationReprFacts(g.relationships[j]);
    }
  }

  /** Splitting a rendering on ';' gives its segments, all but the first behind a space. */
  lemma RenderSplit(g: Graph)
    requires RoundTrippable(g)
    ensures Split(Render(g), ";") == PadTail(Segments(g), " ")
  {
    var objs := NonEmpty(ObjectReprs(g.objects.Values()));
    var rels := NonEmpty(RelationReprs(g.relationships));
    JoinAppend(objs, rels, "; ");
    assert Render(g) == Join(Segments(g), "; ");
    assert "; " == ";" + " ";
    JoinLongerSeparator(Segments(g), ";", " ");
    SegmentFacts(g);
    SplitJoinChar(PadTail(Segments(g), " "), ';');
  }

  lemma {:induction false} DeclarationsConcat(a: seq<string>, b: seq<string>, prefix: string)
    ensures Declarations(a + b, prefix) == Declarations(a, prefix) + Declarations(b, prefix)
    decreases |a|
  {
    if a == [] {
      assert a + b == b;
    } else {
      assert (a + b)[1..] == a[1..] + b;
      DeclarationsConcat(a[1..], b, prefix);
    }
  }

  /** `Declarations` only looks at the stripped parts. */
  lemma {:induction false} DeclarationsOfStripped(p1: seq<string>, p2: seq<string>, prefix: string)
    requires |p1| == |p2| && forall i :: 0 <= i < |p1| ==> Strip(p1[i]) == Strip(p2[i])
    ensures Declarations(p1, prefix) == Declarations(p2, prefix)
    decreases |p1|
  {
    if p1 != [] {
      DeclarationsOfStripped(p1[1..], p2[1..], prefix);
    }
  }

  lemma {:induction false} DeclarationsKeepAll(xs: seq<string>, prefix: string)
    requires forall i :: 0 <= i < |xs| ==> Trimmed(xs[i]) && StartsWith(xs[i], prefix)
    ensures Declarations(xs, prefix) == xs
    decreases |xs|
  {
    if xs != [] {
      StripTrimmed(xs[0]);
      DeclarationsKeepAll(xs[1..], prefix);
    }
  }

  lemma {:induction false} DeclarationsKeepNone(xs: seq<string>, prefix: string)
    requires forall i :: 0 <= i < |xs| ==> !StartsWith(Strip(xs[i]), prefix)
    ensures Declarations(xs, prefix) == []
    decreases |xs|
  {
    if xs != [] {
      DeclarationsKeepNone(xs[1..], prefix);
    }
  }

  /** The empty segment of a graph without objects or relationships declares nothing. */
  lemma DeclarationsNonEmpty(xs: seq<string>, prefix: string)
    requires prefix != []
    ensures Declarations(NonEmpty(xs), prefix) == Declarations(xs, prefix)
  {
    if xs == [] {
      DeclarationsKeepNone([""], prefix);
    }
  }

  /** Stripping the parts of a rendering gives back its segments. */
  lemma DeclarationsOfRender(g: Graph, prefix: string)
    requires RoundTrippable(g) && prefix != []
    ensures Declarations(Split(Render(g), ";"), prefix)
      == Declarations(ObjectReprs(g.objects.Values()), prefix) + Declarations(RelationReprs(g.relationships), prefix)
  {
    RenderSplit(g);
    SegmentFacts(g);
    var segs := Segments(g);
    var parts := PadTail(segs, " ");
    forall i | 0 <= i < |parts| ensures Strip(parts[i]) == Strip(segs[i]) {
      StripTrimmed(segs[i]);
      if i > 0 {
        StripSpaceBefore(segs[i]);
      }
    }
    DeclarationsOfStripped(parts, segs, prefix);
    var objs, rels := ObjectReprs(g.objects.Values()), RelationReprs(g.relationships);
    DeclarationsConcat(NonEmpty(objs), NonEmpty(rels), prefix);
    DeclarationsNonEmpty(objs, prefix);
    DeclarationsNonEmpty(rels, prefix);
  }

  /** Rendered objects are all object declarations and none is a relationship declaration. */
  lemma ObjectDeclarations(g: Graph)
    requires RoundTrippable(g)
    ensures Declarations(ObjectReprs(g.objects.Values()), "obj-") == ObjectReprs(g.objects.Values())
    ensures Declarations(ObjectReprs(g.objects.Values()), "rel-") == []
  {
    var objReprs := ObjectReprs(g.objects.Values());
    PlainValues(g);
    forall i | 0 <= i < |objReprs|
      ensures Trimmed(objReprs[i]) && StartsWith(objReprs[i], "obj-") && !StartsWith(Strip(objReprs[i]), "rel-")
    {
      ObjectReprFacts(g.objects.Values()[i]);
      StripTrimmed(objReprs[i]);
    }
    DeclarationsKeepAll(objReprs, "obj-");
    DeclarationsKeepNone(objReprs, "rel-");
  }

  /** Rendered relationships are all relationship declarations and none is an object declaration. */
  lemma RelationDeclarations(g: Graph)
    requires RoundTrippable(g)
    ensures Declarations(RelationReprs(g.relationships), "rel-") == RelationReprs(g.relationships)
    ensures Declarations(RelationReprs(g.relationships), "obj-") == []
  {
    var relReprs := RelationReprs(g.relationships);
    forall j | 0 <= j < |relReprs|
      ensures Trimmed(relReprs[j]) && StartsWith(relReprs[j], "rel-") && !StartsWith(Strip(relReprs[j]), "obj-")
    {
      RelationReprFacts(g.relationships[j]);
      StripTrimmed(relReprs[j]);
    }
    DeclarationsKeepAll(relReprs, "rel-");
    DeclarationsKeepNone(relReprs, "obj-");
  }

  /** The declarations `parse` keeps from a rendering are the rendered objects and relationships. */
  lemma RenderDeclarations(g: Graph)
    requires RoundTrippable(g)
    ensures Declarations(Split(Render(g), ";"), "obj-") == ObjectReprs(g.objects.Values())
    ensures Declarations(Split(Render(g), ";"), "rel-") == RelationReprs(g.relationships)
  {
    var objs, rels := ObjectReprs(g.objects.Values()), RelationReprs(g.relationships);
    ObjectDeclarations(g);
    RelationDeclarations(g);
    DeclarationsOfRender(g, "obj-");
    DeclarationsOfRender(g, "rel-");
    assert objs + [] == objs;
    assert [] + rels == rels;
  }

  /** `(obj.id, obj.attributes)` for a run of objects */
  function IdAttributes(os: seq<SceneObject>): (kvs: seq<(string, seq<string>)>)
    ensures |kvs| == |os| && forall i :: 0 <= i < |os| ==> kvs[i] == (os[i].id, os[i].attributes)
  {
    seq(|os|, i requires 0 <= i < |os| => (os[i].id, os[i].attributes))
  }

  lemma ParsedObjectsStep(decls: seq<string>, id: string, attrs: seq<string>)
    requires decls != [] && ParseObjectDecl(decls[|decls| - 1]) == Some((id, attrs))
    ensures ParsedObjects(decls) == ParsedObjects(decls[..|decls| - 1]).Put(id, attrs)
  {
  }

  /** Declarations that each parse store their pairs in order, later ids overwriting earlier ones. */
  lemma {:induction false} ParsedObjectsAll(decls: seq<string>, kvs: seq<(string, seq<string>)>)
    requires |decls| == |kvs| && forall i :: 0 <= i < |decls| ==> ParseObjectDecl(decls[i]) == Some(kvs[i])
    ensures ParsedObjects(decls) == PutAll(Empty(), kvs)
    decreases |decls|
  {
    if decls != [] {
      var n := |decls| - 1;
      var front, k, v := kvs[..n], kvs[n].0, kvs[n].1;
      assert kvs == front + [(k, v)];
      assert ParseObjectDecl(decls[n]) == Some((k, v));
      ParsedObjectsFront(decls, kvs);
      ParsedObjectsAll(decls[..n], front);
      ParsedObjectsStep(decls, k, v);
      PutAllSnoc(Empty(), front, k, v);
    }
  }

  lemma ParsedObjectsFront(decls: seq<string>, kvs: seq<(string, seq<string>)>)
    requires decls != [] && |decls| == |kvs| && forall i :: 0 <= i < |decls| ==> ParseObjectDecl(decls[i]) == Some(kvs[i])
    ensures var n := |decls| - 1; forall i :: 0 <= i < n ==> ParseObjectDecl(decls[..n][i]) == Some(kvs[..n][i])
  {
  }

  /** The first loop of `parse` over rendered objects stores each id with its attribute list. */
  lemma ParsedObjectReprs(os: seq<SceneObject>)
    requires forall i :: 0 <= i < |os| ==> PlainObject(os[i])
    ensures ParsedObjects(ObjectReprs(os)) == PutAll(Empty(), IdAttributes(os))
  {
    var decls := ObjectReprs(os);
    var kvs := IdAttributes(os);
    forall i | 0 <= i < |decls| ensures ParseObjectDecl(decls[i]) == Some(kvs[i]) {
      ObjectDeclRoundTrip(os[i]);
    }
    ParsedObjectsAll(decls, kvs);
  }

  /** A relationship as the second loop of `parse` collects it from its rendering. */
  function AsParsed(rs: seq<SceneRelationship>): (ps: seq<ParsedRelation>)
    ensures |ps| == |rs|
    ensures forall i :: 0 <= i < |rs| ==> ps[i] == ParsedRelation(IdText(rs[i].id), rs[i].subj, rs[i].pred, rs[i].obj)
  {
    seq(|rs|, i requires 0 <= i < |rs| => ParsedRelation(IdText(rs[i].id), rs[i].subj, rs[i].pred, rs[i].obj))
  }

  lemma ParsedRelationsStep(decls: seq<string>, r: ParsedRelation)
    requires decls != [] && ParseRelationDecl(decls[|decls| - 1]) == Some(r)
    ensures ParsedRelations(decls) == ParsedRelations(decls[..|decls| - 1]) + [r]
  {
  }

  /** Declarations that each parse collect their relationships in order. */
  lemma {:induction false} ParsedRelationsAll(decls: seq<string>, ps: seq<ParsedRelation>)
    requires |decls| == |ps| && forall i :: 0 <= i < |decls| ==> ParseRelationDecl(decls[i]) == Some(ps[i])
    ensures ParsedRelations(decls) == ps
    decreases |decls|
  {
    if decls != [] {
      var n := |decls| - 1;
      var front, last := ps[..n], ps[n];
      assert ps == front + [last];
      assert ParseRelationDecl(decls[n]) == Some(last);
      ParsedRelationsFront(decls, ps);
      ParsedRelationsAll(decls[..n], front);
      ParsedRelationsStep(decls, last);
    }
  }

  lemma ParsedRelationsFront(decls: seq<string>, ps: seq<ParsedRelation>)
    requires decls != [] && |decls| == |ps| && forall i :: 0 <= i < |decls| ==> ParseRelationDecl(decls[i]) == Some(ps[i])
    ensures var n := |decls| - 1; forall i :: 0 <= i < n ==> ParseRelationDecl(decls[..n][i]) == Some(ps[..n][i])
  {
  }

  lemma ParsedRelationReprs(rs: seq<SceneRelationship>)
    requires forall j :: 0 <= j < |rs| ==> PlainRelation(rs[j])
    ensures ParsedRelations(RelationReprs(rs)) == AsParsed(rs)
  {
    var decls := RelationReprs(rs);
    var ps := AsParsed(rs);
    forall j | 0 <= j < |decls| ensures ParseRelationDecl(decls[j]) == Some(ps[j]) {
      RelationDeclRoundTrip(rs[j]);
    }
    ParsedRelationsAll(decls, ps);
  }

  /** The objects `parse` rebuilds from a rendering are the graph's own, in the same order. */
  lemma RenderedObjects(g: Graph)
    requires RoundTrippable(g)
    ensures PutAll(Empty(), ParsedObjectEntries(ParsedObjects(ObjectReprs(g.objects.Values())).Items())) == g.objects
  {
    var vs := g.objects.Values();
    PlainValues(g);
    ParsedObjectReprs(vs);
    assert IdAttributes(vs) == AttributePairs(g);
    JsonObjects(g);
    var parsed := PutAll(Empty(), AttributePairs(g));
    var ks := g.objects.keys;
    assert ParsedObjectEntries(parsed.Items()) == g.objects.Items() by {
      forall i | 0 <= i < |ks|
        ensures ParsedObjectEntries(parsed.Items())[i] == g.objects.Items()[i]
      {
        assert ks[i] in g.objects.entries;
        assert g.objects.entries[ks[i]] == SceneObject(ks[i], g.objects.entries[ks[i]].attributes);
      }
    }
    PutAllItems(g.objects);
  }

  /**
   * The round trip the viewer relies on: parsing the rendering of a graph
   * whose names are plain gives back its objects exactly (ids, order,
   * attribute lists) and its relationships in order, each id now the text
   * it was rendered as.
   */
  lemma RoundTrip(g: Graph)
    requires RoundTrippable(g)
    ensures ParseGraph(Render(g)) == Graph(g.objects, Relabelled(g.relationships))
  {
    RenderDeclarations(g);
    RenderedObjects(g);
    ParsedRelationReprs(g.relationships);
    assert ToRelationships(AsParsed(g.relationships)) == Relabelled(g.relationships);
  }

  /** So `to_json` of the parsed rendering equals `to_json` of the graph. */
  lemma JsonRoundTrip(g: Graph)
    requires RoundTrippable(g)
    ensures JsonView(ParseGraph(Render(g))) == JsonView(g)
  {
    RoundTrip(g);
    var h := ParseGraph(Render(g));
    var a, b := JsonView(h), JsonView(g);
    assert a.objects.keys == b.objects.keys;
    assert a.objects.entries == b.objects.entries;
    assert a.relationships == b.relationships;
  }

  // ---------------------------------------------------------------------
  // What the round trip needs, shown on small graphs

  /** `[]` reads back as `[""]`: a graph holding an object without attributes does not come back. */
  lemma EmptyAttributesReadBackAsEmptyString(id: string)
    requires Plain(id) && !Contains(id, "obj-")
    ensures ParseObjectDecl(ObjectRepr(SceneObject(id, []))) == Some((id, [""]))
  {
    var x := "obj-" + id;
    var y := "[" + "" + "]";
    assert Join([], ", ") == "";
    assert ObjectRepr(SceneObject(id, [])) == x + [':'] + y;
    DeclHalves(x, y);
    DeclIdRoundTrip("obj-", id);
    BracketsRemoved("");
    var attrs := Split("", ",");
    assert attrs == [""];
    assert StripAll(attrs) == [""];
  }

  /**
   * `parse` keeps a relationship whose endpoints were never declared as
   * objects, where building from records would have created them.
   */
  lemma ParseKeepsUnknownEndpoints()
    ensures var g := Graph(Empty(), [SceneRelationship(Label("0"), "a", "on", "b")]);
            ParseGraph(Render(g)) == g && !EndpointsKnown(ParseGraph(Render(g)))
  {
    var g := Graph(Empty(), [SceneRelationship(Label("0"), "a", "on", "b")]);
    assert "0"[0] != 'r';
    ContainsNeedsFirstChar("0", "rel-");
    assert PlainRelation(g.relationships[0]);
    LabelledRoundTrip(g);
    assert "a" !in g.objects.entries;
  }

  /** A graph whose relationship ids are all text reads back as itself. */
  lemma LabelledRoundTrip(g: Graph)
    requires RoundTrippable(g)
    requires forall j :: 0 <= j < |g.relationships| ==> g.relationships[j].id.Label?
    ensures ParseGraph(Render(g)) == g
  {
    RoundTrip(g);
    assert Relabelled(g.relationships) == g.relationships;
  }
}
