/** CharacterExtractor.create_social_network: the undirected networkx graph
    built from a snapshot's characters and relations. Node keys follow
    Python's hashing (1, 1.0 and true are one key); an edge is keyed by the
    unordered pair of its ends. */
module SocialGraph {
  import opened Errors
  import opened Json

  datatype NodeId = NumId(r: real) | StrId(s: string)

  /** The node key a JSON value becomes: numbers and bools compare as numbers,
      strings as strings; networkx refuses None with a ValueError and a list
      or object is unhashable (TypeError). */
  function ToNodeId(j: Json): Result<NodeId> {
    match j
    case JNum(n) => Ok(NumId(n))
    case JBool(b) => Ok(NumId(if b then 1.0 else 0.0))
    case JStr(s) => Ok(StrId(s))
    case JNull => Err(ValueError)
    case _ => Err(TypeError)
  }

  /** Python's `==` on the JSON values that can be node keys: strings equal
      strings with the same characters and nothing else; numbers and bools
      compare by value, with `True == 1` and `False == 0`. */
  predicate PyEq(a: Json, b: Json) {
    if a.JStr? || b.JStr? then a.JStr? && b.JStr? && a.s == b.s
    else if a.JNum? && b.JNum? then a.n == b.n
    else if a.JBool? && b.JBool? then a.b == b.b
    else if a.JBool? && b.JNum? then b.n == (if a.b then 1.0 else 0.0)
    else if a.JNum? && b.JBool? then a.n == (if b.b then 1.0 else 0.0)
    else a == b
  }

  /** A dictionary of nodes keyed by Python's hash and `==`: the values that
      can be keys are the numbers, bools and strings, and two of them name
      the same node exactly when Python finds them equal. */
  lemma NodeKeysFollowEquality(a: Json, b: Json)
    ensures ToNodeId(a).Ok? <==> a.JNum? || a.JBool? || a.JStr?
    ensures ToNodeId(a).Ok? && ToNodeId(b).Ok? ==> (ToNodeId(a).value == ToNodeId(b).value <==> PyEq(a, b))
  {
  }

  datatype NodeAttrs = NodeAttrs(commonName: Json, mainCharacter: Json)

  datatype EdgeAttrs = EdgeAttrs(weight: real, positivity: Json)

  /** A character as add_node sees it. */
  datatype Character = Character(id: NodeId, attrs: NodeAttrs)

  /** A relation as the edge loop sees it; `positivity` is None when the key
      is absent, which matters only if the relation creates its edge. */
  datatype Relation = Relation(u: NodeId, v: NodeId, weight: real, positivity: Option<Json>)

  function PairOf(r: Relation): set<NodeId> {
    {r.u, r.v}
  }

  /** The graph: nodes in insertion order, the attributes of the nodes that
      add_node created, and the edges with their attributes, keyed by
      unordered pair and listed in creation order. */
  datatype Graph = Graph(
    nodes: seq<NodeId>,
    attrs: map<NodeId, NodeAttrs>,
    edges: map<set<NodeId>, EdgeAttrs>,
    edgeOrder: seq<set<NodeId>>)

  const Empty := Graph([], map[], map[], [])

  /** networkx's own bookkeeping: each node and edge once, attributes and
      edge ends only on nodes of the graph. */
  ghost predicate Valid(g: Graph) {
    && (forall i, j :: 0 <= i < j < |g.nodes| ==> g.nodes[i] != g.nodes[j])
    && (forall x :: x in g.attrs ==> x in g.nodes)
    && (forall i, j :: 0 <= i < j < |g.edgeOrder| ==> g.edgeOrder[i] != g.edgeOrder[j])
    && (forall p :: p in g.edges <==> p in g.edgeOrder)
    && (forall p, x :: p in g.edges && x in p ==> x in g.nodes)
  }

  // ---------------------------------------------------------------------------
  // Reading one character or relation out of the JSON

  /** `character['id']`, `character['common_name']`, `character['main_character']`,
      then add_node hashing the id. */
  function ReadCharacter(j: Json): Result<Character> {
    var id :- Lookup(j, "id");
    var name :- Lookup(j, "common_name");
    var main :- Lookup(j, "main_character");
    var node :- ToNodeId(id);
    Ok(Character(node, NodeAttrs(name, main)))
  }

  /** `relation['id1']`, `relation['id2']`, the two node keys and the numeric
      `relation['weight']`; `relation['positivity']` is kept if present. */
  function ReadRelation(j: Json): Result<Relation> {
    var a :- Lookup(j, "id1");
    var b :- Lookup(j, "id2");
    var u :- ToNodeId(a);
    var v :- ToNodeId(b);
    var w :- Lookup(j, "weight");
    var weight :- if AsNumber(w).Some? then Ok(AsNumber(w).value) else Err(TypeError);
    var positivity := if "positivity" in j.fields then Some(j.fields["positivity"]) else None;
    Ok(Relation(u, v, weight, positivity))
  }

  // ---------------------------------------------------------------------------
  // The graph operations

  function WithNode(nodes: seq<NodeId>, x: NodeId): seq<NodeId> {
    if x in nodes then nodes else nodes + [x]
  }

  /** `G.add_node(id, common_name=..., main_character=...)`: a new node goes
      last; an existing one keeps its place and takes the new attributes. */
  function AddNode(g: Graph, c: Character): Graph {
    g.(nodes := WithNode(g.nodes, c.id), attrs := g.attrs[c.id := c.attrs])
  }

  /** One pass of the relation loop: an existing edge gains the relation's
      weight; otherwise an edge of weight + 1 and the relation's positivity
      is created (a KeyError when positivity is missing), adding any end that
      is not yet a node without attributes. */
  function AddRelation(g: Graph, r: Relation): Result<Graph> {
    var p := PairOf(r);
    if p in g.edges then
      Ok(g.(edges := g.edges[p := g.edges[p].(weight := g.edges[p].weight + r.weight)]))
    else if r.positivity.None? then
      Err(KeyError)
    else
      Ok(Graph(WithNode(WithNode(g.nodes, r.u), r.v), g.attrs,
               g.edges[p := EdgeAttrs(r.weight + 1.0, r.positivity.value)], g.edgeOrder + [p]))
  }

  // ---------------------------------------------------------------------------
  // The two loops, as functions of the remaining input

  function AddCharacters(g: Graph, cs: seq<Json>): Result<Graph>
    decreases |cs|
  {
    if cs == [] then Ok(g)
    else
      var c :- ReadCharacter(cs[0]);
      AddCharacters(AddNode(g, c), cs[1..])
  }

  function AddRelations(g: Graph, rs: seq<Json>): Result<Graph>
    decreases |rs|
  {
    if rs == [] then Ok(g)
    else
      var r :- ReadRelation(rs[0]);
      var g' :- AddRelation(g, r);
      AddRelations(g', rs[1..])
  }

  /** create_social_network on a snapshot that passed process_text's check. */
  function BuildGraph(data: Json): (r: Result<Graph>)
    requires IsSnapshotShape(data)
  {
    var g :- AddCharacters(Empty, data.fields["characters"].items);
    AddRelations(g, data.fields["relations"].items)
  }

  /** create_social_network as the loops that change the graph. */
  method CreateSocialNetwork(data: Json) returns (r: Result<Graph>)
    requires IsSnapshotShape(data)
    ensures r == BuildGraph(data)
  {
    var g := AddCharacterNodes(data.fields["characters"].items);
    if g.Err? {
      return g;
    }
    r := AddRelationEdges(g.value, data.fields["relations"].items);
  }

  /** `for character in data['characters']: G.add_node(...)` */
  method AddCharacterNodes(characters: seq<Json>) returns (r: Result<Graph>)
    ensures r == AddCharacters(Empty, characters)
  {
    var g := Empty;
    var i := 0;
    while i < |characters|
      invariant 0 <= i <= |characters|
      invariant AddCharacters(Empty, characters) == AddCharacters(g, characters[i..])
    {
      assert characters[i..][1..] == characters[i + 1..];
      var c := ReadCharacter(characters[i]);
      if c.Err? {
        return Err(c.error);
      }
      g := AddNode(g, c.value);
      i := i + 1;
    }
    r := Ok(g);
  }

  /** `for relation in data['relations']:` adding to an edge's weight or
      creating the edge. */
  method AddRelationEdges(g: Graph, relations: seq<Json>) returns (r: Result<Graph>)
    ensures r == AddRelations(g, relations)
  {
    var nodes, attrs, edges, edgeOrder := g.nodes, g.attrs, g.edges, g.edgeOrder;
    var j := 0;
    while j < |relations|
      invariant 0 <= j <= |relations|
      invariant AddRelations(g, relations) == AddRelations(Graph(nodes, attrs, edges, edgeOrder), relations[j..])
    {
      assert relations[j..][1..] == relations[j + 1..];
      var rel := ReadRelation(relations[j]);
      if rel.Err? {
        return Err(rel.error);
      }
      var next := ApplyRelation(Graph(nodes, attrs, edges, edgeOrder), rel.value);
      if next.Err? {
        return Err(next.error);
      }
      nodes, attrs, edges, edgeOrder := next.value.nodes, next.value.attrs, next.value.edges, next.value.edgeOrder;
      j := j + 1;
    }
    r := Ok(Graph(nodes, attrs, edges, edgeOrder));
  }

  /** The body of the relation loop: `G.has_edge`, then either `+=` on the
      edge's weight or `G.add_edge` with weight + 1 and the positivity. */
  method ApplyRelation(g: Graph, x: Relation) returns (r: Result<Graph>)
    ensures r == AddRelation(g, x)
  {
    var nodes, edges, edgeOrder := g.nodes, g.edges, g.edgeOrder;
    var pair := PairOf(x);
    if pair in edges {
      edges := edges[pair := edges[pair].(weight := edges[pair].weight + x.weight)];
    } else {
      if x.positivity.None? {
        return Err(KeyError);
      }
      nodes := WithNode(WithNode(nodes, x.u), x.v);
      edges := edges[pair := EdgeAttrs(x.weight + 1.0, x.positivity.value)];
      edgeOrder := edgeOrder + [pair];
    }
    r := Ok(Graph(nodes, g.attrs, edges, edgeOrder));
  }

  // ---------------------------------------------------------------------------
  // The same folds over already-read characters and relations

  function ReadCharacters(js: seq<Json>): Result<seq<Character>> {
    if js == [] then Ok([])
    else
      var c :- ReadCharacter(js[0]);
      var rest :- ReadCharacters(js[1..]);
      Ok([c] + rest)
  }

  function ReadRelations(js: seq<Json>): Result<seq<Relation>> {
    if js == [] then Ok([])
    else
      var r :- ReadRelation(js[0]);
      var rest :- ReadRelations(js[1..]);
      Ok([r] + rest)
  }

  function AddNodes(g: Graph, cs: seq<Character>): Graph
    decreases |cs|
  {
    if cs == [] then g else AddNodes(AddNode(g, cs[0]), cs[1..])
  }

  function AddEdges(g: Graph, rs: seq<Relation>): Result<Graph>
    decreases |rs|
  {
    if rs == [] then Ok(g)
    else
      var g' :- AddRelation(g, rs[0]);
      AddEdges(g', rs[1..])
  }

  /** The character loop reads every character and, if all are well formed,
      adds them in order; the first malformed one decides the error. */
  lemma {:induction false} AddCharactersReads(g: Graph, js: seq<Json>)
    ensures AddCharacters(g, js).Ok? <==> ReadCharacters(js).Ok?
    ensures AddCharacters(g, js).Ok? ==> AddCharacters(g, js).value == AddNodes(g, ReadCharacters(js).value)
    ensures AddCharacters(g, js).Err? ==> AddCharacters(g, js).error == ReadCharacters(js).error
    decreases |js|
  {
    if js != [] && ReadCharacter(js[0]).Ok? {
      var c := ReadCharacter(js[0]).value;
      AddCharactersReads(AddNode(g, c), js[1..]);
      if ReadCharacters(js[1..]).Ok? {
        var rest := ReadCharacters(js[1..]).value;
        assert ([c] + rest)[1..] == rest;
      }
    }
  }

  /** A relation loop that finishes has read every relation, and its graph is
      the fold of those relations. */
  lemma {:induction false} AddRelationsReads(g: Graph, js: seq<Json>)
    requires AddRelations(g, js).Ok?
    ensures ReadRelations(js).Ok?
    ensures AddEdges(g, ReadRelations(js).value) == AddRelations(g, js)
    decreases |js|
  {
    if js != [] {
      var r := ReadRelation(js[0]).value;
      var g' := AddRelation(g, r).value;
      AddRelationsReads(g', js[1..]);
      var rest := ReadRelations(js[1..]).value;
      assert ([r] + rest)[1..] == rest;
    }
  }

  // ---------------------------------------------------------------------------
  // What the character loop builds

  function Ids(cs: seq<Character>): set<NodeId> {
    set k | 0 <= k < |cs| :: cs[k].id
  }

  /** No later character has the same id as character k. */
  ghost predicate LastWithId(cs: seq<Character>, k: int)
    requires 0 <= k < |cs|
  {
    forall k' :: k < k' < |cs| ==> cs[k'].id != cs[k].id
  }

  lemma WithNodeFacts(nodes: seq<NodeId>, x: NodeId)
    ensures x in WithNode(nodes, x)
    ensures forall y :: y in WithNode(nodes, x) <==> y in nodes || y == x
    ensures (forall i, j :: 0 <= i < j < |nodes| ==> nodes[i] != nodes[j]) ==>
              forall i, j :: 0 <= i < j < |WithNode(nodes, x)| ==> WithNode(nodes, x)[i] != WithNode(nodes, x)[j]
  {
  }

  lemma AddNodeValid(g: Graph, c: Character)
    requires Valid(g)
    ensures Valid(AddNode(g, c))
  {
    WithNodeFacts(g.nodes, c.id);
  }

  lemma IdsCons(cs: seq<Character>)
    requires cs != []
    ensures Ids(cs) == {cs[0].id} + Ids(cs[1..])
  {
    var rest := cs[1..];
    forall x | x in Ids(cs) ensures x in {cs[0].id} + Ids(rest) {
      var k :| 0 <= k < |cs| && cs[k].id == x;
      if k > 0 { assert rest[k - 1].id == x; }
    }
    forall x | x in Ids(rest) ensures x in Ids(cs) {
      var k :| 0 <= k < |rest| && rest[k].id == x;
      assert cs[k + 1].id == x;
    }
  }

  /** The character loop keeps the graph well formed and touches no edge. */
  lemma {:induction false} AddNodesValid(g: Graph, cs: seq<Character>)
    requires Valid(g)
    ensures Valid(AddNodes(g, cs))
    ensures AddNodes(g, cs).edges == g.edges && AddNodes(g, cs).edgeOrder == g.edgeOrder
    decreases |cs|
  {
    if cs != [] {
      AddNodeValid(g, cs[0]);
      AddNodesValid(AddNode(g, cs[0]), cs[1..]);
    }
  }

  /** After the character loop, the nodes with attributes are the old ones and
      the characters' ids, and the nodes are the old nodes and those ids. */
  lemma {:induction false} AddNodesKeys(g: Graph, cs: seq<Character>)
    ensures AddNodes(g, cs).attrs.Keys == g.attrs.Keys + Ids(cs)
    ensures forall x :: x in AddNodes(g, cs).nodes <==> x in g.nodes || x in Ids(cs)
    decreases |cs|
  {
    if cs != [] {
      WithNodeFacts(g.nodes, cs[0].id);
      AddNodesKeys(AddNode(g, cs[0]), cs[1..]);
      IdsCons(cs);
    }
  }

  /** A node that no character names keeps its attributes. */
  lemma {:induction false} AddNodesKeep(g: Graph, cs: seq<Character>)
    ensures forall x :: x in g.attrs && x !in Ids(cs) ==>
              (x in AddNodes(g, cs).attrs && AddNodes(g, cs).attrs[x] == g.attrs[x])
    decreases |cs|
  {
    if cs != [] {
      AddNodesKeep(AddNode(g, cs[0]), cs[1..]);
      IdsCons(cs);
    }
  }

  /** Each character's id carries the attributes of the last character with
      that id. */
  lemma {:induction false} AddNodesLast(g: Graph, cs: seq<Character>)
    ensures forall k :: 0 <= k < |cs| && LastWithId(cs, k) ==>
              (cs[k].id in AddNodes(g, cs).attrs && AddNodes(g, cs).attrs[cs[k].id] == cs[k].attrs)
    decreases |cs|
  {
    if cs != [] {
      var g1 := AddNode(g, cs[0]);
      var rest := cs[1..];
      AddNodesLast(g1, rest);
      AddNodesKeep(g1, rest);
      AddNodesKeys(g1, rest);
      var final := AddNodes(g, cs);
      forall k | 0 <= k < |cs| && LastWithId(cs, k)
        ensures cs[k].id in final.attrs && final.attrs[cs[k].id] == cs[k].attrs
      {
        if k > 0 {
          assert rest[k - 1] == cs[k];
          assert LastWithId(rest, k - 1);
        } else {
          assert cs[0].id !in Ids(rest) by {
            forall x | x in Ids(rest) ensures x != cs[0].id {
              var k' :| 0 <= k' < |rest| && rest[k'].id == x;
              assert cs[k' + 1] == rest[k'];
            }
          }
        }
      }
    }
  }

  // ---------------------------------------------------------------------------
  // What the relation loop builds

  function Pairs(rs: seq<Relation>): set<set<NodeId>> {
    set k | 0 <= k < |rs| :: PairOf(rs[k])
  }

  function Ends(rs: seq<Relation>): set<NodeId> {
    set k, x | 0 <= k < |rs| && x in PairOf(rs[k]) :: x
  }

  /** The sum of the weights of the relations on pair p. */
  function SumWeights(rs: seq<Relation>, p: set<NodeId>): real {
    if rs == [] then 0.0
    else (if PairOf(rs[0]) == p then rs[0].weight else 0.0) + SumWeights(rs[1..], p)
  }

  /** No earlier relation shares the pair of relation k. */
  ghost predicate FirstOnPair(rs: seq<Relation>, k: int)
    requires 0 <= k < |rs|
  {
    forall k' :: 0 <= k' < k ==> PairOf(rs[k']) != PairOf(rs[k])
  }

  lemma PairsCons(rs: seq<Relation>)
    requires rs != []
    ensures Pairs(rs) == {PairOf(rs[0])} + Pairs(rs[1..])
    ensures Ends(rs) == PairOf(rs[0]) + Ends(rs[1..])
  {
    var rest := rs[1..];
    forall p | p in Pairs(rs) ensures p in {PairOf(rs[0])} + Pairs(rest) {
      var k :| 0 <= k < |rs| && PairOf(rs[k]) == p;
      if k > 0 { assert PairOf(rest[k - 1]) == p; }
    }
    forall p | p in Pairs(rest) ensures p in Pairs(rs) {
      var k :| 0 <= k < |rest| && PairOf(rest[k]) == p;
      assert PairOf(rs[k + 1]) == p;
    }
    forall x | x in Ends(rs) ensures x in PairOf(rs[0]) + Ends(rest) {
      var k :| 0 <= k < |rs| && x in PairOf(rs[k]);
      if k > 0 { assert x in PairOf(rest[k - 1]); }
    }
    forall x | x in Ends(rest) ensures x in Ends(rs) {
      var k :| 0 <= k < |rest| && x in PairOf(rest[k]);
      assert x in PairOf(rs[k + 1]);
    }
    forall x | x in PairOf(rs[0]) ensures x in Ends(rs) {
      assert x in PairOf(rs[0]);
    }
  }

  lemma AddRelationValid(g: Graph, r: Relation)
    requires Valid(g) && AddRelation(g, r).Ok?
    ensures Valid(AddRelation(g, r).value)
  {
    var p := PairOf(r);
    if p !in g.edges {
      WithNodeFacts(g.nodes, r.u);
      WithNodeFacts(WithNode(g.nodes, r.u), r.v);
      var g' := AddRelation(g, r).value;
      assert forall q :: q in g'.edges <==> q in g.edges || q == p;
      assert forall q :: q in g'.edgeOrder <==> q in g.edgeOrder || q == p;
    }
  }

  lemma AddRelationShape(g: Graph, r: Relation)
    requires AddRelation(g, r).Ok?
    ensures AddRelation(g, r).value.attrs == g.attrs
    ensures forall x :: x in AddRelation(g, r).value.nodes ==> x in g.nodes || x in PairOf(r)
    ensures Valid(g) ==> forall x :: x in g.nodes || x in PairOf(r) ==> x in AddRelation(g, r).value.nodes
    ensures AddRelation(g, r).value.edges.Keys == g.edges.Keys + {PairOf(r)}
  {
    WithNodeFacts(g.nodes, r.u);
    WithNodeFacts(WithNode(g.nodes, r.u), r.v);
    var p := PairOf(r);
    assert AddRelation(g, r).value.edges.Keys == g.edges.Keys + {p} by {
      if p in g.edges {
        assert AddRelation(g, r).value.edges == g.edges[p := g.edges[p].(weight := g.edges[p].weight + r.weight)];
      }
    }
  }

  /** The relation loop keeps the graph well formed. */
  lemma {:induction false} AddEdgesValid(g: Graph, rs: seq<Relation>)
    requires Valid(g) && AddEdges(g, rs).Ok?
    ensures Valid(AddEdges(g, rs).value)
    decreases |rs|
  {
    if rs != [] {
      AddRelationValid(g, rs[0]);
      AddEdgesValid(AddRelation(g, rs[0]).value, rs[1..]);
    }
  }

  /** The relation loop leaves the node attributes alone, adds every
      relation's ends as nodes and every relation's pair as an edge. */
  lemma {:induction false} AddEdgesShape(g: Graph, rs: seq<Relation>)
    requires AddEdges(g, rs).Ok?
    ensures AddEdges(g, rs).value.attrs == g.attrs
    ensures forall x :: x in AddEdges(g, rs).value.nodes ==> x in g.nodes || x in Ends(rs)
    ensures AddEdges(g, rs).value.edges.Keys == g.edges.Keys + Pairs(rs)
    decreases |rs|
  {
    if rs != [] {
      var g1 := AddRelation(g, rs[0]).value;
      AddRelationShape(g, rs[0]);
      AddEdgesShape(g1, rs[1..]);
      PairsCons(rs);
    }
  }

  /** In a well-formed graph the relation loop keeps every node and adds
      every relation's ends. */
  lemma {:induction false} AddEdgesNodes(g: Graph, rs: seq<Relation>)
    requires Valid(g) && AddEdges(g, rs).Ok?
    ensures forall x :: x in g.nodes || x in Ends(rs) ==> x in AddEdges(g, rs).value.nodes
    decreases |rs|
  {
    if rs != [] {
      var g1 := AddRelation(g, rs[0]).value;
      AddRelationShape(g, rs[0]);
      AddRelationValid(g, rs[0]);
      AddEdgesNodes(g1, rs[1..]);
      PairsCons(rs);
    }
  }

  /** Each edge weighs 1 plus the weights of all relations on its pair (or,
      for an edge already present, its old weight plus those weights). */
  lemma {:induction false} AddEdgesWeights(g: Graph, rs: seq<Relation>)
    requires AddEdges(g, rs).Ok?
    ensures forall p :: p in AddEdges(g, rs).value.edges ==>
              AddEdges(g, rs).value.edges[p].weight
                == (if p in g.edges then g.edges[p].weight else 1.0) + SumWeights(rs, p)
    decreases |rs|
  {
    if rs != [] {
      var g1 := AddRelation(g, rs[0]).value;
      AddEdgesWeights(g1, rs[1..]);
    }
  }

  /** An edge takes the positivity of the first relation on its pair; later
      relations leave it unchanged. */
  lemma {:induction false} AddEdgesPositivity(g: Graph, rs: seq<Relation>)
    requires AddEdges(g, rs).Ok?
    ensures forall p :: p in g.edges ==>
              (p in AddEdges(g, rs).value.edges &&
               AddEdges(g, rs).value.edges[p].positivity == g.edges[p].positivity)
    ensures forall k :: 0 <= k < |rs| && FirstOnPair(rs, k) && PairOf(rs[k]) !in g.edges ==>
              (PairOf(rs[k]) in AddEdges(g, rs).value.edges &&
               rs[k].positivity == Some(AddEdges(g, rs).value.edges[PairOf(rs[k])].positivity))
    decreases |rs|
  {
    if rs != [] {
      var g1 := AddRelation(g, rs[0]).value;
      var rest := rs[1..];
      AddEdgesPositivity(g1, rest);
      var final := AddEdges(g, rs).value;
      forall k | 0 <= k < |rs| && FirstOnPair(rs, k) && PairOf(rs[k]) !in g.edges
        ensures PairOf(rs[k]) in final.edges && rs[k].positivity == Some(final.edges[PairOf(rs[k])].positivity)
      {
        if k > 0 {
          assert rest[k - 1] == rs[k];
          assert PairOf(rs[0]) != PairOf(rs[k]);
          assert FirstOnPair(rest, k - 1) by {
            forall k' | 0 <= k' < k - 1 ensures PairOf(rest[k']) != PairOf(rest[k - 1]) {
              assert rest[k'] == rs[k' + 1];
            }
          }
        }
      }
    }
  }

  /** The relation loop adds at most one edge per relation. */
  lemma {:induction false} AddEdgesCount(g: Graph, rs: seq<Relation>)
    requires AddEdges(g, rs).Ok?
    ensures |AddEdges(g, rs).value.edges| <= |g.edges| + |rs|
    decreases |rs|
  {
    if rs != [] {
      var g1 := AddRelation(g, rs[0]).value;
      AddEdgesCount(g1, rs[1..]);
    }
  }

  /** Starting without that pair's edge, the relation loop fails exactly when
      some relation creates an edge without a positivity, and then with a KeyError. */
  lemma {:induction false} AddEdgesFailure(g: Graph, rs: seq<Relation>)
    ensures AddEdges(g, rs).Err? <==>
              exists k :: 0 <= k < |rs| && FirstOnPair(rs, k) && PairOf(rs[k]) !in g.edges && rs[k].positivity.None?
    ensures AddEdges(g, rs).Err? ==> AddEdges(g, rs).error == KeyError
    decreases |rs|
  {
    if rs != [] {
      var rest := rs[1..];
      var r := rs[0];
      if PairOf(r) !in g.edges && r.positivity.None? {
        assert FirstOnPair(rs, 0);
      } else {
        var g1 := AddRelation(g, r).value;
        AddEdgesFailure(g1, rest);
        if AddEdges(g1, rest).Err? {
          var k :| 0 <= k < |rest| && FirstOnPair(rest, k) && PairOf(rest[k]) !in g1.edges && rest[k].positivity.None?;
          assert rs[k + 1] == rest[k];
          assert PairOf(rs[k + 1]) != PairOf(r);
          assert FirstOnPair(rs, k + 1) by {
            forall k' | 0 <= k' < k + 1 ensures PairOf(rs[k']) != PairOf(rs[k + 1]) {
              if k' > 0 { assert rs[k'] == rest[k' - 1]; }
            }
          }
        } else {
          forall k | 0 <= k < |rs| && FirstOnPair(rs, k) && PairOf(rs[k]) !in g.edges
            ensures rs[k].positivity.Some?
          {
            if k > 0 {
              assert rs[k] == rest[k - 1];
              assert PairOf(rs[0]) != PairOf(rs[k]);
              assert FirstOnPair(rest, k - 1) by {
                forall k' | 0 <= k' < k - 1 ensures PairOf(rest[k']) != PairOf(rest[k - 1]) {
                  assert rest[k'] == rs[k' + 1];
                }
              }
            }
          }
        }
      }
    }
  }

  // ---------------------------------------------------------------------------
  // The built graph

  lemma EmptyValid()
    ensures Valid(Empty)
  {
  }

  function Characters(data: Json): Result<seq<Character>>
    requires IsSnapshotShape(data)
  {
    ReadCharacters(data.fields["characters"].items)
  }

  function Relations(data: Json): Result<seq<Relation>>
    requires IsSnapshotShape(data)
  {
    ReadRelations(data.fields["relations"].items)
  }

  /** A snapshot that create_social_network accepts has well-formed
      characters and relations, and its graph is their fold. */
  lemma BuildGraphFolds(data: Json)
    requires IsSnapshotShape(data) && BuildGraph(data).Ok?
    ensures Characters(data).Ok? && Relations(data).Ok?
    ensures AddEdges(AddNodes(Empty, Characters(data).value), Relations(data).value) == BuildGraph(data)
  {
    var chars := data.fields["characters"].items;
    AddCharactersReads(Empty, chars);
    AddRelationsReads(AddNodes(Empty, ReadCharacters(chars).value), data.fields["relations"].items);
  }

  /** The nodes of the graph create_social_network returns: the characters'
      ids are exactly the nodes with attributes, each carrying those of the
      last character with that id, and the other nodes are the relation ends
      no character names. */
  lemma BuiltNodes(data: Json)
    requires IsSnapshotShape(data) && BuildGraph(data).Ok?
    ensures Characters(data).Ok? && Relations(data).Ok?
    ensures Valid(BuildGraph(data).value)
    ensures BuildGraph(data).value.attrs.Keys == Ids(Characters(data).value)
    ensures forall k :: 0 <= k < |Characters(data).value| && LastWithId(Characters(data).value, k) ==>
              BuildGraph(data).value.attrs[Characters(data).value[k].id] == Characters(data).value[k].attrs
    ensures forall x :: x in BuildGraph(data).value.nodes <==>
              x in Ids(Characters(data).value) || x in Ends(Relations(data).value)
  {
    BuildGraphFolds(data);
    var cs := Characters(data).value;
    var g0 := AddNodes(Empty, cs);
    EmptyValid();
    AddNodesValid(Empty, cs);
    AddNodesKeys(Empty, cs);
    AddNodesLast(Empty, cs);
    AddEdgesValid(g0, Relations(data).value);
    AddEdgesShape(g0, Relations(data).value);
    AddEdgesNodes(g0, Relations(data).value);
  }

  /** The edges of the graph create_social_network returns: every relation's
      pair is an edge and every edge is a relation's pair, weighing 1 plus
      the weights of the relations on it, with the positivity of the first;
      there are no more edges than relations. */
  lemma BuiltEdges(data: Json)
    requires IsSnapshotShape(data) && BuildGraph(data).Ok?
    ensures Characters(data).Ok? && Relations(data).Ok?
    ensures BuildGraph(data).value.edges.Keys == Pairs(Relations(data).value)
    ensures forall p :: p in BuildGraph(data).value.edges ==>
              BuildGraph(data).value.edges[p].weight == 1.0 + SumWeights(Relations(data).value, p)
    ensures forall k :: 0 <= k < |Relations(data).value| && FirstOnPair(Relations(data).value, k) ==>
              Relations(data).value[k].positivity
                == Some(BuildGraph(data).value.edges[PairOf(Relations(data).value[k])].positivity)
    ensures |BuildGraph(data).value.edges| <= |Relations(data).value|
  {
    BuildGraphFolds(data);
    var g0 := AddNodes(Empty, Characters(data).value);
    var rs := Relations(data).value;
    AddNodesValid(Empty, Characters(data).value);
    AddEdgesShape(g0, rs);
    AddEdgesWeights(g0, rs);
    AddEdgesPositivity(g0, rs);
    AddEdgesCount(g0, rs);
  }

  /** A graph is plotted only if every node has attributes: that holds
      exactly when every relation's ends are ids of characters. */
  lemma AllNodesHaveAttributes(data: Json)
    requires IsSnapshotShape(data) && BuildGraph(data).Ok?
    ensures Characters(data).Ok? && Relations(data).Ok?
    ensures (forall x :: x in BuildGraph(data).value.nodes ==> x in BuildGraph(data).value.attrs)
        <==> Ends(Relations(data).value) <= Ids(Characters(data).value)
  {
    BuiltNodes(data);
  }
}
