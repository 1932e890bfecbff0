/** CharacterExtractor.plot_network, up to the drawing calls: the colour and
    size of each node and the width and colour of each edge that it hands
    to networkx's drawing functions, and the exceptions it raises on the way. */
module Plotting {
  import opened Errors
  import opened Json
  import opened SocialGraph

  const MainColor := "#FF6B6B"     // coral, for main characters
  const SupportColor := "#4ECDC4"  // turquoise, for the others
  const MainSize := 2000
  const SupportSize := 1000
  const MaxWidth := 20.0
  const Threshold := 0.1           // positivity beyond which a relation is not neutral

  /** What the drawing calls receive: one colour and size per node, in node
      order, and one width and colour per edge, in edge order. */
  datatype Styling = Styling(
    nodeColors: seq<string>,
    nodeSizes: seq<int>,
    edgeWidths: seq<real>,
    edgeColors: seq<string>)

  function NodeColor(main: Json): string {
    if Truthy(main) then MainColor else SupportColor
  }

  function NodeSize(main: Json): int {
    if Truthy(main) then MainSize else SupportSize
  }

  /** Red below -0.1, green above 0.1, grey in between (both ends included). */
  function EdgeColor(positivity: real): string {
    if positivity < -Threshold then "red"
    else if positivity > Threshold then "green"
    else "grey"
  }

  /** `G.nodes[node]['main_character']` when the node has attributes. */
  function MainOf(g: Graph, x: NodeId): Json {
    if x in g.attrs then g.attrs[x].mainCharacter else JNull
  }

  /** Whether every node has attributes, so that `G.nodes[node]['main_character']`
      raises no KeyError. */
  predicate AllAttributed(g: Graph) {
    forall x :: x in g.nodes ==> x in g.attrs
  }

  /** Every edge listed in edge order has attributes, as in any networkx graph. */
  predicate EdgesListed(g: Graph) {
    forall k :: 0 <= k < |g.edgeOrder| ==> g.edgeOrder[k] in g.edges
  }

  lemma ValidListed(g: Graph)
    requires Valid(g)
    ensures EdgesListed(g)
  {
  }

  /** The graph of a snapshot lists each of its edges. */
  lemma BuiltListed(data: Json)
    requires IsSnapshotShape(data) && BuildGraph(data).Ok?
    ensures EdgesListed(BuildGraph(data).value)
  {
    BuiltNodes(data);
  }

  /** `[G[u][v]['weight'] for u, v in G.edges()]` */
  function Weights(g: Graph): seq<real>
    requires EdgesListed(g)
  {
    seq(|g.edgeOrder|, k requires 0 <= k < |g.edgeOrder| => g.edges[g.edgeOrder[k]].weight)
  }

  function Positivities(g: Graph): seq<Json>
    requires EdgesListed(g)
  {
    seq(|g.edgeOrder|, k requires 0 <= k < |g.edgeOrder| => g.edges[g.edgeOrder[k]].positivity)
  }

  function NodeColors(g: Graph): seq<string> {
    seq(|g.nodes|, k requires 0 <= k < |g.nodes| => NodeColor(MainOf(g, g.nodes[k])))
  }

  function NodeSizes(g: Graph): seq<int> {
    seq(|g.nodes|, k requires 0 <= k < |g.nodes| => NodeSize(MainOf(g, g.nodes[k])))
  }

  /** `[20 * (w / max_weight) for w in edge_weights]` */
  function Widths(ws: seq<real>, m: real): seq<real>
    requires m != 0.0
  {
    seq(|ws|, k requires 0 <= k < |ws| => MaxWidth * (ws[k] / m))
  }

  function EdgeColors(ps: seq<Json>): seq<string> {
    seq(|ps|, k requires 0 <= k < |ps| => EdgeColor(NumOf(ps[k])))
  }

  /** Python's `max` of a non-empty list. */
  function Max(xs: seq<real>): (m: real)
    requires xs != []
    ensures m in xs
    ensures forall x :: x in xs ==> x <= m
  {
    if |xs| == 1 then xs[0]
    else
      var rest := Max(xs[1..]);
      assert forall x :: x in xs ==> x == xs[0] || x in xs[1..];
      if xs[0] >= rest then xs[0] else rest
  }

  /** The divisor of the widths: the largest weight, or 1 without edges. */
  function MaxWeight(ws: seq<real>): real {
    if ws == [] then 1.0 else Max(ws)
  }

  /** The numeric value of a positivity the comparisons accept. */
  function NumOf(j: Json): real {
    if AsNumber(j).Some? then AsNumber(j).value else 0.0
  }

  predicate AllNumeric(ps: seq<Json>) {
    forall k :: 0 <= k < |ps| ==> AsNumber(ps[k]).Some?
  }

  /** plot_network's styling of a graph: a KeyError from a node without
      attributes comes first, then a ZeroDivisionError from a largest weight
      of zero, then a TypeError from a positivity that cannot be compared
      with a number. */
  function Styles(g: Graph): (r: Result<Styling>)
    requires EdgesListed(g)
  {
    if !AllAttributed(g) then Err(KeyError)
    else if MaxWeight(Weights(g)) == 0.0 then Err(ZeroDivisionError)
    else if !AllNumeric(Positivities(g)) then Err(TypeError)
    else Ok(Styling(NodeColors(g), NodeSizes(g), Widths(Weights(g), MaxWeight(Weights(g))),
                    EdgeColors(Positivities(g))))
  }

  /** plot_network's two loops and the width list between them. */
  method PlotNetwork(g: Graph) returns (r: Result<Styling>)
    requires EdgesListed(g)
    ensures r == Styles(g)
  {
    var nodeColors: seq<string> := [];
    var nodeSizes: seq<int> := [];
    var i := 0;
    while i < |g.nodes|
      invariant 0 <= i <= |g.nodes|
      invariant forall k :: 0 <= k < i ==> g.nodes[k] in g.attrs
      invariant nodeColors == seq(i, k requires 0 <= k < i => NodeColor(MainOf(g, g.nodes[k])))
      invariant nodeSizes == seq(i, k requires 0 <= k < i => NodeSize(MainOf(g, g.nodes[k])))
    {
      if g.nodes[i] !in g.attrs {
        assert !AllAttributed(g);
        return Err(KeyError);
      }
      if Truthy(g.attrs[g.nodes[i]].mainCharacter) {
        nodeColors := nodeColors + [MainColor];
        nodeSizes := nodeSizes + [MainSize];
      } else {
        nodeColors := nodeColors + [SupportColor];
        nodeSizes := nodeSizes + [SupportSize];
      }
      i := i + 1;
    }
    assert AllAttributed(g) by {
      forall x | x in g.nodes ensures x in g.attrs {
        var k :| 0 <= k < |g.nodes| && g.nodes[k] == x;
      }
    }
    var weights := Weights(g);
    var maxWeight := if weights != [] then Max(weights) else 1.0;
    assert maxWeight == MaxWeight(weights);
    if maxWeight == 0.0 {
      return Err(ZeroDivisionError);
    }
    var widths := Widths(weights, maxWeight);
    var positivities := Positivities(g);
    var edgeColors: seq<string> := [];
    var j := 0;
    while j < |positivities|
      invariant 0 <= j <= |positivities|
      invariant forall k :: 0 <= k < j ==> AsNumber(positivities[k]).Some?
      invariant edgeColors == seq(j, k requires 0 <= k < j => EdgeColor(NumOf(positivities[k])))
    {
      var p := AsNumber(positivities[j]);
      if p.None? {
        assert !AllNumeric(positivities);
        return Err(TypeError);
      }
      assert NumOf(positivities[j]) == p.value;
      if p.value < -Threshold {
        edgeColors := edgeColors + ["red"];
      } else if p.value > Threshold {
        edgeColors := edgeColors + ["green"];
      } else {
        edgeColors := edgeColors + ["grey"];
      }
      j := j + 1;
    }
    assert AllNumeric(positivities);
    assert NodeColors(g) == nodeColors && NodeSizes(g) == nodeSizes;
    assert EdgeColors(positivities) == edgeColors;
    r := Ok(Styling(nodeColors, nodeSizes, widths, edgeColors));
  }

  // ---------------------------------------------------------------------------
  // Properties of the styling

  /** Both directions of the edge colour rule. */
  lemma EdgeColorRule(p: real)
    ensures EdgeColor(p) == "red" <==> p < -0.1
    ensures EdgeColor(p) == "green" <==> p > 0.1
    ensures EdgeColor(p) == "grey" <==> -0.1 <= p <= 0.1
  {
  }

  /** A styled graph has one colour and one size per node: the coral colour
      and size 2000 exactly for main characters, turquoise and 1000 for the
      rest; and one width and one colour per edge. */
  lemma NodeStyling(g: Graph)
    requires Valid(g) && Styles(g).Ok?
    ensures |Styles(g).value.nodeColors| == |Styles(g).value.nodeSizes| == |g.nodes|
    ensures |Styles(g).value.edgeWidths| == |Styles(g).value.edgeColors| == |g.edges|
    ensures forall k :: 0 <= k < |g.nodes| ==> g.nodes[k] in g.attrs
    ensures forall k :: 0 <= k < |g.nodes| ==>
              (Styles(g).value.nodeColors[k] == MainColor <==> Truthy(g.attrs[g.nodes[k]].mainCharacter))
    ensures forall k :: 0 <= k < |g.nodes| ==>
              (Styles(g).value.nodeColors[k] == MainColor <==> Styles(g).value.nodeSizes[k] == MainSize)
    ensures forall k :: 0 <= k < |g.nodes| ==>
              Styles(g).value.nodeColors[k] in {MainColor, SupportColor} &&
              Styles(g).value.nodeSizes[k] in {MainSize, SupportSize}
  {
    EdgeOrderCount(g);
  }

  /** Edge order lists each edge once, so there are as many of them as edges. */
  lemma EdgeOrderCount(g: Graph)
    requires Valid(g)
    ensures |g.edgeOrder| == |g.edges|
  {
    var keys := set k | 0 <= k < |g.edgeOrder| :: g.edgeOrder[k];
    assert keys == g.edges.Keys;
    DistinctCard(g.edgeOrder);
  }

  lemma {:induction false} DistinctCard<T>(s: seq<T>)
    requires forall i, j :: 0 <= i < j < |s| ==> s[i] != s[j]
    ensures |set k | 0 <= k < |s| :: s[k]| == |s|
  {
    if s != [] {
      var rest := s[1..];
      DistinctCard(rest);
      var all := set k | 0 <= k < |s| :: s[k];
      var tail := set k | 0 <= k < |rest| :: rest[k];
      assert all == {s[0]} + tail by {
        forall x | x in all ensures x in {s[0]} + tail {
          var k :| 0 <= k < |s| && s[k] == x;
          if k > 0 { assert rest[k - 1] == x; }
        }
        forall x | x in tail ensures x in all {
          var k :| 0 <= k < |rest| && rest[k] == x;
          assert s[k + 1] == x;
        }
      }
      assert s[0] !in tail by {
        forall x | x in tail ensures x != s[0] {
          var k :| 0 <= k < |rest| && rest[k] == x;
          assert s[k + 1] == x;
        }
      }
    }
  }

  /** With positive weights every width lies in (0, 20], and an edge is drawn
      at the full width 20 exactly when it is one of the heaviest. */
  lemma WidthScale(g: Graph)
    requires Valid(g) && Styles(g).Ok?
    requires forall k :: 0 <= k < |Weights(g)| ==> Weights(g)[k] > 0.0
    ensures forall k :: 0 <= k < |Weights(g)| ==>
              0.0 < Styles(g).value.edgeWidths[k] <= MaxWidth
    ensures forall k :: 0 <= k < |Weights(g)| ==>
              (Styles(g).value.edgeWidths[k] == MaxWidth <==> Weights(g)[k] == Max(Weights(g)))
  {
    var ws := Weights(g);
    if ws != [] {
      var m := Max(ws);
      assert m in ws;
      assert m > 0.0;
      forall k | 0 <= k < |ws|
        ensures 0.0 < Styles(g).value.edgeWidths[k] <= MaxWidth
        ensures Styles(g).value.edgeWidths[k] == MaxWidth <==> ws[k] == m
      {
        assert ws[k] in ws;
        Ratio(ws[k], m);
      }
    }
  }

  lemma Ratio(w: real, m: real)
    requires 0.0 < w <= m
    ensures 0.0 < MaxWidth * (w / m) <= MaxWidth
    ensures MaxWidth * (w / m) == MaxWidth <==> w == m
  {
    assert w / m <= 1.0;
    assert w / m == 1.0 <==> w == m;
  }

  // ---------------------------------------------------------------------------
  // Plotting the graph of a snapshot

  /** Relation weights are never negative. */
  predicate NonNegativeWeights(rs: seq<Relation>) {
    forall k :: 0 <= k < |rs| ==> rs[k].weight >= 0.0
  }

  /** Every positivity the relations give is a number. */
  predicate NumericPositivities(rs: seq<Relation>) {
    forall k :: 0 <= k < |rs| && rs[k].positivity.Some? ==> AsNumber(rs[k].positivity.value).Some?
  }

  lemma {:induction false} SumWeightsNonNegative(rs: seq<Relation>, p: set<NodeId>)
    requires NonNegativeWeights(rs)
    ensures SumWeights(rs, p) >= 0.0
    decreases |rs|
  {
    if rs != [] {
      assert NonNegativeWeights(rs[1..]) by {
        forall k | 0 <= k < |rs[1..]| ensures rs[1..][k].weight >= 0.0 {
          assert rs[1..][k] == rs[k + 1];
        }
      }
      SumWeightsNonNegative(rs[1..], p);
    }
  }

  /** A pair some relation has has a first relation on it. */
  lemma {:induction false} FirstRelationOn(rs: seq<Relation>, p: set<NodeId>)
    requires p in Pairs(rs)
    ensures exists k :: 0 <= k < |rs| && FirstOnPair(rs, k) && PairOf(rs[k]) == p
    decreases |rs|
  {
    if PairOf(rs[0]) == p {
      assert FirstOnPair(rs, 0);
    } else {
      var rest := rs[1..];
      PairsCons(rs);
      FirstRelationOn(rest, p);
      var k :| 0 <= k < |rest| && FirstOnPair(rest, k) && PairOf(rest[k]) == p;
      assert rs[k + 1] == rest[k];
      assert FirstOnPair(rs, k + 1) by {
        forall k' | 0 <= k' < k + 1 ensures PairOf(rs[k']) != PairOf(rs[k + 1]) {
          if k' > 0 { assert rs[k'] == rest[k' - 1]; }
        }
      }
    }
  }

  /** Plotting the graph of a snapshot fails with a KeyError exactly when a
      relation names an id no character has. */
  lemma PlotKeyError(data: Json)
    requires IsSnapshotShape(data) && BuildGraph(data).Ok?
    ensures Characters(data).Ok? && Relations(data).Ok? && EdgesListed(BuildGraph(data).value)
    ensures Styles(BuildGraph(data).value) == Err(KeyError)
        <==> !(Ends(Relations(data).value) <= Ids(Characters(data).value))
  {
    BuiltNodes(data);
    ValidListed(BuildGraph(data).value);
    AllNodesHaveAttributes(data);
  }

  /** Edges that all weigh at least 1 leave a divisor of at least 1. */
  lemma HeavyEdges(g: Graph)
    requires EdgesListed(g)
    requires forall p :: p in g.edges ==> g.edges[p].weight >= 1.0
    ensures MaxWeight(Weights(g)) >= 1.0
  {
    var ws := Weights(g);
    if ws != [] {
      var k :| 0 <= k < |ws| && ws[k] == Max(ws);
    }
  }

  /** Edges whose positivities are all numbers give no TypeError. */
  lemma NumericEdges(g: Graph)
    requires EdgesListed(g)
    requires forall p :: p in g.edges ==> AsNumber(g.edges[p].positivity).Some?
    ensures AllNumeric(Positivities(g))
  {
  }

  /** With non-negative relation weights every edge of the snapshot's graph
      weighs at least 1. */
  lemma BuiltWeightsAtLeastOne(data: Json)
    requires IsSnapshotShape(data) && BuildGraph(data).Ok?
    ensures Relations(data).Ok?
    ensures NonNegativeWeights(Relations(data).value) ==>
              forall p :: p in BuildGraph(data).value.edges ==> BuildGraph(data).value.edges[p].weight >= 1.0
  {
    BuiltEdges(data);
    var rs := Relations(data).value;
    if NonNegativeWeights(rs) {
      forall p | p in BuildGraph(data).value.edges
        ensures BuildGraph(data).value.edges[p].weight >= 1.0
      {
        SumWeightsNonNegative(rs, p);
      }
    }
  }

  /** With numeric positivities every edge of the snapshot's graph has one. */
  lemma BuiltPositivitiesNumeric(data: Json)
    requires IsSnapshotShape(data) && BuildGraph(data).Ok?
    ensures Relations(data).Ok?
    ensures NumericPositivities(Relations(data).value) ==>
              forall p :: p in BuildGraph(data).value.edges ==> AsNumber(BuildGraph(data).value.edges[p].positivity).Some?
  {
    BuiltEdges(data);
    var rs := Relations(data).value;
    if NumericPositivities(rs) {
      forall p | p in BuildGraph(data).value.edges
        ensures AsNumber(BuildGraph(data).value.edges[p].positivity).Some?
      {
        FirstRelationOn(rs, p);
        var j :| 0 <= j < |rs| && FirstOnPair(rs, j) && PairOf(rs[j]) == p;
      }
    }
  }

  /** Plotting the graph of a snapshot succeeds when every relation names
      ids of characters, has a non-negative weight and, if it has one, a
      numeric positivity. */
  lemma PlotSucceeds(data: Json)
    requires IsSnapshotShape(data) && BuildGraph(data).Ok?
    ensures Characters(data).Ok? && Relations(data).Ok? && EdgesListed(BuildGraph(data).value)
    ensures Ends(Relations(data).value) <= Ids(Characters(data).value)
            && NonNegativeWeights(Relations(data).value)
            && NumericPositivities(Relations(data).value)
            ==> Styles(BuildGraph(data).value).Ok?
  {
    BuiltNodes(data);
    var g := BuildGraph(data).value;
    ValidListed(g);
    AllNodesHaveAttributes(data);
    BuiltWeightsAtLeastOne(data);
    BuiltPositivitiesNumeric(data);
    var rs := Relations(data).value;
    if Ends(rs) <= Ids(Characters(data).value) && NonNegativeWeights(rs) && NumericPositivities(rs) {
      HeavyEdges(g);
      NumericEdges(g);
    }
  }

  /** A ZeroDivisionError in plotting a snapshot's graph needs a relation
      with a negative weight. */
  lemma NoZeroDivision(data: Json)
    requires IsSnapshotShape(data) && BuildGraph(data).Ok?
    ensures Relations(data).Ok? && EdgesListed(BuildGraph(data).value)
    ensures Styles(BuildGraph(data).value) == Err(ZeroDivisionError) ==> !NonNegativeWeights(Relations(data).value)
  {
    BuiltNodes(data);
    var g := BuildGraph(data).value;
    ValidListed(g);
    BuiltWeightsAtLeastOne(data);
    if NonNegativeWeights(Relations(data).value) {
      HeavyEdges(g);
    }
  }
}
