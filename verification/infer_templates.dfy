/**
 * Query-graph templates of the creative drug-treats-disease synthesis: for
 * every hop count that some explanation path has, one chain of fresh query
 * edges from the drug query node to the disease query node through fresh
 * `is_set` intermediate query nodes, all in one fresh option group.
 */
module InferTemplates {
  import opened Wrappers
  import opened Text
  import opened InferTypes

  const QNodePrefix := "creative_DTD_qnode_"
  const QEdgePrefix := "creative_DTD_qedge_"
  const OptionGroupPrefix := "creative_DTD_option_group_"
  const PredictionPrefix := "creative_DTD_prediction_"

  function QNodeKey(n: nat): string { QNodePrefix + NatToString(n) }
  function QEdgeKey(n: nat): string { QEdgePrefix + NatToString(n) }
  function OptionGroupKey(n: nat): string { OptionGroupPrefix + NatToString(n) }
  function PredictionKey(n: nat): string { PredictionPrefix + NatToString(n) }

  /** Distinct counter values give distinct keys. */
  lemma QNodeKeysDistinct(a: nat, b: nat)
    requires a != b
    ensures QNodeKey(a) != QNodeKey(b)
  {
    CounterKeyInjective(QNodePrefix, a, b);
  }

  lemma QEdgeKeysDistinct(a: nat, b: nat)
    requires a != b
    ensures QEdgeKey(a) != QEdgeKey(b)
  {
    CounterKeyInjective(QEdgePrefix, a, b);
  }

  lemma PredictionKeysDistinct(a: nat, b: nat)
    requires a != b
    ensures PredictionKey(a) != PredictionKey(b)
  {
    CounterKeyInjective(PredictionPrefix, a, b);
  }

  /** The four running counters the synthesis returns to its caller. */
  datatype Counters = Counters(kedge: nat, qedge: nat, qnode: nat, option: nat)

  /** One entry of `path_keys`: the query-node pairs of a chain and the query edges joining them. */
  datatype Template = Template(qnodePairs: seq<(string, string)>, qedgeKeys: seq<string>)

  /** The tokens of an explanation path: node names at even positions, predicates at odd ones. */
  function Tokens(path: string): (r: seq<string>)
    ensures |r| >= 1
  {
    Split(path, "->")
  }

  /** The hop count recorded for a path: half its token count, rounded down. */
  function HopCount(path: string): nat {
    |Tokens(path)| / 2
  }

  function LengthsOf(paths: seq<string>): set<nat> {
    if |paths| == 0 then {} else LengthsOf(paths[..|paths| - 1]) + {HopCount(paths[|paths| - 1])}
  }

  /** `path_lengths`: the hop counts of all paths of all pairs. */
  function PathLengths(pairs: seq<PairPaths>): set<nat> {
    if |pairs| == 0 then {} else PathLengths(pairs[..|pairs| - 1]) + LengthsOf(pairs[|pairs| - 1].paths)
  }

  function MaxOf(paths: seq<string>): (r: nat)
    ensures forall h | h in LengthsOf(paths) :: h <= r
    ensures r == 0 || r in LengthsOf(paths)
  {
    if |paths| == 0 then 0
    else
      var m := MaxOf(paths[..|paths| - 1]);
      var h := HopCount(paths[|paths| - 1]);
      if h > m then h else m
  }

  /** `max(path_lengths)`, or 0 when there are no paths at all. */
  function MaxHop(pairs: seq<PairPaths>): (r: nat)
    ensures forall h | h in PathLengths(pairs) :: h <= r
    ensures r == 0 || r in PathLengths(pairs)
  {
    if |pairs| == 0 then 0
    else
      var m := MaxHop(pairs[..|pairs| - 1]);
      var h := MaxOf(pairs[|pairs| - 1].paths);
      if h > m then h else m
  }

  function IntermediateQNode(og: string): QueryNode {
    QueryNode(None, None, Some(og), true)
  }

  function TemplateQEdge(pair: (string, string), og: string): QueryEdge {
    QueryEdge(pair.0, pair.1, [], Some(og), true)
  }

  /** The query nodes of a chain of `count` intermediates numbered from `first`. */
  function ChainQNodes(drugQ: string, diseaseQ: string, first: nat, count: nat): (r: seq<string>)
    ensures |r| == count + 2
  {
    [drugQ] + seq(count, j requires 0 <= j => QNodeKey(first + j)) + [diseaseQ]
  }

  /** Python's `list(zip(s, s[1:]))`. */
  function Pairs(s: seq<string>): (r: seq<(string, string)>)
    requires |s| >= 1
    ensures |r| == |s| - 1
    ensures forall k | 0 <= k < |r| :: r[k] == (s[k], s[k + 1])
  {
    seq(|s| - 1, k requires 0 <= k < |s| - 1 => (s[k], s[k + 1]))
  }

  /** The inner loop adding `count` intermediate query nodes, keyed from `first` on. */
  function AddIntermediates(nodes: map<string, QueryNode>, first: nat, count: nat, og: string): map<string, QueryNode>
  {
    if count == 0 then nodes
    else AddIntermediates(nodes, first, count - 1, og)[QNodeKey(first + count - 1) := IntermediateQNode(og)]
  }

  /** The loop adding one query edge per pair of the chain, keyed from `first` on. */
  function AddChainQEdges(edges: map<string, QueryEdge>, first: nat, pairs: seq<(string, string)>, count: nat, og: string)
    : map<string, QueryEdge>
    requires count <= |pairs|
  {
    if count == 0 then edges
    else AddChainQEdges(edges, first, pairs, count - 1, og)[QEdgeKey(first + count - 1) := TemplateQEdge(pairs[count - 1], og)]
  }

  datatype TemplateState = TemplateState(qg: QueryGraph, counters: Counters, pathKeys: seq<Option<Template>>)

  /** Add the template for hop count `h`, advancing the counters. */
  function AddTemplate(qg: QueryGraph, c: Counters, h: nat, drugQ: string, diseaseQ: string): (QueryGraph, Counters, Template)
    requires h >= 1
  {
    var og := OptionGroupKey(c.option);
    var pairs := Pairs(ChainQNodes(drugQ, diseaseQ, c.qnode, h - 1));
    var nodes := AddIntermediates(qg.nodes, c.qnode, h - 1, og);
    var edges := AddChainQEdges(qg.edges, c.qedge, pairs, h, og);
    ( QueryGraph(nodes, edges),
      Counters(c.kedge, c.qedge + h, c.qnode + h - 1, c.option + 1),
      Template(pairs, seq(h, j requires 0 <= j => QEdgeKey(c.qedge + j))) )
  }

  /** The template loop run over the hop counts 1 to `n`. */
  function AddTemplates(qg: QueryGraph, c: Counters, lengths: set<nat>, n: nat, drugQ: string, diseaseQ: string)
    : (r: TemplateState)
    ensures |r.pathKeys| == n
  {
    if n == 0 then TemplateState(qg, c, [])
    else
      var prev := AddTemplates(qg, c, lengths, n - 1, drugQ, diseaseQ);
      if n in lengths then
        var (qg', c', t) := AddTemplate(prev.qg, prev.counters, n, drugQ, diseaseQ);
        TemplateState(qg', c', prev.pathKeys + [Some(t)])
      else
        TemplateState(prev.qg, prev.counters, prev.pathKeys + [None])
  }

  function Min(a: nat, b: nat): nat { if a <= b then a else b }

  /** The loop adding the intermediate query nodes of one template. */
  method AddIntermediateLoop(nodes: map<string, QueryNode>, first: nat, count: nat, og: string)
    returns (nodes': map<string, QueryNode>, keys: seq<string>)
    ensures nodes' == AddIntermediates(nodes, first, count, og)
    ensures keys == seq(count, k requires 0 <= k => QNodeKey(first + k))
  {
    nodes', keys := nodes, [];
    var qnodeIter := first;
    for j := 0 to count
      invariant qnodeIter == first + j
      invariant keys == seq(j, k requires 0 <= k => QNodeKey(first + k))
      invariant nodes' == AddIntermediates(nodes, first, j, og)
    {
      var key := QNodeKey(qnodeIter);
      keys := keys + [key];
      nodes' := nodes'[key := IntermediateQNode(og)];
      qnodeIter := qnodeIter + 1;
    }
  }

  /** The loop adding one query edge per pair of the chain of one template. */
  method AddChainQEdgeLoop(edges: map<string, QueryEdge>, first: nat, pairs: seq<(string, string)>, og: string)
    returns (edges': map<string, QueryEdge>, keys: seq<string>)
    ensures edges' == AddChainQEdges(edges, first, pairs, |pairs|, og)
    ensures keys == seq(|pairs|, m requires 0 <= m => QEdgeKey(first + m))
  {
    edges', keys := edges, [];
    var qedgeIter := first;
    for k := 0 to |pairs|
      invariant qedgeIter == first + k
      invariant keys == seq(k, m requires 0 <= m => QEdgeKey(first + m))
      invariant edges' == AddChainQEdges(edges, first, pairs, k, og)
    {
      var key := QEdgeKey(qedgeIter);
      keys := keys + [key];
      qedgeIter := qedgeIter + 1;
      edges' := edges'[key := TemplateQEdge(pairs[k], og)];
    }
  }

  /** The body of the template loop for one hop count. */
  method AddTemplateLoops(qg: QueryGraph, c: Counters, h: nat, drugQ: string, diseaseQ: string)
    returns (qg': QueryGraph, c': Counters, t: Template)
    requires h >= 1
    ensures (qg', c', t) == AddTemplate(qg, c, h, drugQ, diseaseQ)
  {
    var og := OptionGroupKey(c.option);
    var nodes, intermediates := AddIntermediateLoop(qg.nodes, c.qnode, h - 1, og);
    var pathQNodes := [drugQ] + intermediates + [diseaseQ];
    var qnodePairs := Pairs(pathQNodes);
    var edges, qedgeKeys := AddChainQEdgeLoop(qg.edges, c.qedge, qnodePairs, og);
    t := Template(qnodePairs, qedgeKeys);
    qg' := QueryGraph(nodes, edges);
    c' := Counters(c.kedge, c.qedge + h, c.qnode + h - 1, c.option + 1);
  }

  /**
   * The template loop as the source writes it: `path_keys` holds one slot per
   * hop count up to the longest path, and slot `i` is filled when some path
   * has `i + 1` hops.
   */
  method BuildTemplates(qg: QueryGraph, c: Counters, lengths: set<nat>, maxLen: nat, drugQ: string, diseaseQ: string)
    returns (qg': QueryGraph, c': Counters, pathKeys: seq<Option<Template>>)
    requires forall h | h in lengths :: h <= maxLen
    ensures TemplateState(qg', c', pathKeys) == AddTemplates(qg, c, lengths, maxLen, drugQ, diseaseQ)
  {
    pathKeys := seq(maxLen, _ => None);
    qg', c' := qg, c;
    for i := 0 to maxLen + 1
      invariant |pathKeys| == maxLen
      invariant TemplateState(qg', c', pathKeys[..Min(i, maxLen)]) == AddTemplates(qg, c, lengths, Min(i, maxLen), drugQ, diseaseQ)
      invariant forall k | Min(i, maxLen) <= k < maxLen :: pathKeys[k].None?
    {
      ghost var before := pathKeys;
      if (i + 1) in lengths {
        var t;
        qg', c', t := AddTemplateLoops(qg', c', i + 1, drugQ, diseaseQ);
        pathKeys := pathKeys[i := Some(t)];
        assert pathKeys[..i + 1] == before[..i] + [Some(t)];
      } else if i < maxLen {
        assert pathKeys[..i + 1] == before[..i] + [None];
      }
    }
  }

  /** A template is a chain from `drugQ` to `diseaseQ` whose query edges and intermediates are in the graph. */
  predicate TemplateInGraph(qg: QueryGraph, t: Template, h: nat, drugQ: string, diseaseQ: string) {
    && h >= 1 && |t.qnodePairs| == h && |t.qedgeKeys| == h
    && t.qnodePairs[0].0 == drugQ && t.qnodePairs[h - 1].1 == diseaseQ
    && (forall j | 0 <= j < h - 1 :: t.qnodePairs[j].1 == t.qnodePairs[j + 1].0)
    && NoDup(t.qedgeKeys)
    && t.qedgeKeys[0] in qg.edges
    && var og := qg.edges[t.qedgeKeys[0]].optionGroupId;
       && og.Some?
       && (forall j | 0 <= j < h ::
             t.qedgeKeys[j] in qg.edges && qg.edges[t.qedgeKeys[j]] == QueryEdge(t.qnodePairs[j].0, t.qnodePairs[j].1, [], og, true))
       && (forall j | 0 < j < h ::
             t.qnodePairs[j].0 in qg.nodes && qg.nodes[t.qnodePairs[j].0] == QueryNode(None, None, og, true))
  }

  /** Nothing keyed by a counter value below `c` differs between the two graphs. */
  predicate UnchangedBelow(qg: QueryGraph, qg': QueryGraph, c: Counters) {
    && (forall m: nat | m < c.qnode && QNodeKey(m) in qg.nodes ::
          QNodeKey(m) in qg'.nodes && qg'.nodes[QNodeKey(m)] == qg.nodes[QNodeKey(m)])
    && (forall m: nat | m < c.qedge && QEdgeKey(m) in qg.edges ::
          QEdgeKey(m) in qg'.edges && qg'.edges[QEdgeKey(m)] == qg.edges[QEdgeKey(m)])
  }

  /** Query nodes `first` to `first + count - 1` are all intermediates of option group `og`. */
  predicate IntermediatesAt(nodes: map<string, QueryNode>, first: nat, count: nat, og: string) {
    forall m: nat | first <= m < first + count :: QNodeKey(m) in nodes && nodes[QNodeKey(m)] == IntermediateQNode(og)
  }

  /** Query edges `first` to `first + count - 1` join the first `count` pairs, in option group `og`. */
  predicate ChainQEdgesAt(edges: map<string, QueryEdge>, first: nat, pairs: seq<(string, string)>, count: nat, og: string)
    requires count <= |pairs|
  {
    forall m: nat | first <= m < first + count :: QEdgeKey(m) in edges && edges[QEdgeKey(m)] == TemplateQEdge(pairs[m - first], og)
  }

  lemma {:induction false} IntermediatesWritten(nodes: map<string, QueryNode>, first: nat, count: nat, og: string)
    ensures IntermediatesAt(AddIntermediates(nodes, first, count, og), first, count, og)
  {
    if count > 0 {
      IntermediatesWritten(nodes, first, count - 1, og);
      var prev := AddIntermediates(nodes, first, count - 1, og);
      var last := first + count - 1;
      var r := prev[QNodeKey(last) := IntermediateQNode(og)];
      forall m: nat | first <= m < first + count
        ensures QNodeKey(m) in r && r[QNodeKey(m)] == IntermediateQNode(og)
      {
        if m < last {
          QNodeKeysDistinct(m, last);
          assert QNodeKey(m) in prev && prev[QNodeKey(m)] == IntermediateQNode(og);
        }
      }
      assert IntermediatesAt(r, first, count, og);
    }
  }

  /** The intermediates leave every query node keyed below `first` as it was. */
  lemma {:induction false} IntermediatesKeepBelow(nodes: map<string, QueryNode>, first: nat, count: nat, og: string)
    ensures var r := AddIntermediates(nodes, first, count, og);
      forall m: nat | m < first && QNodeKey(m) in nodes :: QNodeKey(m) in r && r[QNodeKey(m)] == nodes[QNodeKey(m)]
  {
    if count > 0 {
      IntermediatesKeepBelow(nodes, first, count - 1, og);
      var last := first + count - 1;
      forall m: nat | m < first
        ensures QNodeKey(m) != QNodeKey(last)
      {
        QNodeKeysDistinct(m, last);
      }
    }
  }

  lemma {:induction false} ChainQEdgesWritten(edges: map<string, QueryEdge>, first: nat, pairs: seq<(string, string)>,
                                              count: nat, og: string)
    requires count <= |pairs|
    ensures ChainQEdgesAt(AddChainQEdges(edges, first, pairs, count, og), first, pairs, count, og)
  {
    if count > 0 {
      ChainQEdgesWritten(edges, first, pairs, count - 1, og);
      var prev := AddChainQEdges(edges, first, pairs, count - 1, og);
      var last := first + count - 1;
      var r := prev[QEdgeKey(last) := TemplateQEdge(pairs[count - 1], og)];
      forall m: nat | first <= m < first + count
        ensures QEdgeKey(m) in r && r[QEdgeKey(m)] == TemplateQEdge(pairs[m - first], og)
      {
        if m < last {
          QEdgeKeysDistinct(m, last);
          assert QEdgeKey(m) in prev && prev[QEdgeKey(m)] == TemplateQEdge(pairs[m - first], og);
        }
      }
      assert ChainQEdgesAt(r, first, pairs, count, og);
    }
  }

  /** The chain's query edges leave every edge keyed below `first` as it was. */
  lemma {:induction false} ChainQEdgesKeepBelow(edges: map<string, QueryEdge>, first: nat, pairs: seq<(string, string)>,
                                                count: nat, og: string)
    requires count <= |pairs|
    ensures var r := AddChainQEdges(edges, first, pairs, count, og);
      forall m: nat | m < first && QEdgeKey(m) in edges :: QEdgeKey(m) in r && r[QEdgeKey(m)] == edges[QEdgeKey(m)]
  {
    if count > 0 {
      ChainQEdgesKeepBelow(edges, first, pairs, count - 1, og);
      var last := first + count - 1;
      forall m: nat | m < first
        ensures QEdgeKey(m) != QEdgeKey(last)
      {
        QEdgeKeysDistinct(m, last);
      }
    }
  }

  /** The keys of a template are numbered consecutively from `firstQNode` and `firstQEdge`. */
  predicate KeysFrom(t: Template, h: nat, firstQNode: nat, firstQEdge: nat)
    requires |t.qnodePairs| == h && |t.qedgeKeys| == h
  {
    && (forall j | 0 < j < h :: t.qnodePairs[j].0 == QNodeKey(firstQNode + j - 1))
    && (forall j | 0 <= j < h :: t.qedgeKeys[j] == QEdgeKey(firstQEdge + j))
  }

  lemma AddTemplateShape(qg: QueryGraph, c: Counters, h: nat, drugQ: string, diseaseQ: string)
    requires h >= 1
    ensures var (qg', c', t) := AddTemplate(qg, c, h, drugQ, diseaseQ);
      && |t.qnodePairs| == h && |t.qedgeKeys| == h
      && t.qnodePairs[0].0 == drugQ && t.qnodePairs[h - 1].1 == diseaseQ
      && (forall j | 0 <= j < h - 1 :: t.qnodePairs[j].1 == t.qnodePairs[j + 1].0)
      && KeysFrom(t, h, c.qnode, c.qedge)
      && c' == Counters(c.kedge, c.qedge + h, c.qnode + h - 1, c.option + 1)
  {
    var (qg', c', t) := AddTemplate(qg, c, h, drugQ, diseaseQ);
    var chain := ChainQNodes(drugQ, diseaseQ, c.qnode, h - 1);
    assert t.qnodePairs == Pairs(chain);
    forall j | 0 < j < h
      ensures t.qnodePairs[j].0 == QNodeKey(c.qnode + j - 1)
    {
      assert t.qnodePairs[j].0 == chain[j];
    }
  }

  lemma ChainNodesStored(nodes: map<string, QueryNode>, pairs: seq<(string, string)>, h: nat, first: nat, og: string)
    requires h >= 1 && |pairs| == h
    requires forall j | 0 < j < h :: pairs[j].0 == QNodeKey(first + j - 1)
    requires IntermediatesAt(nodes, first, h - 1, og)
    ensures forall j | 0 < j < h :: pairs[j].0 in nodes && nodes[pairs[j].0] == QueryNode(None, None, Some(og), true)
  {
    forall j | 0 < j < h
      ensures pairs[j].0 in nodes && nodes[pairs[j].0] == QueryNode(None, None, Some(og), true)
    {
      var m: nat := first + j - 1;
      assert pairs[j].0 == QNodeKey(m);
    }
  }

  lemma ChainEdgesStored(edges: map<string, QueryEdge>, t: Template, h: nat, first: nat, og: string)
    requires |t.qnodePairs| == h && |t.qedgeKeys| == h
    requires forall j | 0 <= j < h :: t.qedgeKeys[j] == QEdgeKey(first + j)
    requires ChainQEdgesAt(edges, first, t.qnodePairs, h, og)
    ensures forall j | 0 <= j < h ::
      t.qedgeKeys[j] in edges && edges[t.qedgeKeys[j]] == QueryEdge(t.qnodePairs[j].0, t.qnodePairs[j].1, [], Some(og), true)
  {
    forall j | 0 <= j < h
      ensures t.qedgeKeys[j] in edges && edges[t.qedgeKeys[j]] == QueryEdge(t.qnodePairs[j].0, t.qnodePairs[j].1, [], Some(og), true)
    {
      var m: nat := first + j;
      assert t.qedgeKeys[j] == QEdgeKey(m);
    }
  }

  lemma ConsecutiveKeysDistinct(keys: seq<string>, first: nat)
    requires forall j | 0 <= j < |keys| :: keys[j] == QEdgeKey(first + j)
    ensures NoDup(keys)
  {
    forall i, j | 0 <= i < j < |keys|
      ensures keys[i] != keys[j]
    {
      QEdgeKeysDistinct(first + i, first + j);
    }
  }

  /** A chain whose intermediates and query edges are stored under consecutive keys is in the graph. */
  lemma ChainInGraph(qg: QueryGraph, t: Template, h: nat, drugQ: string, diseaseQ: string,
                     firstQNode: nat, firstQEdge: nat, og: string)
    requires h >= 1 && |t.qnodePairs| == h && |t.qedgeKeys| == h
    requires t.qnodePairs[0].0 == drugQ && t.qnodePairs[h - 1].1 == diseaseQ
    requires forall j | 0 <= j < h - 1 :: t.qnodePairs[j].1 == t.qnodePairs[j + 1].0
    requires KeysFrom(t, h, firstQNode, firstQEdge)
    requires IntermediatesAt(qg.nodes, firstQNode, h - 1, og)
    requires ChainQEdgesAt(qg.edges, firstQEdge, t.qnodePairs, h, og)
    ensures TemplateInGraph(qg, t, h, drugQ, diseaseQ)
  {
    ChainNodesStored(qg.nodes, t.qnodePairs, h, firstQNode, og);
    ChainEdgesStored(qg.edges, t, h, firstQEdge, og);
    ConsecutiveKeysDistinct(t.qedgeKeys, firstQEdge);
  }

  /**
   * One template: it is a chain in the new graph, its keys are numbered from
   * the old counters on, and nothing keyed below the old counters moved.
   */
  lemma AddTemplateSound(qg: QueryGraph, c: Counters, h: nat, drugQ: string, diseaseQ: string,
                         qg': QueryGraph, c': Counters, t: Template)
    requires h >= 1 && (qg', c', t) == AddTemplate(qg, c, h, drugQ, diseaseQ)
    ensures TemplateInGraph(qg', t, h, drugQ, diseaseQ)
    ensures KeysFrom(t, h, c.qnode, c.qedge)
    ensures UnchangedBelow(qg, qg', c)
    ensures c' == Counters(c.kedge, c.qedge + h, c.qnode + h - 1, c.option + 1)
  {
    var og := OptionGroupKey(c.option);
    AddTemplateShape(qg, c, h, drugQ, diseaseQ);
    assert qg'.nodes == AddIntermediates(qg.nodes, c.qnode, h - 1, og);
    assert qg'.edges == AddChainQEdges(qg.edges, c.qedge, t.qnodePairs, h, og);
    IntermediatesWritten(qg.nodes, c.qnode, h - 1, og);
    IntermediatesKeepBelow(qg.nodes, c.qnode, h - 1, og);
    ChainQEdgesWritten(qg.edges, c.qedge, t.qnodePairs, h, og);
    ChainQEdgesKeepBelow(qg.edges, c.qedge, t.qnodePairs, h, og);
    ChainInGraph(qg', t, h, drugQ, diseaseQ, c.qnode, c.qedge, og);
  }

  lemma TemplateInGraphFrame(qg: QueryGraph, qg': QueryGraph, t: Template, h: nat, firstQNode: nat, firstQEdge: nat,
                             c: Counters, drugQ: string, diseaseQ: string)
    requires TemplateInGraph(qg, t, h, drugQ, diseaseQ) && KeysFrom(t, h, firstQNode, firstQEdge)
    requires firstQNode + h - 1 <= c.qnode && firstQEdge + h <= c.qedge
    requires UnchangedBelow(qg, qg', c)
    ensures TemplateInGraph(qg', t, h, drugQ, diseaseQ)
  {
    forall j | 0 <= j < h
      ensures t.qedgeKeys[j] in qg'.edges && qg'.edges[t.qedgeKeys[j]] == qg.edges[t.qedgeKeys[j]]
    {
      assert t.qedgeKeys[j] == QEdgeKey(firstQEdge + j);
    }
    forall j | 0 < j < h
      ensures t.qnodePairs[j].0 in qg'.nodes && qg'.nodes[t.qnodePairs[j].0] == qg.nodes[t.qnodePairs[j].0]
    {
      assert t.qnodePairs[j].0 == QNodeKey(firstQNode + j - 1);
    }
  }

  /** The sum of the hop counts up to `n` that are in `lengths`. */
  function HopSum(lengths: set<nat>, n: nat): nat {
    if n == 0 then 0 else HopSum(lengths, n - 1) + (if n in lengths then n else 0)
  }

  /** How many hop counts up to `n` are in `lengths`. */
  function HopTally(lengths: set<nat>, n: nat): nat {
    if n == 0 then 0 else HopTally(lengths, n - 1) + (if n in lengths then 1 else 0)
  }

  lemma UnchangedBelowTrans(a: QueryGraph, b: QueryGraph, d: QueryGraph, c1: Counters, c2: Counters)
    requires UnchangedBelow(a, b, c1) && UnchangedBelow(b, d, c2)
    requires c1.qnode <= c2.qnode && c1.qedge <= c2.qedge
    ensures UnchangedBelow(a, d, c1)
  {
  }

  /** Slot `h - 1` of `path_keys` is filled exactly when some path has `h` hops. */
  lemma {:induction false} AddTemplatesSlot(qg: QueryGraph, c: Counters, lengths: set<nat>, n: nat,
                                            drugQ: string, diseaseQ: string, h: nat)
    requires 1 <= h <= n
    ensures AddTemplates(qg, c, lengths, n, drugQ, diseaseQ).pathKeys[h - 1].Some? <==> h in lengths
  {
    var prev := AddTemplates(qg, c, lengths, n - 1, drugQ, diseaseQ);
    var r := AddTemplates(qg, c, lengths, n, drugQ, diseaseQ);
    if n in lengths {
      var (qg', c', t) := AddTemplate(prev.qg, prev.counters, n, drugQ, diseaseQ);
      assert r.pathKeys == prev.pathKeys + [Some(t)];
    } else {
      assert r.pathKeys == prev.pathKeys + [None];
    }
    if h < n {
      AddTemplatesSlot(qg, c, lengths, n - 1, drugQ, diseaseQ, h);
    }
  }

  /**
   * The counters advance by `h - 1` query nodes, `h` query edges and one
   * option group per template, and the edge counter does not move.
   */
  lemma {:induction false} AddTemplatesCounters(qg: QueryGraph, c: Counters, lengths: set<nat>, n: nat,
                                                drugQ: string, diseaseQ: string)
    ensures var r := AddTemplates(qg, c, lengths, n, drugQ, diseaseQ).counters;
      && r.kedge == c.kedge
      && r.qedge == c.qedge + HopSum(lengths, n)
      && r.qnode + HopTally(lengths, n) == c.qnode + HopSum(lengths, n)
      && r.option == c.option + HopTally(lengths, n)
      && c.qnode <= r.qnode
  {
    if n > 0 {
      AddTemplatesCounters(qg, c, lengths, n - 1, drugQ, diseaseQ);
      var prev := AddTemplates(qg, c, lengths, n - 1, drugQ, diseaseQ);
      if n in lengths {
        assert AddTemplates(qg, c, lengths, n, drugQ, diseaseQ).counters ==
          AddTemplate(prev.qg, prev.counters, n, drugQ, diseaseQ).1;
      }
    }
  }

  /** Later rounds of the template loop only append to `path_keys` and only raise the counters. */
  lemma {:induction false} AddTemplatesGrow(qg: QueryGraph, c: Counters, lengths: set<nat>, k: nat, n: nat,
                                            drugQ: string, diseaseQ: string)
    requires k <= n
    ensures var sk := AddTemplates(qg, c, lengths, k, drugQ, diseaseQ);
      var sn := AddTemplates(qg, c, lengths, n, drugQ, diseaseQ);
      && sk.pathKeys == sn.pathKeys[..k]
      && sk.counters.qnode <= sn.counters.qnode && sk.counters.qedge <= sn.counters.qedge
      && UnchangedBelow(sk.qg, sn.qg, sk.counters)
  {
    var sk := AddTemplates(qg, c, lengths, k, drugQ, diseaseQ);
    if n == k {
      assert sk.pathKeys == sk.pathKeys[..k];
    } else {
      AddTemplatesGrow(qg, c, lengths, k, n - 1, drugQ, diseaseQ);
      var prev := AddTemplates(qg, c, lengths, n - 1, drugQ, diseaseQ);
      var sn := AddTemplates(qg, c, lengths, n, drugQ, diseaseQ);
      if n in lengths {
        var (qg', c', t) := AddTemplate(prev.qg, prev.counters, n, drugQ, diseaseQ);
        AddTemplateSound(prev.qg, prev.counters, n, drugQ, diseaseQ, qg', c', t);
        assert sn.pathKeys == prev.pathKeys + [Some(t)];
        UnchangedBelowTrans(sk.qg, prev.qg, sn.qg, sk.counters, prev.counters);
      } else {
        assert sn.pathKeys == prev.pathKeys + [None];
      }
      assert sn.pathKeys[..k] == prev.pathKeys[..k];
    }
  }

  /** Nothing stored before the template loop under a counter key below the start counters is touched by it. */
  lemma AddTemplatesFrame(qg: QueryGraph, c: Counters, lengths: set<nat>, n: nat, drugQ: string, diseaseQ: string)
    ensures UnchangedBelow(qg, AddTemplates(qg, c, lengths, n, drugQ, diseaseQ).qg, c)
  {
    AddTemplatesGrow(qg, c, lengths, 0, n, drugQ, diseaseQ);
  }

  /**
   * Every hop count `h` up to `n` that some path has gets a template in slot
   * `h - 1`: a chain from the drug query node to the disease query node in
   * the final query graph, whose keys are numbered from the counters as they
   * stood before it and lie below the final counters.
   */
  lemma AddTemplatesChains(qg: QueryGraph, c: Counters, lengths: set<nat>, n: nat, drugQ: string, diseaseQ: string,
                           h: nat)
    requires 1 <= h <= n && h in lengths
    ensures var r := AddTemplates(qg, c, lengths, n, drugQ, diseaseQ);
      var before := AddTemplates(qg, c, lengths, h - 1, drugQ, diseaseQ).counters;
      && r.pathKeys[h - 1].Some?
      && TemplateInGraph(r.qg, r.pathKeys[h - 1].value, h, drugQ, diseaseQ)
      && KeysFrom(r.pathKeys[h - 1].value, h, before.qnode, before.qedge)
      && before.qnode + h - 1 <= r.counters.qnode && before.qedge + h <= r.counters.qedge
  {
    var prev := AddTemplates(qg, c, lengths, h - 1, drugQ, diseaseQ);
    var sh := AddTemplates(qg, c, lengths, h, drugQ, diseaseQ);
    var r := AddTemplates(qg, c, lengths, n, drugQ, diseaseQ);
    var (qg', c', t) := AddTemplate(prev.qg, prev.counters, h, drugQ, diseaseQ);
    AddTemplateSound(prev.qg, prev.counters, h, drugQ, diseaseQ, qg', c', t);
    assert sh.pathKeys == prev.pathKeys + [Some(t)];
    AddTemplatesGrow(qg, c, lengths, h, n, drugQ, diseaseQ);
    assert r.pathKeys[h - 1] == sh.pathKeys[h - 1];
    TemplateInGraphFrame(sh.qg, r.qg, t, h, prev.counters.qnode, prev.counters.qedge, sh.counters, drugQ, diseaseQ);
  }

  /** A key that is no counter-numbered query node key `creative_DTD_qnode_<n>`. */
  ghost predicate NotQNodeKey(k: string) {
    forall n: nat :: k != QNodeKey(n)
  }

  /** A key that is no counter-numbered query edge key `creative_DTD_qedge_<n>`. */
  ghost predicate NotQEdgeKey(k: string) {
    forall n: nat :: k != QEdgeKey(n)
  }

  /** A key whose first character is not the `c` of `creative_DTD_` is neither kind of counter key. */
  lemma PlainKey(k: string)
    requires |k| > 0 && k[0] != 'c'
    ensures NotQNodeKey(k) && NotQEdgeKey(k)
  {
    forall n: nat
      ensures k != QNodeKey(n) && k != QEdgeKey(n)
    {
      assert QNodeKey(n)[0] == 'c' && QEdgeKey(n)[0] == 'c';
    }
  }

  lemma {:induction false} AddIntermediatesKeepOthers(nodes: map<string, QueryNode>, first: nat, count: nat, og: string,
                                                      k: string)
    requires NotQNodeKey(k)
    ensures var r := AddIntermediates(nodes, first, count, og);
      (k in r <==> k in nodes) && (k in nodes ==> r[k] == nodes[k])
  {
    if count > 0 {
      AddIntermediatesKeepOthers(nodes, first, count - 1, og, k);
      assert k != QNodeKey(first + count - 1);
    }
  }

  lemma {:induction false} AddChainQEdgesKeepOthers(edges: map<string, QueryEdge>, first: nat, pairs: seq<(string, string)>,
                                                    count: nat, og: string, k: string)
    requires count <= |pairs| && NotQEdgeKey(k)
    ensures var r := AddChainQEdges(edges, first, pairs, count, og);
      (k in r <==> k in edges) && (k in edges ==> r[k] == edges[k])
  {
    if count > 0 {
      AddChainQEdgesKeepOthers(edges, first, pairs, count - 1, og, k);
      assert k != QEdgeKey(first + count - 1);
    }
  }

  /** The template loop never writes a query node under a key that is not `creative_DTD_qnode_<n>`. */
  lemma {:induction false} AddTemplatesKeepNodes(qg: QueryGraph, c: Counters, lengths: set<nat>, n: nat,
                                                 drugQ: string, diseaseQ: string, k: string)
    requires NotQNodeKey(k)
    ensures var r := AddTemplates(qg, c, lengths, n, drugQ, diseaseQ).qg;
      (k in r.nodes <==> k in qg.nodes) && (k in qg.nodes ==> r.nodes[k] == qg.nodes[k])
  {
    if n > 0 {
      AddTemplatesKeepNodes(qg, c, lengths, n - 1, drugQ, diseaseQ, k);
      var prev := AddTemplates(qg, c, lengths, n - 1, drugQ, diseaseQ);
      if n in lengths {
        AddIntermediatesKeepOthers(prev.qg.nodes, prev.counters.qnode, n - 1, OptionGroupKey(prev.counters.option), k);
      }
    }
  }

  /** The template loop never writes a query edge under a key that is not `creative_DTD_qedge_<n>`. */
  lemma {:induction false} AddTemplatesKeepEdges(qg: QueryGraph, c: Counters, lengths: set<nat>, n: nat,
                                                 drugQ: string, diseaseQ: string, k: string)
    requires NotQEdgeKey(k)
    ensures var r := AddTemplates(qg, c, lengths, n, drugQ, diseaseQ).qg;
      (k in r.edges <==> k in qg.edges) && (k in qg.edges ==> r.edges[k] == qg.edges[k])
  {
    if n > 0 {
      AddTemplatesKeepEdges(qg, c, lengths, n - 1, drugQ, diseaseQ, k);
      var prev := AddTemplates(qg, c, lengths, n - 1, drugQ, diseaseQ);
      if n in lengths {
        var pairs := Pairs(ChainQNodes(drugQ, diseaseQ, prev.counters.qnode, n - 1));
        AddChainQEdgesKeepOthers(prev.qg.edges, prev.counters.qedge, pairs, n, OptionGroupKey(prev.counters.option), k);
      }
    }
  }

  /**
   * The template loop only writes counter-numbered keys: a query node under
   * any key that is not `creative_DTD_qnode_<n>`, and a query edge under any
   * key that is not `creative_DTD_qedge_<n>` (`drug`, `disease`,
   * `probably_treats`, any key of the caller's), is left as it was.
   */
  lemma AddTemplatesKeepOthers(qg: QueryGraph, c: Counters, lengths: set<nat>, n: nat,
                               drugQ: string, diseaseQ: string, k: string)
    ensures var r := AddTemplates(qg, c, lengths, n, drugQ, diseaseQ).qg;
      NotQNodeKey(k) ==> (k in r.nodes <==> k in qg.nodes) && (k in qg.nodes ==> r.nodes[k] == qg.nodes[k])
    ensures var r := AddTemplates(qg, c, lengths, n, drugQ, diseaseQ).qg;
      NotQEdgeKey(k) ==> (k in r.edges <==> k in qg.edges) && (k in qg.edges ==> r.edges[k] == qg.edges[k])
  {
    if NotQNodeKey(k) {
      AddTemplatesKeepNodes(qg, c, lengths, n, drugQ, diseaseQ, k);
    }
    if NotQEdgeKey(k) {
      AddTemplatesKeepEdges(qg, c, lengths, n, drugQ, diseaseQ, k);
    }
  }
}
