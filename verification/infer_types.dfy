/**
 * The TRAPI entities the creative-mode drug-treats-disease synthesis works
 * on (query nodes and edges, knowledge nodes and edges, attributes), the
 * fixed Biolink strings it writes, and its two smallest graph updates: the
 * knowledge-node upsert and the knowledge-edge write under a derived key.
 */
module InferTypes {
  import opened Wrappers
  import opened Text

  /** Model scores are floats in the source; here they are opaque ordered values. */
  type Score = real

  const AggregatorSource := "biolink:aggregator_knowledge_source"
  const InformationResource := "biolink:InformationResource"
  const KnowledgeProvider := "infores:rtx-kg2"
  const NamedThing := "biolink:NamedThing"
  const ProbablyTreats := "biolink:probably_treats"
  const ProbablyTreatsKey := "probably_treats"
  const SelfLoopSentinel := "SELF_LOOP_RELATION"
  const SelfLoopPredicate := "biolink:self_loop_relation"
  const DiseaseCategory := "biolink:DiseaseOrPhenotypicFeature"
  const DrugCategory := "biolink:Drug"

  /** A query-graph node, as `add_qnode` stores the parameters it is given. */
  datatype QueryNode = QueryNode(
    name: Option<string>,
    categories: Option<seq<string>>,
    optionGroupId: Option<string>,
    isSet: bool)

  /** A query-graph edge; `obj` is TRAPI's `object`, a query-node key like `subject`. */
  datatype QueryEdge = QueryEdge(
    subject: string,
    obj: string,
    predicates: seq<string>,
    optionGroupId: Option<string>,
    filled: bool)

  datatype QueryGraph = QueryGraph(nodes: map<string, QueryNode>, edges: map<string, QueryEdge>)

  /** Attribute values: a string, a boolean flag, or a model probability. */
  datatype AttrValue = Str(s: string) | Flag(b: bool) | Probability(p: Score)

  datatype Attribute = Attribute(
    typeId: string,
    value: AttrValue,
    valueTypeId: Option<string>,
    source: Option<string>,
    originalName: Option<string>,
    description: Option<string>)

  /** A knowledge node: a display name, its categories and the query-node slots it fills. */
  datatype KNode = KNode(name: string, categories: seq<string>, qnodeKeys: seq<string>)

  /** A knowledge edge and the query edges it fills. */
  datatype KEdge = KEdge(
    subject: string,
    obj: string,
    pred: string,
    attributes: seq<Attribute>,
    qedgeKeys: seq<string>,
    filled: bool)

  datatype KnowledgeGraph = KnowledgeGraph(nodes: map<string, KNode>, edges: map<string, KEdge>)

  /** What the node synonymizer answers for a name or a curie it resolves. */
  datatype Canonical = Canonical(curie: string, name: string, category: string)

  /** One row of the `top_drugs` table. */
  datatype DrugRow = DrugRow(drugId: string, drugName: string, tpScore: Score, diseaseId: string, diseaseName: string)

  /** One entry of `top_paths`: a (drug, disease) pair and its explanation path strings. */
  datatype PairPaths = PairPaths(drug: string, disease: string, paths: seq<string>)

  predicate NoDup<T(==)>(s: seq<T>) {
    forall i, j | 0 <= i < j < |s| :: s[i] != s[j]
  }

  /** Every knowledge node fills at least one slot and lists no slot twice. */
  predicate SlotsWellFormed(nodes: map<string, KNode>) {
    forall c | c in nodes :: |nodes[c].qnodeKeys| > 0 && NoDup(nodes[c].qnodeKeys)
  }

  /**
   * Insert the node for `curie` filling `slot`, or, when the curie is
   * already a node, add `slot` to its slots unless it is there.
   */
  function UpsertNode(nodes: map<string, KNode>, curie: string, name: string, category: string, slot: string)
    : map<string, KNode>
  {
    if curie !in nodes then
      nodes[curie := KNode(name, [category, NamedThing], [slot])]
    else if slot in nodes[curie].qnodeKeys then
      nodes
    else
      nodes[curie := nodes[curie].(qnodeKeys := nodes[curie].qnodeKeys + [slot])]
  }

  /**
   * An upsert adds `curie` and touches no other node. A new node is named by
   * the caller, has the given category followed by `biolink:NamedThing` and
   * fills exactly `slot`; an existing node keeps its name and categories and
   * gains `slot` at the end of its slots unless it already fills it.
   */
  lemma UpsertNodeEffect(nodes: map<string, KNode>, curie: string, name: string, category: string, slot: string)
    ensures var r := UpsertNode(nodes, curie, name, category, slot);
      && r.Keys == nodes.Keys + {curie}
      && (forall c | c in nodes && c != curie :: r[c] == nodes[c])
      && (curie !in nodes ==> r[curie] == KNode(name, [category, NamedThing], [slot]))
      && (curie in nodes ==>
            && r[curie].name == nodes[curie].name
            && r[curie].categories == nodes[curie].categories
            && r[curie].qnodeKeys ==
                 if slot in nodes[curie].qnodeKeys then nodes[curie].qnodeKeys else nodes[curie].qnodeKeys + [slot])
  {
  }

  /** An upsert never lists a slot twice for a node, nor leaves a node without slots. */
  lemma UpsertNodeWellFormed(nodes: map<string, KNode>, curie: string, name: string, category: string, slot: string)
    requires SlotsWellFormed(nodes)
    ensures SlotsWellFormed(UpsertNode(nodes, curie, name, category, slot))
  {
    var r := UpsertNode(nodes, curie, name, category, slot);
    if curie in nodes && slot !in nodes[curie].qnodeKeys {
      var keys := nodes[curie].qnodeKeys + [slot];
      forall i, j | 0 <= i < j < |keys|
        ensures keys[i] != keys[j]
      {
        if j == |keys| - 1 {
          assert keys[i] in nodes[curie].qnodeKeys;
        }
      }
    }
  }

  /** Upserting the same curie and slot again changes nothing, whatever name and category come with it. */
  lemma UpsertNodeIdempotent(nodes: map<string, KNode>, curie: string, name: string, category: string,
                             name': string, category': string, slot: string)
    ensures UpsertNode(UpsertNode(nodes, curie, name, category, slot), curie, name', category', slot)
         == UpsertNode(nodes, curie, name, category, slot)
  {
    UpsertNodeEffect(nodes, curie, name, category, slot);
    var once := UpsertNode(nodes, curie, name, category, slot);
    assert slot in once[curie].qnodeKeys;
  }

  /** Slots a node already fills are never lost by an upsert. */
  lemma UpsertNodeKeepsSlots(nodes: map<string, KNode>, curie: string, name: string, category: string,
                             slot: string, c: string, q: string)
    requires c in nodes && q in nodes[c].qnodeKeys
    ensures var r := UpsertNode(nodes, curie, name, category, slot);
      c in r && q in r[c].qnodeKeys
  {
    UpsertNodeEffect(nodes, curie, name, category, slot);
  }

  /** A node already present keeps its name and categories through an upsert. */
  lemma UpsertNodeKeepsNode(nodes: map<string, KNode>, curie: string, name: string, category: string,
                            slot: string, c: string)
    requires c in nodes
    ensures var r := UpsertNode(nodes, curie, name, category, slot);
      c in r && r[c].name == nodes[c].name && r[c].categories == nodes[c].categories
  {
  }

  /** The key under which an edge is stored: `<kp>:<subject>-<predicate>-<object>`. */
  function EdgeKey(kp: string, subject: string, pred: string, obj: string): string {
    kp + ":" + subject + "-" + pred + "-" + obj
  }

  /** The first dash of `a + "-" + b` is the one after `a` when `a` has none. */
  lemma FirstDash(a: string, b: string)
    requires '-' !in a
    ensures IndexOf(a + "-" + b, "-") == Some(|a|)
  {
    var x := a + "-" + b;
    assert x[|a|..|a| + 1] == "-";
    assert OccursAt(x, "-", |a|);
    forall j: nat | j < |a|
      ensures !OccursAt(x, "-", j)
    {
      assert x[j..j + 1] == [a[j]];
    }
  }

  lemma DashSplitUnique(a: string, b: string, a': string, b': string)
    requires '-' !in a && '-' !in a'
    requires a + "-" + b == a' + "-" + b'
    ensures a == a' && b == b'
  {
    var x := a + "-" + b;
    FirstDash(a, b);
    FirstDash(a', b');
    assert a == x[..|a|] && a' == x[..|a'|];
    assert b == x[|a| + 1..] && b' == x[|a'| + 1..];
  }

  /**
   * Edge keys identify triples as long as subjects and predicates carry no
   * dash: equal keys then mean the same subject, predicate and object.
   */
  lemma EdgeKeyInjective(kp: string, s: string, p: string, o: string, s': string, p': string, o': string)
    requires '-' !in s && '-' !in p && '-' !in s' && '-' !in p'
    requires EdgeKey(kp, s, p, o) == EdgeKey(kp, s', p', o')
    ensures s == s' && p == p' && o == o'
  {
    var prefix := kp + ":";
    var rest, rest' := s + "-" + p + "-" + o, s' + "-" + p' + "-" + o';
    assert EdgeKey(kp, s, p, o) == prefix + rest;
    assert EdgeKey(kp, s', p', o') == prefix + rest';
    assert rest == (prefix + rest)[|prefix|..];
    assert rest' == (prefix + rest')[|prefix|..];
    assert rest == s + "-" + (p + "-" + o);
    assert rest' == s' + "-" + (p' + "-" + o');
    DashSplitUnique(s, p + "-" + o, s', p' + "-" + o');
    DashSplitUnique(p, o, p', o');
  }

  /** Without that restriction two different triples can share a key. */
  lemma EdgeKeyCollision()
    ensures EdgeKey(KnowledgeProvider, "A-x", "y", "B") == EdgeKey(KnowledgeProvider, "A", "x-y", "B")
  {
  }

  /** With the provider, predicate and object fixed, the key determines the subject, dashes or not. */
  lemma EdgeKeySameSubject(kp: string, s: string, s': string, p: string, o: string)
    requires EdgeKey(kp, s, p, o) == EdgeKey(kp, s', p, o)
    ensures s == s'
  {
    var prefix, suffix := kp + ":", "-" + p + "-" + o;
    assert EdgeKey(kp, s, p, o) == prefix + s + suffix;
    assert EdgeKey(kp, s', p, o) == prefix + s' + suffix;
    assert |s| == |s'|;
    assert s == (prefix + s + suffix)[|prefix|..|prefix| + |s|];
    assert s' == (prefix + s' + suffix)[|prefix|..|prefix| + |s'|];
  }

  /** A key that no edge of the knowledge provider can have: it does not start like `infores:`. */
  predicate NotPathKey(k: string) {
    |k| == 0 || k[0] != 'i'
  }

  lemma EdgeKeyIsPathKey(s: string, p: string, o: string)
    ensures !NotPathKey(EdgeKey(KnowledgeProvider, s, p, o))
  {
    assert EdgeKey(KnowledgeProvider, s, p, o)[0] == 'i';
  }

  /** The provenance attribute every path edge carries. */
  function ProvenanceAttribute(kp: string): Attribute {
    Attribute(AggregatorSource, Str(kp), Some(InformationResource), Some(kp), None, None)
  }

  /** The edge a path triple becomes, filling one template query edge. */
  function HopEdge(subject: string, pred: string, obj: string, qedgeKey: string): KEdge {
    KEdge(subject, obj, pred, [ProvenanceAttribute(KnowledgeProvider)], [qedgeKey], false)
  }

  /** Write a path edge under its derived key, replacing whatever was stored there. */
  function PutEdge(edges: map<string, KEdge>, subject: string, pred: string, obj: string, qedgeKey: string)
    : map<string, KEdge>
  {
    edges[EdgeKey(KnowledgeProvider, subject, pred, obj) := HopEdge(subject, pred, obj, qedgeKey)]
  }

  /**
   * The edge written for a triple is stored under its edge key, with that
   * triple's subject, predicate and object and the one query edge it fills;
   * every other key keeps its edge.
   */
  lemma PutEdgeEffect(edges: map<string, KEdge>, subject: string, pred: string, obj: string, qedgeKey: string)
    ensures var r := PutEdge(edges, subject, pred, obj, qedgeKey);
      var key := EdgeKey(KnowledgeProvider, subject, pred, obj);
      && r.Keys == edges.Keys + {key}
      && r[key].subject == subject && r[key].obj == obj && r[key].pred == pred
      && r[key].qedgeKeys == [qedgeKey]
      && (forall k | k in edges && k != key :: r[k] == edges[k])
  {
  }

  /** Writing the same triple twice keeps only the second write: its query-edge list is not merged. */
  lemma PutEdgeReplaces(edges: map<string, KEdge>, s: string, p: string, o: string, q1: string, q2: string)
    ensures PutEdge(PutEdge(edges, s, p, o, q1), s, p, o, q2) == PutEdge(edges, s, p, o, q2)
  {
  }

  /** Python's `0 if val is None else val`, the sort key for results. */
  function NoneToZero(v: Option<Score>): Score {
    match v
    case None => 0.0
    case Some(x) => x
  }

  const AraxSource := "infores:arax"
  const ReasonerSource := "infores:arax-reasoner-ara"
  const ComputedValue := "biolink:computed_value"
  const ComputedValueNote :=
    "This edge is a container for a computed value between two nodes that is not directly attachable to other edges."
  const ProbabilityTreatsType := "EDAM:data_0951"

  /** The three attributes of a drug-disease prediction edge. */
  function TreatAttributes(score: Score): seq<Attribute> {
    [ Attribute(AggregatorSource, Str(AraxSource), Some(InformationResource), Some(AraxSource), Some("provided_by"), None),
      Attribute(ComputedValue, Flag(true), Some("metatype:Boolean"), Some(ReasonerSource), None, Some(ComputedValueNote)),
      Attribute(ProbabilityTreatsType, Probability(score), None, None, Some("probability_treats"), None) ]
  }
}
