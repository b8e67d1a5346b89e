/**
 * Projection of explanation paths onto the knowledge graph: every fully
 * resolved path variant of a (drug, disease) pair is cut into
 * (subject, predicate, object) triples, each triple upserts its two nodes
 * into the slots of its template and writes one edge under the derived edge
 * key; every pair with at least one projected variant then gets one summary
 * "probably treats" edge under a fresh prediction key.
 */
module InferProjection {
  import opened Wrappers
  import opened Text
  import opened InferTypes
  import opened InferTemplates

  /** The synonymizer's answer for the node names: a canonical record, or `None` for a name it could not resolve. */
  type NodeInfo = map<string, Option<Canonical>>

  const KeyErrorPrefix := "KeyError: "
  const NoneSubscriptError := "TypeError: 'NoneType' object is not subscriptable"

  /** `node_name_to_id`: the preferred curie of every name the synonymizer resolved. */
  function NameToId(info: NodeInfo): (r: map<string, string>)
    ensures forall n :: n in r <==> n in info && info[n].Some?
    ensures forall n | n in r :: r[n] == info[n].value.curie
  {
    map n | n in info && info[n].Some? :: info[n].value.curie
  }

  /** The synonymizer knows `name` and resolved it. */
  predicate Categorized(info: NodeInfo, name: string) {
    name in info && info[name].Some?
  }

  /**
   * `node_info[name]['preferred_category']`: a KeyError for a name that was
   * never looked up, a TypeError for one the synonymizer could not resolve.
   */
  function CategoryOf(info: NodeInfo, name: string): (r: Result<string>)
    ensures r.Ok? <==> Categorized(info, name)
    ensures r.Ok? ==> r.value == info[name].value.category
  {
    if name !in info then Raise(KeyErrorPrefix + name)
    else if info[name].None? then Raise(NoneSubscriptError)
    else Ok(info[name].value.category)
  }

  /** Node token `i` of a path: the token at position `2 * i`. */
  function NodeToken(tokens: seq<string>, i: nat): string
    requires 2 * i < |tokens|
  {
    tokens[2 * i]
  }

  /** Every node token of a path (the tokens at even positions) has a curie. */
  predicate Resolved(tokens: seq<string>, nameToId: map<string, string>) {
    forall i: nat | i < |tokens| && 2 * i < |tokens| :: NodeToken(tokens, i) in nameToId
  }

  /** How many (subject, predicate, object) triples a path of these tokens is cut into. */
  function TripleCount(tokens: seq<string>): (r: nat)
    ensures 2 * r < |tokens| || |tokens| == 0
  {
    if |tokens| == 0 then 0 else (|tokens| - 1) / 2
  }

  /** The three tokens of triple `i`. */
  function Subject(tokens: seq<string>, i: nat): string
    requires 2 * i + 2 < |tokens|
  {
    NodeToken(tokens, i)
  }

  function Verb(tokens: seq<string>, i: nat): string
    requires 2 * i + 2 < |tokens|
  {
    tokens[2 * i + 1]
  }

  function Object(tokens: seq<string>, i: nat): string
    requires 2 * i + 2 < |tokens|
  {
    NodeToken(tokens, i + 1)
  }

  /** The predicate stored for a path predicate: the self-loop sentinel is replaced by a placeholder. */
  function StoredPredicate(p: string): (r: string)
    ensures p == SelfLoopSentinel ==> r == SelfLoopPredicate
    ensures p != SelfLoopSentinel ==> r == p
  {
    if p == SelfLoopSentinel then SelfLoopPredicate else p
  }

  const SelfLoopDetected := "Self-loop relation detected: "
  const SelfLoopReplaced := ", replacing with placeholder 'biolink:self_loop_relation'"

  function SelfLoopWarning(s: string, p: string, o: string): string {
    SelfLoopDetected + s + " " + p + " " + o + SelfLoopReplaced
  }

  /** The key under which triple `i` of a resolved path is stored. */
  function TripleKey(tokens: seq<string>, i: nat, nameToId: map<string, string>): string
    requires Resolved(tokens, nameToId) && 2 * i + 2 < |tokens|
  {
    EdgeKey(KnowledgeProvider, nameToId[Subject(tokens, i)], StoredPredicate(Verb(tokens, i)), nameToId[Object(tokens, i)])
  }

  /** The edge stored for triple `i`, filling query edge `qedgeKey`. */
  function TripleEdge(tokens: seq<string>, i: nat, nameToId: map<string, string>, qedgeKey: string): KEdge
    requires Resolved(tokens, nameToId) && 2 * i + 2 < |tokens|
  {
    HopEdge(nameToId[Subject(tokens, i)], StoredPredicate(Verb(tokens, i)), nameToId[Object(tokens, i)], qedgeKey)
  }

  /** The keys the first `count` triples are written under. */
  function WrittenKeys(tokens: seq<string>, nameToId: map<string, string>, count: nat): set<string>
    requires Resolved(tokens, nameToId) && 2 * count < |tokens|
  {
    if count == 0 then {} else WrittenKeys(tokens, nameToId, count - 1) + {TripleKey(tokens, count - 1, nameToId)}
  }

  /** Every written key is the key of one of the first `count` triples. */
  lemma {:induction false} WrittenKeysOnly(tokens: seq<string>, nameToId: map<string, string>, count: nat, k: string)
    requires Resolved(tokens, nameToId) && 2 * count < |tokens|
    requires k in WrittenKeys(tokens, nameToId, count)
    ensures exists i | 0 <= i < count :: TripleKey(tokens, i, nameToId) == k
  {
    var last := count - 1;
    if TripleKey(tokens, last, nameToId) != k {
      WrittenKeysOnly(tokens, nameToId, last, k);
    }
  }

  /** No triple after `i` (among the first `count`) writes the key of triple `i`. */
  predicate LastWrite(tokens: seq<string>, nameToId: map<string, string>, i: nat, count: nat)
    requires Resolved(tokens, nameToId) && 2 * count < |tokens| && i < count
  {
    forall j | i < j < count :: TripleKey(tokens, j, nameToId) != TripleKey(tokens, i, nameToId)
  }

  /** The knowledge graph under construction and the warnings issued so far. */
  datatype ProjState = ProjState(knodes: map<string, KNode>, kedges: map<string, KEdge>, warnings: seq<string>)

  /** The requirements of projecting the first `count` triples of a path through template `t`. */
  predicate TriplesFit(tokens: seq<string>, t: Template, nameToId: map<string, string>, count: nat) {
    && Resolved(tokens, nameToId)
    && 2 * count < |tokens|
    && count <= |t.qnodePairs| && count <= |t.qedgeKeys|
  }

  /**
   * One triple: upsert the subject into the subject slot of template pair
   * `i`, the object into its object slot, and write the edge, which fills
   * query edge `i` of the template.
   */
  function ProjectTriple(st: ProjState, tokens: seq<string>, i: nat, t: Template, nameToId: map<string, string>,
                         info: NodeInfo): Result<ProjState>
    requires TriplesFit(tokens, t, nameToId, i + 1)
  {
    var s, v, o := Subject(tokens, i), Verb(tokens, i), Object(tokens, i);
    match CategoryOf(info, s)
    case Raise(e) => Raise(e)
    case Ok(sCategory) =>
      var nodes := UpsertNode(st.knodes, nameToId[s], s, sCategory, t.qnodePairs[i].0);
      match CategoryOf(info, o)
      case Raise(e) => Raise(e)
      case Ok(oCategory) =>
        var nodes' := UpsertNode(nodes, nameToId[o], o, oCategory, t.qnodePairs[i].1);
        var warnings := if v == SelfLoopSentinel then st.warnings + [SelfLoopWarning(s, v, o)] else st.warnings;
        Ok(ProjState(nodes', PutEdge(st.kedges, nameToId[s], StoredPredicate(v), nameToId[o], t.qedgeKeys[i]), warnings))
  }

  /** The triple loop over the first `count` triples; the first failing lookup ends it. */
  function ProjectTriples(st: ProjState, tokens: seq<string>, t: Template, nameToId: map<string, string>,
                          info: NodeInfo, count: nat): Result<ProjState>
    requires TriplesFit(tokens, t, nameToId, count)
  {
    if count == 0 then Ok(st)
    else
      match ProjectTriples(st, tokens, t, nameToId, info, count - 1)
      case Raise(e) => Raise(e)
      case Ok(prev) => ProjectTriple(prev, tokens, count - 1, t, nameToId, info)
  }

  /** One more round of the triple loop after a successful prefix. */
  lemma ProjectTriplesNext(st: ProjState, tokens: seq<string>, t: Template, nameToId: map<string, string>,
                           info: NodeInfo, i: nat, cur: ProjState)
    requires TriplesFit(tokens, t, nameToId, i + 1)
    requires ProjectTriples(st, tokens, t, nameToId, info, i) == Ok(cur)
    ensures ProjectTriples(st, tokens, t, nameToId, info, i + 1) == ProjectTriple(cur, tokens, i, t, nameToId, info)
  {
  }

  /** The body of the triple loop as the source writes it. */
  method ProjectTripleStep(st: ProjState, tokens: seq<string>, i: nat, t: Template, nameToId: map<string, string>,
                           info: NodeInfo)
    returns (r: Result<ProjState>)
    requires TriplesFit(tokens, t, nameToId, i + 1)
    ensures r == ProjectTriple(st, tokens, i, t, nameToId, info)
  {
    var knodes, warnings := st.knodes, st.warnings;
    var subjectName := NodeToken(tokens, i);
    var subjectCurie := nameToId[subjectName];
    var subjectCategory := CategoryOf(info, subjectName);
    if subjectCategory.Raise? {
      return Raise(subjectCategory.error);
    }
    knodes := UpsertNode(knodes, subjectCurie, subjectName, subjectCategory.value, t.qnodePairs[i].0);
    var objectName := NodeToken(tokens, i + 1);
    var objectCurie := nameToId[objectName];
    var objectCategory := CategoryOf(info, objectName);
    if objectCategory.Raise? {
      return Raise(objectCategory.error);
    }
    knodes := UpsertNode(knodes, objectCurie, objectName, objectCategory.value, t.qnodePairs[i].1);
    var verb := tokens[2 * i + 1];
    if verb == SelfLoopSentinel {
      warnings := warnings + [SelfLoopWarning(subjectName, verb, objectName)];
      verb := SelfLoopPredicate;
    }
    var kedges := st.kedges[EdgeKey(KnowledgeProvider, subjectCurie, verb, objectCurie) :=
      HopEdge(subjectCurie, verb, objectCurie, t.qedgeKeys[i])];
    r := Ok(ProjState(knodes, kedges, warnings));
  }

  /** The triple loop as the source writes it; the first failing lookup ends it. */
  method ProjectTriplesLoop(st: ProjState, tokens: seq<string>, t: Template, nameToId: map<string, string>,
                            info: NodeInfo, count: nat)
    returns (r: Result<ProjState>)
    requires TriplesFit(tokens, t, nameToId, count)
    ensures r == ProjectTriples(st, tokens, t, nameToId, info, count)
  {
    var cur := st;
    for i := 0 to count
      invariant ProjectTriples(st, tokens, t, nameToId, info, i) == Ok(cur)
    {
      ProjectTriplesNext(st, tokens, t, nameToId, info, i, cur);
      var step := ProjectTripleStep(cur, tokens, i, t, nameToId, info);
      if step.Raise? {
        ProjectTriplesRaiseSticks(st, tokens, t, nameToId, info, i + 1, count);
        return step;
      }
      cur := step.value;
    }
    r := Ok(cur);
  }

  /** One triple fails exactly when its subject or its object has no category. */
  lemma ProjectTripleOk(st: ProjState, tokens: seq<string>, i: nat, t: Template, nameToId: map<string, string>,
                        info: NodeInfo)
    requires TriplesFit(tokens, t, nameToId, i + 1)
    ensures ProjectTriple(st, tokens, i, t, nameToId, info).Ok? <==>
      Categorized(info, Subject(tokens, i)) && Categorized(info, Object(tokens, i))
  {
  }

  /** Once the triple loop has raised, later triples change nothing: the same error ends it. */
  lemma {:induction false} ProjectTriplesRaiseSticks(st: ProjState, tokens: seq<string>, t: Template,
                                                     nameToId: map<string, string>, info: NodeInfo, i: nat, count: nat)
    requires TriplesFit(tokens, t, nameToId, count) && i <= count
    requires ProjectTriples(st, tokens, t, nameToId, info, i).Raise?
    ensures ProjectTriples(st, tokens, t, nameToId, info, count) == ProjectTriples(st, tokens, t, nameToId, info, i)
  {
    if i < count {
      ProjectTriplesRaiseSticks(st, tokens, t, nameToId, info, i, count - 1);
    }
  }

  /** Every subject and object among the first `count` triples has a category. */
  predicate AllCategorized(tokens: seq<string>, info: NodeInfo, count: nat)
    requires 2 * count < |tokens|
  {
    forall i | 0 <= i < count :: Categorized(info, Subject(tokens, i)) && Categorized(info, Object(tokens, i))
  }

  lemma AllCategorizedLast(tokens: seq<string>, info: NodeInfo, count: nat)
    requires 2 * count < |tokens| && count > 0
    ensures AllCategorized(tokens, info, count) <==>
      AllCategorized(tokens, info, count - 1)
      && Categorized(info, Subject(tokens, count - 1)) && Categorized(info, Object(tokens, count - 1))
  {
  }

  /** The triple loop fails exactly when some subject or object of its triples has no category. */
  lemma {:induction false} ProjectTriplesOk(st: ProjState, tokens: seq<string>, t: Template, nameToId: map<string, string>,
                                            info: NodeInfo, count: nat)
    requires TriplesFit(tokens, t, nameToId, count)
    ensures ProjectTriples(st, tokens, t, nameToId, info, count).Ok? <==> AllCategorized(tokens, info, count)
  {
    if count > 0 {
      var last := count - 1;
      ProjectTriplesOk(st, tokens, t, nameToId, info, last);
      AllCategorizedLast(tokens, info, count);
      var prev := ProjectTriples(st, tokens, t, nameToId, info, last);
      if prev.Ok? {
        ProjectTripleOk(prev.value, tokens, last, t, nameToId, info);
      }
    }
  }

  /** The two upserts of triple `i`: its subject into the subject slot, its object into the object slot. */
  function TripleNodesStep(knodes: map<string, KNode>, tokens: seq<string>, i: nat, t: Template,
                           nameToId: map<string, string>, info: NodeInfo): map<string, KNode>
    requires TriplesFit(tokens, t, nameToId, i + 1)
    requires Categorized(info, Subject(tokens, i)) && Categorized(info, Object(tokens, i))
  {
    var s, o := Subject(tokens, i), Object(tokens, i);
    UpsertNode(UpsertNode(knodes, nameToId[s], s, info[s].value.category, t.qnodePairs[i].0),
               nameToId[o], o, info[o].value.category, t.qnodePairs[i].1)
  }

  /** The warning triple `i` issues: one when its predicate is the self-loop sentinel. */
  function TripleWarning(tokens: seq<string>, i: nat): seq<string>
    requires 2 * i + 2 < |tokens|
  {
    if Verb(tokens, i) == SelfLoopSentinel then [SelfLoopWarning(Subject(tokens, i), Verb(tokens, i), Object(tokens, i))]
    else []
  }

  /** The nodes of a successful triple loop: the upserts of every triple in order. */
  function TripleNodes(knodes: map<string, KNode>, tokens: seq<string>, t: Template, nameToId: map<string, string>,
                       info: NodeInfo, count: nat): map<string, KNode>
    requires TriplesFit(tokens, t, nameToId, count) && AllCategorized(tokens, info, count)
  {
    if count == 0 then knodes
    else TripleNodesStep(TripleNodes(knodes, tokens, t, nameToId, info, count - 1), tokens, count - 1, t, nameToId, info)
  }

  /** The edges of a successful triple loop: the edge writes of every triple in order. */
  function TripleEdges(kedges: map<string, KEdge>, tokens: seq<string>, t: Template, nameToId: map<string, string>,
                       count: nat): map<string, KEdge>
    requires TriplesFit(tokens, t, nameToId, count)
  {
    if count == 0 then kedges
    else TripleEdges(kedges, tokens, t, nameToId, count - 1)[TripleKey(tokens, count - 1, nameToId) :=
                                                                 TripleEdge(tokens, count - 1, nameToId, t.qedgeKeys[count - 1])]
  }

  /** The warnings of a successful triple loop, one per self-loop triple. */
  function SelfLoopWarnings(tokens: seq<string>, count: nat): seq<string>
    requires 2 * count < |tokens|
  {
    if count == 0 then [] else SelfLoopWarnings(tokens, count - 1) + TripleWarning(tokens, count - 1)
  }

  /** A successful triple step upserts the triple's subject and object: both have a category. */
  lemma ProjectTripleNodes(st: ProjState, tokens: seq<string>, i: nat, t: Template, nameToId: map<string, string>,
                           info: NodeInfo)
    requires TriplesFit(tokens, t, nameToId, i + 1)
    requires ProjectTriple(st, tokens, i, t, nameToId, info).Ok?
    ensures Categorized(info, Subject(tokens, i)) && Categorized(info, Object(tokens, i))
    ensures ProjectTriple(st, tokens, i, t, nameToId, info).value.knodes ==
      TripleNodesStep(st.knodes, tokens, i, t, nameToId, info)
  {
  }

  /** A successful triple step writes the triple's edge under its key. */
  lemma ProjectTripleEdges(st: ProjState, tokens: seq<string>, i: nat, t: Template, nameToId: map<string, string>,
                           info: NodeInfo)
    requires TriplesFit(tokens, t, nameToId, i + 1)
    requires ProjectTriple(st, tokens, i, t, nameToId, info).Ok?
    ensures ProjectTriple(st, tokens, i, t, nameToId, info).value.kedges ==
      st.kedges[TripleKey(tokens, i, nameToId) := TripleEdge(tokens, i, nameToId, t.qedgeKeys[i])]
  {
  }

  /** A successful triple step adds the self-loop warning of the triple, if any. */
  lemma ProjectTripleWarnings(st: ProjState, tokens: seq<string>, i: nat, t: Template, nameToId: map<string, string>,
                              info: NodeInfo)
    requires TriplesFit(tokens, t, nameToId, i + 1)
    requires ProjectTriple(st, tokens, i, t, nameToId, info).Ok?
    ensures ProjectTriple(st, tokens, i, t, nameToId, info).value.warnings == st.warnings + TripleWarning(tokens, i)
  {
  }

  /** The successful loop over `count` triples is the successful loop over `count - 1` followed by one step. */
  lemma ProjectTriplesLast(st: ProjState, tokens: seq<string>, t: Template, nameToId: map<string, string>,
                           info: NodeInfo, count: nat)
    requires TriplesFit(tokens, t, nameToId, count) && count > 0
    requires ProjectTriples(st, tokens, t, nameToId, info, count).Ok?
    ensures ProjectTriples(st, tokens, t, nameToId, info, count - 1).Ok?
    ensures var prev := ProjectTriples(st, tokens, t, nameToId, info, count - 1).value;
      && ProjectTriple(prev, tokens, count - 1, t, nameToId, info).Ok?
      && ProjectTriples(st, tokens, t, nameToId, info, count) == ProjectTriple(prev, tokens, count - 1, t, nameToId, info)
  {
  }

  /** The nodes of a successful triple loop are the node fold; every subject and object had a category. */
  lemma {:induction false} ProjectTriplesNodesPart(st: ProjState, tokens: seq<string>, t: Template,
                                                   nameToId: map<string, string>, info: NodeInfo, count: nat)
    requires TriplesFit(tokens, t, nameToId, count)
    requires ProjectTriples(st, tokens, t, nameToId, info, count).Ok?
    ensures AllCategorized(tokens, info, count)
    ensures ProjectTriples(st, tokens, t, nameToId, info, count).value.knodes ==
      TripleNodes(st.knodes, tokens, t, nameToId, info, count)
  {
    if count > 0 {
      ProjectTriplesLast(st, tokens, t, nameToId, info, count);
      ProjectTriplesNodesPart(st, tokens, t, nameToId, info, count - 1);
      var prev := ProjectTriples(st, tokens, t, nameToId, info, count - 1).value;
      ProjectTripleNodes(prev, tokens, count - 1, t, nameToId, info);
    }
  }

  /** The edges of a successful triple loop are the edge fold. */
  lemma {:induction false} ProjectTriplesEdgesPart(st: ProjState, tokens: seq<string>, t: Template,
                                                   nameToId: map<string, string>, info: NodeInfo, count: nat)
    requires TriplesFit(tokens, t, nameToId, count)
    requires ProjectTriples(st, tokens, t, nameToId, info, count).Ok?
    ensures ProjectTriples(st, tokens, t, nameToId, info, count).value.kedges ==
      TripleEdges(st.kedges, tokens, t, nameToId, count)
  {
    if count > 0 {
      ProjectTriplesLast(st, tokens, t, nameToId, info, count);
      ProjectTriplesEdgesPart(st, tokens, t, nameToId, info, count - 1);
      var prev := ProjectTriples(st, tokens, t, nameToId, info, count - 1).value;
      ProjectTripleEdges(prev, tokens, count - 1, t, nameToId, info);
    }
  }

  /** The warnings of a successful triple loop are the earlier ones followed by one per self-loop triple. */
  lemma {:induction false} ProjectTriplesWarningsPart(st: ProjState, tokens: seq<string>, t: Template,
                                                      nameToId: map<string, string>, info: NodeInfo, count: nat)
    requires TriplesFit(tokens, t, nameToId, count)
    requires ProjectTriples(st, tokens, t, nameToId, info, count).Ok?
    ensures ProjectTriples(st, tokens, t, nameToId, info, count).value.warnings ==
      st.warnings + SelfLoopWarnings(tokens, count)
  {
    if count > 0 {
      ProjectTriplesLast(st, tokens, t, nameToId, info, count);
      ProjectTriplesWarningsPart(st, tokens, t, nameToId, info, count - 1);
      var prev := ProjectTriples(st, tokens, t, nameToId, info, count - 1).value;
      ProjectTripleWarnings(prev, tokens, count - 1, t, nameToId, info);
      var w, tw := SelfLoopWarnings(tokens, count - 1), TripleWarning(tokens, count - 1);
      assert SelfLoopWarnings(tokens, count) == w + tw;
      assert (st.warnings + w) + tw == st.warnings + (w + tw);
    }
  }

  /**
   * A successful triple loop is the three independent folds: the node
   * upserts, the edge writes and the self-loop warnings, each in triple order.
   */
  lemma ProjectTriplesParts(st: ProjState, tokens: seq<string>, t: Template,
                            nameToId: map<string, string>, info: NodeInfo, count: nat)
    requires TriplesFit(tokens, t, nameToId, count)
    requires ProjectTriples(st, tokens, t, nameToId, info, count).Ok?
    ensures AllCategorized(tokens, info, count)
    ensures ProjectTriples(st, tokens, t, nameToId, info, count).value ==
      ProjState(TripleNodes(st.knodes, tokens, t, nameToId, info, count), TripleEdges(st.kedges, tokens, t, nameToId, count),
                st.warnings + SelfLoopWarnings(tokens, count))
  {
    ProjectTriplesNodesPart(st, tokens, t, nameToId, info, count);
    ProjectTriplesEdgesPart(st, tokens, t, nameToId, info, count);
    ProjectTriplesWarningsPart(st, tokens, t, nameToId, info, count);
  }

  /** After the edge writes the key of each triple holds an edge. */
  lemma {:induction false} TripleEdgesPresent(kedges: map<string, KEdge>, tokens: seq<string>, t: Template,
                                              nameToId: map<string, string>, count: nat, i: nat)
    requires TriplesFit(tokens, t, nameToId, count) && i < count
    ensures TripleKey(tokens, i, nameToId) in TripleEdges(kedges, tokens, t, nameToId, count)
  {
    if i < count - 1 {
      TripleEdgesPresent(kedges, tokens, t, nameToId, count - 1, i);
    }
  }

  /**
   * The edge under a triple's key is the one of the last triple writing that
   * key: its subject, stored predicate and object, and that triple's
   * template query edge as its only query edge. An earlier write under the
   * same key is replaced, not merged.
   */
  lemma {:induction false} TripleEdgesLatest(kedges: map<string, KEdge>, tokens: seq<string>, t: Template,
                                             nameToId: map<string, string>, count: nat, i: nat)
    requires TriplesFit(tokens, t, nameToId, count) && i < count && LastWrite(tokens, nameToId, i, count)
    ensures TripleKey(tokens, i, nameToId) in TripleEdges(kedges, tokens, t, nameToId, count)
    ensures TripleEdges(kedges, tokens, t, nameToId, count)[TripleKey(tokens, i, nameToId)] ==
      TripleEdge(tokens, i, nameToId, t.qedgeKeys[i])
  {
    var last := count - 1;
    if i < last {
      assert TripleKey(tokens, last, nameToId) != TripleKey(tokens, i, nameToId);
      TripleEdgesLatest(kedges, tokens, t, nameToId, last, i);
    }
  }

  /** A key no triple writes keeps its edge, or stays absent. */
  lemma {:induction false} TripleEdgesFrame(kedges: map<string, KEdge>, tokens: seq<string>, t: Template,
                                            nameToId: map<string, string>, count: nat, k: string)
    requires TriplesFit(tokens, t, nameToId, count) && k !in WrittenKeys(tokens, nameToId, count)
    ensures k in TripleEdges(kedges, tokens, t, nameToId, count) <==> k in kedges
    ensures k in kedges ==> TripleEdges(kedges, tokens, t, nameToId, count)[k] == kedges[k]
  {
    if count > 0 {
      TripleEdgesFrame(kedges, tokens, t, nameToId, count - 1, k);
    }
  }

  /** The subject and object of each triple are nodes filling the slots of their template pair. */
  lemma {:induction false} TripleNodesSlots(knodes: map<string, KNode>, tokens: seq<string>, t: Template,
                                            nameToId: map<string, string>, info: NodeInfo, count: nat, i: nat)
    requires TriplesFit(tokens, t, nameToId, count) && AllCategorized(tokens, info, count) && i < count
    ensures var r := TripleNodes(knodes, tokens, t, nameToId, info, count);
      && nameToId[Subject(tokens, i)] in r
      && t.qnodePairs[i].0 in r[nameToId[Subject(tokens, i)]].qnodeKeys
      && nameToId[Object(tokens, i)] in r
      && t.qnodePairs[i].1 in r[nameToId[Object(tokens, i)]].qnodeKeys
  {
    var last := count - 1;
    var prev := TripleNodes(knodes, tokens, t, nameToId, info, last);
    var s, o := Subject(tokens, last), Object(tokens, last);
    var sCurie, oCurie := nameToId[s], nameToId[o];
    var sSlot, oSlot := t.qnodePairs[last].0, t.qnodePairs[last].1;
    var sCat, oCat := info[s].value.category, info[o].value.category;
    var nodes := UpsertNode(prev, sCurie, s, sCat, sSlot);
    assert TripleNodes(knodes, tokens, t, nameToId, info, count) == UpsertNode(nodes, oCurie, o, oCat, oSlot);
    if i < last {
      TripleNodesSlots(knodes, tokens, t, nameToId, info, last, i);
      var si, oi := nameToId[Subject(tokens, i)], nameToId[Object(tokens, i)];
      UpsertNodeKeepsSlots(prev, sCurie, s, sCat, sSlot, si, t.qnodePairs[i].0);
      UpsertNodeKeepsSlots(nodes, oCurie, o, oCat, oSlot, si, t.qnodePairs[i].0);
      UpsertNodeKeepsSlots(prev, sCurie, s, sCat, sSlot, oi, t.qnodePairs[i].1);
      UpsertNodeKeepsSlots(nodes, oCurie, o, oCat, oSlot, oi, t.qnodePairs[i].1);
    } else {
      UpsertNodeEffect(prev, sCurie, s, sCat, sSlot);
      UpsertNodeEffect(nodes, oCurie, o, oCat, oSlot);
      UpsertNodeKeepsSlots(nodes, oCurie, o, oCat, oSlot, sCurie, sSlot);
    }
  }

  /** A node already present keeps its name and its categories. */
  lemma {:induction false} TripleNodesKeepExisting(knodes: map<string, KNode>, tokens: seq<string>, t: Template,
                                                   nameToId: map<string, string>, info: NodeInfo, count: nat, c: string)
    requires TriplesFit(tokens, t, nameToId, count) && AllCategorized(tokens, info, count) && c in knodes
    ensures var r := TripleNodes(knodes, tokens, t, nameToId, info, count);
      c in r && r[c].name == knodes[c].name && r[c].categories == knodes[c].categories
  {
    if count > 0 {
      var last := count - 1;
      TripleNodesKeepExisting(knodes, tokens, t, nameToId, info, last, c);
      var prev := TripleNodes(knodes, tokens, t, nameToId, info, last);
      var s, o := Subject(tokens, last), Object(tokens, last);
      var nodes := UpsertNode(prev, nameToId[s], s, info[s].value.category, t.qnodePairs[last].0);
      assert TripleNodes(knodes, tokens, t, nameToId, info, count)
          == UpsertNode(nodes, nameToId[o], o, info[o].value.category, t.qnodePairs[last].1);
      UpsertNodeKeepsNode(prev, nameToId[s], s, info[s].value.category, t.qnodePairs[last].0, c);
      UpsertNodeKeepsNode(nodes, nameToId[o], o, info[o].value.category, t.qnodePairs[last].1, c);
    }
  }

  /** Duplicate-free, non-empty slot lists stay so. */
  lemma {:induction false} TripleNodesWellFormed(knodes: map<string, KNode>, tokens: seq<string>, t: Template,
                                                 nameToId: map<string, string>, info: NodeInfo, count: nat)
    requires TriplesFit(tokens, t, nameToId, count) && AllCategorized(tokens, info, count)
    requires SlotsWellFormed(knodes)
    ensures SlotsWellFormed(TripleNodes(knodes, tokens, t, nameToId, info, count))
  {
    if count > 0 {
      var last := count - 1;
      TripleNodesWellFormed(knodes, tokens, t, nameToId, info, last);
      var prev := TripleNodes(knodes, tokens, t, nameToId, info, last);
      var s, o := Subject(tokens, last), Object(tokens, last);
      var nodes := UpsertNode(prev, nameToId[s], s, info[s].value.category, t.qnodePairs[last].0);
      UpsertNodeWellFormed(prev, nameToId[s], s, info[s].value.category, t.qnodePairs[last].0);
      UpsertNodeWellFormed(nodes, nameToId[o], o, info[o].value.category, t.qnodePairs[last].1);
    }
  }
}
