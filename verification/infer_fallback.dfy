/**
 * The branch taken when no explanation path has a hop: every drug of the
 * `top_drugs` table, in the iteration order of the set of its drug ids, is
 * added as a node filling the drug query node, scored under its preferred
 * name, and linked to the disease by a filled `biolink:probably_treats`
 * edge. Scores come from `dict(zip(node_ids, top_drugs['tp_score']))`,
 * which pairs the set's iteration order with the table's row order.
 */
module InferFallback {
  import opened Wrappers
  import opened InferTypes
  import opened InferProjection

  /** `dict(zip(keys, values))` over the first `count` positions: a repeated key keeps its last value. */
  function Zip<K, V>(keys: seq<K>, values: seq<V>, count: nat): map<K, V>
    requires count <= |keys| && count <= |values|
  {
    if count == 0 then map[] else Zip(keys, values, count - 1)[keys[count - 1] := values[count - 1]]
  }

  /** Without repeated keys, the key at position `i` is paired with the value at position `i`. */
  lemma {:induction false} ZipAt<K, V>(keys: seq<K>, values: seq<V>, count: nat, i: nat)
    requires count <= |keys| && count <= |values| && i < count
    requires NoDup(keys)
    ensures keys[i] in Zip(keys, values, count) && Zip(keys, values, count)[keys[i]] == values[i]
  {
    if i < count - 1 {
      ZipAt(keys, values, count - 1, i);
    }
  }

  /** The keys of the zipped dictionary are exactly the keys at the zipped positions. */
  lemma {:induction false} ZipKeys<K, V>(keys: seq<K>, values: seq<V>, count: nat, k: K)
    requires count <= |keys| && count <= |values|
    ensures k in Zip(keys, values, count) <==> exists i | 0 <= i < count :: keys[i] == k
  {
    if count > 0 {
      ZipKeys(keys, values, count - 1, k);
      if keys[count - 1] == k {
        assert 0 <= count - 1 < count && keys[count - 1] == k;
      }
    }
  }

  function Scores(rows: seq<DrugRow>): (r: seq<Score>)
    ensures |r| == |rows| && forall i | 0 <= i < |rows| :: r[i] == rows[i].tpScore
  {
    seq(|rows|, i requires 0 <= i < |rows| => rows[i].tpScore)
  }

  /** `node_id_to_score`: the drug ids in set order zipped with the score column in row order. */
  function ZipScores(order: seq<string>, rows: seq<DrugRow>): map<string, Score> {
    Zip(order, Scores(rows), if |order| <= |rows| then |order| else |rows|)
  }

  /** The drug at position `k` of the set order gets the score of ROW `k`, whichever drug that row is about. */
  lemma ZipScoresAt(order: seq<string>, rows: seq<DrugRow>, k: nat)
    requires NoDup(order) && k < |order| && k < |rows|
    ensures order[k] in ZipScores(order, rows) && ZipScores(order, rows)[order[k]] == rows[k].tpScore
  {
    ZipAt(order, Scores(rows), if |order| <= |rows| then |order| else |rows|, k);
  }

  /** When the set order differs from the row order, a drug is scored with another drug's row. */
  lemma ZipScoresMismatch()
    ensures var rows := [DrugRow("A", "a", 0.9, "D", "d"), DrugRow("B", "b", 0.1, "D", "d")];
      "B" in ZipScores(["B", "A"], rows) && ZipScores(["B", "A"], rows)["B"] == 0.9
  {
    var rows := [DrugRow("A", "a", 0.9, "D", "d"), DrugRow("B", "b", 0.1, "D", "d")];
    assert NoDup(["B", "A"]);
    ZipScoresAt(["B", "A"], rows, 0);
  }

  /** The state the fallback loop updates: the graph and `essence_scores`. */
  datatype FallbackState = FallbackState(knodes: map<string, KNode>, kedges: map<string, KEdge>, essence: map<string, Score>)

  /** The fixed inputs of the fallback loop. */
  datatype FallbackInputs = FallbackInputs(
    curieInfo: NodeInfo,
    idToScore: map<string, Score>,
    drugQ: string,
    diseaseCurie: string,
    qedgeId: string)

  /** The edge that links a drug to the disease in the fallback branch. */
  function FallbackEdge(curie: string, diseaseCurie: string, score: Score, qedgeId: string): KEdge {
    KEdge(curie, diseaseCurie, ProbablyTreats, TreatAttributes(score), [qedgeId], true)
  }

  /**
   * One drug id. The node is added only when its curie is not yet a node;
   * the edge is added only when the CURIE (not the edge key) is not yet an
   * edge key, a test that in practice always passes.
   */
  function FallbackDrug(st: FallbackState, nodeId: string, fin: FallbackInputs): Result<FallbackState> {
    var canonicalIds := NameToId(fin.curieInfo);
    if nodeId !in canonicalIds then Raise(KeyErrorPrefix + nodeId)
    else if nodeId !in fin.idToScore then Raise(KeyErrorPrefix + nodeId)
    else
      var c := fin.curieInfo[nodeId].value;
      var curie, score := canonicalIds[nodeId], fin.idToScore[nodeId];
      var knodes := if curie !in st.knodes then st.knodes[curie := KNode(c.name, [c.category, NamedThing], [fin.drugQ])]
                    else st.knodes;
      var kedges := if curie !in st.kedges
                    then st.kedges[EdgeKey(KnowledgeProvider, curie, ProbablyTreats, fin.diseaseCurie) :=
                                     FallbackEdge(curie, fin.diseaseCurie, score, fin.qedgeId)]
                    else st.kedges;
      Ok(FallbackState(knodes, kedges, st.essence[c.name := score]))
  }

  /** The fallback loop over the first `count` drug ids of the set order. */
  function FallbackDrugs(st: FallbackState, order: seq<string>, fin: FallbackInputs, count: nat): Result<FallbackState>
    requires count <= |order|
  {
    if count == 0 then Ok(st)
    else
      match FallbackDrugs(st, order, fin, count - 1)
      case Raise(e) => Raise(e)
      case Ok(prev) => FallbackDrug(prev, order[count - 1], fin)
  }

  /** The fallback loop as the source writes it. */
  method FallbackLoop(st: FallbackState, order: seq<string>, fin: FallbackInputs) returns (r: Result<FallbackState>)
    ensures r == FallbackDrugs(st, order, fin, |order|)
  {
    var cur := st;
    var canonicalIds := NameToId(fin.curieInfo);
    for i := 0 to |order|
      invariant FallbackDrugs(st, order, fin, i) == Ok(cur)
    {
      var nodeId := order[i];
      if nodeId !in canonicalIds {
        FallbackRaiseSticks(st, order, fin, i + 1, |order|);
        return Raise(KeyErrorPrefix + nodeId);
      }
      var curie := canonicalIds[nodeId];
      var category := fin.curieInfo[nodeId].value.category;
      var drugName := fin.curieInfo[nodeId].value.name;
      if nodeId !in fin.idToScore {
        FallbackRaiseSticks(st, order, fin, i + 1, |order|);
        return Raise(KeyErrorPrefix + nodeId);
      }
      var essence := cur.essence[drugName := fin.idToScore[nodeId]];
      var knodes := cur.knodes;
      if curie !in knodes {
        knodes := knodes[curie := KNode(drugName, [category, NamedThing], [fin.drugQ])];
      }
      var kedges := cur.kedges;
      if curie !in kedges {
        var edge := FallbackEdge(curie, fin.diseaseCurie, fin.idToScore[nodeId], fin.qedgeId);
        kedges := kedges[EdgeKey(KnowledgeProvider, curie, ProbablyTreats, fin.diseaseCurie) := edge];
      }
      cur := FallbackState(knodes, kedges, essence);
    }
    r := Ok(cur);
  }

  /** Once the fallback loop has raised, the same error ends it. */
  lemma {:induction false} FallbackRaiseSticks(st: FallbackState, order: seq<string>, fin: FallbackInputs, i: nat, count: nat)
    requires i <= count <= |order|
    requires FallbackDrugs(st, order, fin, i).Raise?
    ensures FallbackDrugs(st, order, fin, count) == FallbackDrugs(st, order, fin, i)
  {
    if i < count {
      FallbackRaiseSticks(st, order, fin, i, count - 1);
    }
  }

  /** Every one of the first `count` drug ids has a preferred curie and a zipped score. */
  predicate AllKnown(order: seq<string>, fin: FallbackInputs, count: nat)
    requires count <= |order|
  {
    forall k | 0 <= k < count :: order[k] in NameToId(fin.curieInfo) && order[k] in fin.idToScore
  }

  /** The fallback loop fails exactly when some drug id has no preferred curie or no zipped score. */
  lemma {:induction false} FallbackOk(st: FallbackState, order: seq<string>, fin: FallbackInputs, count: nat)
    requires count <= |order|
    ensures FallbackDrugs(st, order, fin, count).Ok? <==> AllKnown(order, fin, count)
  {
    if count > 0 {
      FallbackOk(st, order, fin, count - 1);
      if FallbackDrugs(st, order, fin, count - 1).Raise? {
        assert !AllKnown(order, fin, count - 1);
        assert !AllKnown(order, fin, count);
      }
    }
  }

  /** Every drug's curie is a node afterwards, and a node already in the graph is never touched. */
  lemma {:induction false} FallbackNodes(st: FallbackState, order: seq<string>, fin: FallbackInputs, count: nat, c: string)
    requires count <= |order|
    requires FallbackDrugs(st, order, fin, count).Ok?
    ensures var r := FallbackDrugs(st, order, fin, count).value;
      && (c in st.knodes ==> c in r.knodes && r.knodes[c] == st.knodes[c])
      && (forall k | 0 <= k < count :: order[k] in NameToId(fin.curieInfo) && NameToId(fin.curieInfo)[order[k]] in r.knodes)
  {
    if count > 0 {
      FallbackNodes(st, order, fin, count - 1, c);
      FallbackOk(st, order, fin, count);
    }
  }

  /** The synonymizer gives `nodeId` the preferred name `name`. */
  predicate HasName(info: NodeInfo, nodeId: string, name: string) {
    nodeId in info && info[nodeId].Some? && info[nodeId].value.name == name
  }

  /** A drug's score is stored under its preferred name; the names scored are exactly those of the drugs seen. */
  lemma {:induction false} FallbackEssence(st: FallbackState, order: seq<string>, fin: FallbackInputs, count: nat,
                                           name: string)
    requires count <= |order|
    requires FallbackDrugs(st, order, fin, count).Ok?
    ensures name in FallbackDrugs(st, order, fin, count).value.essence <==>
      name in st.essence || exists k | 0 <= k < count :: HasName(fin.curieInfo, order[k], name)
  {
    if count > 0 {
      var last := count - 1;
      FallbackEssence(st, order, fin, last, name);
      FallbackOk(st, order, fin, count);
      assert order[last] in NameToId(fin.curieInfo);
      var c := fin.curieInfo[order[last]].value;
      if c.name == name {
        assert 0 <= last < count && HasName(fin.curieInfo, order[last], name);
      }
    }
  }

  /**
   * Among the first `count` drug ids, the one at position `k` stores its
   * zipped score under its preferred name, and that score stays there when
   * no later drug id has the same preferred name.
   */
  lemma {:induction false} FallbackEssenceScore(st: FallbackState, order: seq<string>, fin: FallbackInputs, count: nat,
                                                k: nat)
    requires count <= |order| && k < count
    requires FallbackDrugs(st, order, fin, count).Ok?
    ensures order[k] in fin.curieInfo && fin.curieInfo[order[k]].Some? && order[k] in fin.idToScore
    ensures var name, essence := fin.curieInfo[order[k]].value.name, FallbackDrugs(st, order, fin, count).value.essence;
      && name in essence
      && ((forall j | k < j < count :: !HasName(fin.curieInfo, order[j], name)) ==> essence[name] == fin.idToScore[order[k]])
  {
    var last := count - 1;
    FallbackOk(st, order, fin, count);
    if k < last {
      FallbackEssenceScore(st, order, fin, last, k);
    }
  }

  /**
   * Every edge the fallback loop adds is the filled `biolink:probably_treats`
   * edge of one of the drugs: it is stored under that drug's edge key, runs
   * from the drug's preferred curie to the disease, fills the query edge
   * `qedge_id` and carries the drug's zipped score.
   */
  lemma {:induction false} FallbackEdges(st: FallbackState, order: seq<string>, fin: FallbackInputs, count: nat, key: string)
    requires count <= |order|
    requires FallbackDrugs(st, order, fin, count).Ok?
    requires key in FallbackDrugs(st, order, fin, count).value.kedges && key !in st.kedges
    ensures exists k | 0 <= k < count ::
              && order[k] in NameToId(fin.curieInfo) && order[k] in fin.idToScore
              && key == EdgeKey(KnowledgeProvider, NameToId(fin.curieInfo)[order[k]], ProbablyTreats, fin.diseaseCurie)
              && FallbackDrugs(st, order, fin, count).value.kedges[key]
                 == FallbackEdge(NameToId(fin.curieInfo)[order[k]], fin.diseaseCurie, fin.idToScore[order[k]], fin.qedgeId)
  {
    if count > 0 {
      var last := count - 1;
      var prev := FallbackDrugs(st, order, fin, last).value;
      FallbackOk(st, order, fin, count);
      var curie := NameToId(fin.curieInfo)[order[last]];
      var written := EdgeKey(KnowledgeProvider, curie, ProbablyTreats, fin.diseaseCurie);
      if curie !in prev.kedges && key == written {
        assert 0 <= last < count;
      } else {
        FallbackEdges(st, order, fin, last, key);
      }
    }
  }

  /**
   * No preferred curie of the first `count` drug ids is already an edge key,
   * nor starts like one: the guard of the fallback's edge then never holds
   * an edge back.
   */
  predicate CuriesFresh(kedges: map<string, KEdge>, order: seq<string>, info: NodeInfo, count: nat)
    requires count <= |order|
  {
    forall j | 0 <= j < count && order[j] in NameToId(info) ::
      NameToId(info)[order[j]] !in kedges && NotPathKey(NameToId(info)[order[j]])
  }

  /** A curie that is not an edge key and does not start like one never becomes an edge key in the fallback loop. */
  lemma {:induction false} FallbackKeepsCurieOut(st: FallbackState, order: seq<string>, fin: FallbackInputs, count: nat,
                                                 c: string)
    requires count <= |order|
    requires FallbackDrugs(st, order, fin, count).Ok?
    requires c !in st.kedges && NotPathKey(c)
    ensures c !in FallbackDrugs(st, order, fin, count).value.kedges
  {
    if count > 0 {
      FallbackOk(st, order, fin, count);
      FallbackKeepsCurieOut(st, order, fin, count - 1, c);
      EdgeKeyIsPathKey(NameToId(fin.curieInfo)[order[count - 1]], ProbablyTreats, fin.diseaseCurie);
    }
  }

  /**
   * With fresh curies, every drug id gets its filled `biolink:probably_treats`
   * edge from its preferred curie to the disease, filling `qedge_id`. The
   * edge carries the drug's own zipped score unless a later drug id has the
   * same preferred curie and rewrote it.
   */
  lemma {:induction false} FallbackDrugEdge(st: FallbackState, order: seq<string>, fin: FallbackInputs, count: nat, k: nat)
    requires count <= |order| && k < count
    requires FallbackDrugs(st, order, fin, count).Ok?
    requires CuriesFresh(st.kedges, order, fin.curieInfo, count)
    ensures order[k] in NameToId(fin.curieInfo) && order[k] in fin.idToScore
    ensures var curie := NameToId(fin.curieInfo)[order[k]];
      var key := EdgeKey(KnowledgeProvider, curie, ProbablyTreats, fin.diseaseCurie);
      var r := FallbackDrugs(st, order, fin, count).value;
      && key in r.kedges
      && r.kedges[key].subject == curie && r.kedges[key].pred == ProbablyTreats && r.kedges[key].obj == fin.diseaseCurie
      && r.kedges[key].qedgeKeys == [fin.qedgeId] && r.kedges[key].filled
      && ((forall j | k < j < count && order[j] in NameToId(fin.curieInfo) :: NameToId(fin.curieInfo)[order[j]] != curie) ==>
            r.kedges[key] == FallbackEdge(curie, fin.diseaseCurie, fin.idToScore[order[k]], fin.qedgeId))
  {
    FallbackOk(st, order, fin, count);
    var last := count - 1;
    var prev := FallbackDrugs(st, order, fin, last).value;
    var curie := NameToId(fin.curieInfo)[order[last]];
    FallbackKeepsCurieOut(st, order, fin, last, curie);
    if k < last {
      FallbackDrugEdge(st, order, fin, last, k);
      var ck := NameToId(fin.curieInfo)[order[k]];
      if EdgeKey(KnowledgeProvider, ck, ProbablyTreats, fin.diseaseCurie) == EdgeKey(KnowledgeProvider, curie, ProbablyTreats, fin.diseaseCurie) {
        EdgeKeySameSubject(KnowledgeProvider, ck, curie, ProbablyTreats, fin.diseaseCurie);
      }
    }
  }

  /** `order` lists the drug ids of `rows` as Python's set of them does: each id once, and no other. */
  predicate SetOrder(rows: seq<DrugRow>, order: seq<string>) {
    && NoDup(order)
    && (forall i | 0 <= i < |rows| :: rows[i].drugId in order)
    && (forall k | 0 <= k < |order| :: exists i | 0 <= i < |rows| :: rows[i].drugId == order[k])
  }

  /**
   * When the order is a set order and every drug id has a zipped score, the
   * drug at position `k` is scored with ROW `k` of the table.
   */
  lemma ZipScoresOfSet(order: seq<string>, rows: seq<DrugRow>, k: nat)
    requires SetOrder(rows, order) && k < |order| && order[k] in ZipScores(order, rows)
    ensures k < |rows| && ZipScores(order, rows)[order[k]] == rows[k].tpScore
  {
    var count := if |order| <= |rows| then |order| else |rows|;
    ZipKeys(order, Scores(rows), count, order[k]);
    var i :| 0 <= i < count && order[i] == order[k];
    assert i == k;
    ZipScoresAt(order, rows, k);
  }
}
