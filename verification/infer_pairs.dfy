/**
 * The per-pair part of the creative drug-treats-disease synthesis: every
 * explanation path ("variant") of a (drug, disease) pair whose node names all
 * resolved is projected through the template of its triple count; a pair
 * with at least one projected variant gets a summary prediction edge under
 * the next `creative_DTD_prediction_<n>` key and an essence score, any other
 * pair a warning.
 */
module InferPairs {
  import opened Wrappers
  import opened Text
  import opened InferTypes
  import opened InferTemplates
  import opened InferProjection

  const PathSeparator := "->"
  const IndexOutOfRange := "IndexError: list index out of range"
  const QNodePairsKeyError := "KeyError: 'qnode_pairs'"
  const NoMatchingRow := "IndexError: single positional indexer is out-of-bounds"
  const PairFailedPrefix := "Something went wrong when adding the subgraph for the drug-disease pair ("
  const PairFailedSuffix := ") to the knowledge graph. Skipping this result...."

  /** Every filled slot `k` of `path_keys` holds a chain of `k + 1` query-node pairs and query edges. */
  predicate SlotsFit(pathKeys: seq<Option<Template>>) {
    forall k | 0 <= k < |pathKeys| && pathKeys[k].Some? ::
      |pathKeys[k].value.qnodePairs| == k + 1 && |pathKeys[k].value.qedgeKeys| == k + 1
  }

  /** The template loop fills `path_keys` with chains of the right lengths. */
  lemma AddTemplatesSlotsFit(qg: QueryGraph, c: Counters, lengths: set<nat>, n: nat, drugQ: string, diseaseQ: string)
    ensures SlotsFit(AddTemplates(qg, c, lengths, n, drugQ, diseaseQ).pathKeys)
  {
    var r := AddTemplates(qg, c, lengths, n, drugQ, diseaseQ);
    forall k | 0 <= k < |r.pathKeys| && r.pathKeys[k].Some?
      ensures |r.pathKeys[k].value.qnodePairs| == k + 1 && |r.pathKeys[k].value.qedgeKeys| == k + 1
    {
      AddTemplatesSlot(qg, c, lengths, n, drugQ, diseaseQ, k + 1);
      AddTemplatesChains(qg, c, lengths, n, drugQ, diseaseQ, k + 1);
    }
  }

  /**
   * One variant, given as its tokens. A variant with a node name that did
   * not resolve is skipped. Otherwise its triples are projected through the
   * template in slot `T - 1` of `path_keys`, `T` being its triple count; a
   * variant without triples counts as projected with nothing written. The
   * boolean says whether the variant was projected.
   */
  function ProjectVariant(st: ProjState, tokens: seq<string>, pathKeys: seq<Option<Template>>,
                          nameToId: map<string, string>, info: NodeInfo): Result<(ProjState, bool)>
    requires SlotsFit(pathKeys)
  {
    if !Resolved(tokens, nameToId) then Ok((st, false))
    else
      var n := TripleCount(tokens);
      if n == 0 then Ok((st, true))
      else if n - 1 >= |pathKeys| then Raise(IndexOutOfRange)
      else if pathKeys[n - 1].None? then Raise(QNodePairsKeyError)
      else
        match ProjectTriples(st, tokens, pathKeys[n - 1].value, nameToId, info, n)
        case Raise(e) => Raise(e)
        case Ok(st') => Ok((st', true))
  }

  /** A variant is projected exactly when all its node names resolved; a skipped variant changes nothing. */
  lemma ProjectVariantSkips(st: ProjState, tokens: seq<string>, pathKeys: seq<Option<Template>>,
                            nameToId: map<string, string>, info: NodeInfo)
    requires SlotsFit(pathKeys)
    requires ProjectVariant(st, tokens, pathKeys, nameToId, info).Ok?
    ensures ProjectVariant(st, tokens, pathKeys, nameToId, info).value.1 <==> Resolved(tokens, nameToId)
    ensures !Resolved(tokens, nameToId) ==> ProjectVariant(st, tokens, pathKeys, nameToId, info).value.0 == st
  {
  }

  /**
   * A projected variant with `T >= 1` triples is its triple loop over the
   * template in slot `T - 1`: its edges are the edge fold, its nodes the
   * upsert fold, every earlier warning is kept.
   */
  lemma ProjectVariantTriples(st: ProjState, tokens: seq<string>, pathKeys: seq<Option<Template>>,
                              nameToId: map<string, string>, info: NodeInfo)
    requires SlotsFit(pathKeys)
    requires ProjectVariant(st, tokens, pathKeys, nameToId, info).Ok?
    requires Resolved(tokens, nameToId) && TripleCount(tokens) >= 1
    ensures var n := TripleCount(tokens);
      && n - 1 < |pathKeys| && pathKeys[n - 1].Some?
      && TriplesFit(tokens, pathKeys[n - 1].value, nameToId, n)
      && AllCategorized(tokens, info, n)
      && ProjectVariant(st, tokens, pathKeys, nameToId, info).value.0 ==
           ProjState(TripleNodes(st.knodes, tokens, pathKeys[n - 1].value, nameToId, info, n),
                     TripleEdges(st.kedges, tokens, pathKeys[n - 1].value, nameToId, n),
                     st.warnings + SelfLoopWarnings(tokens, n))
  {
    var n := TripleCount(tokens);
    ProjectTriplesParts(st, tokens, pathKeys[n - 1].value, nameToId, info, n);
  }

  /**
   * The template a variant with `T >= 1` triples needs is there exactly when
   * `T` is one of the hop counts the templates were built for; without it
   * the variant raises the `KeyError` on `'qnode_pairs'`, with it the variant
   * succeeds exactly when its triple loop does.
   */
  lemma ProjectVariantTemplate(st: ProjState, tokens: seq<string>, qg: QueryGraph, c: Counters, lengths: set<nat>,
                               maxLen: nat, drugQ: string, diseaseQ: string, nameToId: map<string, string>,
                               info: NodeInfo)
    requires Resolved(tokens, nameToId) && 1 <= TripleCount(tokens) <= maxLen
    ensures var pathKeys := AddTemplates(qg, c, lengths, maxLen, drugQ, diseaseQ).pathKeys;
      var n := TripleCount(tokens);
      && SlotsFit(pathKeys)
      && (n !in lengths ==> ProjectVariant(st, tokens, pathKeys, nameToId, info) == Raise(QNodePairsKeyError))
      && (n in lengths ==>
            && pathKeys[n - 1].Some?
            && (ProjectVariant(st, tokens, pathKeys, nameToId, info).Ok? <==> AllCategorized(tokens, info, n)))
  {
    var pathKeys := AddTemplates(qg, c, lengths, maxLen, drugQ, diseaseQ).pathKeys;
    AddTemplatesSlotsFit(qg, c, lengths, maxLen, drugQ, diseaseQ);
    var n := TripleCount(tokens);
    AddTemplatesSlot(qg, c, lengths, maxLen, drugQ, diseaseQ, n);
    if n in lengths {
      ProjectTriplesOk(st, tokens, pathKeys[n - 1].value, nameToId, info, n);
    }
  }

  /**
   * The triple count against the recorded hop count: a path with an odd
   * number of tokens has as many triples as hops; one with an even number
   * has one triple fewer than its hop count, so the template it needs is
   * there only when some path has one hop fewer.
   */
  lemma TripleCountAndHops(path: string)
    ensures |Tokens(path)| % 2 == 1 ==> TripleCount(Tokens(path)) == HopCount(path)
    ensures |Tokens(path)| % 2 == 0 ==> TripleCount(Tokens(path)) + 1 == HopCount(path)
  {
  }

  /** A resolved variant with an odd token count always finds its template; it fails only on a missing category. */
  lemma OddVariantFindsTemplate(st: ProjState, path: string, qg: QueryGraph, c: Counters, lengths: set<nat>,
                                maxLen: nat, drugQ: string, diseaseQ: string, nameToId: map<string, string>,
                                info: NodeInfo)
    requires HopCount(path) in lengths && HopCount(path) <= maxLen
    requires |Tokens(path)| % 2 == 1 && Resolved(Tokens(path), nameToId) && TripleCount(Tokens(path)) >= 1
    ensures var pathKeys := AddTemplates(qg, c, lengths, maxLen, drugQ, diseaseQ).pathKeys;
      && SlotsFit(pathKeys)
      && (ProjectVariant(st, Tokens(path), pathKeys, nameToId, info).Ok? <==>
            AllCategorized(Tokens(path), info, TripleCount(Tokens(path))))
  {
    TripleCountAndHops(path);
    ProjectVariantTemplate(st, Tokens(path), qg, c, lengths, maxLen, drugQ, diseaseQ, nameToId, info);
  }

  /** The state of the variant loop of one pair: the graph so far, whether a variant was projected, `drug_name`. */
  datatype VariantsState = VariantsState(proj: ProjState, added: bool, drugName: string)

  /** One round of the variant loop: `drug_name` is set from the variant before it is checked. */
  function ProjectVariantStep(vs: VariantsState, path: string, pathKeys: seq<Option<Template>>,
                              nameToId: map<string, string>, info: NodeInfo): Result<VariantsState>
    requires SlotsFit(pathKeys)
  {
    var tokens := Tokens(path);
    match ProjectVariant(vs.proj, tokens, pathKeys, nameToId, info)
    case Raise(e) => Raise(e)
    case Ok((proj', projected)) => Ok(VariantsState(proj', vs.added || projected, tokens[0]))
  }

  /** The variant loop over the first `count` variants of a pair. */
  function ProjectVariants(vs: VariantsState, paths: seq<string>, pathKeys: seq<Option<Template>>,
                           nameToId: map<string, string>, info: NodeInfo, count: nat): Result<VariantsState>
    requires SlotsFit(pathKeys) && count <= |paths|
  {
    if count == 0 then Ok(vs)
    else
      match ProjectVariants(vs, paths, pathKeys, nameToId, info, count - 1)
      case Raise(e) => Raise(e)
      case Ok(prev) => ProjectVariantStep(prev, paths[count - 1], pathKeys, nameToId, info)
  }

  /** One more round of the variant loop after a successful prefix. */
  lemma ProjectVariantsNext(vs: VariantsState, paths: seq<string>, pathKeys: seq<Option<Template>>,
                            nameToId: map<string, string>, info: NodeInfo, j: nat, cur: VariantsState)
    requires SlotsFit(pathKeys) && j < |paths|
    requires ProjectVariants(vs, paths, pathKeys, nameToId, info, j) == Ok(cur)
    ensures ProjectVariants(vs, paths, pathKeys, nameToId, info, j + 1) ==
      ProjectVariantStep(cur, paths[j], pathKeys, nameToId, info)
  {
  }

  /** Some variant among the first `count` has all its node names resolved. */
  predicate SomeResolved(paths: seq<string>, nameToId: map<string, string>, count: nat)
    requires count <= |paths|
  {
    exists j | 0 <= j < count :: Resolved(Tokens(paths[j]), nameToId)
  }

  /**
   * After the variant loop a pair counts as added exactly when one of its
   * variants resolved (or it was added before), and `drug_name` is the first
   * token of the LAST variant examined, resolved or not.
   */
  lemma {:induction false} ProjectVariantsAdded(vs: VariantsState, paths: seq<string>, pathKeys: seq<Option<Template>>,
                                                nameToId: map<string, string>, info: NodeInfo, count: nat)
    requires SlotsFit(pathKeys) && count <= |paths|
    requires ProjectVariants(vs, paths, pathKeys, nameToId, info, count).Ok?
    ensures var r := ProjectVariants(vs, paths, pathKeys, nameToId, info, count).value;
      && (r.added <==> vs.added || SomeResolved(paths, nameToId, count))
      && (count > 0 ==> r.drugName == Tokens(paths[count - 1])[0])
  {
    if count > 0 {
      var last := count - 1;
      ProjectVariantsAdded(vs, paths, pathKeys, nameToId, info, last);
      var prev := ProjectVariants(vs, paths, pathKeys, nameToId, info, last).value;
      ProjectVariantsNext(vs, paths, pathKeys, nameToId, info, last, prev);
      ProjectVariantSkips(prev.proj, Tokens(paths[last]), pathKeys, nameToId, info);
      if Resolved(Tokens(paths[last]), nameToId) {
        assert 0 <= last < count && Resolved(Tokens(paths[last]), nameToId);
      }
      if SomeResolved(paths, nameToId, count) && !Resolved(Tokens(paths[last]), nameToId) {
        var j :| 0 <= j < count && Resolved(Tokens(paths[j]), nameToId);
        assert 0 <= j < last;
      }
    }
  }

  /** Once the variant loop has raised, the same error ends it. */
  lemma {:induction false} ProjectVariantsRaiseSticks(vs: VariantsState, paths: seq<string>,
                                                      pathKeys: seq<Option<Template>>, nameToId: map<string, string>,
                                                      info: NodeInfo, i: nat, count: nat)
    requires SlotsFit(pathKeys) && i <= count <= |paths|
    requires ProjectVariants(vs, paths, pathKeys, nameToId, info, i).Raise?
    ensures ProjectVariants(vs, paths, pathKeys, nameToId, info, count) == ProjectVariants(vs, paths, pathKeys, nameToId, info, i)
  {
    if i < count {
      ProjectVariantsRaiseSticks(vs, paths, pathKeys, nameToId, info, i, count - 1);
    }
  }

  /** The fixed inputs of the pair loop. */
  datatype Context = Context(
    pathKeys: seq<Option<Template>>,
    nameToId: map<string, string>,
    info: NodeInfo,
    rows: seq<DrugRow>,
    qedges: map<string, QueryEdge>,
    qedgeId: string,
    diseaseName: string)

  /** The state of the pair loop: the graph so far, `essence_scores` and `kedge_global_iter`. */
  datatype PairState = PairState(proj: ProjState, essence: map<string, Score>, kedgeIter: nat)

  /** The first row at or after `from` whose drug id is `drug`. */
  function FirstRowFrom(rows: seq<DrugRow>, drug: string, from: nat): (r: Option<nat>)
    requires from <= |rows|
    ensures r.Some? ==> from <= r.value < |rows| && rows[r.value].drugId == drug
    ensures r.Some? ==> forall m | from <= m < r.value :: rows[m].drugId != drug
    ensures r.None? ==> forall m | from <= m < |rows| :: rows[m].drugId != drug
    decreases |rows| - from
  {
    if from == |rows| then None
    else if rows[from].drugId == drug then Some(from)
    else FirstRowFrom(rows, drug, from + 1)
  }

  /** `top_drugs.loc[top_drugs['drug_id'] == drug]["tp_score"].iloc[0]`: the score of the first row of `drug`. */
  function FirstScore(rows: seq<DrugRow>, drug: string): Result<Score> {
    match FirstRowFrom(rows, drug, 0)
    case None => Raise(NoMatchingRow)
    case Some(k) => Ok(rows[k].tpScore)
  }

  /** The lookup fails exactly when no row has the drug, and otherwise yields the score of the first row that has it. */
  lemma FirstScoreFirstRow(rows: seq<DrugRow>, drug: string)
    ensures var r := FirstScore(rows, drug);
      r.Raise? <==> forall m | 0 <= m < |rows| :: rows[m].drugId != drug
    ensures var r := FirstScore(rows, drug);
      r.Ok? ==> exists k | 0 <= k < |rows| :: rows[k].drugId == drug && r.value == rows[k].tpScore &&
                  forall m | 0 <= m < k :: rows[m].drugId != drug
  {
    var f := FirstRowFrom(rows, drug, 0);
    if f.Some? {
      assert rows[f.value].drugId == drug;
    }
  }

  /** The predicate of the summary edge: the first predicate of the query edge it fills, else `biolink:probably_treats`. */
  function SummaryPredicate(qedge: QueryEdge): (r: string)
    ensures |qedge.predicates| > 0 ==> r == qedge.predicates[0]
    ensures |qedge.predicates| == 0 ==> r == ProbablyTreats
  {
    if |qedge.predicates| > 0 then qedge.predicates[0] else ProbablyTreats
  }

  function PairWarning(drug: string, disease: string): string {
    PairFailedPrefix + drug + "," + disease + PairFailedSuffix
  }

  /** The prediction edge from `drugName`'s curie to the disease's curie, filling the query edge `qedge_id`. */
  function SummaryEdge(ctx: Context, drugName: string, score: Score): KEdge
    requires ctx.qedgeId in ctx.qedges && drugName in ctx.nameToId && ctx.diseaseName in ctx.nameToId
  {
    KEdge(ctx.nameToId[drugName], ctx.nameToId[ctx.diseaseName], SummaryPredicate(ctx.qedges[ctx.qedgeId]),
          TreatAttributes(score), [ctx.qedgeId], false)
  }

  /**
   * What follows the variant loop of a pair. A pair with a projected variant
   * gets its drug's score (the first `top_drugs` row of the pair's drug id)
   * under `drug_name` in the essence scores and a summary edge from
   * `drug_name`'s curie to the disease name's curie under the next
   * prediction key; a pair without one gets a warning.
   */
  function FinishPair(ps: PairState, vs: VariantsState, pair: PairPaths, ctx: Context): Result<PairState> {
    if !vs.added then
      Ok(PairState(vs.proj.(warnings := vs.proj.warnings + [PairWarning(pair.drug, pair.disease)]), ps.essence, ps.kedgeIter))
    else
      match FirstScore(ctx.rows, pair.drug)
      case Raise(e) => Raise(e)
      case Ok(score) =>
        if ctx.qedgeId !in ctx.qedges then Raise(KeyErrorPrefix + ctx.qedgeId)
        else if vs.drugName !in ctx.nameToId then Raise(KeyErrorPrefix + vs.drugName)
        else if ctx.diseaseName !in ctx.nameToId then Raise(KeyErrorPrefix + ctx.diseaseName)
        else
          var edge := SummaryEdge(ctx, vs.drugName, score);
          Ok(PairState(vs.proj.(kedges := vs.proj.kedges[PredictionKey(ps.kedgeIter) := edge]),
                       ps.essence[vs.drugName := score], ps.kedgeIter + 1))
  }

  /** One round of the pair loop: the variant loop over all the pair's paths, then the summary. */
  function ProjectPair(ps: PairState, pair: PairPaths, ctx: Context): Result<PairState>
    requires SlotsFit(ctx.pathKeys)
  {
    match ProjectVariants(VariantsState(ps.proj, false, ""), pair.paths, ctx.pathKeys, ctx.nameToId, ctx.info, |pair.paths|)
    case Raise(e) => Raise(e)
    case Ok(vs) => FinishPair(ps, vs, pair, ctx)
  }

  /** The pair loop over the first `count` pairs of `top_paths`. */
  function ProjectPairs(ps: PairState, pairs: seq<PairPaths>, ctx: Context, count: nat): Result<PairState>
    requires SlotsFit(ctx.pathKeys) && count <= |pairs|
  {
    if count == 0 then Ok(ps)
    else
      match ProjectPairs(ps, pairs, ctx, count - 1)
      case Raise(e) => Raise(e)
      case Ok(prev) => ProjectPair(prev, pairs[count - 1], ctx)
  }

  /** One more round of the pair loop after a successful prefix. */
  lemma ProjectPairsNext(ps: PairState, pairs: seq<PairPaths>, ctx: Context, i: nat, cur: PairState)
    requires SlotsFit(ctx.pathKeys) && i < |pairs|
    requires ProjectPairs(ps, pairs, ctx, i) == Ok(cur)
    ensures ProjectPairs(ps, pairs, ctx, i + 1) == ProjectPair(cur, pairs[i], ctx)
  {
  }

  /** A pair without a projected variant only gets its warning. */
  lemma FinishPairSkipped(ps: PairState, vs: VariantsState, pair: PairPaths, ctx: Context)
    requires !vs.added
    ensures FinishPair(ps, vs, pair, ctx) ==
      Ok(PairState(ProjState(vs.proj.knodes, vs.proj.kedges, vs.proj.warnings + [PairWarning(pair.drug, pair.disease)]),
                   ps.essence, ps.kedgeIter))
  {
  }

  /**
   * A pair with a projected variant fails exactly when its drug has no
   * `top_drugs` row, the query edge is missing, or `drug_name` or the
   * disease name has no curie. Otherwise it stores the summary edge under
   * the current prediction key, scores `drug_name` with the first row of the
   * pair's drug, advances the counter, and leaves nodes and warnings alone.
   */
  lemma FinishPairAdded(ps: PairState, vs: VariantsState, pair: PairPaths, ctx: Context)
    requires vs.added
    ensures var r := FinishPair(ps, vs, pair, ctx);
      r.Ok? <==>
        && FirstScore(ctx.rows, pair.drug).Ok? && ctx.qedgeId in ctx.qedges
        && vs.drugName in ctx.nameToId && ctx.diseaseName in ctx.nameToId
    ensures var r := FinishPair(ps, vs, pair, ctx);
      r.Ok? ==>
        var score := FirstScore(ctx.rows, pair.drug).value;
        && r.value.kedgeIter == ps.kedgeIter + 1
        && r.value.essence == ps.essence[vs.drugName := score]
        && r.value.proj.knodes == vs.proj.knodes && r.value.proj.warnings == vs.proj.warnings
        && r.value.proj.kedges == vs.proj.kedges[PredictionKey(ps.kedgeIter) := SummaryEdge(ctx, vs.drugName, score)]
  {
  }

  /** Path edge keys start with the knowledge provider, prediction keys with `creative_DTD_`: they never meet. */
  lemma PathKeyNotPrediction(s: string, p: string, o: string, m: nat)
    ensures EdgeKey(KnowledgeProvider, s, p, o) != PredictionKey(m)
  {
    assert EdgeKey(KnowledgeProvider, s, p, o)[0] == 'i';
    assert PredictionKey(m)[0] == 'c';
  }

  lemma PredictionKeyNotPath(m: nat)
    ensures NotPathKey(PredictionKey(m))
  {
    assert PredictionKey(m)[0] == 'c';
  }

  /** The triple loop never writes a key that is not a path key. */
  lemma TripleEdgesKeepOthers(kedges: map<string, KEdge>, tokens: seq<string>, t: Template,
                              nameToId: map<string, string>, count: nat, k: string)
    requires TriplesFit(tokens, t, nameToId, count) && NotPathKey(k)
    ensures k in TripleEdges(kedges, tokens, t, nameToId, count) <==> k in kedges
    ensures k in kedges ==> TripleEdges(kedges, tokens, t, nameToId, count)[k] == kedges[k]
  {
    if k in WrittenKeys(tokens, nameToId, count) {
      WrittenKeysOnly(tokens, nameToId, count, k);
      assert false;
    }
    TripleEdgesFrame(kedges, tokens, t, nameToId, count, k);
  }

  /** A variant leaves every key that is not a path key as it was. */
  lemma ProjectVariantKeepsOthers(st: ProjState, tokens: seq<string>, pathKeys: seq<Option<Template>>,
                                  nameToId: map<string, string>, info: NodeInfo, k: string)
    requires SlotsFit(pathKeys) && NotPathKey(k)
    requires ProjectVariant(st, tokens, pathKeys, nameToId, info).Ok?
    ensures var r := ProjectVariant(st, tokens, pathKeys, nameToId, info).value.0;
      (k in r.kedges <==> k in st.kedges) && (k in st.kedges ==> r.kedges[k] == st.kedges[k])
  {
    if Resolved(tokens, nameToId) && TripleCount(tokens) >= 1 {
      var n := TripleCount(tokens);
      ProjectVariantTriples(st, tokens, pathKeys, nameToId, info);
      TripleEdgesKeepOthers(st.kedges, tokens, pathKeys[n - 1].value, nameToId, n, k);
    }
  }

  /** The variant loop leaves every key that is not a path key as it was. */
  lemma {:induction false} ProjectVariantsKeepOthers(vs: VariantsState, paths: seq<string>,
                                                     pathKeys: seq<Option<Template>>, nameToId: map<string, string>,
                                                     info: NodeInfo, count: nat, k: string)
    requires SlotsFit(pathKeys) && count <= |paths| && NotPathKey(k)
    requires ProjectVariants(vs, paths, pathKeys, nameToId, info, count).Ok?
    ensures var r := ProjectVariants(vs, paths, pathKeys, nameToId, info, count).value.proj;
      (k in r.kedges <==> k in vs.proj.kedges) && (k in vs.proj.kedges ==> r.kedges[k] == vs.proj.kedges[k])
  {
    if count > 0 {
      var last := count - 1;
      ProjectVariantsKeepOthers(vs, paths, pathKeys, nameToId, info, last, k);
      var prev := ProjectVariants(vs, paths, pathKeys, nameToId, info, last).value;
      ProjectVariantKeepsOthers(prev.proj, Tokens(paths[last]), pathKeys, nameToId, info, k);
    }
  }

  /** How many of the first `count` pairs have a variant whose node names all resolved. */
  function AddedCount(pairs: seq<PairPaths>, nameToId: map<string, string>, count: nat): nat
    requires count <= |pairs|
  {
    if count == 0 then 0
    else
      var added := SomeResolved(pairs[count - 1].paths, nameToId, |pairs[count - 1].paths|);
      AddedCount(pairs, nameToId, count - 1) + (if added then 1 else 0)
  }

  /** One pair: it is summarised exactly when one of its variants resolved, and then advances the counter by one. */
  lemma ProjectPairCounter(ps: PairState, pair: PairPaths, ctx: Context)
    requires SlotsFit(ctx.pathKeys)
    requires ProjectPair(ps, pair, ctx).Ok?
    ensures var r := ProjectPair(ps, pair, ctx).value;
      r.kedgeIter == ps.kedgeIter + (if SomeResolved(pair.paths, ctx.nameToId, |pair.paths|) then 1 else 0)
  {
    var vs0 := VariantsState(ps.proj, false, "");
    ProjectVariantsAdded(vs0, pair.paths, ctx.pathKeys, ctx.nameToId, ctx.info, |pair.paths|);
  }

  /** The prediction counter ends at its start plus the number of pairs with a resolved variant. */
  lemma {:induction false} ProjectPairsCounter(ps: PairState, pairs: seq<PairPaths>, ctx: Context, count: nat)
    requires SlotsFit(ctx.pathKeys) && count <= |pairs|
    requires ProjectPairs(ps, pairs, ctx, count).Ok?
    ensures ProjectPairs(ps, pairs, ctx, count).value.kedgeIter == ps.kedgeIter + AddedCount(pairs, ctx.nameToId, count)
  {
    if count > 0 {
      ProjectPairsCounter(ps, pairs, ctx, count - 1);
      var prev := ProjectPairs(ps, pairs, ctx, count - 1).value;
      ProjectPairCounter(prev, pairs[count - 1], ctx);
    }
  }

  /** What a summary edge written by the pair loop looks like, whatever its drug, disease and score. */
  predicate SummaryAt(kedges: map<string, KEdge>, m: nat, ctx: Context) {
    && PredictionKey(m) in kedges
    && ctx.qedgeId in ctx.qedges
    && kedges[PredictionKey(m)].pred == SummaryPredicate(ctx.qedges[ctx.qedgeId])
    && kedges[PredictionKey(m)].qedgeKeys == [ctx.qedgeId]
  }

  /** A pair keeps every prediction edge below the counter and adds one at the counter when summarised. */
  lemma ProjectPairSummaries(ps: PairState, pair: PairPaths, ctx: Context, m: nat)
    requires SlotsFit(ctx.pathKeys)
    requires ProjectPair(ps, pair, ctx).Ok?
    requires m < ProjectPair(ps, pair, ctx).value.kedgeIter
    requires m < ps.kedgeIter ==> SummaryAt(ps.proj.kedges, m, ctx)
    ensures SummaryAt(ProjectPair(ps, pair, ctx).value.proj.kedges, m, ctx)
  {
    var vs0 := VariantsState(ps.proj, false, "");
    var vs := ProjectVariants(vs0, pair.paths, ctx.pathKeys, ctx.nameToId, ctx.info, |pair.paths|).value;
    ProjectVariantsAdded(vs0, pair.paths, ctx.pathKeys, ctx.nameToId, ctx.info, |pair.paths|);
    PredictionKeyNotPath(m);
    ProjectVariantsKeepOthers(vs0, pair.paths, ctx.pathKeys, ctx.nameToId, ctx.info, |pair.paths|, PredictionKey(m));
    if vs.added {
      FinishPairAdded(ps, vs, pair, ctx);
      if m < ps.kedgeIter {
        PredictionKeysDistinct(m, ps.kedgeIter);
      }
    } else {
      FinishPairSkipped(ps, vs, pair, ctx);
    }
  }

  /**
   * Every prediction edge the pair loop writes survives to its end: later
   * path edges never land on a prediction key and later summaries use later
   * counter values. Each fills the query edge `qedge_id` with its predicate.
   */
  lemma {:induction false} ProjectPairsSummaries(ps: PairState, pairs: seq<PairPaths>, ctx: Context, count: nat, m: nat)
    requires SlotsFit(ctx.pathKeys) && count <= |pairs|
    requires ProjectPairs(ps, pairs, ctx, count).Ok?
    requires ps.kedgeIter <= m < ProjectPairs(ps, pairs, ctx, count).value.kedgeIter
    ensures SummaryAt(ProjectPairs(ps, pairs, ctx, count).value.proj.kedges, m, ctx)
  {
    var last := count - 1;
    var prev := ProjectPairs(ps, pairs, ctx, last).value;
    if m < prev.kedgeIter {
      ProjectPairsSummaries(ps, pairs, ctx, last, m);
    }
    ProjectPairSummaries(prev, pairs[last], ctx, m);
  }

  /** A node present in `before` is still in `after`, with its name and categories. */
  predicate KeepsNode(before: map<string, KNode>, after: map<string, KNode>, c: string) {
    c in before ==> c in after && after[c].name == before[c].name && after[c].categories == before[c].categories
  }

  /** A variant never renames or recategorises a node already in the graph. */
  lemma ProjectVariantKeepsNode(st: ProjState, tokens: seq<string>, pathKeys: seq<Option<Template>>,
                                nameToId: map<string, string>, info: NodeInfo, c: string)
    requires SlotsFit(pathKeys)
    requires ProjectVariant(st, tokens, pathKeys, nameToId, info).Ok?
    ensures KeepsNode(st.knodes, ProjectVariant(st, tokens, pathKeys, nameToId, info).value.0.knodes, c)
  {
    if Resolved(tokens, nameToId) && TripleCount(tokens) >= 1 && c in st.knodes {
      var n := TripleCount(tokens);
      ProjectVariantTriples(st, tokens, pathKeys, nameToId, info);
      TripleNodesKeepExisting(st.knodes, tokens, pathKeys[n - 1].value, nameToId, info, n, c);
    }
  }

  /** The variant loop never renames or recategorises a node already in the graph. */
  lemma {:induction false} ProjectVariantsKeepsNode(vs: VariantsState, paths: seq<string>,
                                                    pathKeys: seq<Option<Template>>, nameToId: map<string, string>,
                                                    info: NodeInfo, count: nat, c: string)
    requires SlotsFit(pathKeys) && count <= |paths|
    requires ProjectVariants(vs, paths, pathKeys, nameToId, info, count).Ok?
    ensures KeepsNode(vs.proj.knodes, ProjectVariants(vs, paths, pathKeys, nameToId, info, count).value.proj.knodes, c)
  {
    if count > 0 {
      var last := count - 1;
      ProjectVariantsKeepsNode(vs, paths, pathKeys, nameToId, info, last, c);
      var prev := ProjectVariants(vs, paths, pathKeys, nameToId, info, last).value;
      ProjectVariantsNext(vs, paths, pathKeys, nameToId, info, last, prev);
      ProjectVariantKeepsNode(prev.proj, Tokens(paths[last]), pathKeys, nameToId, info, c);
    }
  }

  /** A pair never renames or recategorises a node already in the graph: its summary writes only an edge. */
  lemma ProjectPairKeepsNode(ps: PairState, pair: PairPaths, ctx: Context, c: string)
    requires SlotsFit(ctx.pathKeys)
    requires ProjectPair(ps, pair, ctx).Ok?
    ensures KeepsNode(ps.proj.knodes, ProjectPair(ps, pair, ctx).value.proj.knodes, c)
  {
    var vs0 := VariantsState(ps.proj, false, "");
    var vs := ProjectVariants(vs0, pair.paths, ctx.pathKeys, ctx.nameToId, ctx.info, |pair.paths|).value;
    ProjectVariantsKeepsNode(vs0, pair.paths, ctx.pathKeys, ctx.nameToId, ctx.info, |pair.paths|, c);
    if vs.added {
      FinishPairAdded(ps, vs, pair, ctx);
    } else {
      FinishPairSkipped(ps, vs, pair, ctx);
    }
  }

  /**
   * The pair loop never renames or recategorises a node already in the
   * graph, such as the disease node the setup adds.
   */
  lemma {:induction false} ProjectPairsKeepsNode(ps: PairState, pairs: seq<PairPaths>, ctx: Context, count: nat, c: string)
    requires SlotsFit(ctx.pathKeys) && count <= |pairs|
    requires ProjectPairs(ps, pairs, ctx, count).Ok?
    ensures KeepsNode(ps.proj.knodes, ProjectPairs(ps, pairs, ctx, count).value.proj.knodes, c)
  {
    if count > 0 {
      var last := count - 1;
      ProjectPairsKeepsNode(ps, pairs, ctx, last, c);
      var prev := ProjectPairs(ps, pairs, ctx, last).value;
      ProjectPairsNext(ps, pairs, ctx, last, prev);
      ProjectPairKeepsNode(prev, pairs[last], ctx, c);
    }
  }

  /** Once the pair loop has raised, the same error ends it. */
  lemma {:induction false} ProjectPairsRaiseSticks(ps: PairState, pairs: seq<PairPaths>, ctx: Context, i: nat, count: nat)
    requires SlotsFit(ctx.pathKeys) && i <= count <= |pairs|
    requires ProjectPairs(ps, pairs, ctx, i).Raise?
    ensures ProjectPairs(ps, pairs, ctx, count) == ProjectPairs(ps, pairs, ctx, i)
  {
    if i < count {
      ProjectPairsRaiseSticks(ps, pairs, ctx, i, count - 1);
    }
  }

  /** One variant as the source walks it: split it, remember its first token, skip it or project its triples. */
  method ProjectVariantLoop(vs: VariantsState, path: string, pathKeys: seq<Option<Template>>,
                            nameToId: map<string, string>, info: NodeInfo)
    returns (r: Result<VariantsState>)
    requires SlotsFit(pathKeys)
    ensures r == ProjectVariantStep(vs, path, pathKeys, nameToId, info)
  {
    var tokens := Split(path, PathSeparator);
    var drugName := tokens[0];
    if !Resolved(tokens, nameToId) {
      return Ok(VariantsState(vs.proj, vs.added, drugName));
    }
    var n := TripleCount(tokens);
    if n == 0 {
      return Ok(VariantsState(vs.proj, true, drugName));
    }
    if n - 1 >= |pathKeys| {
      return Raise(IndexOutOfRange);
    }
    if pathKeys[n - 1].None? {
      return Raise(QNodePairsKeyError);
    }
    var projected := ProjectTriplesLoop(vs.proj, tokens, pathKeys[n - 1].value, nameToId, info, n);
    if projected.Raise? {
      return Raise(projected.error);
    }
    r := Ok(VariantsState(projected.value, true, drugName));
  }

  /** The variant loop of one pair; the first failure ends it. */
  method ProjectVariantsLoop(vs: VariantsState, paths: seq<string>, pathKeys: seq<Option<Template>>,
                             nameToId: map<string, string>, info: NodeInfo)
    returns (r: Result<VariantsState>)
    requires SlotsFit(pathKeys)
    ensures r == ProjectVariants(vs, paths, pathKeys, nameToId, info, |paths|)
  {
    var cur := vs;
    for j := 0 to |paths|
      invariant ProjectVariants(vs, paths, pathKeys, nameToId, info, j) == Ok(cur)
    {
      ProjectVariantsNext(vs, paths, pathKeys, nameToId, info, j, cur);
      var step := ProjectVariantLoop(cur, paths[j], pathKeys, nameToId, info);
      if step.Raise? {
        ProjectVariantsRaiseSticks(vs, paths, pathKeys, nameToId, info, j + 1, |paths|);
        return step;
      }
      cur := step.value;
    }
    r := Ok(cur);
  }

  /** One pair: its variant loop, then the summary or the warning. */
  method ProjectPairLoop(ps: PairState, pair: PairPaths, ctx: Context) returns (r: Result<PairState>)
    requires SlotsFit(ctx.pathKeys)
    ensures r == ProjectPair(ps, pair, ctx)
  {
    var variants := ProjectVariantsLoop(VariantsState(ps.proj, false, ""), pair.paths, ctx.pathKeys, ctx.nameToId, ctx.info);
    if variants.Raise? {
      return Raise(variants.error);
    }
    r := FinishPair(ps, variants.value, pair, ctx);
  }

  /** The pair loop over `top_paths`; the first failure ends it. */
  method ProjectPairsLoop(ps: PairState, pairs: seq<PairPaths>, ctx: Context) returns (r: Result<PairState>)
    requires SlotsFit(ctx.pathKeys)
    ensures r == ProjectPairs(ps, pairs, ctx, |pairs|)
  {
    var cur := ps;
    for i := 0 to |pairs|
      invariant ProjectPairs(ps, pairs, ctx, i) == Ok(cur)
    {
      ProjectPairsNext(ps, pairs, ctx, i, cur);
      var step := ProjectPairLoop(cur, pairs[i], ctx);
      if step.Raise? {
        ProjectPairsRaiseSticks(ps, pairs, ctx, i + 1, |pairs|);
        return step;
      }
      cur := step.value;
    }
    r := Ok(cur);
  }
}
