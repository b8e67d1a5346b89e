/**
 * `InferUtilities.genrete_treat_subgraphs`: turn the drugs and explanation
 * paths of the creative drug-treats-disease model into query-graph and
 * knowledge-graph content of an ARAX response, then score and order the
 * results. The response is an object whose message the method updates in
 * place; the synthesis object keeps the four running counters it returns.
 *
 * The node synonymizer, the Biolink helper, the resultifier and the
 * decorator are services this model does not contain: their answers are
 * the `External` inputs.
 */
module InferUtilities {
  import opened Wrappers
  import opened InferTypes
  import opened InferTemplates
  import opened InferProjection
  import opened InferPairs
  import opened InferRanking
  import opened InferFallback

  const NonEmptyQueryGraph := "qedge_id is None but QG is not empty"

  function MissingQEdge(qedgeId: string): string {
    "qedge_id " + qedgeId + " not in QG"
  }

  /** What the response holds: its query graph, knowledge graph (if any), results and log. */
  datatype Envelope = Envelope(
    qg: QueryGraph,
    kg: Option<KnowledgeGraph>,
    results: seq<ResultRow>,
    warnings: seq<string>,
    errors: seq<string>)

  /** The answers of the services the synthesis calls. */
  datatype External = External(
    nameInfo: NodeInfo,              // canonical curies of the path node names
    curieInfo: NodeInfo,             // canonical curies of the drug ids, for the fallback
    drugOrder: seq<string>,          // the iteration order of `set(top_drugs['drug_id'])`
    diseaseCategories: seq<string>,  // Biolink ancestors of biolink:Disease and the disease's own categories
    resultified: seq<ResultRow>,     // the results the resultifier builds
    nodesDecorated: bool,            // whether node decoration left the response OK
    edgesDecorated: bool)            // whether edge decoration left the response OK

  /** The method returns its four counters with the response, or only the response after a failed decoration. */
  datatype Returned = Iters(counters: Counters) | ResponseOnly

  /** What a run that does not raise leaves behind. */
  datatype Generated = Generated(env: Envelope, counters: Counters, essence: map<string, Score>, returned: Returned)

  /** The query graph must be empty without `qedge_id`, and must hold `qedge_id` with one. */
  function ModeError(qg: QueryGraph, qedgeId: Option<string>): Option<string> {
    match qedgeId
    case Some(id) => if id !in qg.edges then Some(MissingQEdge(id)) else None
    case None => if |qg.edges| > 0 then Some(NonEmptyQueryGraph) else None
  }

  /** The query graph, knowledge graph and lookups once the drug and disease query nodes are settled. */
  datatype Setup = Setup(
    qg: QueryGraph,
    kg: KnowledgeGraph,
    nameToId: map<string, string>,
    qedgeId: string,
    drugQ: string,
    diseaseQ: string,
    diseaseCurie: string,
    diseaseName: string)

  /**
   * Read the disease from the first `top_drugs` row, create a missing
   * knowledge graph, and either build the one-hop `drug -probably_treats->
   * disease` query graph (empty query graph) or reuse the query edge
   * `qedge_id` (otherwise).
   */
  function SetUp(qg: QueryGraph, kg0: Option<KnowledgeGraph>, rows: seq<DrugRow>, qedgeId: Option<string>, ext: External)
    : Result<Setup>
    requires ModeError(qg, qedgeId).None?
  {
    if |rows| == 0 then Raise(IndexOutOfRange)
    else
      var diseaseCurie, diseaseName := rows[0].diseaseId, rows[0].diseaseName;
      var kg := if kg0.Some? then kg0.value else KnowledgeGraph(map[], map[]);
      var nameToId := NameToId(ext.nameInfo);
      if |qg.edges| == 0 then
        var nodes := qg.nodes["disease" := QueryNode(Some(diseaseCurie), None, None, false)]
                             ["drug" := QueryNode(None, Some([DrugCategory]), None, false)];
        var edges := qg.edges[ProbablyTreatsKey := QueryEdge("drug", "disease", [ProbablyTreats], None, true)];
        var knodes := kg.nodes[diseaseCurie := KNode(diseaseName, [DiseaseCategory], ["disease"])];
        Ok(Setup(QueryGraph(nodes, edges), KnowledgeGraph(knodes, kg.edges), nameToId[diseaseName := diseaseCurie],
                 ProbablyTreatsKey, "drug", "disease", diseaseCurie, diseaseName))
      else
        var id := qedgeId.value;
        var qedge := qg.edges[id];
        var knodes := kg.nodes[diseaseCurie := KNode(diseaseName, ext.diseaseCategories, [qedge.obj])];
        var edges := qg.edges[id := qedge.(filled := true)];
        if qedge.subject !in qg.nodes then Raise(KeyErrorPrefix + qedge.subject)
        else
          var nodes := qg.nodes[qedge.subject := qg.nodes[qedge.subject].(categories := Some([NamedThing]))];
          Ok(Setup(QueryGraph(nodes, edges), KnowledgeGraph(knodes, kg.edges), nameToId, id, qedge.subject, qedge.obj,
                   diseaseCurie, diseaseName))
  }

  /** The results scored with `scores` and sorted, with a warning per unscored result. */
  function Resultified(env: Envelope, scores: map<string, Score>, resultified: seq<ResultRow>): Envelope {
    env.(results := SortByScore(ScoredRows(resultified, scores, |resultified|)),
         warnings := env.warnings + ScoreWarnings(resultified, scores, |resultified|))
  }

  /** The templates of the path branch, built from counters at zero. */
  function Templates(s: Setup, topPaths: seq<PairPaths>): TemplateState {
    AddTemplates(s.qg, Counters(0, 0, 0, 0), PathLengths(topPaths), MaxHop(topPaths), s.drugQ, s.diseaseQ)
  }

  /** The fixed inputs of the pair loop. */
  function PairContext(s: Setup, ts: TemplateState, rows: seq<DrugRow>, ext: External): Context {
    Context(ts.pathKeys, s.nameToId, ext.nameInfo, rows, ts.qg.edges, s.qedgeId, s.diseaseName)
  }

  /** The path branch: templates, then the pair loop starting from the knowledge graph of the setup. */
  function PathBranch(s: Setup, warnings: seq<string>, topPaths: seq<PairPaths>, rows: seq<DrugRow>, ext: External)
    : Result<PairState>
  {
    var ts := Templates(s, topPaths);
    AddTemplatesSlotsFit(s.qg, Counters(0, 0, 0, 0), PathLengths(topPaths), MaxHop(topPaths), s.drugQ, s.diseaseQ);
    ProjectPairs(PairState(ProjState(s.kg.nodes, s.kg.edges, warnings), map[], ts.counters.kedge), topPaths,
                 PairContext(s, ts, rows, ext), |topPaths|)
  }

  /** The fallback branch over the drugs of the table. */
  function FallbackBranch(s: Setup, rows: seq<DrugRow>, ext: External): Result<FallbackState> {
    var fin := FallbackInputs(ext.curieInfo, ZipScores(ext.drugOrder, rows), s.drugQ, s.diseaseCurie, s.qedgeId);
    FallbackDrugs(FallbackState(s.kg.nodes, s.kg.edges, map[]), ext.drugOrder, fin, |ext.drugOrder|)
  }

  /** The fallback branch from the setup on: the drugs, then scoring and sorting; the counters stay at zero. */
  function FallbackRun(env: Envelope, s: Setup, rows: seq<DrugRow>, ext: External): Result<Generated> {
    match FallbackBranch(s, rows, ext)
    case Raise(e) => Raise(e)
    case Ok(f) =>
      var zero := Counters(0, 0, 0, 0);
      var written := env.(qg := s.qg, kg := Some(KnowledgeGraph(f.knodes, f.kedges)));
      Ok(Generated(Resultified(written, f.essence, ext.resultified), zero, f.essence, Iters(zero)))
  }

  /** The path branch from the setup on: templates, pairs, decoration, then scoring and sorting. */
  function PathRun(env: Envelope, s: Setup, rows: seq<DrugRow>, topPaths: seq<PairPaths>, ext: External)
    : Result<Generated>
  {
    match PathBranch(s, env.warnings, topPaths, rows, ext)
    case Raise(e) => Raise(e)
    case Ok(ps) =>
      var ts := Templates(s, topPaths);
      var counters := ts.counters.(kedge := ps.kedgeIter);
      var written := env.(qg := ts.qg, kg := Some(KnowledgeGraph(ps.proj.knodes, ps.proj.kedges)),
                          warnings := ps.proj.warnings);
      if !ext.nodesDecorated || !ext.edgesDecorated then Ok(Generated(written, counters, ps.essence, ResponseOnly))
      else Ok(Generated(Resultified(written, ps.essence, ext.resultified), counters, ps.essence, Iters(counters)))
  }

  /** The whole synthesis on the response's content `env`. */
  function Generate(env: Envelope, rows: seq<DrugRow>, topPaths: seq<PairPaths>, qedgeId: Option<string>, ext: External)
    : Result<Generated>
  {
    match ModeError(env.qg, qedgeId)
    case Some(msg) => Raise(msg)
    case None =>
      match SetUp(env.qg, env.kg, rows, qedgeId, ext)
      case Raise(e) => Raise(e)
      case Ok(s) => if MaxHop(topPaths) == 0 then FallbackRun(env, s, rows, ext) else PathRun(env, s, rows, topPaths, ext)
  }

  /** The template loop from counters at zero, then the pair loop over `top_paths`. */
  method TemplatesAndPairs(s: Setup, warnings: seq<string>, topDrugs: seq<DrugRow>, topPaths: seq<PairPaths>, ext: External)
    returns (ts: TemplateState, r: Result<PairState>)
    ensures ts == Templates(s, topPaths)
    ensures r == PathBranch(s, warnings, topPaths, topDrugs, ext)
  {
    var lengths := PathLengths(topPaths);
    var qg, counters, pathKeys := BuildTemplates(s.qg, Counters(0, 0, 0, 0), lengths, MaxHop(topPaths), s.drugQ, s.diseaseQ);
    ts := TemplateState(qg, counters, pathKeys);
    AddTemplatesSlotsFit(s.qg, Counters(0, 0, 0, 0), lengths, MaxHop(topPaths), s.drugQ, s.diseaseQ);
    var ctx := Context(pathKeys, s.nameToId, ext.nameInfo, topDrugs, qg.edges, s.qedgeId, s.diseaseName);
    r := ProjectPairsLoop(PairState(ProjState(s.kg.nodes, s.kg.edges, warnings), map[], counters.kedge), topPaths, ctx);
  }

  /** The ARAX response: its message's graphs and results, and its log. */
  class Response {
    var queryGraph: QueryGraph
    var knowledgeGraph: Option<KnowledgeGraph>
    var results: seq<ResultRow>
    var warnings: seq<string>
    var errors: seq<string>

    constructor (qg: QueryGraph, kg: Option<KnowledgeGraph>)
      ensures queryGraph == qg && knowledgeGraph == kg && results == [] && warnings == [] && errors == []
    {
      queryGraph, knowledgeGraph := qg, kg;
      results, warnings, errors := [], [], [];
    }

    function Snapshot(): Envelope
      reads this
    {
      Envelope(queryGraph, knowledgeGraph, results, warnings, errors)
    }
  }

  class InferUtilities {
    var response: Response?
    var kedgeIter: nat
    var qedgeIter: nat
    var qnodeIter: nat
    var optionIter: nat
    var qedgeId: Option<string>

    constructor ()
      ensures response == null && qedgeId == None
      ensures kedgeIter == 0 && qedgeIter == 0 && qnodeIter == 0 && optionIter == 0
    {
      response := null;
      kedgeIter, qedgeIter, qnodeIter, optionIter := 0, 0, 0, 0;
      qedgeId := None;
    }

    function Iters(): Counters
      reads this
    {
      Counters(kedgeIter, qedgeIter, qnodeIter, optionIter)
    }

    /**
     * `resultify_and_sort`: the results the resultifier built take their
     * essence scores and are sorted by descending score, stably; nothing but
     * the results and the warnings changes.
     */
    method ResultifyAndSort(scores: map<string, Score>, resultified: seq<ResultRow>)
      requires response != null
      modifies response
      ensures response.Snapshot() == Resultified(old(response.Snapshot()), scores, resultified)
      ensures SortedDesc(response.results)
      ensures multiset(response.results) == multiset(ScoredRows(resultified, scores, |resultified|))
    {
      var scored, warnings := ScoreResultsLoop(resultified, scores);
      response.warnings := response.warnings + warnings;
      response.results := SortByScore(scored);
      SortByScoreSorted(scored);
    }

    /** The fallback branch of `genrete_treat_subgraphs`, from the setup on. */
    method RunFallback(s: Setup, topDrugs: seq<DrugRow>, ext: External) returns (r: Result<Returned>)
      requires response != null && Iters() == Counters(0, 0, 0, 0)
      modifies this, response
      ensures response == old(response) && qedgeId == old(qedgeId)
      ensures var g := FallbackRun(old(response.Snapshot()), s, topDrugs, ext);
        && (r.Raise? <==> g.Raise?)
        && (g.Raise? ==> r.error == g.error)
        && (g.Ok? ==> r == Ok(g.value.returned) && response.Snapshot() == g.value.env && Iters() == g.value.counters)
    {
      var fin := FallbackInputs(ext.curieInfo, ZipScores(ext.drugOrder, topDrugs), s.drugQ, s.diseaseCurie, s.qedgeId);
      var fallback := FallbackLoop(FallbackState(s.kg.nodes, s.kg.edges, map[]), ext.drugOrder, fin);
      if fallback.Raise? {
        return Raise(fallback.error);
      }
      response.queryGraph := s.qg;
      response.knowledgeGraph := Some(KnowledgeGraph(fallback.value.knodes, fallback.value.kedges));
      ResultifyAndSort(fallback.value.essence, ext.resultified);
      r := Ok(Returned.Iters(Iters()));
    }

    /** The path branch of `genrete_treat_subgraphs`, from the setup on. */
    method RunPaths(s: Setup, topDrugs: seq<DrugRow>, topPaths: seq<PairPaths>, ext: External) returns (r: Result<Returned>)
      requires response != null && Iters() == Counters(0, 0, 0, 0)
      modifies this, response
      ensures response == old(response) && qedgeId == old(qedgeId)
      ensures var g := PathRun(old(response.Snapshot()), s, topDrugs, topPaths, ext);
        && (r.Raise? <==> g.Raise?)
        && (g.Raise? ==> r.error == g.error)
        && (g.Ok? ==> r == Ok(g.value.returned) && response.Snapshot() == g.value.env && Iters() == g.value.counters)
    {
      var ts, pairs := TemplatesAndPairs(s, response.warnings, topDrugs, topPaths, ext);
      qedgeIter, qnodeIter, optionIter := ts.counters.qedge, ts.counters.qnode, ts.counters.option;
      if pairs.Raise? {
        return Raise(pairs.error);
      }
      var ps := pairs.value;
      kedgeIter := ps.kedgeIter;
      response.queryGraph := ts.qg;
      response.knowledgeGraph := Some(KnowledgeGraph(ps.proj.knodes, ps.proj.kedges));
      response.warnings := ps.proj.warnings;
      if !ext.nodesDecorated {
        return Ok(ResponseOnly);
      }
      if !ext.edgesDecorated {
        return Ok(ResponseOnly);
      }
      ResultifyAndSort(ps.essence, ext.resultified);
      r := Ok(Returned.Iters(Iters()));
    }

    /**
     * `genrete_treat_subgraphs`. The counters the caller passes are ignored:
     * the run starts them from zero. A failed mode check is logged as an
     * error before it raises; after any other exception the response's
     * content is not specified.
     */
    method GenerateTreatSubgraphs(response: Response, topDrugs: seq<DrugRow>, topPaths: seq<PairPaths>,
                                  qedgeId: Option<string>, kedgeGlobalIter: nat, qedgeGlobalIter: nat,
                                  qnodeGlobalIter: nat, optionGlobalIter: nat, ext: External)
      returns (r: Result<Returned>)
      modifies this, response
      ensures this.response == response && this.qedgeId == qedgeId
      ensures var g := Generate(old(response.Snapshot()), topDrugs, topPaths, qedgeId, ext);
        && (r.Raise? <==> g.Raise?)
        && (g.Raise? ==> r.error == g.error)
        && (g.Ok? ==> r == Ok(g.value.returned) && response.Snapshot() == g.value.env && Iters() == g.value.counters)
      ensures var e := ModeError(old(response.queryGraph), qedgeId);
        e.Some? ==> response.Snapshot() == old(response.Snapshot()).(errors := old(response.errors) + [e.value])
    {
      this.response := response;
      kedgeIter, qedgeIter, qnodeIter, optionIter := 0, 0, 0, 0;
      this.qedgeId := qedgeId;
      var modeError := ModeError(response.queryGraph, qedgeId);
      if modeError.Some? {
        response.errors := response.errors + [modeError.value];
        return Raise(modeError.value);
      }
      var setup := SetUp(response.queryGraph, response.knowledgeGraph, topDrugs, qedgeId, ext);
      if setup.Raise? {
        return Raise(setup.error);
      }
      if MaxHop(topPaths) == 0 {
        r := RunFallback(setup.value, topDrugs, ext);
      } else {
        r := RunPaths(setup.value, topDrugs, topPaths, ext);
      }
    }
  }

  /** The setup of a run that did not raise. */
  function SetupOf(env: Envelope, rows: seq<DrugRow>, qedgeId: Option<string>, ext: External): Setup
    requires ModeError(env.qg, qedgeId).None? && SetUp(env.qg, env.kg, rows, qedgeId, ext).Ok?
  {
    SetUp(env.qg, env.kg, rows, qedgeId, ext).value
  }

  /** A run that does not raise passed the mode checks and had a first `top_drugs` row. */
  lemma GenerateOkSetup(env: Envelope, rows: seq<DrugRow>, topPaths: seq<PairPaths>, qedgeId: Option<string>, ext: External)
    requires Generate(env, rows, topPaths, qedgeId, ext).Ok?
    ensures ModeError(env.qg, qedgeId).None? && SetUp(env.qg, env.kg, rows, qedgeId, ext).Ok?
    ensures |rows| > 0
    ensures qedgeId.Some? ==> qedgeId.value in env.qg.edges
    ensures qedgeId.None? ==> |env.qg.edges| == 0
  {
    match qedgeId
    case Some(id) =>
    case None =>
  }

  /** What a path run that did not raise leaves behind, in terms of its two stages. */
  lemma GeneratePathParts(env: Envelope, rows: seq<DrugRow>, topPaths: seq<PairPaths>, qedgeId: Option<string>, ext: External)
    requires Generate(env, rows, topPaths, qedgeId, ext).Ok? && MaxHop(topPaths) > 0
    ensures ModeError(env.qg, qedgeId).None? && SetUp(env.qg, env.kg, rows, qedgeId, ext).Ok?
    ensures var s := SetupOf(env, rows, qedgeId, ext);
      var g := Generate(env, rows, topPaths, qedgeId, ext).value;
      var pb := PathBranch(s, env.warnings, topPaths, rows, ext);
      && pb.Ok?
      && g.counters == Templates(s, topPaths).counters.(kedge := pb.value.kedgeIter)
      && g.env.qg == Templates(s, topPaths).qg
      && g.env.kg == Some(KnowledgeGraph(pb.value.proj.knodes, pb.value.proj.kedges))
  {
    GenerateOkSetup(env, rows, topPaths, qedgeId, ext);
  }

  /**
   * With an empty query graph the run builds `drug -probably_treats-> disease`:
   * the disease query node named by the first row's disease id, the drug
   * query node of category `biolink:Drug`, and the filled query edge
   * `probably_treats`; the templates never overwrite them. The disease
   * becomes a knowledge node named after the first row's disease, of
   * category `biolink:DiseaseOrPhenotypicFeature`, and later upserts keep
   * that name and category.
   */
  lemma GenerateFreshQueryGraph(env: Envelope, rows: seq<DrugRow>, topPaths: seq<PairPaths>, qedgeId: Option<string>,
                                ext: External)
    requires Generate(env, rows, topPaths, qedgeId, ext).Ok? && |env.qg.edges| == 0
    ensures |rows| > 0
    ensures var qg := Generate(env, rows, topPaths, qedgeId, ext).value.env.qg;
      && ProbablyTreatsKey in qg.edges && qg.edges[ProbablyTreatsKey] == QueryEdge("drug", "disease", [ProbablyTreats], None, true)
      && "drug" in qg.nodes && qg.nodes["drug"] == QueryNode(None, Some([DrugCategory]), None, false)
      && "disease" in qg.nodes && qg.nodes["disease"] == QueryNode(Some(rows[0].diseaseId), None, None, false)
    ensures var kg := Generate(env, rows, topPaths, qedgeId, ext).value.env.kg;
      && kg.Some? && rows[0].diseaseId in kg.value.nodes
      && kg.value.nodes[rows[0].diseaseId].name == rows[0].diseaseName
      && kg.value.nodes[rows[0].diseaseId].categories == [DiseaseCategory]
  {
    GenerateOkSetup(env, rows, topPaths, qedgeId, ext);
    var s := SetupOf(env, rows, qedgeId, ext);
    if MaxHop(topPaths) > 0 {
      var lengths := PathLengths(topPaths);
      PlainKey(ProbablyTreatsKey);
      PlainKey("drug");
      PlainKey("disease");
      AddTemplatesKeepOthers(s.qg, Counters(0, 0, 0, 0), lengths, MaxHop(topPaths), s.drugQ, s.diseaseQ, ProbablyTreatsKey);
      AddTemplatesKeepOthers(s.qg, Counters(0, 0, 0, 0), lengths, MaxHop(topPaths), s.drugQ, s.diseaseQ, "drug");
      AddTemplatesKeepOthers(s.qg, Counters(0, 0, 0, 0), lengths, MaxHop(topPaths), s.drugQ, s.diseaseQ, "disease");
      GeneratePathParts(env, rows, topPaths, qedgeId, ext);
      var ts := Templates(s, topPaths);
      AddTemplatesSlotsFit(s.qg, Counters(0, 0, 0, 0), lengths, MaxHop(topPaths), s.drugQ, s.diseaseQ);
      var ps := PairState(ProjState(s.kg.nodes, s.kg.edges, env.warnings), map[], ts.counters.kedge);
      ProjectPairsKeepsNode(ps, topPaths, PairContext(s, ts, rows, ext), |topPaths|, s.diseaseCurie);
    } else {
      GenerateFallbackParts(env, rows, topPaths, qedgeId, ext);
      var fin := FallbackInputs(ext.curieInfo, ZipScores(ext.drugOrder, rows), s.drugQ, s.diseaseCurie, s.qedgeId);
      FallbackNodes(FallbackState(s.kg.nodes, s.kg.edges, map[]), ext.drugOrder, fin, |ext.drugOrder|, s.diseaseCurie);
    }
  }

  /**
   * With a query edge `qedge_id` the run marks it filled and resets its
   * subject's categories to `biolink:NamedThing`, as long as the template
   * loop does not overwrite them: `qedge_id` is not a key
   * `creative_DTD_qedge_<n>` and its subject not a key
   * `creative_DTD_qnode_<n>`.
   */
  lemma GenerateExtendQueryGraph(env: Envelope, rows: seq<DrugRow>, topPaths: seq<PairPaths>, id: string, ext: External)
    requires Generate(env, rows, topPaths, Some(id), ext).Ok? && id in env.qg.edges
    requires NotQEdgeKey(id) && NotQNodeKey(env.qg.edges[id].subject)
    ensures var qg := Generate(env, rows, topPaths, Some(id), ext).value.env.qg;
      var subject := env.qg.edges[id].subject;
      && id in qg.edges && qg.edges[id] == env.qg.edges[id].(filled := true)
      && subject in env.qg.nodes && subject in qg.nodes
      && qg.nodes[subject] == env.qg.nodes[subject].(categories := Some([NamedThing]))
  {
    GenerateOkSetup(env, rows, topPaths, Some(id), ext);
    var s := SetupOf(env, rows, Some(id), ext);
    if MaxHop(topPaths) > 0 {
      var lengths := PathLengths(topPaths);
      AddTemplatesKeepOthers(s.qg, Counters(0, 0, 0, 0), lengths, MaxHop(topPaths), s.drugQ, s.diseaseQ, id);
      AddTemplatesKeepOthers(s.qg, Counters(0, 0, 0, 0), lengths, MaxHop(topPaths), s.drugQ, s.diseaseQ, s.drugQ);
    }
  }

  /**
   * Every hop count `h >= 1` that some path has gets a chain of query edges
   * from the drug query node to the disease query node in the final query
   * graph.
   */
  lemma GenerateTemplates(env: Envelope, rows: seq<DrugRow>, topPaths: seq<PairPaths>, qedgeId: Option<string>,
                          ext: External, h: nat)
    requires Generate(env, rows, topPaths, qedgeId, ext).Ok?
    requires h >= 1 && h in PathLengths(topPaths)
    ensures ModeError(env.qg, qedgeId).None? && SetUp(env.qg, env.kg, rows, qedgeId, ext).Ok?
    ensures var s := SetupOf(env, rows, qedgeId, ext);
      var qg := Generate(env, rows, topPaths, qedgeId, ext).value.env.qg;
      exists t :: TemplateInGraph(qg, t, h, s.drugQ, s.diseaseQ)
  {
    GenerateOkSetup(env, rows, topPaths, qedgeId, ext);
    var s := SetupOf(env, rows, qedgeId, ext);
    assert MaxHop(topPaths) >= h;
    AddTemplatesChains(s.qg, Counters(0, 0, 0, 0), PathLengths(topPaths), MaxHop(topPaths), s.drugQ, s.diseaseQ, h);
    var ts := Templates(s, topPaths);
    assert TemplateInGraph(ts.qg, ts.pathKeys[h - 1].value, h, s.drugQ, s.diseaseQ);
  }

  /** The template counters of the path branch, in terms of the hop counts present. */
  lemma TemplatesCounters(s: Setup, topPaths: seq<PairPaths>)
    ensures var c := Templates(s, topPaths).counters;
      var lengths, n := PathLengths(topPaths), MaxHop(topPaths);
      && c.kedge == 0
      && c.qedge == HopSum(lengths, n)
      && c.qnode + HopTally(lengths, n) == HopSum(lengths, n)
      && c.option == HopTally(lengths, n)
  {
    AddTemplatesCounters(s.qg, Counters(0, 0, 0, 0), PathLengths(topPaths), MaxHop(topPaths), s.drugQ, s.diseaseQ);
  }

  /** The prediction-edge counter of the path branch: one per pair with a resolved variant. */
  lemma PathBranchKedge(s: Setup, warnings: seq<string>, topPaths: seq<PairPaths>, rows: seq<DrugRow>, ext: External)
    requires PathBranch(s, warnings, topPaths, rows, ext).Ok?
    ensures PathBranch(s, warnings, topPaths, rows, ext).value.kedgeIter == AddedCount(topPaths, s.nameToId, |topPaths|)
  {
    var ts := Templates(s, topPaths);
    TemplatesCounters(s, topPaths);
    AddTemplatesSlotsFit(s.qg, Counters(0, 0, 0, 0), PathLengths(topPaths), MaxHop(topPaths), s.drugQ, s.diseaseQ);
    var ps := PairState(ProjState(s.kg.nodes, s.kg.edges, warnings), map[], ts.counters.kedge);
    ProjectPairsCounter(ps, topPaths, PairContext(s, ts, rows, ext), |topPaths|);
  }

  /**
   * The counters a path run returns: one prediction edge per pair with a
   * resolved variant, and per hop count present `h` query edges, `h - 1`
   * query nodes and one option group.
   */
  lemma GenerateCounters(env: Envelope, rows: seq<DrugRow>, topPaths: seq<PairPaths>, qedgeId: Option<string>, ext: External)
    requires Generate(env, rows, topPaths, qedgeId, ext).Ok? && MaxHop(topPaths) > 0
    ensures ModeError(env.qg, qedgeId).None? && SetUp(env.qg, env.kg, rows, qedgeId, ext).Ok?
    ensures var s := SetupOf(env, rows, qedgeId, ext);
      var c := Generate(env, rows, topPaths, qedgeId, ext).value.counters;
      var lengths, n := PathLengths(topPaths), MaxHop(topPaths);
      && c.kedge == AddedCount(topPaths, s.nameToId, |topPaths|)
      && c.qedge == HopSum(lengths, n)
      && c.qnode + HopTally(lengths, n) == HopSum(lengths, n)
      && c.option == HopTally(lengths, n)
  {
    GeneratePathParts(env, rows, topPaths, qedgeId, ext);
    var s := SetupOf(env, rows, qedgeId, ext);
    PathBranchKedge(s, env.warnings, topPaths, rows, ext);
    TemplatesCounters(s, topPaths);
  }

  /**
   * Every prediction edge `creative_DTD_prediction_<m>` counted by the run
   * is in the final knowledge graph, fills the query edge the run treats as
   * `qedge_id`, and carries that query edge's first predicate (or
   * `biolink:probably_treats`).
   */
  lemma GenerateSummaries(env: Envelope, rows: seq<DrugRow>, topPaths: seq<PairPaths>, qedgeId: Option<string>,
                          ext: External, m: nat)
    requires Generate(env, rows, topPaths, qedgeId, ext).Ok? && MaxHop(topPaths) > 0
    requires m < Generate(env, rows, topPaths, qedgeId, ext).value.counters.kedge
    ensures ModeError(env.qg, qedgeId).None? && SetUp(env.qg, env.kg, rows, qedgeId, ext).Ok?
    ensures var s := SetupOf(env, rows, qedgeId, ext);
      var g := Generate(env, rows, topPaths, qedgeId, ext).value.env;
      && g.kg.Some? && PredictionKey(m) in g.kg.value.edges
      && s.qedgeId in g.qg.edges
      && g.kg.value.edges[PredictionKey(m)].qedgeKeys == [s.qedgeId]
      && g.kg.value.edges[PredictionKey(m)].pred == SummaryPredicate(g.qg.edges[s.qedgeId])
  {
    GenerateOkSetup(env, rows, topPaths, qedgeId, ext);
    var s := SetupOf(env, rows, qedgeId, ext);
    var ts := Templates(s, topPaths);
    AddTemplatesCounters(s.qg, Counters(0, 0, 0, 0), PathLengths(topPaths), MaxHop(topPaths), s.drugQ, s.diseaseQ);
    AddTemplatesSlotsFit(s.qg, Counters(0, 0, 0, 0), PathLengths(topPaths), MaxHop(topPaths), s.drugQ, s.diseaseQ);
    var ps := PairState(ProjState(s.kg.nodes, s.kg.edges, env.warnings), map[], ts.counters.kedge);
    ProjectPairsSummaries(ps, topPaths, PairContext(s, ts, rows, ext), |topPaths|, m);
  }

  /**
   * When the run reaches `resultify_and_sort`, the results come out sorted by
   * descending score and are the resultifier's results, rescored.
   */
  lemma GenerateResultsSorted(env: Envelope, rows: seq<DrugRow>, topPaths: seq<PairPaths>, qedgeId: Option<string>,
                              ext: External)
    requires Generate(env, rows, topPaths, qedgeId, ext).Ok?
    requires Generate(env, rows, topPaths, qedgeId, ext).value.returned.Iters?
    ensures var g := Generate(env, rows, topPaths, qedgeId, ext).value;
      && SortedDesc(g.env.results)
      && multiset(g.env.results) == multiset(ScoredRows(ext.resultified, g.essence, |ext.resultified|))
  {
    var g := Generate(env, rows, topPaths, qedgeId, ext).value;
    GenerateOkSetup(env, rows, topPaths, qedgeId, ext);
    SortByScoreSorted(ScoredRows(ext.resultified, g.essence, |ext.resultified|));
  }

  /** The edges of the response's knowledge graph before the run, none when it has none. */
  function StartEdges(env: Envelope): map<string, KEdge> {
    if env.kg.Some? then env.kg.value.edges else map[]
  }

  /**
   * A run with no hop at all is the fallback loop from the setup's graph:
   * its graph is the loop's, its essence scores the loop's, and its counters
   * stay at zero.
   */
  lemma GenerateFallbackParts(env: Envelope, rows: seq<DrugRow>, topPaths: seq<PairPaths>, qedgeId: Option<string>,
                              ext: External)
    requires Generate(env, rows, topPaths, qedgeId, ext).Ok? && MaxHop(topPaths) == 0
    ensures ModeError(env.qg, qedgeId).None? && SetUp(env.qg, env.kg, rows, qedgeId, ext).Ok? && |rows| > 0
    ensures var s := SetupOf(env, rows, qedgeId, ext);
      var g := Generate(env, rows, topPaths, qedgeId, ext).value;
      var fb := FallbackBranch(s, rows, ext);
      && s.kg.edges == StartEdges(env) && s.diseaseCurie == rows[0].diseaseId
      && fb.Ok?
      && g.counters == Counters(0, 0, 0, 0) && g.returned == Returned.Iters(Counters(0, 0, 0, 0))
      && g.env.qg == s.qg
      && g.env.kg == Some(KnowledgeGraph(fb.value.knodes, fb.value.kedges))
      && g.essence == fb.value.essence
  {
    GenerateOkSetup(env, rows, topPaths, qedgeId, ext);
  }

  /**
   * A run with no hop at all takes the fallback branch: its counters stay at
   * zero and every drug of the table ends as a knowledge node under its
   * canonical curie.
   */
  lemma GenerateFallback(env: Envelope, rows: seq<DrugRow>, topPaths: seq<PairPaths>, qedgeId: Option<string>,
                         ext: External, i: nat)
    requires Generate(env, rows, topPaths, qedgeId, ext).Ok? && MaxHop(topPaths) == 0
    requires SetOrder(rows, ext.drugOrder) && i < |rows|
    ensures var g := Generate(env, rows, topPaths, qedgeId, ext).value;
      && g.counters == Counters(0, 0, 0, 0) && g.returned == Returned.Iters(Counters(0, 0, 0, 0))
      && rows[i].drugId in NameToId(ext.curieInfo)
      && g.env.kg.Some? && NameToId(ext.curieInfo)[rows[i].drugId] in g.env.kg.value.nodes
  {
    GenerateFallbackParts(env, rows, topPaths, qedgeId, ext);
    var s := SetupOf(env, rows, qedgeId, ext);
    var fin := FallbackInputs(ext.curieInfo, ZipScores(ext.drugOrder, rows), s.drugQ, s.diseaseCurie, s.qedgeId);
    var st := FallbackState(s.kg.nodes, s.kg.edges, map[]);
    var k :| 0 <= k < |ext.drugOrder| && ext.drugOrder[k] == rows[i].drugId;
    FallbackNodes(st, ext.drugOrder, fin, |ext.drugOrder|, "");
  }

  /**
   * In the fallback branch the drug at position `k` of the set order is
   * scored, under its preferred name, with the score of ROW `k` of the
   * table (the `zip` of the set with the score column), unless a later drug
   * of the same name overwrites it.
   */
  lemma GenerateFallbackScore(env: Envelope, rows: seq<DrugRow>, topPaths: seq<PairPaths>, qedgeId: Option<string>,
                              ext: External, k: nat)
    requires Generate(env, rows, topPaths, qedgeId, ext).Ok? && MaxHop(topPaths) == 0
    requires SetOrder(rows, ext.drugOrder) && k < |ext.drugOrder|
    ensures k < |rows| && ext.drugOrder[k] in ext.curieInfo && ext.curieInfo[ext.drugOrder[k]].Some?
    ensures var order, essence := ext.drugOrder, Generate(env, rows, topPaths, qedgeId, ext).value.essence;
      var name := ext.curieInfo[order[k]].value.name;
      && name in essence
      && ((forall j | k < j < |order| :: !HasName(ext.curieInfo, order[j], name)) ==> essence[name] == rows[k].tpScore)
  {
    GenerateFallbackParts(env, rows, topPaths, qedgeId, ext);
    var s := SetupOf(env, rows, qedgeId, ext);
    var fin := FallbackInputs(ext.curieInfo, ZipScores(ext.drugOrder, rows), s.drugQ, s.diseaseCurie, s.qedgeId);
    var st := FallbackState(s.kg.nodes, s.kg.edges, map[]);
    FallbackEssenceScore(st, ext.drugOrder, fin, |ext.drugOrder|, k);
    ZipScoresOfSet(ext.drugOrder, rows, k);
  }

  /**
   * In the fallback branch, when no drug's curie is already an edge key (or
   * starts like one), the drug at position `k` of the set order gets its
   * filled `biolink:probably_treats` edge from its preferred curie to the
   * first row's disease, filling the run's query edge; the edge carries the
   * score of ROW `k`, unless a later drug with the same curie rewrote it.
   */
  lemma GenerateFallbackEdge(env: Envelope, rows: seq<DrugRow>, topPaths: seq<PairPaths>, qedgeId: Option<string>,
                             ext: External, k: nat)
    requires Generate(env, rows, topPaths, qedgeId, ext).Ok? && MaxHop(topPaths) == 0
    requires SetOrder(rows, ext.drugOrder) && k < |ext.drugOrder|
    requires CuriesFresh(StartEdges(env), ext.drugOrder, ext.curieInfo, |ext.drugOrder|)
    ensures ModeError(env.qg, qedgeId).None? && SetUp(env.qg, env.kg, rows, qedgeId, ext).Ok?
    ensures k < |rows| && ext.drugOrder[k] in NameToId(ext.curieInfo)
    ensures var order, g := ext.drugOrder, Generate(env, rows, topPaths, qedgeId, ext).value.env;
      var curie, qedge := NameToId(ext.curieInfo)[order[k]], SetupOf(env, rows, qedgeId, ext).qedgeId;
      var key := EdgeKey(KnowledgeProvider, curie, ProbablyTreats, rows[0].diseaseId);
      && g.kg.Some? && key in g.kg.value.edges
      && g.kg.value.edges[key].subject == curie && g.kg.value.edges[key].pred == ProbablyTreats
      && g.kg.value.edges[key].obj == rows[0].diseaseId
      && g.kg.value.edges[key].qedgeKeys == [qedge] && g.kg.value.edges[key].filled
      && ((forall j | k < j < |order| && order[j] in NameToId(ext.curieInfo) :: NameToId(ext.curieInfo)[order[j]] != curie) ==>
            g.kg.value.edges[key] == FallbackEdge(curie, rows[0].diseaseId, rows[k].tpScore, qedge))
  {
    GenerateFallbackParts(env, rows, topPaths, qedgeId, ext);
    var s := SetupOf(env, rows, qedgeId, ext);
    var fin := FallbackInputs(ext.curieInfo, ZipScores(ext.drugOrder, rows), s.drugQ, s.diseaseCurie, s.qedgeId);
    var st := FallbackState(s.kg.nodes, s.kg.edges, map[]);
    FallbackDrugEdge(st, ext.drugOrder, fin, |ext.drugOrder|, k);
    ZipScoresOfSet(ext.drugOrder, rows, k);
  }

  /** In the fallback branch, a drug id the synonymizer cannot resolve ends the run with a KeyError. */
  lemma GenerateFallbackUnknownDrug(env: Envelope, rows: seq<DrugRow>, topPaths: seq<PairPaths>, qedgeId: Option<string>,
                                    ext: External, k: nat)
    requires ModeError(env.qg, qedgeId).None? && SetUp(env.qg, env.kg, rows, qedgeId, ext).Ok? && MaxHop(topPaths) == 0
    requires k < |ext.drugOrder| && ext.drugOrder[k] !in NameToId(ext.curieInfo)
    ensures Generate(env, rows, topPaths, qedgeId, ext).Raise?
  {
    var s := SetupOf(env, rows, qedgeId, ext);
    var fin := FallbackInputs(ext.curieInfo, ZipScores(ext.drugOrder, rows), s.drugQ, s.diseaseCurie, s.qedgeId);
    FallbackOk(FallbackState(s.kg.nodes, s.kg.edges, map[]), ext.drugOrder, fin, |ext.drugOrder|);
  }
}
