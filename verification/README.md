# A Dafny model of ARAX's creative drug-treats-disease synthesis and its helpers

This project models four pieces of the RTX/ARAX code base and proves properties of them.

- **Creative drug-treats-disease (DTD) synthesis.** `InferUtilities.genrete_treat_subgraphs` turns the drugs and the explanation paths predicted by the explainable DTD model into TRAPI query-graph and knowledge-graph content of an ARAX response. It works in these stages:
  - a mode check on `qedge_id`;
  - building the one-hop `drug -probably_treats-> disease` query graph, or reusing the caller's query edge;
  - building one chain of query edges per hop count ("templates");
  - projecting each explanation path onto its template as knowledge nodes and edges;
  - adding one prediction edge per drug-disease pair;
  - a fallback branch when no path has a hop;
  - finally `resultify_and_sort`, which scores the results by their essence and sorts them by descending score.

  The pure parts are modules of functions and lemmas:
  - `InferTypes`: graphs, node upsert, edge keys;
  - `InferTemplates`;
  - `InferProjection`: the triple loop;
  - `InferPairs`: the variant and pair loops;
  - `InferRanking`;
  - `InferFallback`.

  The loops themselves are methods proved equal to those functions. `InferUtilities` holds the `Response` and `InferUtilities` classes, whose methods update the response in place.
- **The MyChem and OxO helpers and the SemMedDB dump parser of the GraphSage training-data generator** (`QueryMyChem`, `DataGeneration`):
  - splitting a cached MyChem answer into indications and contraindications;
  - recognising, extracting and parsing the values of a MySQL `INSERT` statement into rows;
  - filtering OxO mappings;
  - normalising the drug ids sent to MyChem.
- **The decisions `RTXConfiguration` makes when it is constructed** (`RTXConfiguration`):
  - the instance name;
  - the maturity;
  - ITRB detection;
  - database versions;
  - the Plover and KG2 URLs;
  - the neo4j settings.

  Files, git and the JSON configurations come in as an `Environment` value.
- **The TRAPI `QEdge` model class** (`QEdgeModel`): its validating setters, and a constructor that skips those checks.

The code's exceptions (`KeyError`, `IndexError`, `ValueError`, `TypeError`) become the `Raise`/`Fail` cases of `Result`/`Outcome` (module `Wrappers`). `Text` holds the Python string operations the code relies on: `split`, `replace`, `startswith`, `strip`, `upper`, and the decimal rendering of counters.

Behaviour modelled as written:
- In the pair loop, `drug_name` is taken from the last variant examined, whether or not that variant was projected.
- The fallback branch decides whether to add an edge by checking the drug's curie against the edge keys. It never checks the edge's own key.
- The fallback pairs the drugs with scores by zipping the drug-id set, in its iteration order, with the score column in row order. A drug can therefore get another drug's score (`ZipScoresMismatch`).

## Model

| member | source | states |
|---|---|---|
| InferTypes.UpsertNodeEffect | code/ARAX/ARAXQuery/Infer/scripts/infer_utilities.py:291-304 | An upsert adds only the given curie. A new node gets its name, its category followed by `biolink:NamedThing`, and exactly that query-node slot. An existing node keeps its name and categories and gains the slot if it was missing. |
| InferTypes.UpsertNodeWellFormed | code/ARAX/ARAXQuery/Infer/scripts/infer_utilities.py:291-304 | After an upsert, no node lists a slot twice and no node has an empty slot list. |
| InferTypes.UpsertNodeIdempotent | code/ARAX/ARAXQuery/Infer/scripts/infer_utilities.py:291-304 | Repeating an upsert with the same curie and slot changes nothing. |
| InferTypes.UpsertNodeKeepsSlots | code/ARAX/ARAXQuery/Infer/scripts/infer_utilities.py:291-304 | A slot a node already fills is never lost. |
| InferTypes.EdgeKeyInjective | code/ARAX/ARAXQuery/Infer/scripts/infer_utilities.py:51-52 | When subjects and predicates have no dash, equal edge keys mean the same subject, predicate and object. |
| InferTypes.EdgeKeyCollision | code/ARAX/ARAXQuery/Infer/scripts/infer_utilities.py:51-52 | Without the no-dash condition, two different triples can get the same key. |
| InferTypes.EdgeKeySameSubject | code/ARAX/ARAXQuery/Infer/scripts/infer_utilities.py:51-52 | Two edge keys with the same provider, predicate and object are equal only for the same subject. |
| InferTypes.PutEdgeEffect | code/ARAX/ARAXQuery/Infer/scripts/infer_utilities.py:310-317 | The path edge is stored under its edge key, with the triple's subject, predicate and object and its single query edge. Every other key is unchanged. |
| InferTypes.PutEdgeReplaces | code/ARAX/ARAXQuery/Infer/scripts/infer_utilities.py:315-317 | Writing the same triple again replaces the edge, and its query-edge list is not merged. |
| InferTypes.NoneToZero | code/ARAX/ARAXQuery/Infer/scripts/infer_utilities.py:54-58 | A missing score counts as 0; any other score is kept. |
| InferTemplates.QNodeKeysDistinct | code/ARAX/ARAXQuery/Infer/scripts/infer_utilities.py:243 | Different counter values give different query-node keys. |
| InferTemplates.QEdgeKeysDistinct | code/ARAX/ARAXQuery/Infer/scripts/infer_utilities.py:257 | Different counter values give different query-edge keys. |
| InferTemplates.PredictionKeysDistinct | code/ARAX/ARAXQuery/Infer/scripts/infer_utilities.py:336 | Different counter values give different prediction-edge keys. |
| InferTemplates.MaxHop | code/ARAX/ARAXQuery/Infer/scripts/infer_utilities.py:119-123 | The result is the largest hop count, or 0 when there are no paths. |
| InferTemplates.AddTemplateLoops | code/ARAX/ARAXQuery/Infer/scripts/infer_utilities.py:241-268 | The node and edge loops of one template give the template the specification function builds. |
| InferTemplates.BuildTemplates | code/ARAX/ARAXQuery/Infer/scripts/infer_utilities.py:238-268 | The template loop gives the specified templates, with one `path_keys` slot per hop count up to the maximum. |
| InferTemplates.AddTemplateSound | code/ARAX/ARAXQuery/Infer/scripts/infer_utilities.py:241-268 | A template is a chain from the drug query node to the disease query node in the new graph. Its keys are numbered from the old counters. Nothing keyed below those counters moves. |
| InferTemplates.AddTemplatesSlot | code/ARAX/ARAXQuery/Infer/scripts/infer_utilities.py:239-240 | Slot `h-1` is filled exactly when some path has `h` hops. |
| InferTemplates.AddTemplatesCounters | code/ARAX/ARAXQuery/Infer/scripts/infer_utilities.py:251-268 | For each hop count present, the counters advance by `h-1` query nodes, `h` query edges and one option group. The edge counter does not move. |
| InferTemplates.AddTemplatesChains | code/ARAX/ARAXQuery/Infer/scripts/infer_utilities.py:238-268 | Every hop count present has a drug-to-disease chain in the final query graph, and that chain is recorded in its slot. |
| InferTemplates.AddTemplatesKeepOthers | code/ARAX/ARAXQuery/Infer/scripts/infer_utilities.py:238-268 | A query node under any key other than `creative_DTD_qnode_<n>`, and a query edge under any key other than `creative_DTD_qedge_<n>`, is left as it was: the caller's keys, `drug`, `disease` and `probably_treats` included. |
| InferProjection.NameToId | code/ARAX/ARAXQuery/Infer/scripts/infer_utilities.py:113 | Exactly the resolved names are mapped, and each is mapped to its preferred curie. |
| InferProjection.CategoryOf | code/ARAX/ARAXQuery/Infer/scripts/infer_utilities.py:290 | The lookup raises a KeyError for a name never looked up and a TypeError for an unresolved name. Otherwise it gives the preferred category. |
| InferProjection.StoredPredicate | code/ARAX/ARAXQuery/Infer/scripts/infer_utilities.py:305-309 | The self-loop sentinel becomes `biolink:self_loop_relation`; every other predicate is kept. |
| InferProjection.ProjectTripleStep | code/ARAX/ARAXQuery/Infer/scripts/infer_utilities.py:287-317 | The loop body for one triple equals the specified triple step. |
| InferProjection.ProjectTriplesLoop | code/ARAX/ARAXQuery/Infer/scripts/infer_utilities.py:286-317 | The triple loop equals the specified fold, and the first failure ends it. |
| InferProjection.ProjectTriplesOk | code/ARAX/ARAXQuery/Infer/scripts/infer_utilities.py:286-304 | The loop fails exactly when some subject or object has no category. |
| InferProjection.ProjectTriplesParts | code/ARAX/ARAXQuery/Infer/scripts/infer_utilities.py:286-317 | A successful loop is three independent folds, each in triple order: node upserts, edge writes and self-loop warnings. |
| InferProjection.TripleEdgesLatest | code/ARAX/ARAXQuery/Infer/scripts/infer_utilities.py:315-317 | The edge under a triple's key is the one written by the last triple with that key. |
| InferProjection.TripleEdgesFrame | code/ARAX/ARAXQuery/Infer/scripts/infer_utilities.py:315-317 | A key that no triple writes keeps its edge, or stays absent. |
| InferProjection.TripleNodesSlots | code/ARAX/ARAXQuery/Infer/scripts/infer_utilities.py:287-304 | Each subject and object is a node that fills its template pair's slot. |
| InferProjection.TripleNodesKeepExisting | code/ARAX/ARAXQuery/Infer/scripts/infer_utilities.py:291-304 | Nodes already present keep their name and categories. |
| InferPairs.ProjectPairsKeepsNode | code/ARAX/ARAXQuery/Infer/scripts/infer_utilities.py:270-340 | The pair loop keeps every node already in the graph, with its name and categories. |
| InferProjection.TripleNodesWellFormed | code/ARAX/ARAXQuery/Infer/scripts/infer_utilities.py:291-304 | Slot lists stay free of duplicates and non-empty. |
| InferPairs.ProjectVariantSkips | code/ARAX/ARAXQuery/Infer/scripts/infer_utilities.py:279-280 | A variant is projected exactly when all its node names resolved. A skipped variant changes nothing. |
| InferPairs.ProjectVariantTriples | code/ARAX/ARAXQuery/Infer/scripts/infer_utilities.py:281-317 | A variant with `T >= 1` triples runs the triple loop over the template in slot `T-1`. |
| InferPairs.ProjectVariantTemplate | code/ARAX/ARAXQuery/Infer/scripts/infer_utilities.py:284-287 | The template a variant needs exists exactly when its triple count is a hop count that was built. Without it the variant raises a KeyError. |
| InferPairs.OddVariantFindsTemplate | code/ARAX/ARAXQuery/Infer/scripts/infer_utilities.py:281-287 | A resolved path with an odd token count always finds its template. |
| InferPairs.ProjectVariantsAdded | code/ARAX/ARAXQuery/Infer/scripts/infer_utilities.py:277-318 | A pair counts as added exactly when one of its variants resolved. `drug_name` is the first token of the last variant examined. |
| InferPairs.FirstScoreFirstRow | code/ARAX/ARAXQuery/Infer/scripts/infer_utilities.py:320 | The score lookup fails exactly when no row has the drug. Otherwise it gives the score of the first such row. |
| InferPairs.SummaryPredicate | code/ARAX/ARAXQuery/Infer/scripts/infer_utilities.py:329-331 | The summary edge's predicate is the query edge's first predicate, or `biolink:probably_treats` when it has none. |
| InferPairs.FinishPairSkipped | code/ARAX/ARAXQuery/Infer/scripts/infer_utilities.py:338-339 | A pair with no projected variant only adds its warning. |
| InferPairs.FinishPairAdded | code/ARAX/ARAXQuery/Infer/scripts/infer_utilities.py:319-337 | An added pair fails exactly on a missing row, a missing query edge or a missing curie. Otherwise it stores the summary edge under the current prediction key, records the score and advances the counter. |
| InferPairs.PathKeyNotPrediction | code/ARAX/ARAXQuery/Infer/scripts/infer_utilities.py:315-336 | Path edge keys and prediction keys never coincide. |
| InferPairs.ProjectPairsCounter | code/ARAX/ARAXQuery/Infer/scripts/infer_utilities.py:272-339 | The prediction counter ends at its start value plus the number of pairs that have a resolved variant. |
| InferPairs.ProjectPairsSummaries | code/ARAX/ARAXQuery/Infer/scripts/infer_utilities.py:272-339 | Every prediction edge the loop writes survives to the end, fills `qedge_id` and carries the summary predicate. |
| InferPairs.ProjectVariantLoop | code/ARAX/ARAXQuery/Infer/scripts/infer_utilities.py:277-318 | Handling one variant equals the specified variant step. |
| InferPairs.ProjectVariantsLoop | code/ARAX/ARAXQuery/Infer/scripts/infer_utilities.py:276-318 | The variant loop equals the specified fold. |
| InferPairs.ProjectPairLoop | code/ARAX/ARAXQuery/Infer/scripts/infer_utilities.py:273-339 | Handling one pair equals the specified pair step. |
| InferPairs.ProjectPairsLoop | code/ARAX/ARAXQuery/Infer/scripts/infer_utilities.py:271-339 | The pair loop equals the specified fold, and the first failure ends it. |
| InferRanking.MissingScoreWarningInjective | code/ARAX/ARAXQuery/Infer/scripts/infer_utilities.py:72-73 | Different essences give different warnings. |
| InferRanking.ScoredRowsSpec | code/ARAX/ARAXQuery/Infer/scripts/infer_utilities.py:67-73 | Rescoring keeps the results and their order. A result's score is its essence's score when there is one, and none otherwise. |
| InferRanking.ScoreWarningsSpec | code/ARAX/ARAXQuery/Infer/scripts/infer_utilities.py:67-73 | There is a warning for essence `e` exactly when some result has essence `e` and `e` has no score. |
| InferRanking.ScoreWarningsCount | code/ARAX/ARAXQuery/Infer/scripts/infer_utilities.py:67-73 | There is exactly one warning per unscored result. |
| InferRanking.ScoreResultsLoop | code/ARAX/ARAXQuery/Infer/scripts/infer_utilities.py:67-73 | The scoring loop gives the specified rows and warnings. |
| InferRanking.SortByScoreSorted | code/ARAX/ARAXQuery/Infer/scripts/infer_utilities.py:74 | The output is sorted by descending score, with none counted as 0, and is a permutation of the input. |
| InferRanking.SortByScoreStable | code/ARAX/ARAXQuery/Infer/scripts/infer_utilities.py:74 | Results with equal scores keep their relative order. |
| InferFallback.ZipScoresAt | code/ARAX/ARAXQuery/Infer/scripts/infer_utilities.py:199 | The drug at position `k` of the set order gets the score of row `k`. |
| InferFallback.ZipScoresMismatch | code/ARAX/ARAXQuery/Infer/scripts/infer_utilities.py:196-199 | When the set order differs from the row order, a drug gets another drug's score. |
| InferFallback.FallbackLoop | code/ARAX/ARAXQuery/Infer/scripts/infer_utilities.py:201-232 | The fallback loop equals the specified fold. |
| InferFallback.FallbackOk | code/ARAX/ARAXQuery/Infer/scripts/infer_utilities.py:202-207 | The loop fails exactly when some drug id has no curie or no zipped score. |
| InferFallback.FallbackNodes | code/ARAX/ARAXQuery/Infer/scripts/infer_utilities.py:208-212 | Every drug's curie is a node afterwards, and nodes already present are untouched. |
| InferFallback.FallbackEssence | code/ARAX/ARAXQuery/Infer/scripts/infer_utilities.py:206-207 | Exactly the names of the drugs seen are scored, together with the names scored before. |
| InferFallback.FallbackEssenceScore | code/ARAX/ARAXQuery/Infer/scripts/infer_utilities.py:204-207 | The drug at position `k` stores its zipped score under its preferred name, and that score stays unless a later drug has the same name. |
| InferFallback.FallbackEdges | code/ARAX/ARAXQuery/Infer/scripts/infer_utilities.py:214-232 | Every added edge belongs to one drug: it is stored under that drug's edge key and is the filled `biolink:probably_treats` edge from the drug's curie to the disease, filling `qedge_id` and carrying that drug's zipped score. |
| InferFallback.FallbackKeepsCurieOut | code/ARAX/ARAXQuery/Infer/scripts/infer_utilities.py:214 | A curie that is not an edge key and does not start like one never becomes an edge key, so the guard on the curie never blocks a drug's edge. |
| InferFallback.FallbackDrugEdge | code/ARAX/ARAXQuery/Infer/scripts/infer_utilities.py:214-232 | With fresh curies, every drug gets its filled `biolink:probably_treats` edge from its curie to the disease, filling `qedge_id`. It carries the drug's own zipped score unless a later drug with the same curie rewrote it. |
| InferFallback.ZipScoresOfSet | code/ARAX/ARAXQuery/Infer/scripts/infer_utilities.py:196-199 | For a set order of the table's drug ids, the drug at position `k` has a row `k`, and its zipped score is that row's score. |
| InferUtilities.InferUtilities.constructor | code/ARAX/ARAXQuery/Infer/scripts/infer_utilities.py:44-49 | A fresh object holds no response. Its counters start at zero, the values each run resets them to. |
| InferUtilities.InferUtilities.ResultifyAndSort | code/ARAX/ARAXQuery/Infer/scripts/infer_utilities.py:60-74 | The results are rescored and stably sorted, with one warning per unscored result. Nothing else in the response changes. |
| InferUtilities.InferUtilities.RunFallback | code/ARAX/ARAXQuery/Infer/scripts/infer_utilities.py:194-234 | The fallback branch leaves the response in the specified state, with the counters at zero. |
| InferUtilities.InferUtilities.RunPaths | code/ARAX/ARAXQuery/Infer/scripts/infer_utilities.py:237-352 | The path branch leaves the response and counters in the specified state, or returns only the response after a failed decoration. |
| InferUtilities.InferUtilities.GenerateTreatSubgraphs | code/ARAX/ARAXQuery/Infer/scripts/infer_utilities.py:76-352 | The whole method equals the specification `Generate`: the mode error is logged and raised, and the counters the caller passes are ignored. |
| InferUtilities.TemplatesAndPairs | code/ARAX/ARAXQuery/Infer/scripts/infer_utilities.py:238-339 | Running the template loop and then the pair loop equals the specified path branch. |
| InferUtilities.GenerateOkSetup | code/ARAX/ARAXQuery/Infer/scripts/infer_utilities.py:92-129 | A run that does not raise passed the mode check and had a first drug row. |
| InferUtilities.GeneratePathParts | code/ARAX/ARAXQuery/Infer/scripts/infer_utilities.py:237-352 | A path run that does not raise is the template stage followed by the pair stage. |
| InferUtilities.GenerateFreshQueryGraph | code/ARAX/ARAXQuery/Infer/scripts/infer_utilities.py:143-160 | With an empty query graph, the run builds the `drug`, `disease` and filled `probably_treats` query graph. The disease knowledge node keeps the first row's disease name and the category `biolink:DiseaseOrPhenotypicFeature` to the end. |
| InferUtilities.GenerateExtendQueryGraph | code/ARAX/ARAXQuery/Infer/scripts/infer_utilities.py:168-186 | With a `qedge_id`, that edge is marked filled and its subject's categories are reset to `biolink:NamedThing`, unless the template loop overwrites them under its own counter keys. |
| InferUtilities.GenerateTemplates | code/ARAX/ARAXQuery/Infer/scripts/infer_utilities.py:238-268 | Every hop count present gets a drug-to-disease chain in the final query graph. |
| InferUtilities.TemplatesCounters | code/ARAX/ARAXQuery/Infer/scripts/infer_utilities.py:238-268 | The template counters are given by the hop counts present. |
| InferUtilities.PathBranchKedge | code/ARAX/ARAXQuery/Infer/scripts/infer_utilities.py:272-339 | The prediction counter counts the pairs that have a resolved variant. |
| InferUtilities.GenerateCounters | code/ARAX/ARAXQuery/Infer/scripts/infer_utilities.py:238-352 | The returned counters are one prediction edge per added pair, plus `h` query edges, `h-1` query nodes and one option group per hop count `h` present. |
| InferUtilities.GenerateSummaries | code/ARAX/ARAXQuery/Infer/scripts/infer_utilities.py:319-352 | Every counted prediction edge is in the final knowledge graph, fills the treated query edge and carries its predicate. |
| InferUtilities.GenerateResultsSorted | code/ARAX/ARAXQuery/Infer/scripts/infer_utilities.py:349 | When scoring is reached, the results are the resultifier's results, rescored and sorted by descending score. |
| InferUtilities.GenerateFallbackParts | code/ARAX/ARAXQuery/Infer/scripts/infer_utilities.py:193-234 | A run with no hop is the fallback loop from the setup's graph. Its graph and essence scores are the loop's, and its counters stay at zero. |
| InferUtilities.GenerateFallback | code/ARAX/ARAXQuery/Infer/scripts/infer_utilities.py:193-234 | A run with no hop takes the fallback branch. Its counters stay at zero and every drug of the table ends as a node. |
| InferUtilities.GenerateFallbackScore | code/ARAX/ARAXQuery/Infer/scripts/infer_utilities.py:196-207 | The drug at position `k` of the set order is scored under its preferred name with row `k`'s score, unless a later drug of the same name overwrites it. |
| InferUtilities.GenerateFallbackEdge | code/ARAX/ARAXQuery/Infer/scripts/infer_utilities.py:196-232 | With fresh curies, the drug at position `k` gets its filled `biolink:probably_treats` edge to the first row's disease, filling the run's query edge. It carries row `k`'s score unless a later drug with the same curie rewrote it. |
| InferUtilities.GenerateFallbackUnknownDrug | code/ARAX/ARAXQuery/Infer/scripts/infer_utilities.py:202 | A drug id that cannot be resolved ends the fallback with a KeyError. |
| QueryMyChem.FirstUse | code/ARAX/ARAXQuery/Overlay/GraphSage_train/py_scripts/generate_training_data.py:28-31 | An empty list raises IndexError. A non-empty list gives its first element; any other value is used as it is. |
| QueryMyChem.HasDirtyCache | code/ARAX/ARAXQuery/Overlay/GraphSage_train/py_scripts/generate_training_data.py:45-52 | The cache is dirty exactly when the value, or the first element of a list, carries a `snomed_id`. An empty list raises. |
| QueryMyChem.CleanUses | code/ARAX/ARAXQuery/Overlay/GraphSage_train/py_scripts/generate_training_data.py:32-41 | A list is taken as it is, an object becomes a singleton, and anything else gives nothing. |
| QueryMyChem.HandleCleanCache | code/ARAX/ARAXQuery/Overlay/GraphSage_train/py_scripts/generate_training_data.py:27-42 | The result is the indications and contraindications of the first use. An empty list raises. |
| QueryMyChem.WithConcept | code/ARAX/ARAXQuery/Overlay/GraphSage_train/py_scripts/generate_training_data.py:62-71 | `snomed_concept_id` is set to the entry's `snomed_id`, and the other fields are kept. |
| QueryMyChem.SelectSpec | code/ARAX/ARAXQuery/Overlay/GraphSage_train/py_scripts/generate_training_data.py:59-65 | An entry is selected exactly when some usable entry of that relation yields it. |
| QueryMyChem.SelectPartition | code/ARAX/ARAXQuery/Overlay/GraphSage_train/py_scripts/generate_training_data.py:59-65 | Every entry is either an indication, a contraindication or dropped, and never more than one of these. |
| QueryMyChem.HandleDirtyList | code/ARAX/ARAXQuery/Overlay/GraphSage_train/py_scripts/generate_training_data.py:59-65 | The list loop gives the specified selections. |
| QueryMyChem.HandleDirtyCache | code/ARAX/ARAXQuery/Overlay/GraphSage_train/py_scripts/generate_training_data.py:55-73 | A list is split entry by entry. An object with a relation but no `snomed_id` raises. Anything else gives two empty lists. |
| QueryMyChem.DirtyEntriesKept | code/ARAX/ARAXQuery/Overlay/GraphSage_train/py_scripts/generate_training_data.py:59-65 | Every kept entry came from a usable entry and carries its concept id. |
| DataGeneration.IsInsert | code/ARAX/ARAXQuery/Overlay/GraphSage_train/py_scripts/generate_training_data.py:351-355 | True exactly when the line starts with `INSERT INTO`. |
| DataGeneration.GetValuesOf | code/ARAX/ARAXQuery/Overlay/GraphSage_train/py_scripts/generate_training_data.py:358-362 | For a table name with no backtick and no space, the values of an INSERT line are recovered exactly. |
| DataGeneration.ValuesSanityCheck | code/ARAX/ARAXQuery/Overlay/GraphSage_train/py_scripts/generate_training_data.py:365-372 | The check passes exactly when the values are non-empty and start with `(`. Otherwise it raises an AssertionError. |
| DataGeneration.ParseValuesLoop | code/ARAX/ARAXQuery/Overlay/GraphSage_train/py_scripts/generate_training_data.py:375-430 | The column loop and the final check write the rows of the specification `ParseValues`. |
| DataGeneration.ParseDump | code/ARAX/ARAXQuery/Overlay/GraphSage_train/py_scripts/generate_training_data.py:390-430 | Parsing the columns of a dumped statement gives back its rows, when every value is non-empty, is not `NULL` and does not start with `(`. |
| DataGeneration.ParseNullInside | code/ARAX/ARAXQuery/Overlay/GraphSage_train/py_scripts/generate_training_data.py:392-394 | Empty and `NULL` values inside a row are written as the NUL character. |
| DataGeneration.FinishRows | code/ARAX/ARAXQuery/Overlay/GraphSage_train/py_scripts/generate_training_data.py:428-430 | The end of input raises when no row is being filled. When the last column ends in `);`, one more row is written: the row being filled, whose last column with `);` put back is the original. Otherwise nothing more is written. |
| DataGeneration.OxoQueryId | code/ARAX/ARAXQuery/Overlay/GraphSage_train/py_scripts/generate_training_data.py:226-227 | A `REACT:` id becomes `Reactome:` followed by the rest of the id, with every further `REACT` renamed `Reactome`; any other id is unchanged. |
| DataGeneration.OxoQueryIdLocalPart | code/ARAX/ARAXQuery/Overlay/GraphSage_train/py_scripts/generate_training_data.py:226-227 | A `REACT:` id whose rest holds no `REACT` keeps that rest unchanged after `Reactome:`. |
| DataGeneration.OxoSynonyms | code/ARAX/ARAXQuery/Overlay/GraphSage_train/py_scripts/generate_training_data.py:228-240 | The answer is `None` exactly when the call failed or nothing was kept. Otherwise it is the non-empty set of kept curies. |
| DataGeneration.OxoSynonymsSound | code/ARAX/ARAXQuery/Overlay/GraphSage_train/py_scripts/generate_training_data.py:230-239 | Every synonym is upper case, comes from some mapping, and has a prefix in `map_to` when one is given. |
| DataGeneration.OxoSynonymsComplete | code/ARAX/ARAXQuery/Overlay/GraphSage_train/py_scripts/generate_training_data.py:230-239 | Every mapping whose prefix is kept reaches the answer, upper-cased. |
| DataGeneration.NormaliseDrugId | code/ARAX/ARAXQuery/Overlay/GraphSage_train/py_scripts/generate_training_data.py:276-294 | An id without exactly one `:` raises. A selected tag gives an id to query; any other tag gives none. |
| DataGeneration.NormaliseDrugIdOf | code/ARAX/ARAXQuery/Overlay/GraphSage_train/py_scripts/generate_training_data.py:277-287 | A selected tag gives the local id, except ChEBI, which keeps the whole id. |
| RTXConfiguration.InstanceGroup | code/RTXConfiguration.py:22-26 | The result is absent exactly when the directory pattern does not match. Otherwise it is a non-empty group between the prefix and `/RTX/code`. |
| RTXConfiguration.InstanceName | code/RTXConfiguration.py:22-28 | The result is `??` when there is no match. It is never `production`, which is renamed. |
| RTXConfiguration.InstanceNameOf | code/RTXConfiguration.py:22-28 | The name is recovered from its directory, with `production` read as `ARAX`. |
| RTXConfiguration.ReadOverrideFile | code/RTXConfiguration.py:171-181 | The file comes as its `readlines()` list. A missing file gives `None`, an empty file raises a ValueError, and otherwise the result is the stripped first line. A blank first line strips to `""`, which does not override. |
| RTXConfiguration.Maturity | code/RTXConfiguration.py:47-65 | The override wins. Otherwise the maturity is one of the four: staging exactly for the staging domains; testing exactly for the testing domains or the `itrb-test` branch; production exactly for the production domains, the production branch, or ARAX or kg2 on `arax.ncats.io`, each time when no earlier rule applies. |
| RTXConfiguration.MaturityNcats | code/RTXConfiguration.py:59-63 | On `arax.ncats.io`, the maturity is production exactly for ARAX, kg2 or the production branch. |
| RTXConfiguration.ItrbDomain | code/RTXConfiguration.py:68 | Every `transltr.io` domain is ITRB. |
| RTXConfiguration.VersionOfRoundTrip | code/RTXConfiguration.py:103-125 | The version written into a database file name is read back from its path. |
| RTXConfiguration.DatabaseVersionsSpec | code/RTXConfiguration.py:103-125 | Versions are read exactly when every database key is present, and each is its path's version. |
| RTXConfiguration.PloverUrl | code/RTXConfiguration.py:133-142 | The override wins. Otherwise the URL is the prod, test or dev entry for the maturity, and the lookup fails exactly when that key is missing. |
| RTXConfiguration.Kg2Url | code/RTXConfiguration.py:144-161 | The override wins. On ITRB the production URL is chosen exactly at production maturity, the test URL exactly at testing maturity, and the CI URL otherwise. Elsewhere v1.3 is chosen exactly for a NewFmt instance or branch, the production URL exactly at production maturity without NewFmt, and the beta URL otherwise. |
| RTXConfiguration.ConfigureWithoutOverrides | code/RTXConfiguration.py:18-168 | Without override files, a successful construction takes its maturity, Plover URL and KG2 URL from the rules alone. |
| RTXConfiguration.Configuration.constructor | code/RTXConfiguration.py:18-165 | The settings and the neo4j tables are stored, and the neo4j fields start unset. |
| RTXConfiguration.Configuration.SetNeo4jKg2 | code/RTXConfiguration.py:196-210 | An unknown instance clears the four neo4j fields. A known one sets the bolt and database addresses, then the username, then the password. The first missing key raises its KeyError, and what was assigned before it stays. |
| RTXConfiguration.Secret | code/RTXConfiguration.py:209-210 | One secret lookup: it succeeds exactly when the instance and the field are there, and otherwise raises a KeyError on the first missing key. |
| RTXConfiguration.Credentials | code/RTXConfiguration.py:209-210 | The lookup succeeds exactly when the secrets hold a username and a password for the instance. A failure after the username was found is the KeyError on `password`. |
| RTXConfiguration.Load | code/RTXConfiguration.py:18-210 | Loading succeeds exactly when construction succeeds and neo4j hosts exist. The neo4j instance is then `KG2c`. If `KG2c` is listed, its bolt and database addresses and its username and password are set; otherwise all four are `None`. |
| QEdgeModel.AttributeMap | code/UI/OpenAPI/python-flask-server/KG2/openapi_server/models/q_edge.py:48-56 | Exactly the seven attributes are mapped, each to its own name. |
| QEdgeModel.CheckPredicates | code/UI/OpenAPI/python-flask-server/KG2/openapi_server/models/q_edge.py:118-119 | The check fails exactly on an empty list, with the source's message. |
| QEdgeModel.CheckPresent | code/UI/OpenAPI/python-flask-server/KG2/openapi_server/models/q_edge.py:143-144 | The check fails exactly on `None`. |
| QEdgeModel.QEdge.constructor | code/UI/OpenAPI/python-flask-server/KG2/openapi_server/models/q_edge.py:20-64 | Every field is stored as given, with no check. |
| QEdgeModel.QEdge.SetPredicates | code/UI/OpenAPI/python-flask-server/KG2/openapi_server/models/q_edge.py:111-121 | An empty list is rejected and nothing changes. Otherwise only `predicates` changes, and a checked edge stays checked. |
| QEdgeModel.QEdge.SetSubject | code/UI/OpenAPI/python-flask-server/KG2/openapi_server/models/q_edge.py:135-146 | `None` is rejected and nothing changes. Otherwise only `subject` changes. |
| QEdgeModel.QEdge.SetObject | code/UI/OpenAPI/python-flask-server/KG2/openapi_server/models/q_edge.py:160-171 | `None` is rejected and nothing changes. Otherwise only `object` changes. |
| QEdgeModel.QEdge.SetKnowledgeType | code/UI/OpenAPI/python-flask-server/KG2/openapi_server/models/q_edge.py:89-98 | Only `knowledge_type` changes. |
| QEdgeModel.QEdge.SetConstraints | code/UI/OpenAPI/python-flask-server/KG2/openapi_server/models/q_edge.py:185-194 | Only `constraints` changes. |
| QEdgeModel.QEdge.SetExclude | code/UI/OpenAPI/python-flask-server/KG2/openapi_server/models/q_edge.py:208-217 | Only `exclude` changes. |
| QEdgeModel.QEdge.SetOptionGroupId | code/UI/OpenAPI/python-flask-server/KG2/openapi_server/models/q_edge.py:231-240 | Only `option_group_id` changes. |
| QEdgeModel.ConstructorBypassesChecks | code/UI/OpenAPI/python-flask-server/KG2/openapi_server/models/q_edge.py:58-64 | The constructor can build an edge that fails every check. The setters then bring it back to a checked state. |

## Left out

Services and I/O are parameters of the model:
- The ARAX services (node synonymizer, Biolink helper, messenger, decorator, resultifier) are not modelled. What they return is given as the `External` record. The messenger's additions are modelled as plain map writes.
- The iteration order of Python sets and dicts is given as input.
- `print`, `eprint`, logging to stderr, and reading and writing files are left out.
- For the configuration, the following are given in `Environment`: the files read, the `config.domain` line, the git branch, the environment, the secrets fetched by `scp`, and the JSON configurations. `is_production_server`, the `mysql_feedback` secrets and the hard-coded database host are not modelled.

Numbers and encodings:
- Scores are `real` values. Attribute values keep the score itself rather than `str(score)`.
- JSON numbers are integers.
- `strip` removes only the ASCII whitespace (space, tab, line feed, carriage return, vertical tab, form feed and 0x1C-0x1F), not Unicode whitespace such as U+0085 or U+00A0. `upper` works on ASCII only.

Exceptions:
- Exception messages approximate Python's own texts.
- The mode error does not include the rendering of the query graph.
- After an exception other than the mode error, the response's content is not specified.

Inputs and object aliasing:
- The CSV reader's tokenisation of a dump line is not modelled: `parse_values` takes the columns of one reader row as input.
- Graphs and responses are values, so Python's aliasing of nested objects is not captured.
- The MyChem handlers return new values and do not update the cached entries in place.
- The mutable default `constraints=[]` of `QEdge`, `QEdge.from_dict`, and the OpenAPI serialisation are left out.

Other operations not modelled:
- The network calls to OxO, MyChem and the process pool are left out.
- `map_drug_to_ontology` and the `str()` of a curie id are not modelled.
- A single-string `map_to` is not modelled.

Weaker contracts:
- InferUtilities.InferUtilities.GenerateTreatSubgraphs: the response after a failed decoration is returned without counters.
- InferFallback.FallbackDrugEdge: the drug's edge is stated only when no drug curie is already an edge key or starts with `i` like one. The source's guard tests the curie rather than the edge key, so such a curie can hold the edge back.
- InferUtilities.GenerateFallbackEdge: the same condition as `FallbackDrugEdge`, on the setup's edges.
