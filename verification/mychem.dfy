/**
 * The MyChem drug-use helpers of the training-data generator. The cached
 * MyChem answer for a drug is a JSON value; a "clean" cache holds its
 * indications and contraindications under those two keys, a "dirty" one is a
 * list (or a single object) of entries that each carry a `relation` and a
 * `snomed_id`. The helpers split either form into indications and
 * contraindications.
 */
module QueryMyChem {
  import opened Wrappers

  /** A JSON value as `json.loads` returns it; numbers are integers here. */
  datatype Json = JNull | JBool(b: bool) | JNumber(n: int) | JString(s: string) | JList(items: seq<Json>)
                | JDict(fields: map<string, Json>)

  const IndexError := "IndexError: list index out of range"
  const SnomedKeyError := "KeyError: 'snomed_id'"
  const Indication := "indication"
  const Contraindication := "contraindication"

  /** `drug_uses[0]` for a list (raising on an empty one), the value itself otherwise. */
  function FirstUse(uses: Json): (r: Result<Json>)
    ensures r.Raise? <==> uses.JList? && |uses.items| == 0
    ensures r.Ok? && uses.JList? ==> r.value == uses.items[0]
    ensures r.Ok? && !uses.JList? ==> r.value == uses
  {
    match uses
    case JList(items) => if |items| == 0 then Raise(IndexError) else Ok(items[0])
    case _ => Ok(uses)
  }

  predicate HasSnomedId(v: Json) {
    v.JDict? && "snomed_id" in v.fields
  }

  /** `_has_dirty_cache`: an object with a `snomed_id`, or a list whose first element is one. */
  function HasDirtyCache(uses: Json): (r: Result<bool>)
    ensures r.Raise? <==> uses.JList? && |uses.items| == 0
    ensures r == Ok(true) <==> HasSnomedId(uses) || (uses.JList? && |uses.items| > 0 && HasSnomedId(uses.items[0]))
  {
    match uses
    case JList(items) => if |items| == 0 then Raise(IndexError) else Ok(HasSnomedId(items[0]))
    case _ => Ok(HasSnomedId(uses))
  }

  /** The entries a clean cache lists under `key`: a list as it is, a single object as a singleton list. */
  function CleanUses(use: Json, key: string): (r: seq<Json>)
    ensures use.JDict? && key in use.fields && use.fields[key].JList? ==> r == use.fields[key].items
    ensures use.JDict? && key in use.fields && use.fields[key].JDict? ==> r == [use.fields[key]]
    ensures !(use.JDict? && key in use.fields && (use.fields[key].JList? || use.fields[key].JDict?)) ==> r == []
  {
    if use.JDict? && key in use.fields then
      match use.fields[key]
      case JList(items) => items
      case JDict(_) => [use.fields[key]]
      case _ => []
    else []
  }

  /** `_handle_clean_cache`: the indications and contraindications of the first use. */
  function HandleCleanCache(uses: Json): (r: Result<(seq<Json>, seq<Json>)>)
    ensures r.Raise? <==> uses.JList? && |uses.items| == 0
    ensures r.Ok? ==> r.value == (CleanUses(FirstUse(uses).value, Indication),
                                  CleanUses(FirstUse(uses).value, Contraindication))
  {
    var use :- FirstUse(uses);
    Ok((CleanUses(use, Indication), CleanUses(use, Contraindication)))
  }

  /** A list entry the dirty-cache handler keeps: an object with both a `relation` and a `snomed_id`. */
  predicate Usable(entry: Json) {
    entry.JDict? && "relation" in entry.fields && "snomed_id" in entry.fields
  }

  /** The entry with `snomed_concept_id` set to its `snomed_id`. */
  function WithConcept(entry: Json): (r: Json)
    requires Usable(entry)
    ensures r.JDict? && "snomed_concept_id" in r.fields && r.fields["snomed_concept_id"] == entry.fields["snomed_id"]
    ensures forall k | k in entry.fields && k != "snomed_concept_id" :: k in r.fields && r.fields[k] == entry.fields[k]
  {
    JDict(entry.fields["snomed_concept_id" := entry.fields["snomed_id"]])
  }

  /** The entry belongs to the list of `relation`. */
  predicate Tagged(entry: Json, relation: string) {
    Usable(entry) && entry.fields["relation"] == JString(relation)
  }

  /** The usable entries among the first `count` whose relation is `relation`, with their concept id set, in order. */
  function Select(entries: seq<Json>, relation: string, count: nat): seq<Json>
    requires count <= |entries|
  {
    if count == 0 then []
    else
      var e := entries[count - 1];
      Select(entries, relation, count - 1) + (if Tagged(e, relation) then [WithConcept(e)] else [])
  }

  /** An entry is selected exactly when some entry of the relation yields it. */
  lemma {:induction false} SelectSpec(entries: seq<Json>, relation: string, count: nat, x: Json)
    requires count <= |entries|
    ensures x in Select(entries, relation, count) <==>
      exists i | 0 <= i < count :: Tagged(entries[i], relation) && x == WithConcept(entries[i])
  {
    if count > 0 {
      SelectSpec(entries, relation, count - 1, x);
      var e := entries[count - 1];
      if Tagged(e, relation) && x == WithConcept(e) {
        assert x in Select(entries, relation, count);
      }
    }
  }

  /** The entries of neither list: unusable ones and those of any other relation. */
  function Dropped(entries: seq<Json>, count: nat): nat
    requires count <= |entries|
  {
    if count == 0 then 0
    else
      var e := entries[count - 1];
      Dropped(entries, count - 1) + (if Tagged(e, Indication) || Tagged(e, Contraindication) then 0 else 1)
  }

  /** Every entry lands in exactly one of the indications, the contraindications or the dropped ones. */
  lemma {:induction false} SelectPartition(entries: seq<Json>, count: nat)
    requires count <= |entries|
    ensures |Select(entries, Indication, count)| + |Select(entries, Contraindication, count)| + Dropped(entries, count)
            == count
  {
    if count > 0 {
      SelectPartition(entries, count - 1);
      var e := entries[count - 1];
      assert !(Tagged(e, Indication) && Tagged(e, Contraindication));
    }
  }

  /** The loop of `_handle_dirty_cache` over a list of entries. */
  method HandleDirtyList(entries: seq<Json>) returns (indications: seq<Json>, contraindications: seq<Json>)
    ensures indications == Select(entries, Indication, |entries|)
    ensures contraindications == Select(entries, Contraindication, |entries|)
  {
    indications, contraindications := [], [];
    for i := 0 to |entries|
      invariant indications == Select(entries, Indication, i)
      invariant contraindications == Select(entries, Contraindication, i)
    {
      var e := entries[i];
      if e.JDict? && "relation" in e.fields && "snomed_id" in e.fields {
        var updated := JDict(e.fields["snomed_concept_id" := e.fields["snomed_id"]]);
        if e.fields["relation"] == JString(Indication) {
          indications := indications + [updated];
        } else if e.fields["relation"] == JString(Contraindication) {
          contraindications := contraindications + [updated];
        }
      }
    }
  }

  /**
   * `_handle_dirty_cache`: a list is split entry by entry; a single object
   * with a `relation` is one entry, but it must then have a `snomed_id`;
   * anything else yields two empty lists.
   */
  method HandleDirtyCache(uses: Json) returns (r: Result<(seq<Json>, seq<Json>)>)
    ensures uses.JList? ==> r == Ok((Select(uses.items, Indication, |uses.items|),
                                     Select(uses.items, Contraindication, |uses.items|)))
    ensures uses.JDict? && "relation" in uses.fields ==>
      (r.Raise? <==> "snomed_id" !in uses.fields)
      && (r.Ok? ==> r.value == (if Tagged(uses, Indication) then [WithConcept(uses)] else [],
                                if Tagged(uses, Contraindication) then [WithConcept(uses)] else []))
    ensures !uses.JList? && !(uses.JDict? && "relation" in uses.fields) ==> r == Ok(([], []))
  {
    if uses.JList? {
      var indications, contraindications := HandleDirtyList(uses.items);
      return Ok((indications, contraindications));
    }
    if uses.JDict? && "relation" in uses.fields {
      if "snomed_id" !in uses.fields {
        return Raise(SnomedKeyError);
      }
      var updated := JDict(uses.fields["snomed_concept_id" := uses.fields["snomed_id"]]);
      var relation := uses.fields["relation"];
      if relation == JString(Indication) {
        return Ok(([updated], []));
      } else if relation == JString(Contraindication) {
        return Ok(([], [updated]));
      }
    }
    r := Ok(([], []));
  }

  /** A dirty list keeps no entry without a `relation` or a `snomed_id`, and every kept entry gains its concept id. */
  lemma DirtyEntriesKept(entries: seq<Json>, x: Json)
    requires x in Select(entries, Indication, |entries|) || x in Select(entries, Contraindication, |entries|)
    ensures exists i | 0 <= i < |entries| :: Usable(entries[i]) && x == WithConcept(entries[i])
    ensures x.JDict? && "snomed_concept_id" in x.fields && "relation" in x.fields
  {
    SelectSpec(entries, Indication, |entries|, x);
    SelectSpec(entries, Contraindication, |entries|, x);
  }
}
