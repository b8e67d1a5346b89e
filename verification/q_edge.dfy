/**
 * The `QEdge` record of the TRAPI query graph: an object with seven fields,
 * three of which have validating setters. The constructor assigns every
 * field directly, so it bypasses the checks that the setters make.
 *
 * Python's attributes are untyped; the model gives each field the type the
 * OpenAPI description declares, wrapped in `Option` where `None` may be
 * stored.
 */
module QEdgeModel {
  import opened Wrappers

  /** A query constraint, held as an opaque value: the edge only stores its list. */
  datatype QueryConstraint = QueryConstraint(id: string, operator: string, value: string)

  const InvalidPredicates := "Invalid value for `predicates`, number of items must be greater than or equal to `1`"
  const InvalidSubject := "Invalid value for `subject`, must not be `None`"
  const InvalidObject := "Invalid value for `object`, must not be `None`"

  /** The seven attribute names, each serialised under its own name. */
  const AttributeNames: seq<string> :=
    ["knowledge_type", "predicates", "subject", "object", "constraints", "exclude", "option_group_id"]

  function AttributeMap(): (m: map<string, string>)
    ensures forall k :: k in m <==> k in AttributeNames
    ensures forall k | k in m :: m[k] == k
  {
    map k | k in AttributeNames :: k
  }

  /** The check of the `predicates` setter: `None` passes, a list must hold at least one item. */
  function CheckPredicates(predicates: Option<seq<string>>): (r: Outcome)
    ensures r.Fail? <==> predicates.Some? && |predicates.value| < 1
    ensures r.Fail? ==> r.error == InvalidPredicates
  {
    if predicates.Some? && |predicates.value| < 1 then Fail(InvalidPredicates) else Pass
  }

  /** The check of the `subject` and `object` setters: anything but `None` passes. */
  function CheckPresent(v: Option<string>, error: string): (r: Outcome)
    ensures r.Fail? <==> v.None?
    ensures r.Fail? ==> r.error == error
  {
    if v.None? then Fail(error) else Pass
  }

  class QEdge {
    var knowledgeType: Option<string>
    var predicates: Option<seq<string>>
    var subject: Option<string>
    var obj: Option<string>
    var constraints: Option<seq<QueryConstraint>>
    var exclude: Option<bool>
    var optionGroupId: Option<string>

    /** What the validating setters guarantee and the constructor does not. */
    predicate Checked()
      reads this
    {
      CheckPredicates(predicates).Pass? && subject.Some? && obj.Some?
    }

    /** Assigns every field as given, with no check. */
    constructor(predicates: Option<seq<string>>, subject: Option<string>, obj: Option<string>,
                constraints: Option<seq<QueryConstraint>>, exclude: Option<bool>, optionGroupId: Option<string>,
                knowledgeType: Option<string>)
      ensures this.knowledgeType == knowledgeType && this.predicates == predicates
      ensures this.subject == subject && this.obj == obj
      ensures this.constraints == constraints && this.exclude == exclude && this.optionGroupId == optionGroupId
    {
      this.knowledgeType := knowledgeType;
      this.predicates := predicates;
      this.subject := subject;
      this.obj := obj;
      this.constraints := constraints;
      this.exclude := exclude;
      this.optionGroupId := optionGroupId;
    }

    /** The `predicates` setter: rejects an empty list and changes nothing then; otherwise stores the value. */
    method SetPredicates(p: Option<seq<string>>) returns (r: Outcome)
      modifies this
      ensures r == CheckPredicates(p)
      ensures r.Fail? ==> unchanged(this)
      ensures r.Pass? ==> predicates == p
      ensures r.Pass? ==> knowledgeType == old(knowledgeType) && subject == old(subject) && obj == old(obj)
      ensures r.Pass? ==> constraints == old(constraints) && exclude == old(exclude)
      ensures r.Pass? ==> optionGroupId == old(optionGroupId)
      ensures old(Checked()) ==> Checked()
    {
      r := CheckPredicates(p);
      if r.Pass? {
        predicates := p;
      }
    }

    /** The `subject` setter: rejects `None` and changes nothing then; otherwise stores the value. */
    method SetSubject(s: Option<string>) returns (r: Outcome)
      modifies this
      ensures r == CheckPresent(s, InvalidSubject)
      ensures r.Fail? ==> unchanged(this)
      ensures r.Pass? ==> subject == s
      ensures r.Pass? ==> knowledgeType == old(knowledgeType) && predicates == old(predicates) && obj == old(obj)
      ensures r.Pass? ==> constraints == old(constraints) && exclude == old(exclude)
      ensures r.Pass? ==> optionGroupId == old(optionGroupId)
      ensures old(Checked()) ==> Checked()
    {
      r := CheckPresent(s, InvalidSubject);
      if r.Pass? {
        subject := s;
      }
    }

    /** The `object` setter: rejects `None` and changes nothing then; otherwise stores the value. */
    method SetObject(o: Option<string>) returns (r: Outcome)
      modifies this
      ensures r == CheckPresent(o, InvalidObject)
      ensures r.Fail? ==> unchanged(this)
      ensures r.Pass? ==> obj == o
      ensures r.Pass? ==> knowledgeType == old(knowledgeType) && predicates == old(predicates) && subject == old(subject)
      ensures r.Pass? ==> constraints == old(constraints) && exclude == old(exclude)
      ensures r.Pass? ==> optionGroupId == old(optionGroupId)
      ensures old(Checked()) ==> Checked()
    {
      r := CheckPresent(o, InvalidObject);
      if r.Pass? {
        obj := o;
      }
    }

    /** The `knowledge_type` setter stores its argument unchanged. */
    method SetKnowledgeType(k: Option<string>)
      modifies this
      ensures knowledgeType == k
      ensures predicates == old(predicates) && subject == old(subject) && obj == old(obj)
      ensures constraints == old(constraints) && exclude == old(exclude) && optionGroupId == old(optionGroupId)
    {
      knowledgeType := k;
    }

    /** The `constraints` setter stores its argument unchanged. */
    method SetConstraints(c: Option<seq<QueryConstraint>>)
      modifies this
      ensures constraints == c
      ensures knowledgeType == old(knowledgeType) && predicates == old(predicates) && subject == old(subject)
      ensures obj == old(obj) && exclude == old(exclude) && optionGroupId == old(optionGroupId)
    {
      constraints := c;
    }

    /** The `exclude` setter stores its argument unchanged. */
    method SetExclude(e: Option<bool>)
      modifies this
      ensures exclude == e
      ensures knowledgeType == old(knowledgeType) && predicates == old(predicates) && subject == old(subject)
      ensures obj == old(obj) && constraints == old(constraints) && optionGroupId == old(optionGroupId)
    {
      exclude := e;
    }

    /** The `option_group_id` setter stores its argument unchanged. */
    method SetOptionGroupId(g: Option<string>)
      modifies this
      ensures optionGroupId == g
      ensures knowledgeType == old(knowledgeType) && predicates == old(predicates) && subject == old(subject)
      ensures obj == old(obj) && constraints == old(constraints) && exclude == old(exclude)
    {
      optionGroupId := g;
    }
  }

  /**
   * The constructor admits what the setters refuse: an edge built with no
   * subject, no object and an empty predicate list fails every check, and
   * the setters then restore the checked state one field at a time.
   */
  method ConstructorBypassesChecks() returns (e: QEdge, before: bool, after: bool)
    ensures !before && after
  {
    e := new QEdge(Some([]), None, None, Some([]), None, None, None);
    before := e.Checked();
    var r1 := e.SetPredicates(Some([]));
    assert r1.Fail? && e.predicates == Some([]);
    var r2 := e.SetPredicates(Some(["biolink:treats"]));
    var r3 := e.SetSubject(Some("n0"));
    var r4 := e.SetObject(Some("n1"));
    assert r2.Pass? && r3.Pass? && r4.Pass?;
    after := e.Checked();
  }
}
