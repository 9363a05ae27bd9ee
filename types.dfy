/** The comparators of types.go and their descriptions: each comparator has a
    numerical wording (index 0) and a temporal one (index 1). */
module Comparators {
  import opened Wrappers

  type Comparator = string

  const Equals: Comparator := "="
  const NotEqual: Comparator := "!="
  const LessThan: Comparator := "<"
  const GreaterThan: Comparator := ">"
  const LessThanOrEqual: Comparator := "<="
  const GreaterThanOrEqual: Comparator := ">="

  /** `ComparatorDescription`: the index into a comparator's descriptions. */
  const Numerical: nat := 0
  const Temporal: nat := 1

  /** `comparatorDescriptors`. */
  function Descriptors(): map<Comparator, seq<string>> {
    map[
      Equals := ["equal", "the same as"],
      NotEqual := ["not equal", "not the same as"],
      LessThan := ["less than", "before"],
      GreaterThan := ["greater than", "after"],
      LessThanOrEqual := ["less than or equal", "at most"],
      GreaterThanOrEqual := ["greater than or equal", "at least"]]
  }

  /** `comparatorDescriptors[c][d]`: `None` where the source indexes a missing
      entry (Go's nil slice) and panics. */
  function Describe(c: Comparator, d: nat): (r: Option<string>)
    ensures r.Some? <==> c in Descriptors() && d < |Descriptors()[c]|
    ensures r.Some? ==> r.value == Descriptors()[c][d]
  {
    var table := Descriptors();
    if c in table && d < |table[c]| then Some(table[c][d]) else None
  }

  /** `NumericDescription`. */
  function NumericDescription(c: Comparator): (r: Option<string>)
    ensures r.Some? <==> c in Descriptors()
    ensures r.Some? ==> r.value == Descriptors()[c][0]
  {
    Describe(c, Numerical)
  }

  /** `TemporalDescription`. */
  function TemporalDescription(c: Comparator): (r: Option<string>)
    ensures r.Some? <==> c in Descriptors()
    ensures r.Some? ==> r.value == Descriptors()[c][1]
  {
    Describe(c, Temporal)
  }

  /** The six comparators are six distinct symbols, and they are exactly the
      comparators the table describes. */
  lemma SixDistinctComparators()
    ensures |{Equals, NotEqual, LessThan, GreaterThan, LessThanOrEqual, GreaterThanOrEqual}| == 6
    ensures Descriptors().Keys == {Equals, NotEqual, LessThan, GreaterThan, LessThanOrEqual, GreaterThanOrEqual}
  {
    var s := {Equals, NotEqual, LessThan, GreaterThan, LessThanOrEqual, GreaterThanOrEqual};
    assert Equals != NotEqual && LessThan != GreaterThan;
    assert s == {"="} + {"!="} + {"<"} + {">"} + {"<="} + {">="};
  }

  /** Every comparator of the table has both descriptions, and only those; any
      other string has neither. */
  lemma TwoDescriptionsEach(c: Comparator)
    ensures c in Descriptors() <==> NumericDescription(c).Some? && TemporalDescription(c).Some?
    ensures c in Descriptors() ==> |Descriptors()[c]| == 2
    ensures Describe(c, 2).None?
  {
  }

  /** The wordings the rule messages rely on. */
  lemma KnownDescriptions()
    ensures NumericDescription(LessThan) == Some("less than")
    ensures TemporalDescription(LessThan) == Some("before")
    ensures NumericDescription(GreaterThanOrEqual) == Some("greater than or equal")
    ensures TemporalDescription(GreaterThanOrEqual) == Some("at least")
    ensures NumericDescription(Equals) == Some("equal")
    ensures TemporalDescription(Equals) == Some("the same as")
  {
  }
}
