/**
 * The `nutriscore_assessment` field both search routes add to a product:
 * the route passes the numeric Nutri-Score to the grade-based assessment.
 */
module Search {
  import opened Wrappers
  import opened Json
  import opened Text
  import opened Mapping

  /** `score_assessment(v).title()`, raising when `score_assessment` raises. */
  function TitledAssessment(v: Value): Result<string, PyError> {
    var a :- ScoreAssessment(v);
    Success(Title(a))
  }

  /** The field as the routes compute it, from `nutriscore_score`. */
  function NutriscoreAssessmentAsWritten(product: Fields): (r: Result<string, PyError>)
    ensures GetOr(product, "nutriscore_score", Null).Num? ==>
      (r.Failure? <==> GetOr(product, "nutriscore_score", Null) != Num(0.0))
  {
    TitledAssessment(GetOr(product, "nutriscore_score", Null))
  }

  /**
   * A product graded "a" with a Nutri-Score of 3 makes the field raise,
   * which turns the whole search response into a 500; with a score of 0
   * the field reads "Unknown" despite the grade.
   */
  lemma AssessmentFromScoreRaises()
    ensures NutriscoreAssessmentAsWritten(
      [("nutriscore_grade", Str("a")), ("nutriscore_score", Num(3.0))]) == Failure(AttributeError)
    ensures NutriscoreAssessmentAsWritten(
      [("nutriscore_grade", Str("a")), ("nutriscore_score", Num(0.0))]) == Success("Unknown")
  {
    var p3: Fields := [("nutriscore_grade", Str("a")), ("nutriscore_score", Num(3.0))];
    var p0: Fields := [("nutriscore_grade", Str("a")), ("nutriscore_score", Num(0.0))];
    assert GetOr(p3, "nutriscore_score", Null) == Num(3.0);
    assert GetOr(p0, "nutriscore_score", Null) == Num(0.0);
    assert Title("unknown") == "Unknown";
  }

  /** The field computed from the grade, as the table it looks up expects. */
  function NutriscoreAssessment(product: Fields): (r: Result<string, PyError>)
    ensures GetOr(product, "nutriscore_grade", Null).Str? ==> r.Success?
    ensures GradeField(product, "nutriscore_grade").Some? ==>
      r == Success(PrimaryScoreOf(product).assessment)
    ensures !HasKey(product, "nutriscore_grade") ==> r == Success("Unknown")
  {
    assert Title("unknown") == "Unknown";
    TitledAssessment(GetOr(product, "nutriscore_grade", Null))
  }
}
