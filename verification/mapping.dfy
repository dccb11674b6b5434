/**
 * The fixed lookup tables and the score/icon resolution of the server
 * (additive names, NOVA group names, grade colours and assessments, the
 * primary score, food icons).
 */
module Mapping {
  import opened Wrappers
  import opened Json
  import opened Text

  // ---------------------------------------------------------------- additives

  /** The display name of one additive code: the table's entry or "Unknown". */
  function AdditiveLabel(tag: string, table: map<string, string>): string {
    if tag in table then table[tag] else "Unknown"
  }

  /** `additive_name`: one display name per tag, in the tags' order. */
  function AdditiveName(tags: seq<string>, table: map<string, string>): (names: seq<string>)
    ensures |names| == |tags|
    ensures forall i :: 0 <= i < |tags| ==>
      (tags[i] in table ==> names[i] == table[tags[i]]) &&
      (tags[i] !in table ==> names[i] == "Unknown")
  {
    if |tags| == 0 then []
    else [AdditiveLabel(tags[0], table)] + AdditiveName(tags[1..], table)
  }

  /**
   * When no additive is itself called "Unknown", the placeholder marks
   * exactly the tags the table does not know.
   */
  lemma AdditiveNameUnknownExactly(tags: seq<string>, table: map<string, string>)
    requires "Unknown" !in table.Values
    ensures forall i :: 0 <= i < |tags| ==>
      (AdditiveName(tags, table)[i] == "Unknown" <==> tags[i] !in table)
  {
    var names := AdditiveName(tags, table);
    forall i | 0 <= i < |tags|
      ensures names[i] == "Unknown" <==> tags[i] !in table
    {
      if tags[i] in table {
        assert table[tags[i]] in table.Values;
      }
    }
  }

  /** Naming distributes over concatenation of tag lists. */
  lemma AdditiveNameAppend(a: seq<string>, b: seq<string>, table: map<string, string>)
    ensures AdditiveName(a + b, table) == AdditiveName(a, table) + AdditiveName(b, table)
  {
  }

  // --------------------------------------------------------------- NOVA group

  const NovaNames: map<int, string> := map[
    1 := "Unprocessed or minimally processed foods",
    2 := "Processed culinary ingredients",
    3 := "Processed foods",
    4 := "Ultra-processed food and drink products"
  ]

  /**
   * The integer a JSON value equals when used as a dict key: a whole number,
   * or a boolean (`True == 1`, `False == 0` in Python).  Strings, `None`,
   * lists and dicts never equal an integer key.
   */
  function IntKey(v: Value): Option<int> {
    match v
    case Num(n) => if n == n.Floor as real then Some(n.Floor) else None
    case Bool(b) => Some(if b then 1 else 0)
    case _ => None
  }

  /** A value Python can hash, and so look up as a dict key: no list, no dict. */
  predicate Hashable(v: Value) {
    !v.List? && !v.Dict?
  }

  /** `nova_name`: `dict.get` raises `TypeError` for an unhashable key. */
  function NovaName(group: Value): (r: Result<string, PyError>)
    ensures r.Failure? <==> !Hashable(group)
    ensures r.Failure? ==> r.error == TypeError
    ensures r.Success? ==> r.value == "Unknown" || r.value in NovaNames.Values
    ensures r.Success? ==> (r.value != "Unknown" <==> IntKey(group).Some? && 1 <= IntKey(group).value <= 4)
    ensures r.Success? && IntKey(group).Some? && IntKey(group).value in NovaNames ==>
      r.value == NovaNames[IntKey(group).value]
  {
    if !Hashable(group) then Failure(TypeError)
    else
      var k := IntKey(group);
      Success(if k.Some? && k.value in NovaNames then NovaNames[k.value] else "Unknown")
  }

  /** The group a NOVA description names; the inverse of the table. */
  function NovaGroupOf(name: string): (g: Option<int>)
    ensures g.Some? ==> g.value in NovaNames && NovaNames[g.value] == name
  {
    if name == NovaNames[1] then Some(1)
    else if name == NovaNames[2] then Some(2)
    else if name == NovaNames[3] then Some(3)
    else if name == NovaNames[4] then Some(4)
    else None
  }

  /** A description identifies its group: names are distinct and never "Unknown". */
  lemma NovaNameRoundTrip(group: Value)
    ensures NovaName(group).Success? ==>
      NovaGroupOf(NovaName(group).value) ==
        (if IntKey(group).Some? && 1 <= IntKey(group).value <= 4 then IntKey(group) else None)
  {
  }

  // ------------------------------------------------------ grade colour / label

  const ValidGrades: seq<string> := ["a", "b", "c", "d", "e"]

  const GradeColors: map<string, string> := map[
    "a" := "#8AC449",
    "b" := "#8FD0FF",
    "c" := "#FFD65A",
    "d" := "#F8A72C",
    "e" := "#DF5656"
  ]

  const Assessments: map<string, string> := map[
    "a" := "excellent",
    "b" := "good",
    "c" := "average",
    "d" := "poor",
    "e" := "very poor"
  ]

  /** `grade_color`: the colour of a grade, whatever its case; "gray" otherwise. */
  function GradeColor(grade: string): (color: string)
    ensures color == "gray" <==> Lower(grade) !in ValidGrades
    ensures Lower(grade) in ValidGrades ==> color == GradeColors[Lower(grade)]
  {
    var g := Lower(grade);
    if g in GradeColors then GradeColors[g] else "gray"
  }

  /**
   * `grade_color` applied to the value a record holds: `.lower()` exists only
   * on a string, so `None`, a number, a boolean, a list or a dict raises.
   */
  function GradeColorOf(v: Value): (r: Result<string, PyError>)
    ensures r.Success? <==> v.Str?
    ensures r.Failure? ==> r.error == AttributeError
    ensures r.Success? ==> (r.value == "gray" <==> Lower(v.s) !in ValidGrades)
    ensures r.Success? && Lower(v.s) in ValidGrades ==> r.value == GradeColors[Lower(v.s)]
  {
    match v
    case Str(s) => Success(GradeColor(s))
    case _ => Failure(AttributeError)
  }

  /** The grade a colour stands for; the inverse of the colour table. */
  function GradeOfColor(color: string): (grade: Option<string>)
    ensures grade.Some? ==> grade.value in GradeColors && GradeColors[grade.value] == color
  {
    if color == "#8AC449" then Some("a")
    else if color == "#8FD0FF" then Some("b")
    else if color == "#FFD65A" then Some("c")
    else if color == "#F8A72C" then Some("d")
    else if color == "#DF5656" then Some("e")
    else None
  }

  /** Grade colours are case-insensitive and tell the grade back. */
  lemma GradeColorCaseInsensitive(grade: string)
    ensures GradeColor(grade) == GradeColor(Lower(grade))
    ensures GradeOfColor(GradeColor(grade)) ==
      (if Lower(grade) in ValidGrades then Some(Lower(grade)) else None)
  {
    LowerIdempotent(grade);
  }

  /** The assessment of a lower-cased grade, "unknown" off the table. */
  function AssessmentOf(g: string): string {
    if g in Assessments then Assessments[g] else "unknown"
  }

  /**
   * `score_assessment`: a falsy value is "unknown"; a string is looked up
   * case-insensitively; any other truthy value raises, as `.lower()` does
   * not exist on it.
   */
  function ScoreAssessment(grade: Value): (r: Result<string, PyError>)
    ensures !Truthy(grade) ==> r == Success("unknown")
    ensures r.Failure? <==> Truthy(grade) && !grade.Str?
    ensures r.Failure? ==> r.error == AttributeError
    ensures grade.Str? ==>
      && r.Success?
      && (Lower(grade.s) in ValidGrades ==> r.value == Assessments[Lower(grade.s)])
      && (Lower(grade.s) !in ValidGrades ==> r.value == "unknown")
  {
    if !Truthy(grade) then Success("unknown")
    else match grade
      case Str(s) => Success(AssessmentOf(Lower(s)))
      case _ => Failure(AttributeError)
  }

  /** Assessments are case-insensitive, like colours. */
  lemma ScoreAssessmentCaseInsensitive(s: string)
    ensures ScoreAssessment(Str(s)) == ScoreAssessment(Str(Lower(s)))
  {
    LowerIdempotent(s);
  }

  // ------------------------------------------------------------ primary score

  datatype ScoreType = NutriScore | EcoScore

  /** `{grade, grade_color, assessment, score, type}`; `None` stands for JSON null. */
  datatype PrimaryScore = PrimaryScore(
    grade: Option<string>,
    gradeColor: string,
    assessment: string,
    score: Value,
    scoreType: Option<ScoreType>)

  const NoScore := PrimaryScore(None, "#757575", "Unknown", Null, None)

  /**
   * `str(product.get(key, "")).lower()` when it is one of the valid grades.
   * `str` of a value that is not a string ("None", "True", "3", "[...]",
   * "{...}") is never a single letter, so only a string can give a grade.
   */
  function GradeField(product: Fields, key: string): (g: Option<string>)
    ensures g.Some? ==> g.value in ValidGrades
    ensures var v := GetOr(product, key, Str(""));
      && (g.Some? <==> v.Str? && Lower(v.s) in ValidGrades)
      && (g.Some? ==> g.value == Lower(v.s))
  {
    match GetOr(product, key, Str(""))
    case Str(s) => if Lower(s) in ValidGrades then Some(Lower(s)) else None
    case _ => None
  }

  function Graded(g: string, score: Value, t: ScoreType): (r: PrimaryScore)
    requires g in ValidGrades
    ensures r.grade.Some? && r.grade.value in ["A", "B", "C", "D", "E"] && Lower(r.grade.value) == g
    ensures r.assessment in ["Excellent", "Good", "Average", "Poor", "Very Poor"]
  {
    ValidGradeCases(g);
    AssessmentTitles(g);
    PrimaryScore(Some(Upper(g)), GradeColor(g), Title(AssessmentOf(g)), score, Some(t))
  }

  /** The five grades upper-cased, and back. */
  lemma ValidGradeCases(g: string)
    requires g in ValidGrades
    ensures Upper(g) in ["A", "B", "C", "D", "E"] && Lower(Upper(g)) == g
  {
    assert |g| == 1 && 'a' <= g[0] <= 'e';
    assert Upper(g) == [UpperChar(g[0])];
  }

  /** The five assessment labels, title-cased. */
  lemma AssessmentTitles(g: string)
    requires g in ValidGrades
    ensures Title(AssessmentOf(g)) in ["Excellent", "Good", "Average", "Poor", "Very Poor"]
  {
    if g == "a" {
      assert Title("excellent") == "Excellent";
    } else if g == "b" {
      assert Title("good") == "Good";
    } else if g == "c" {
      assert Title("average") == "Average";
    } else if g == "d" {
      assert Title("poor") == "Poor";
    } else {
      assert Title("very poor") == "Very Poor";
    }
  }

  /** `primary_score`: the Nutri-Score grade first, then the Eco-Score grade, else no score. */
  function PrimaryScoreOf(product: Fields): (r: PrimaryScore)
    ensures r.grade.Some? <==> r.scoreType.Some?
    ensures r.grade.Some? ==> r.grade.value in ["A", "B", "C", "D", "E"]
    ensures r.grade.None? ==> r == NoScore
    ensures GradeField(product, "nutriscore_grade").Some? ==>
      && r.scoreType == Some(NutriScore)
      && r.grade == Some(Upper(GradeField(product, "nutriscore_grade").value))
      && r.score == GetOr(product, "nutriscore_score", Null)
    ensures GradeField(product, "nutriscore_grade").None? && GradeField(product, "ecoscore_grade").Some? ==>
      && r.scoreType == Some(EcoScore)
      && r.grade == Some(Upper(GradeField(product, "ecoscore_grade").value))
      && r.score == GetOr(product, "ecoscore_score", Null)
    ensures r.grade.None? <==>
      GradeField(product, "nutriscore_grade").None? && GradeField(product, "ecoscore_grade").None?
  {
    match GradeField(product, "nutriscore_grade")
    case Some(g) => Graded(g, GetOr(product, "nutriscore_score", Null), NutriScore)
    case None =>
      match GradeField(product, "ecoscore_grade")
      case Some(g) => Graded(g, GetOr(product, "ecoscore_score", Null), EcoScore)
      case None => NoScore
  }

  /**
   * The record is self-consistent: its colour and assessment are those of
   * its own grade, and the colour names the grade back.
   */
  lemma PrimaryScoreConsistent(product: Fields)
    ensures var r := PrimaryScoreOf(product);
      r.grade.Some? ==>
        && r.gradeColor == GradeColor(r.grade.value)
        && r.gradeColor == GradeColor(Lower(r.grade.value))
        && GradeOfColor(r.gradeColor) == Some(Lower(r.grade.value))
        && r.assessment == Title(ScoreAssessment(Str(r.grade.value)).value)
        && r.assessment in ["Excellent", "Good", "Average", "Poor", "Very Poor"]
  {
    var r := PrimaryScoreOf(product);
    if r.grade.Some? {
      var g := Lower(r.grade.value);
      assert g in ValidGrades;
      GradeColorCaseInsensitive(r.grade.value);
      assert r.gradeColor == GradeColor(g);
      assert r.assessment == Title(AssessmentOf(g));
    }
  }

  /** A valid Nutri-Score grade wins whatever the Eco-Score grade is. */
  lemma NutriScoreWins(product: Fields, eco: Value)
    requires GradeField(product, "nutriscore_grade").Some?
    ensures PrimaryScoreOf(SetField(product, "ecoscore_grade", eco)) == PrimaryScoreOf(product)
  {
    var p' := SetField(product, "ecoscore_grade", eco);
    assert GetOr(p', "nutriscore_grade", Str("")) == GetOr(product, "nutriscore_grade", Str(""));
    assert GetOr(p', "nutriscore_score", Null) == GetOr(product, "nutriscore_score", Null);
  }

  // ---------------------------------------------------------------- food icon

  /** Category name to the food names it holds, in the file's order. */
  type CategoryMap = seq<(string, seq<string>)>

  /**
   * `food_icon`: the slug of the first category listing `name`, else the
   * slug of `name` itself.
   */
  function FoodIcon(name: string, categories: CategoryMap): (icon: string)
    ensures forall i ::
      (&& 0 <= i < |categories|
       && name in categories[i].1
       && (forall j :: 0 <= j < i ==> name !in categories[j].1))
      ==> icon == Slug(categories[i].0)
    ensures (forall i :: 0 <= i < |categories| ==> name !in categories[i].1) ==> icon == Slug(name)
  {
    if |categories| == 0 then Slug(name)
    else if name in categories[0].1 then Slug(categories[0].0)
    else FoodIcon(name, categories[1..])
  }

  /** Every icon is a slug, and slugging it again changes nothing. */
  lemma {:induction false} FoodIconIsSlug(name: string, categories: CategoryMap)
    ensures IsSlug(FoodIcon(name, categories))
    ensures Slug(FoodIcon(name, categories)) == FoodIcon(name, categories)
  {
    if |categories| == 0 {
      SlugIdempotent(name);
    } else if name in categories[0].1 {
      SlugIdempotent(categories[0].0);
    } else {
      FoodIconIsSlug(name, categories[1..]);
    }
  }
}
