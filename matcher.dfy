/**
 * The keyword matcher `find_problem_recommendation`: a first-match search of the
 * recommendation table for a row whose keyword, lower-cased, is a substring of the
 * lower-cased user text.
 */
module Matcher {
  import opened Wrappers
  import opened Text

  /** One row of the recommendation table: its `problem_keyword` cell and its other cells. */
  datatype Row = Row(problemKeyword: string, cells: map<string, string>)

  /** The user's problem text as Python sees it: a string, or some value that is not one. */
  datatype ProblemText = PyStr(s: string) | NotText

  /** Row `row` matches the already lower-cased text `lowered`. */
  predicate KeywordIn(row: Row, lowered: string) {
    Contains(Lower(row.problemKeyword), lowered)
  }

  /** The index of the first row, in table order, that matches `lowered`. */
  function FirstMatch(rows: seq<Row>, lowered: string): (r: Option<nat>)
    ensures r.Some? ==> r.value < |rows| && KeywordIn(rows[r.value], lowered)
    ensures r.Some? ==> forall j :: 0 <= j < r.value ==> !KeywordIn(rows[j], lowered)
    ensures r.None? <==> forall j :: 0 <= j < |rows| ==> !KeywordIn(rows[j], lowered)
  {
    if rows == [] then
      None
    else if KeywordIn(rows[0], lowered) then
      Some(0)
    else
      match FirstMatch(rows[1..], lowered)
      case None => None
      case Some(i) => Some(i + 1)
  }

  /**
   * What `find_problem_recommendation(text, table)` returns: None for an empty or
   * non-string text; otherwise the first row, in table order, whose lower-cased keyword
   * is a substring of the lower-cased text, and None exactly when no row is.
   */
  function Recommendation(text: ProblemText, rows: seq<Row>): (r: Option<Row>)
    ensures text.NotText? || text.s == [] ==> r.None?
    ensures r.Some? ==> exists i :: 0 <= i < |rows| && rows[i] == r.value &&
                          Occurs(Lower(rows[i].problemKeyword), Lower(text.s)) &&
                          forall j :: 0 <= j < i ==> !Occurs(Lower(rows[j].problemKeyword), Lower(text.s))
    ensures text.PyStr? && text.s != [] && r.None? ==>
              forall j :: 0 <= j < |rows| ==> !Occurs(Lower(rows[j].problemKeyword), Lower(text.s))
  {
    if text.NotText? || text.s == [] then
      None
    else
      match FirstMatch(rows, Lower(text.s))
      case None => None
      case Some(i) => Some(rows[i])
  }

  /** The search loop of `find_problem_recommendation`, which returns at the first match. */
  method FindProblemRecommendation(text: ProblemText, rows: seq<Row>) returns (r: Option<Row>)
    ensures r == Recommendation(text, rows)
  {
    if text.NotText? || text.s == [] {
      return None;
    }
    var lowered := Lower(text.s);
    for i := 0 to |rows|
      invariant forall j :: 0 <= j < i ==> !KeywordIn(rows[j], lowered)
    {
      if Contains(Lower(rows[i].problemKeyword), lowered) {
        assert FirstMatch(rows, lowered) == Some(i);
        return Some(rows[i]);
      }
    }
    assert FirstMatch(rows, lowered) == None;
    return None;
  }

  /** The match ignores the case of the user's text. */
  lemma RecommendationIgnoresTextCase(t: string, rows: seq<Row>)
    ensures Recommendation(PyStr(t), rows) == Recommendation(PyStr(Lower(t)), rows)
  {
    LowerIdempotent(t);
    LowerEmpty(t);
  }

  /** A row whose keyword is empty matches every text, the empty one included. */
  lemma EmptyKeywordMatchesAnyText(row: Row, t: string)
    requires row.problemKeyword == []
    ensures KeywordIn(row, Lower(t))
  {
    EmptyOccursEverywhere(Lower(t));
  }

  /** A row that matches, with no match before it, is the one the search returns. */
  lemma FirstMatchIsFirst(rows: seq<Row>, lowered: string, i: nat)
    requires i < |rows| && KeywordIn(rows[i], lowered)
    requires forall j :: 0 <= j < i ==> !KeywordIn(rows[j], lowered)
    ensures FirstMatch(rows, lowered) == Some(i)
  {
  }

  /** Rows appended after a match do not change which row is returned. */
  lemma FirstMatchStableUnderAppend(rows: seq<Row>, more: seq<Row>, lowered: string)
    requires FirstMatch(rows, lowered).Some?
    ensures FirstMatch(rows + more, lowered) == FirstMatch(rows, lowered)
  {
    var i := FirstMatch(rows, lowered).value;
    var all := rows + more;
    assert forall j :: 0 <= j <= i ==> all[j] == rows[j];
    FirstMatchIsFirst(all, lowered, i);
  }
}
