/**
 * The prompt builder of the stage 3 block. It picks the educational template when
 * `form_data['lesson_type']` is `'Educational'` and the hands-on template otherwise,
 * then splices the blueprint and the four methodology answers into it. An f-string is
 * modelled as constant fragments interleaved with its holes. The templates' prose is
 * abridged into those fragments; the order of fragments and holes is the source's.
 */
module Prompt {
  import opened Wrappers
  import opened Text
  import opened FormData

  /** The exceptions a template's subscripts `data['methodology'][key]` can raise. */
  datatype PromptError =
    | KeyMissing(key: string)   // KeyError: the key is not in the dictionary
    | NotSubscriptable          // TypeError: `data['methodology']` is not a dictionary

  // Both templates open with the brief, the lesson kind and the blueprint heading.
  const Brief := "Instructional designer brief: "
  const BlueprintHeading := "\nProgram Blueprint:\n---\n"
  const EduOpening := Brief + "EDUCATIONAL video lesson." + BlueprintHeading
  const HandsOnOpening := Brief + "HANDS-ON tutorial." + BlueprintHeading

  /** The educational template: the text before, between and after its five holes. */
  const EduFragments := [
    EduOpening,
    "\n---\nLesson methodology:\n* Core Question to Answer: ",
    "\n* Key Teaching Points: ",
    "\n* Core Analogy: ",
    "\n* Actionable Tip: ",
    "\nTask: a lesson title, a lesson description, the targeted concepts and a four-part video script outline (hook, what and why, main content, summary and call to action), in Markdown.\n"
  ]

  /** The hands-on template: the text before, between and after its five holes. */
  const HandsOnFragments := [
    HandsOnOpening,
    "\n---\nLesson methodology:\n* Specific Outcome: ",
    "\n* Critical Steps: ",
    "\n* Common Mistake to Avoid: ",
    "\n* Required Tools: ",
    "\nTask: a lesson title, a lesson description, the targeted zones and a three-part short video series plan (introduction, core exercises, conclusion), in Markdown.\n"
  ]

  /** Stands for Python's rendering of a dictionary, which depends on insertion order. */
  const DictText := "{...}"

  /** An f-string: `fragments[0]`, `holes[0]`, `fragments[1]`, ..., `fragments[|holes|]`. */
  function Fill(fragments: seq<string>, holes: seq<string>): (filled: string)
    requires |fragments| == |holes| + 1
    decreases holes
  {
    if holes == [] then fragments[0]
    else fragments[0] + holes[0] + Fill(fragments[1..], holes[1..])
  }

  function DecimalDigits(n: nat): (digits: string)
    decreases n
  {
    var d := ['0' + (n % 10) as char];
    if n < 10 then d else DecimalDigits(n / 10) + d
  }

  /** How an f-string hole renders `data.get(key)`: `None` when the key is absent. */
  function Display(v: Option<Value>): (rendered: string) {
    match v
    case None => "None"
    case Some(Str(s)) => s
    case Some(Int(n)) => if n < 0 then "-" + DecimalDigits(-n) else DecimalDigits(n)
    case Some(Dict(_)) => DictText
  }

  function Get(data: Data, key: string): (v: Option<Value>) {
    if key in data then Some(data[key]) else None
  }

  /** The test `data.get('lesson_type') == 'Educational'` that selects the template. */
  predicate IsEducational(data: Data) {
    Get(data, LessonTypeKey) == Some(Str(Educational))
  }

  /** The methodology keys the selected template reads, in the order it reads them. */
  function TemplateKeys(data: Data): (keys: seq<string>)
    ensures |keys| == 4
  {
    MethodologyKeys(IsEducational(data))
  }

  function TemplateFragments(data: Data): (fragments: seq<string>)
    ensures |fragments| == 6
  {
    if IsEducational(data) then EduFragments else HandsOnFragments
  }

  /**
   * `data['methodology'][k]` for each key `k` in turn: the answers, or the exception of
   * the first subscript that fails.
   */
  function Answers(data: Data, keys: seq<string>): (r: Result<seq<string>, PromptError>)
    ensures MethodologyKey !in data && keys != [] ==> r == Err(KeyMissing(MethodologyKey))
    ensures MethodologyKey in data && !data[MethodologyKey].Dict? && keys != [] ==> r == Err(NotSubscriptable)
    ensures r.Ok? <==> keys == [] || (MethodologyKey in data && data[MethodologyKey].Dict? &&
                                      forall i :: 0 <= i < |keys| ==> keys[i] in data[MethodologyKey].m)
    ensures r.Ok? ==> |r.value| == |keys| &&
                      forall i :: 0 <= i < |keys| ==> r.value[i] == data[MethodologyKey].m[keys[i]]
    ensures r.Err? && MethodologyKey in data && data[MethodologyKey].Dict? ==>
              exists i :: 0 <= i < |keys| && r.error == KeyMissing(keys[i]) &&
                          keys[i] !in data[MethodologyKey].m &&
                          forall j :: 0 <= j < i ==> keys[j] in data[MethodologyKey].m
    decreases keys
  {
    if keys == [] then
      Ok([])
    else
      var first :-
        if MethodologyKey !in data then
          Err(KeyMissing(MethodologyKey))
        else
          match data[MethodologyKey]
          case Dict(m) => if keys[0] in m then Ok(m[keys[0]]) else Err(KeyMissing(keys[0]))
          case _ => Err(NotSubscriptable);
      var rest :- Answers(data, keys[1..]);
      Ok([first] + rest)
  }

  /**
   * The stage 3 prompt assembly, or the exception one of its subscripts raises. The
   * prompt is built exactly when the methodology dictionary holds the four keys the
   * selected template reads; otherwise the first failing subscript's exception is raised.
   */
  function BuildPrompt(data: Data): (r: Result<string, PromptError>)
    ensures r.Ok? <==>
              MethodologyKey in data && data[MethodologyKey].Dict? &&
              forall i :: 0 <= i < 4 ==> TemplateKeys(data)[i] in data[MethodologyKey].m
    ensures MethodologyKey !in data ==> r == Err(KeyMissing(MethodologyKey))
    ensures MethodologyKey in data && !data[MethodologyKey].Dict? ==> r == Err(NotSubscriptable)
    ensures r.Err? && MethodologyKey in data && data[MethodologyKey].Dict? ==>
              exists i :: 0 <= i < 4 && r.error == KeyMissing(TemplateKeys(data)[i]) &&
                          TemplateKeys(data)[i] !in data[MethodologyKey].m &&
                          forall j :: 0 <= j < i ==> TemplateKeys(data)[j] in data[MethodologyKey].m
  {
    var blueprint := Display(Get(data, BlueprintKey));
    var answers :- Answers(data, TemplateKeys(data));
    Ok(Fill(TemplateFragments(data), [blueprint] + answers))
  }

  predicate StartsWith(s: string, prefix: string) {
    |prefix| <= |s| && s[..|prefix|] == prefix
  }

  /** Every hole occurs verbatim in the filled template, which starts with its first fragment. */
  lemma {:induction false} FillEmbeds(fragments: seq<string>, holes: seq<string>)
    requires |fragments| == |holes| + 1
    ensures StartsWith(Fill(fragments, holes), fragments[0])
    ensures forall i :: 0 <= i < |holes| ==> Occurs(holes[i], Fill(fragments, holes))
    decreases holes
  {
    var p := Fill(fragments, holes);
    if holes != [] {
      var rest := Fill(fragments[1..], holes[1..]);
      assert p == fragments[0] + holes[0] + rest;
      assert p[..|fragments[0]|] == fragments[0];
      OccursInMiddle(fragments[0], holes[0], rest);
      FillEmbeds(fragments[1..], holes[1..]);
      forall i | 1 <= i < |holes|
        ensures Occurs(holes[i], p)
      {
        assert holes[i] == holes[1..][i - 1];
        OccursSuffix(fragments[0] + holes[0], holes[i], rest);
      }
    }
  }

  lemma OccursSuffix(pre: string, x: string, s: string)
    requires Occurs(x, s)
    ensures Occurs(x, pre + s)
  {
    var i :| OccursAt(x, s, i);
    assert (pre + s)[|pre| + i..|pre| + i + |x|] == s[i..i + |x|];
    assert OccursAt(x, pre + s, |pre| + i);
  }

  /** The character at which the two templates first differ. */
  lemma OpeningsDiffer(p: string)
    ensures StartsWith(p, EduOpening) ==> p[|Brief|] == 'E'
    ensures StartsWith(p, HandsOnOpening) ==> p[|Brief|] == 'H'
  {
    if StartsWith(p, EduOpening) {
      assert p[|Brief|] == p[..|EduOpening|][|Brief|];
    }
    if StartsWith(p, HandsOnOpening) {
      assert p[|Brief|] == p[..|HandsOnOpening|][|Brief|];
    }
  }

  /**
   * The educational template is used exactly when the lesson type is `'Educational'`;
   * any other lesson type, or none, gets the hands-on template. A built prompt is never
   * empty and holds the blueprint and its template's four answers verbatim.
   */
  lemma PromptEmbedsAnswers(data: Data)
    requires BuildPrompt(data).Ok?
    ensures StartsWith(BuildPrompt(data).value, EduOpening) <==> IsEducational(data)
    ensures StartsWith(BuildPrompt(data).value, HandsOnOpening) <==> !IsEducational(data)
    ensures |BuildPrompt(data).value| > 0
    ensures Occurs(Display(Get(data, BlueprintKey)), BuildPrompt(data).value)
    ensures forall i :: 0 <= i < 4 ==>
              Occurs(data[MethodologyKey].m[TemplateKeys(data)[i]], BuildPrompt(data).value)
  {
    var p := BuildPrompt(data).value;
    var answers := Answers(data, TemplateKeys(data)).value;
    var holes := [Display(Get(data, BlueprintKey))] + answers;
    FillEmbeds(TemplateFragments(data), holes);
    OpeningsDiffer(p);
    assert holes[0] == Display(Get(data, BlueprintKey));
    forall i | 0 <= i < 4
      ensures Occurs(data[MethodologyKey].m[TemplateKeys(data)[i]], p)
    {
      assert holes[i + 1] == answers[i];
    }
  }

  /** No filling of the educational template equals a filling of the hands-on one. */
  lemma TemplatesNeverCoincide(edu: seq<string>, handsOn: seq<string>)
    requires |edu| == 5 && |handsOn| == 5
    ensures Fill(EduFragments, edu) != Fill(HandsOnFragments, handsOn)
  {
    FillEmbeds(EduFragments, edu);
    FillEmbeds(HandsOnFragments, handsOn);
    OpeningsDiffer(Fill(EduFragments, edu));
    OpeningsDiffer(Fill(HandsOnFragments, handsOn));
  }
}
