/**
 * The four-stage wizard. A session holds `stage` (0 profile, 1 blueprint, 2 lesson core,
 * 3 lesson plan) and `form_data`. Streamlit re-runs the script on every interaction and
 * renders only the block of the current stage, and each block ends with `st.rerun()`
 * after it moves the stage, so each user event is handled by exactly one block. The
 * events are modelled as pure step functions on a `State` and as methods of a `Session`
 * class that update its two fields in place; each method is proved to follow its step
 * function.
 */
module Wizard {
  import opened Wrappers
  import opened Text
  import opened FormData
  import opened Prompt

  datatype State = State(stage: int, formData: Data)

  /** The session as first created: stage 0, empty form data. */
  const Initial := State(0, map[])

  /** One user event: a button of the block that is currently rendered. */
  datatype Event =
    | ProfileSubmitted(goalType: Option<string>, pick: LessonPick)
    | BlueprintSubmitted(answer: string, blueprint: string)
    | EducationalSubmitted(coreQuestion: string, teachingPoints: string, analogy: string, actionableTip: string)
    | HandsOnSubmitted(outcome: string, steps: string, mistake: string, tools: string)
    | CreateAnotherLesson

  // ---------------------------------------------------------------------------------
  // What each stage stores, and the invariant the wizard keeps.
  // ---------------------------------------------------------------------------------

  /** Stage 0 stored a non-empty goal type, and a lesson number in 1..12 exactly for the 12-lesson option. */
  predicate ProfileStored(d: Data) {
    GoalTypeKey in d && d[GoalTypeKey].Str? && Filled(d[GoalTypeKey].s) &&
    (LessonNumberKey in d <==> d[GoalTypeKey].s == ProgramLesson) &&
    (LessonNumberKey in d ==> d[LessonNumberKey].Int? && 1 <= d[LessonNumberKey].n <= 12)
  }

  /** Stage 1 stored a non-empty blueprint text. */
  predicate BlueprintStored(d: Data) {
    BlueprintKey in d && d[BlueprintKey].Str? && Filled(d[BlueprintKey].s)
  }

  /** Stage 2 stored a lesson type and a methodology with exactly that type's four keys, all answered. */
  predicate LessonCoreStored(d: Data) {
    LessonTypeKey in d && MethodologyKey in d && d[MethodologyKey].Dict? &&
    (d[LessonTypeKey] == Str(Educational) || d[LessonTypeKey] == Str(HandsOn)) &&
    var keys := MethodologyKeys(d[LessonTypeKey] == Str(Educational));
    var m := d[MethodologyKey].m;
    m.Keys == {keys[0], keys[1], keys[2], keys[3]} &&
    forall k :: k in m ==> Filled(m[k])
  }

  /** The keys a session at the given stage may hold. */
  function KeysUpTo(stage: int): (keys: set<string>) {
    (if stage >= 1 then {GoalTypeKey, LessonNumberKey} else {}) +
    (if stage >= 2 then {BlueprintKey} else {}) +
    (if stage >= 3 then {LessonTypeKey, MethodologyKey} else {})
  }

  /** The invariant of the wizard: the stage is 0..3, and form_data holds what the stages passed so far stored, and nothing else. */
  predicate WellFormed(s: State) {
    0 <= s.stage <= 3 &&
    s.formData.Keys <= KeysUpTo(s.stage) &&
    (s.stage >= 1 ==> ProfileStored(s.formData)) &&
    (s.stage >= 2 ==> BlueprintStored(s.formData)) &&
    (s.stage >= 3 ==> LessonCoreStored(s.formData))
  }

  // ---------------------------------------------------------------------------------
  // The events, as functions of the state.
  // ---------------------------------------------------------------------------------

  /**
   * "Next Step" of stage 0. An empty or missing goal type changes nothing; otherwise
   * the goal type is stored, the lesson number too for the 12-lesson option, and the
   * wizard moves to stage 1.
   */
  function ProfileStep(s: State, goalType: Option<string>, pick: LessonPick): (t: State)
    ensures t.stage == 1 <==> s.stage == 1 || (s.stage == 0 && goalType.Some? && Filled(goalType.value))
    ensures !(s.stage == 0 && goalType.Some? && Filled(goalType.value)) ==> t == s
    ensures s.stage == 0 && goalType.Some? && Filled(goalType.value) ==>
              var g := goalType.value;
              t.formData.Keys == s.formData.Keys + {GoalTypeKey} + (if g == ProgramLesson then {LessonNumberKey} else {}) &&
              t.formData[GoalTypeKey] == Str(g) &&
              (g == ProgramLesson ==> t.formData[LessonNumberKey] == Int(pick) && 1 <= pick <= 12) &&
              forall k :: k in s.formData && k != GoalTypeKey && (k != LessonNumberKey || g != ProgramLesson) ==>
                            t.formData[k] == s.formData[k]
  {
    if s.stage != 0 || goalType.None? || !Filled(goalType.value) then
      s
    else
      var lessonNumber := if goalType.value == ProgramLesson then Some(pick) else None;
      var d := s.formData[GoalTypeKey := Str(goalType.value)];
      var d' := if lessonNumber.Some? && lessonNumber.value != 0 then d[LessonNumberKey := Int(lessonNumber.value)] else d;
      State(1, d')
  }

  /**
   * "Next Step" of stage 1. Only the answer "Yes, I have it" with a non-empty blueprint
   * moves to stage 2, storing the exact text; the "No" answer shows no button at all.
   */
  function BlueprintStep(s: State, answer: string, blueprint: string): (t: State)
    ensures t.stage == 2 <==> s.stage == 2 || (s.stage == 1 && answer == HaveBlueprint && Filled(blueprint))
    ensures !(s.stage == 1 && answer == HaveBlueprint && Filled(blueprint)) ==> t == s
    ensures s.stage == 1 && answer == HaveBlueprint && Filled(blueprint) ==>
              t.formData == s.formData[BlueprintKey := Str(blueprint)] &&
              t.formData.Keys == s.formData.Keys + {BlueprintKey}
  {
    if s.stage == 1 && answer == HaveBlueprint then
      if !Filled(blueprint) then s
      else State(2, s.formData[BlueprintKey := Str(blueprint)])
    else
      s
  }

  /**
   * "Generate Lesson Structure" of stage 2, for the educational or the hands-on form.
   * Only when all four answers are non-empty does it store the lesson type and the
   * methodology dictionary and move to stage 3; other keys keep their values.
   */
  function LessonCoreStep(s: State, educational: bool, q1: string, q2: string, q3: string, q4: string): (t: State)
    ensures t.stage == 3 <==> s.stage == 3 || (s.stage == 2 && Filled(q1) && Filled(q2) && Filled(q3) && Filled(q4))
    ensures !(s.stage == 2 && Filled(q1) && Filled(q2) && Filled(q3) && Filled(q4)) ==> t == s
    ensures s.stage == 2 && Filled(q1) && Filled(q2) && Filled(q3) && Filled(q4) ==>
              var keys := MethodologyKeys(educational);
              t.formData.Keys == s.formData.Keys + {LessonTypeKey, MethodologyKey} &&
              t.formData[LessonTypeKey] == Str(LessonTypeTag(educational)) &&
              t.formData[MethodologyKey].Dict? &&
              t.formData[MethodologyKey].m.Keys == {keys[0], keys[1], keys[2], keys[3]} &&
              t.formData[MethodologyKey].m[keys[0]] == q1 && t.formData[MethodologyKey].m[keys[1]] == q2 &&
              t.formData[MethodologyKey].m[keys[2]] == q3 && t.formData[MethodologyKey].m[keys[3]] == q4 &&
              forall k :: k in s.formData && k != LessonTypeKey && k != MethodologyKey ==> t.formData[k] == s.formData[k]
  {
    if s.stage != 2 || !(Filled(q1) && Filled(q2) && Filled(q3) && Filled(q4)) then
      s
    else
      var methodology := Methodology(MethodologyKeys(educational), q1, q2, q3, q4);
      State(3, s.formData[LessonTypeKey := Str(LessonTypeTag(educational))][MethodologyKey := Dict(methodology)])
  }

  /** "Create Another Lesson", a button of stage 3 only: back to the initial session. */
  function ResetStep(s: State): (t: State)
    ensures s.stage == 3 ==> t.stage == 0 && t.formData == map[]
    ensures s.stage != 3 ==> t == s
  {
    if s.stage == 3 then State(0, map[]) else s
  }

  /** The stage 2 radio: the educational form for its option, the hands-on form for every other choice. */
  function LessonCoreEvent(choice: string, q1: string, q2: string, q3: string, q4: string): (e: Event)
    ensures e.EducationalSubmitted? <==> choice == EducationalOption
    ensures e.HandsOnSubmitted? <==> choice != EducationalOption
    ensures e.EducationalSubmitted? ==> e == EducationalSubmitted(q1, q2, q3, q4)
    ensures e.HandsOnSubmitted? ==> e == HandsOnSubmitted(q1, q2, q3, q4)
  {
    if choice == EducationalOption then EducationalSubmitted(q1, q2, q3, q4)
    else HandsOnSubmitted(q1, q2, q3, q4)
  }

  function Step(s: State, e: Event): (t: State) {
    match e
    case ProfileSubmitted(g, pick) => ProfileStep(s, g, pick)
    case BlueprintSubmitted(answer, blueprint) => BlueprintStep(s, answer, blueprint)
    case EducationalSubmitted(q1, q2, q3, q4) => LessonCoreStep(s, true, q1, q2, q3, q4)
    case HandsOnSubmitted(q1, q2, q3, q4) => LessonCoreStep(s, false, q1, q2, q3, q4)
    case CreateAnotherLesson => ResetStep(s)
  }

  /** The state after a sequence of events. */
  function Run(s: State, events: seq<Event>): (t: State)
    decreases |events|
  {
    if events == [] then s else Run(Step(s, events[0]), events[1..])
  }

  // ---------------------------------------------------------------------------------
  // Properties of the state machine.
  // ---------------------------------------------------------------------------------

  /** Every event keeps the wizard's invariant. */
  lemma StepKeepsWellFormed(s: State, e: Event)
    requires WellFormed(s)
    ensures WellFormed(Step(s, e))
  {
    var t := Step(s, e);
    if t.stage != s.stage && !e.CreateAnotherLesson? {
      if e.EducationalSubmitted? || e.HandsOnSubmitted? {
        var d := t.formData;
        assert d[LessonTypeKey] == Str(Educational) <==> e.EducationalSubmitted?;
        assert forall k :: k in s.formData ==> k in d && d[k] == s.formData[k];
        assert ProfileStored(d) && BlueprintStored(d);
      }
    }
  }

  /**
   * An event either changes nothing, or moves the stage up by exactly one and keeps
   * every entry already stored, or is "Create Another Lesson" at stage 3, which yields
   * the initial session. No stage is skipped, and reset is the only backward move.
   */
  lemma StepMovesOneStage(s: State, e: Event)
    requires WellFormed(s)
    ensures var t := Step(s, e);
            t == s ||
            (!e.CreateAnotherLesson? && t.stage == s.stage + 1 &&
             forall k :: k in s.formData ==> k in t.formData && t.formData[k] == s.formData[k]) ||
            (e.CreateAnotherLesson? && s.stage == 3 && t == Initial)
  {
  }

  /** The invariant holds after any sequence of events from a well-formed session. */
  lemma {:induction false} RunKeepsWellFormed(s: State, events: seq<Event>)
    requires WellFormed(s)
    ensures WellFormed(Run(s, events))
    decreases |events|
  {
    if events != [] {
      StepKeepsWellFormed(s, events[0]);
      RunKeepsWellFormed(Step(s, events[0]), events[1..]);
    }
  }

  /**
   * Each event raises the stage by at most one, so reaching stage k from the initial
   * session takes at least k events; without "Create Another Lesson" the stage never
   * goes down.
   */
  lemma {:induction false} RunStageBounds(s: State, events: seq<Event>)
    requires WellFormed(s)
    ensures Run(s, events).stage <= s.stage + |events|
    ensures (forall i :: 0 <= i < |events| ==> !events[i].CreateAnotherLesson?) ==> s.stage <= Run(s, events).stage
    decreases |events|
  {
    if events != [] {
      StepMovesOneStage(s, events[0]);
      StepKeepsWellFormed(s, events[0]);
      RunStageBounds(Step(s, events[0]), events[1..]);
      assert forall i :: 1 <= i < |events| ==> events[1..][i - 1] == events[i];
    }
  }

  /** The template the stored lesson type selects reads exactly the stored methodology keys. */
  lemma StoredLessonSelectsTemplate(d: Data)
    requires LessonCoreStored(d)
    ensures IsEducational(d) <==> d[LessonTypeKey] == Str(Educational)
    ensures BuildPrompt(d).Ok?
    ensures forall k :: k in d[MethodologyKey].m ==> exists i :: 0 <= i < 4 && TemplateKeys(d)[i] == k
  {
    var keys := TemplateKeys(d);
    assert keys == MethodologyKeys(d[LessonTypeKey] == Str(Educational));
    forall k | k in d[MethodologyKey].m
      ensures exists i :: 0 <= i < 4 && keys[i] == k
    {
      assert k == keys[0] || k == keys[1] || k == keys[2] || k == keys[3];
    }
  }

  /**
   * At stage 3 the prompt always builds: it uses the educational template exactly when
   * the stored lesson type is 'Educational' and holds the stored blueprint and the four
   * stored answers verbatim.
   */
  lemma Stage3PromptBuilds(s: State)
    requires WellFormed(s) && s.stage == 3
    ensures BuildPrompt(s.formData).Ok?
    ensures StartsWith(BuildPrompt(s.formData).value, EduOpening) <==> s.formData[LessonTypeKey] == Str(Educational)
    ensures Occurs(s.formData[BlueprintKey].s, BuildPrompt(s.formData).value)
    ensures forall k :: k in s.formData[MethodologyKey].m ==>
              Occurs(s.formData[MethodologyKey].m[k], BuildPrompt(s.formData).value)
  {
    var d := s.formData;
    StoredLessonSelectsTemplate(d);
    PromptEmbedsAnswers(d);
  }

  // ---------------------------------------------------------------------------------
  // The stage 3 page.
  // ---------------------------------------------------------------------------------

  /** What a render of the stage 3 block shows. */
  datatype Page =
    | NotShown                                            // the session is at another stage
    | Raised(error: PromptError)                          // a subscript of the template raised
    | Shown(prompt: string, plan: Option<string>, handsOnGuide: bool)

  /**
   * One render of stage 3: build the prompt, make one generation call (`generate`, the
   * remote model, returning None on failure), show the reply if it is non-empty, and
   * add the hands-on guide when the lesson type is exactly 'Hands-on'.
   */
  function Stage3Page(s: State, generate: string -> Option<string>): (p: Page)
    ensures p.NotShown? <==> s.stage != 3
    ensures s.stage == 3 ==> (p.Raised? <==> BuildPrompt(s.formData).Err?)
    ensures p.Raised? ==> BuildPrompt(s.formData) == Err(p.error)
    ensures p.Shown? ==> BuildPrompt(s.formData) == Ok(p.prompt)
    ensures p.Shown? ==> (p.plan.Some? <==> generate(p.prompt).Some? && Filled(generate(p.prompt).value))
    ensures p.Shown? && p.plan.Some? ==> p.plan == generate(p.prompt)
    ensures p.Shown? ==> (p.handsOnGuide <==> p.plan.Some? && Get(s.formData, LessonTypeKey) == Some(Str(HandsOn)))
  {
    if s.stage != 3 then
      NotShown
    else
      match BuildPrompt(s.formData)
      case Err(e) => Raised(e)
      case Ok(prompt) =>
        var lessonPlan := generate(prompt);
        if lessonPlan.Some? && Filled(lessonPlan.value) then
          Shown(prompt, lessonPlan, Get(s.formData, LessonTypeKey) == Some(Str(HandsOn)))
        else
          Shown(prompt, None, false)
  }

  /** The events of the end-to-end run: a single lesson, a blueprint, an educational lesson. */
  function ScenarioEvents(blueprint: string, q1: string, q2: string, q3: string, q4: string): seq<Event> {
    [ProfileSubmitted(Some(SingleLesson), 1),
     BlueprintSubmitted(HaveBlueprint, blueprint),
     LessonCoreEvent(EducationalOption, q1, q2, q3, q4)]
  }

  /** The end-to-end run reaches stage 3 with exactly the five inputs and the goal type stored. */
  lemma ScenarioReachesStage3(blueprint: string, q1: string, q2: string, q3: string, q4: string)
    requires Filled(blueprint) && Filled(q1) && Filled(q2) && Filled(q3) && Filled(q4)
    ensures var s := Run(Initial, ScenarioEvents(blueprint, q1, q2, q3, q4));
            && WellFormed(s) && s.stage == 3
            && s.formData.Keys == {GoalTypeKey, BlueprintKey, LessonTypeKey, MethodologyKey}
            && s.formData[GoalTypeKey] == Str(SingleLesson) && s.formData[BlueprintKey] == Str(blueprint)
            && s.formData[LessonTypeKey] == Str(Educational)
            && s.formData[MethodologyKey].Dict?
            && s.formData[MethodologyKey].m.Keys == {"core_question", "teaching_points", "analogy", "actionable_tip"}
            && s.formData[MethodologyKey].m["core_question"] == q1
            && s.formData[MethodologyKey].m["teaching_points"] == q2
            && s.formData[MethodologyKey].m["analogy"] == q3
            && s.formData[MethodologyKey].m["actionable_tip"] == q4
  {
    var events := ScenarioEvents(blueprint, q1, q2, q3, q4);
    assert SingleLesson != ProgramLesson by {
      assert |SingleLesson| != |ProgramLesson|;
    }
    var s1 := Step(Initial, events[0]);
    assert s1 == State(1, map[GoalTypeKey := Str(SingleLesson)]);
    var s2 := Step(s1, events[1]);
    assert s2 == State(2, map[GoalTypeKey := Str(SingleLesson), BlueprintKey := Str(blueprint)]);
    var s3 := Step(s2, events[2]);
    assert Run(Initial, events) == s3 by {
      assert Run(Initial, events) == Run(s1, events[1..]);
      assert Run(s1, events[1..]) == Run(s2, [events[2]]);
      assert Run(s2, [events[2]]) == Run(s3, []);
    }
    RunKeepsWellFormed(Initial, events);
  }

  /**
   * A render of a well-formed stage 3 session whose model call returns a non-empty
   * reply shows that reply verbatim, with the hands-on guide exactly for a 'Hands-on'
   * lesson, from a prompt holding the blueprint and every stored answer.
   */
  lemma Stage3PageShowsReply(s: State, generate: string -> Option<string>, reply: string)
    requires WellFormed(s) && s.stage == 3 && Filled(reply)
    requires forall prompt :: generate(prompt) == Some(reply)
    ensures var p := Stage3Page(s, generate);
            && p.Shown? && p.plan == Some(reply)
            && (p.handsOnGuide <==> s.formData[LessonTypeKey] == Str(HandsOn))
            && Occurs(s.formData[BlueprintKey].s, p.prompt)
            && forall k :: k in s.formData[MethodologyKey].m ==> Occurs(s.formData[MethodologyKey].m[k], p.prompt)
  {
    Stage3PromptBuilds(s);
  }

  /**
   * One render at the end of the end-to-end run shows the model's reply verbatim,
   * without the hands-on guide, from a prompt that holds all five inputs.
   */
  lemma ScenarioPage(blueprint: string, q1: string, q2: string, q3: string, q4: string,
                     generate: string -> Option<string>, reply: string)
    requires Filled(blueprint) && Filled(q1) && Filled(q2) && Filled(q3) && Filled(q4) && Filled(reply)
    requires forall prompt :: generate(prompt) == Some(reply)
    ensures var s := Run(Initial, ScenarioEvents(blueprint, q1, q2, q3, q4));
            var p := Stage3Page(s, generate);
            && p.Shown? && p.plan == Some(reply) && !p.handsOnGuide
            && Occurs(blueprint, p.prompt) && Occurs(q1, p.prompt) && Occurs(q2, p.prompt)
            && Occurs(q3, p.prompt) && Occurs(q4, p.prompt)
  {
    var s := Run(Initial, ScenarioEvents(blueprint, q1, q2, q3, q4));
    ScenarioReachesStage3(blueprint, q1, q2, q3, q4);
    Stage3PageShowsReply(s, generate, reply);
    assert Educational != HandsOn;
  }

  // ---------------------------------------------------------------------------------
  // The session, updated in place as `st.session_state` is.
  // ---------------------------------------------------------------------------------

  class Session {
    var stage: int
    var formData: Data

    ghost function Current(): State
      reads this
    {
      State(stage, formData)
    }

    ghost predicate Valid()
      reads this
    {
      WellFormed(Current())
    }

    /** The first access to the session state: stage 0 and an empty dictionary. */
    constructor ()
      ensures Current() == Initial && Valid()
    {
      stage := 0;
      formData := map[];
    }

    /** `set_stage`: assigns the stage and nothing else. */
    method SetStage(n: int)
      modifies this
      ensures stage == n && formData == old(formData)
    {
      stage := n;
    }

    method SubmitProfile(goalType: Option<string>, pick: LessonPick)
      modifies this
      ensures Current() == Step(old(Current()), ProfileSubmitted(goalType, pick))
      ensures old(Valid()) ==> Valid()
    {
      ghost var before := Current();
      if stage == 0 {
        var lessonNumber := if goalType == Some(ProgramLesson) then Some(pick) else None;
        if goalType.Some? && Filled(goalType.value) {
          formData := formData[GoalTypeKey := Str(goalType.value)];
          if lessonNumber.Some? && lessonNumber.value != 0 {
            formData := formData[LessonNumberKey := Int(lessonNumber.value)];
          }
          SetStage(1);
        }
        // Otherwise only an error message is shown.
      }
      if WellFormed(before) {
        StepKeepsWellFormed(before, ProfileSubmitted(goalType, pick));
      }
    }

    method SubmitBlueprint(answer: string, blueprint: string)
      modifies this
      ensures Current() == Step(old(Current()), BlueprintSubmitted(answer, blueprint))
      ensures old(Valid()) ==> Valid()
    {
      ghost var before := Current();
      if stage == 1 && answer == HaveBlueprint {
        if Filled(blueprint) {
          formData := formData[BlueprintKey := Str(blueprint)];
          SetStage(2);
        }
      }
      if WellFormed(before) {
        StepKeepsWellFormed(before, BlueprintSubmitted(answer, blueprint));
      }
    }

    method SubmitEducational(coreQuestion: string, teachingPoints: string, analogy: string, actionableTip: string)
      modifies this
      ensures Current() == Step(old(Current()), EducationalSubmitted(coreQuestion, teachingPoints, analogy, actionableTip))
      ensures old(Valid()) ==> Valid()
    {
      ghost var before := Current();
      if stage == 2 && Filled(coreQuestion) && Filled(teachingPoints) && Filled(analogy) && Filled(actionableTip) {
        formData := formData[LessonTypeKey := Str(Educational)];
        formData := formData[MethodologyKey := Dict(Methodology(EducationalKeys, coreQuestion, teachingPoints, analogy, actionableTip))];
        SetStage(3);
      }
      if WellFormed(before) {
        StepKeepsWellFormed(before, EducationalSubmitted(coreQuestion, teachingPoints, analogy, actionableTip));
      }
    }

    method SubmitHandsOn(outcome: string, steps: string, mistake: string, tools: string)
      modifies this
      ensures Current() == Step(old(Current()), HandsOnSubmitted(outcome, steps, mistake, tools))
      ensures old(Valid()) ==> Valid()
    {
      ghost var before := Current();
      if stage == 2 && Filled(outcome) && Filled(steps) && Filled(mistake) && Filled(tools) {
        formData := formData[LessonTypeKey := Str(HandsOn)];
        formData := formData[MethodologyKey := Dict(Methodology(HandsOnKeys, outcome, steps, mistake, tools))];
        SetStage(3);
      }
      if WellFormed(before) {
        StepKeepsWellFormed(before, HandsOnSubmitted(outcome, steps, mistake, tools));
      }
    }

    /** The stage 2 form: the radio choice selects which of the two forms was submitted. */
    method SubmitLessonCore(choice: string, q1: string, q2: string, q3: string, q4: string)
      modifies this
      ensures Current() == Step(old(Current()), LessonCoreEvent(choice, q1, q2, q3, q4))
      ensures old(Valid()) ==> Valid()
    {
      if choice == EducationalOption {
        SubmitEducational(q1, q2, q3, q4);
      } else {
        SubmitHandsOn(q1, q2, q3, q4);
      }
    }

    /** "Create Another Lesson". */
    method Reset()
      modifies this
      ensures Current() == Step(old(Current()), CreateAnotherLesson)
      ensures old(stage) == 3 ==> stage == 0 && formData == map[]
      ensures old(Valid()) ==> Valid()
    {
      if stage == 3 {
        SetStage(0);
        formData := map[];
      }
    }
  }
}
