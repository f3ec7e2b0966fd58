/**
 * The values the wizard keeps in `st.session_state.form_data`, the keys it writes, and
 * the literal option labels and lesson-type tags its guards compare against.
 */
module FormData {

  /** A value stored in `form_data`: a string, an integer, or the methodology dictionary. */
  datatype Value = Str(s: string) | Int(n: int) | Dict(m: map<string, string>)

  type Data = map<string, Value>

  // Keys of form_data.
  const GoalTypeKey := "goal_type"
  const LessonNumberKey := "lesson_number"
  const BlueprintKey := "blueprint"
  const LessonTypeKey := "lesson_type"
  const MethodologyKey := "methodology"

  // Stage 0 radio options (goal type).
  const SingleLesson := "A Single Lesson (for 'additional classes')"
  const ProgramLesson := "A Lesson that is part of your 12-lesson program"

  // Stage 1 radio option that shows the blueprint form.
  const HaveBlueprint := "Yes, I have it"

  // Stage 2 radio option that shows the educational form; every other choice shows the hands-on one.
  const EducationalOption := "An Educational Lesson (explaining a concept)"

  // Lesson-type tags written at stage 2.
  const Educational := "Educational"
  const HandsOn := "Hands-on"

  // Methodology keys of each lesson sub-type, in the order the prompt template uses them.
  const EducationalKeys := ["core_question", "teaching_points", "analogy", "actionable_tip"]
  const HandsOnKeys := ["outcome", "steps", "mistake", "tools"]

  /** The methodology keys of the educational (true) or the hands-on (false) sub-type. */
  function MethodologyKeys(educational: bool): (keys: seq<string>) {
    if educational then EducationalKeys else HandsOnKeys
  }

  /** The `lesson_type` tag of the educational (true) or the hands-on (false) sub-type. */
  function LessonTypeTag(educational: bool): (tag: string) {
    if educational then Educational else HandsOn
  }

  /** The value the stage 0 selectbox offers: `range(1, 13)`. */
  type LessonPick = n: int | 1 <= n <= 12 witness 1

  /** Python's truthiness of a string: `not s` holds exactly for the empty string. */
  predicate Filled(s: string) {
    s != []
  }

  /** The methodology dictionary built from four answers under the given four keys. */
  function Methodology(keys: seq<string>, q1: string, q2: string, q3: string, q4: string): (m: map<string, string>)
    requires |keys| == 4
    requires forall i, j :: 0 <= i < j < 4 ==> keys[i] != keys[j]
    ensures m.Keys == {keys[0], keys[1], keys[2], keys[3]}
    ensures m[keys[0]] == q1 && m[keys[1]] == q2 && m[keys[2]] == q3 && m[keys[3]] == q4
  {
    map[keys[0] := q1, keys[1] := q2, keys[2] := q3, keys[3] := q4]
  }
}
