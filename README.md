# Lesson Creation Bot: a verified model of its wizard, matcher and prompt builder

The Lesson Creation Bot is a single Streamlit script (`app.py`). It walks a course creator
through a four-stage wizard and turns the answers into a prompt for a remote text model.
Under the UI calls sit three small pieces of logic, and this project models each in Dafny
and proves properties about it:

- **The wizard** (`wizard.dfy`, module `Wizard`). A session holds `stage`: 0 is the profile,
  1 the blueprint, 2 the lesson core and 3 the lesson plan. It also holds the `form_data`
  dictionary.
  - Each button is a pure step function on a `State`. `Step` dispatches on an `Event`.
  - `Session` is a class whose methods update `stage` and `formData` in place, as the
    script updates `st.session_state`. Each method is proved to follow its step function
    and to keep the invariant `WellFormed`.
  - `WellFormed` says what `form_data` holds at each stage, and nothing more.
  - Lemmas prove that a stage never moves by more than one. "Create Another Lesson" is the
    only move back. At stage 3 the prompt always builds and embeds every stored answer.
- **The keyword matcher** `find_problem_recommendation` (`matcher.dfy`, module `Matcher`).
  It is a first-match search with a loop (`FindProblemRecommendation`). It is proved
  against a recursive specification (`FirstMatch`, `Recommendation`). Lower-casing and
  Python's substring test are in `text.dfy` (module `Text`).
- **The prompt builder** (`prompt.dfy`, module `Prompt`). Each template is an f-string,
  modelled as constant fragments interleaved with holes (`Fill`). `BuildPrompt` picks the
  educational template when `lesson_type` is `'Educational'` and the hands-on template
  otherwise, exactly as the `else` at app.py:181 does. It returns the exception a missing
  methodology key would raise.

`form_data.dfy` (module `FormData`) holds the `Value` type of `form_data` entries and the
literal keys and option labels. `wrappers.dfy` holds `Option` and `Result`.

Any `lesson_type` other than `'Educational'` falls to the hands-on template (app.py:181),
so no lesson type gives an empty prompt. A methodology dictionary without the hands-on
keys raises `KeyError`, which `BuildPrompt` returns as `Err(KeyMissing(..))`.

The "Create Another Lesson" button is drawn inside the stage 3 block (app.py:218), so it
exists only at stage 3. Likewise each submit button exists only in its own stage's block.
The model therefore treats an event for a stage that is not shown as changing nothing.

## Model

| member | source | states |
|---|---|---|
| Text.LowerChar | app.py:37 | lower-casing a character removes ASCII capitals. A capital becomes the same small letter. Every other character is kept. |
| Text.Lower | app.py:37 | `str.lower()` keeps the length and lower-cases each character in place |
| Text.LowerIdempotent | app.py:37 | lower-casing an already lower-cased string changes nothing |
| Text.Contains | app.py:37 | Python's `needle in hay` is true exactly when `needle` occurs at some index of `hay` (the empty needle occurs everywhere) |
| Matcher.FirstMatch | app.py:36-38 | the search result is the index of a matching row with no match before it. It is None exactly when no row matches. |
| Matcher.Recommendation | app.py:33-38 | None for an empty or non-string text. Otherwise a returned row comes from the table, its lower-cased keyword is a substring of the lower-cased text, and no earlier row matches. None means no row matches. |
| Matcher.FindProblemRecommendation | app.py:33-38 | the loop with early return produces exactly `Recommendation(text, rows)` |
| Matcher.RecommendationIgnoresTextCase | app.py:37 | the result does not change when the user's text is lower-cased first |
| Matcher.EmptyKeywordMatchesAnyText | app.py:37 | a row with an empty keyword matches every text |
| Matcher.FirstMatchIsFirst | app.py:36-37 | a matching row with no match before it is the row returned |
| Matcher.FirstMatchStableUnderAppend | app.py:36-37 | rows appended after a match do not change which row is returned |
| FormData.Methodology | app.py:134 | the methodology dictionary has exactly the four given keys, each mapped to its answer |
| Prompt.Answers | app.py:165-168 | looks up the template's keys in order. Ok exactly when every key is in the methodology dictionary. A missing `methodology` is `KeyError` on it, a non-dict is `TypeError`, and otherwise the error names the first missing key. |
| Prompt.BuildPrompt | app.py:159-200 | the prompt builds exactly when the methodology dictionary holds the selected template's four keys. Otherwise it gives the exception of the first failing subscript. |
| Prompt.FillEmbeds | app.py:161-180 | a filled f-string starts with its first fragment and holds every hole verbatim |
| Prompt.PromptEmbedsAnswers | app.py:159-200 | a built prompt starts with the educational opening exactly when `lesson_type == 'Educational'`, and with the hands-on opening otherwise. It is never empty. It holds the rendered blueprint and the template's four answers verbatim. |
| Prompt.TemplatesNeverCoincide | app.py:160-200 | no filling of the educational template equals a filling of the hands-on template |
| Wizard.ProfileStep | app.py:63-88 | stage 0 advances to 1 exactly when a non-empty goal type is given. Any other case (a missing or empty goal type, or another stage) leaves the whole state unchanged. On advance it stores `goal_type`. It stores `lesson_number` (in 1..12) only for the 12-lesson option. Other entries are untouched. |
| Wizard.BlueprintStep | app.py:90-107 | stage 1 advances to 2 only for "Yes, I have it" with non-empty text, and then stores exactly that text under `blueprint`. Any other case (the "No" answer, empty text, or another stage) leaves the whole state unchanged. |
| Wizard.LessonCoreStep | app.py:121-151 | stage 2 advances to 3 exactly when all four answers are non-empty. Any other case (an empty answer, or another stage) leaves the whole state unchanged, so stage 2 stays at 2. On advance it sets `lesson_type` to `'Educational'` or `'Hands-on'` and `methodology` to exactly that sub-type's four keys with the submitted answers. Earlier keys are untouched. |
| Wizard.ResetStep | app.py:218-221 | at stage 3, gives stage 0 with empty form data. At any other stage there is no button and nothing changes. |
| Wizard.LessonCoreEvent | app.py:114-122 | the educational option selects the educational form. Every other radio choice selects the hands-on form (app.py:137). |
| Wizard.StepKeepsWellFormed | app.py:63-151 | every event keeps the invariant: the stage is in 0..3 and `form_data` holds exactly what the stages passed so far stored |
| Wizard.StepMovesOneStage | app.py:87-220 | across the stage moves at app.py:87, 103, 135, 150 and 219-220, an event changes nothing, or raises the stage by exactly one and keeps every stored entry, or is the stage 3 reset to the initial session |
| Wizard.RunKeepsWellFormed | app.py:50-151 | the invariant holds after any sequence of events |
| Wizard.RunStageBounds | app.py:87 | after n events the stage is at most n above where it began. With no reset it never goes down. |
| Wizard.StoredLessonSelectsTemplate | app.py:160 | the stored lesson type selects the template whose four keys are the stored methodology's keys, so the prompt builds |
| Wizard.Stage3PromptBuilds | app.py:153-200 | at stage 3 the prompt always builds. It uses the educational template exactly for `'Educational'`. It holds the stored blueprint and every stored answer verbatim. |
| Wizard.Stage3Page | app.py:153-216 | the page shows only at stage 3. A failing subscript raises. Otherwise the built prompt is sent once. A non-empty reply is shown verbatim. The hands-on guide appears exactly when a reply is shown and `lesson_type == 'Hands-on'`. |
| Wizard.Stage3PageShowsReply | app.py:202-216 | at a well-formed stage 3, a canned non-empty reply is shown verbatim from a prompt holding the blueprint and every answer. The guide appears exactly for a hands-on lesson. |
| Wizard.ScenarioReachesStage3 | app.py:80-136 | a single lesson, a blueprint, and an educational lesson with four answers reach stage 3 storing exactly those inputs |
| Wizard.ScenarioPage | app.py:153-205 | at the end of that run the reply is shown verbatim without the hands-on guide, and the prompt holds all five inputs |
| Wizard.Session.constructor | app.py:50-54 | a new session is at stage 0 with empty form data, and is well-formed |
| Wizard.Session.SetStage | app.py:56-57 | `set_stage` assigns the stage and leaves `form_data` alone |
| Wizard.Session.SubmitProfile | app.py:80-88 | the in-place update follows `ProfileStep` and keeps the invariant |
| Wizard.Session.SubmitBlueprint | app.py:94-104 | the in-place update follows `BlueprintStep` and keeps the invariant |
| Wizard.Session.SubmitEducational | app.py:122-136 | the in-place update follows `LessonCoreStep` for the educational form and keeps the invariant |
| Wizard.Session.SubmitHandsOn | app.py:137-151 | the in-place update follows `LessonCoreStep` for the hands-on form and keeps the invariant |
| Wizard.Session.SubmitLessonCore | app.py:114-151 | the stage 2 radio choice dispatches to the educational or the hands-on submit |
| Wizard.Session.Reset | app.py:218-221 | at stage 3, gives stage 0 with `form_data == {}`. Elsewhere nothing changes. The invariant is kept. |

## Left out

- Streamlit rendering is not modelled: widgets, layout, the logo, `st.spinner`, and the `st.info`/`st.error`/`st.warning` messages. A validation error is modelled only as "no state change". `st.rerun()` is modelled as "one stage block handles each event".
- The API key setup (app.py:10-18) is startup configuration and is not modelled.
- `generate_content` (app.py:40-48) is a remote call. It is the parameter `generate` of `Stage3Page`, a total function returning `None` on failure.
- `load_data` (app.py:22-31) is file I/O with library caching. The table is a `seq<Row>` given to the matcher.
- Text.Lower: models `str.lower()` on ASCII only; Python's full Unicode lower-casing, which can change string length, is not modelled.
- Matcher.FindProblemRecommendation: pandas `iterrows` and non-string or NaN `problem_keyword` cells are not modelled (keywords are strings). A non-string user text is the `NotText` case.
- The prose of the two prompt templates and of the hands-on guide (app.py:209-216) is abridged into short constant fragments. Only the order of fragments and holes, and the fact that the two templates differ, are kept.
- Prompt.BuildPrompt: a dictionary stored under `blueprint` renders as a fixed placeholder instead of Python's insertion-ordered repr; the wizard only ever stores a string there.
- After an exception at stage 3 the script stops, so the "Create Another Lesson" button is not drawn. The model keeps `ResetStep` available in that case. This state is unreachable, because `Stage3PromptBuilds` shows the prompt always builds from a well-formed session.
- The script calls the model again on every re-render of stage 3. The model covers a single render.
