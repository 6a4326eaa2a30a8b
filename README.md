# Lesson stepper of the microlearning client

This project models the lesson detail view of a single-page "microlearning"
client (`src/components/TopicDetail.jsx`). The view fetches one topic, an
ordered list of slides ("steps") of four kinds: theory, case, quiz and
self-test. The learner moves through the slides with "previous" and "next"
buttons and picks one option per quiz question. The learner then submits the
answers to a backend. When grading succeeds, the view shows per-question
feedback and a score.

The model has three parts:

- `wrappers.dfy` (module `Wrappers`): `Option`. The model uses it for
  JavaScript's `null`/`undefined` and for the holes of a sparse array.
- `lesson.dfy` (module `Lesson`): the data the view receives, plus the pure
  computations over it:
  - the step updaters `Next` and `Prev`;
  - `CurrentStep`;
  - the flattened question list `QuizQuestions`;
  - the answer array update `Assign`.
- `lesson_view.dfy` (module `LessonView`): `Render`, what the component shows
  for a given state:
  - the precedence loading → error → no topic → stepper;
  - the slide picked by the current step's kind;
  - the radio buttons, read positionally from the answers;
  - grading feedback, read positionally from `result.details`;
  - the submit button, shown only while there is no result;
  - the score line.
- `topic_detail.dfy` (module `TopicDetail`): the class `TopicDetailView`.
  - Its fields are the component's state cells: `topic`, `stepIndex`,
    `answers`, `result`, `loading` and `error`, plus the route parameter.
  - Its methods are the handlers that overwrite them.
  - Every HTTP request is replaced by a `Fetch` outcome given as a parameter:
    a parsed body, a response whose status is not ok (this sets a fixed
    message), or a thrown exception (this sets the exception's own message).
  - `load` is split in two. Its first statement, `setLoading(true)`, is the
    constructor's initial value on mount and part of `RouteChanged` afterwards.
    `FinishLoad` is what happens after the request ends. This makes the
    loading screen a reachable state.
  - The predicate `IndexWithinSteps` says the index is at most the last step
    (0 with no steps). The constructor establishes it. "Next", "previous",
    a radio click and submit keep it, and so does the first load of a mount,
    which starts at index 0. Only a successful load after `RouteChanged` can lose it.
  - Two client methods, `GradedQuizScenario` and `StaleIndexScenario`, walk
    through whole sessions using only the contracts.

Behaviours of the code that the model keeps:

- A topic whose step list is missing makes the render throw (`RenderFault`).
  `collectQuestions` and the step counter read `topic.steps` without `?.`.
  Only `currentStep`, `next` and `submit` guard against a missing list.
- An error is never cleared by a later success, so the view stays on the
  error text. The exception is a thrown error whose message is empty.
- The step index is never reset by a reload. The answers and the result are not reset either.
  - These survive a change of the route parameter on a view that is still mounted.
  - A newly loaded topic with fewer steps can then leave the index past its last step.
  - The new topic would also show the previous topic's grading and no submit button.
  - This needs client-side navigation, which this repository never performs. Its links
    (`src/components/TopicList.jsx:74`, `src/components/TopicDetail.jsx:84`) are plain
    page loads, and a page load mounts a fresh view at index 0 with no answers and no result.
  - `TopicDetail.StaleIndexScenario` shows the sequence on the component alone.
- The "next" button is enabled on a topic with no steps. Clicking it leaves
  the index at 0.
- A quiz slide lists the questions of every quiz step, not only its own.

Two behaviours differ from what the buttons alone suggest:

- "Next" and "previous" keep the index inside `[0, steps.length - 1]` only
  when it starts inside (`Lesson.WalkStaysInRange`). Take an index that a
  reload on a mounted view left out of range:
  - From exactly one past the last step, one "previous" lands on the last
    step (`Lesson.PrevFromJustPastLast`).
  - From further out, one "previous" leaves the index out of range
    (`Lesson.PrevKeepsOutOfRange`).
  - One click on "next" always brings it back to the last step
    (`Lesson.NextReturnsToLastStep`).
- With zero steps, "next" is enabled but inert (`LessonView.ButtonsDisabledAtBoundaries`).

## Model

| member | source | states |
|---|---|---|
| `Lesson.Next` | src/components/TopicDetail.jsx:33 | "next" advances by exactly one inside the steps and never goes past one beyond the input. From the last step or beyond, it lands on the last step. With no topic or no steps it always gives 0. With at least one step the result is always a valid index. |
| `Lesson.Prev` | src/components/TopicDetail.jsx:34 | "previous" is a no-op at 0 and otherwise decrements by exactly one. |
| `Lesson.NextThenPrev` | src/components/TopicDetail.jsx:33-34 | Inside the steps, "previous" undoes "next". |
| `Lesson.PrevThenNext` | src/components/TopicDetail.jsx:33-34 | Inside the steps, "next" undoes "previous". |
| `Lesson.NextReturnsToLastStep` | src/components/TopicDetail.jsx:33 | From the last step or any index past it, one "next" lands on the last step, whose slide is then shown. |
| `Lesson.PrevFromJustPastLast` | src/components/TopicDetail.jsx:34 | From exactly one past the last step, "previous" lands on the last step, whose slide is then shown. |
| `Lesson.PrevKeepsOutOfRange` | src/components/TopicDetail.jsx:34 | "previous" has no upper clamp: an index more than one past the last step is still out of range afterwards. |
| `Lesson.WalkStaysInRange` | src/components/TopicDetail.jsx:33-34 | Any number of button clicks keeps an in-range step index in range. |
| `Lesson.WalkWithoutSteps` | src/components/TopicDetail.jsx:33-34 | With no topic or an empty step list, the index stays 0 under any clicks. |
| `Lesson.CurrentStep` | src/components/TopicDetail.jsx:31 | The current step exists exactly when the index is below the step count, and it is the step at that index. Otherwise it is null. |
| `Lesson.LastIndex` | src/components/TopicDetail.jsx:33 | The step count with 0 read as 1, minus one: it is the last valid index when there are steps, and 0 when there are none. `next` and `submit` both use it. |
| `Lesson.QuizQuestions` | src/components/TopicDetail.jsx:46-51 | The flattening: every question in the list comes from some quiz step. Its order and length are stated by the lemmas below. |
| `Lesson.QuizQuestionsAppend` | src/components/TopicDetail.jsx:46-51 | Flattening a concatenation of step lists concatenates their flattenings, so flattening follows step order. |
| `Lesson.QuizQuestionsLength` | src/components/TopicDetail.jsx:46-51 | The flattened list's length is the sum of the quiz steps' question counts. |
| `Lesson.QuizQuestionsSingle` | src/components/TopicDetail.jsx:48-49 | A single step contributes its own questions if it is a quiz, a missing list counting as empty, and nothing otherwise. |
| `Lesson.QuizQuestionsPosition` | src/components/TopicDetail.jsx:46-51 | Question `j` of step `k` sits at the index equal to the number of questions before step `k`, plus `j`. |
| `Lesson.QuizQuestionsSkipsNonQuiz` | src/components/TopicDetail.jsx:48 | Removing a step that is not a quiz leaves the flattened list unchanged. |
| `Lesson.Assign` | src/components/TopicDetail.jsx:38-39 | After selecting `o` for question `q`, slot `q` holds `o` and every other existing slot is unchanged. The length becomes `max(old length, q+1)`, and any slot the assignment creates is unset. |
| `Lesson.AssignLastWriteWins` | src/components/TopicDetail.jsx:38-39 | Two selections for the same question equal the second one alone. |
| `Lesson.AssignIdempotent` | src/components/TopicDetail.jsx:38-39 | Repeating a selection changes nothing. |
| `Lesson.AssignCommutes` | src/components/TopicDetail.jsx:38-39 | Selections for different questions can be made in either order. |
| `Lesson.AssignChecks` | src/components/TopicDetail.jsx:119-120 | After a selection, for that question exactly the chosen option's radio is checked. Every other question's radios are as before. |
| `LessonView.QuestionItems` | src/components/TopicDetail.jsx:114-132 | Every flattened question is listed with its number, and each of its options is checked exactly when `answers[qi]` is that option. Feedback appears exactly when a result exists and is read from `result.details[qi]`. |
| `LessonView.FeedbackAt` | src/components/TopicDetail.jsx:125-129 | The feedback for question `qi` reads `details[qi]`. A missing detail shows as incorrect, with no explanation and an empty level. An explanation shows exactly when it is non-empty. |
| `LessonView.RenderSection` | src/components/TopicDetail.jsx:97-151 | No slide exactly when there is no current step. A theory slide shows the step's title and content, and a case slide its title and prompt. A quiz slide shows its title, exactly the items `QuestionItems` builds from the flattened questions, the answers and the result, and the submit button exactly while there is no result. A self-test slide shows its title, and the score line exactly when a result exists. |
| `LessonView.RadioExclusive` | src/components/TopicDetail.jsx:119-120 | At most one option of a question is checked. |
| `LessonView.Render` | src/components/TopicDetail.jsx:76-93 | The view is the loading text exactly while loading. Otherwise it is the error text exactly when the error is non-empty, then nothing exactly when the topic is absent, then a fault when the step list is missing. In the stepper, the counter shows step index + 1 of the step count, "previous" is disabled exactly at 0, and "next" is disabled exactly at the last index. |
| `LessonView.SectionFollowsCurrentStep` | src/components/TopicDetail.jsx:97-151 | The slide shown has the kind of the step at the index, with that step's own title, and its content or prompt. No slide is shown when the index is out of range. |
| `LessonView.QuizSlideShowsAllQuestions` | src/components/TopicDetail.jsx:111-138 | A quiz slide lists the whole flattened list, whose length is the sum of the quiz steps' counts. Question `qi` has one radio button per option, and option `oi` is checked exactly when `answers[qi]` is `oi`. Question `qi`'s feedback is read from `result.details[qi]`. The submit button shows exactly while there is no result. |
| `LessonView.SelfTestShowsResult` | src/components/TopicDetail.jsx:140-151 | The self-test slide shows the score line exactly when a result exists, with the result's score, correct and total. |
| `LessonView.EmptyTopicRendersSafely` | src/components/TopicDetail.jsx:90-93 | A topic with an empty step list renders a stepper with no slide and a step counter of zero. The guards of the two buttons leave "previous" disabled and "next" enabled. The "next" updater of line 33 keeps the index at 0. |
| `LessonView.ButtonsDisabledAtBoundaries` | src/components/TopicDetail.jsx:92-93 | "Previous" is a no-op exactly where it is disabled. "Next" is a no-op exactly where it is disabled, or at index 0 with no steps. |
| `TopicDetail.TopicDetailView.constructor` | src/components/TopicDetail.jsx:8-13 | On mount: no topic, index 0, no answers, no result, loading, no error. The loading text is shown, and the index is within the steps. |
| `TopicDetail.TopicDetailView.FinishLoad` | src/components/TopicDetail.jsx:18-26 | Runs only while loading. Loading always ends. On success the topic is replaced and the error is kept. On failure only the error is set, to the fixed message or the exception's message. The step index, answers and result are never touched. An earlier error keeps showing unless a later exception's message is empty. A load from index 0 (the first one of a mount) leaves the index within the new topic's steps; a failed load keeps it within the steps. |
| `TopicDetail.TopicDetailView.RouteChanged` | src/components/TopicDetail.jsx:17-29 | Only a different route id restarts `load`: loading is set and the loading text is shown. The step index, answers and result persist. |
| `TopicDetail.TopicDetailView.GoNext` | src/components/TopicDetail.jsx:33 | The index becomes `Next` of the old index, and is then always within the steps. |
| `TopicDetail.TopicDetailView.GoPrev` | src/components/TopicDetail.jsx:34 | The index becomes `Prev` of the old index. An index within the steps stays within them. |
| `TopicDetail.TopicDetailView.SelectAnswer` | src/components/TopicDetail.jsx:36-42 | The copy-and-assign leaves `answers` equal to `Assign` of the old array, with the chosen option checked. Nothing else changes, so the index stays within the steps. |
| `TopicDetail.TopicDetailView.CollectQuestions` | src/components/TopicDetail.jsx:44-53 | With no topic it returns empty. With a step list it returns exactly the flattened quiz questions, built by the two nested loops. With a topic but no step list it throws (`None`). |
| `TopicDetail.TopicDetailView.Submit` | src/components/TopicDetail.jsx:55-74 | Callable only while there is no result, as the button is (line 134). The whole answer array is posted with the route id, holes included. Success stores the result and jumps to the last step from any prior index, or to 0 when there are no steps; answers are kept. Failure sets only the error; the index and result are kept. After success the index is within the steps, and it stays there if it was before. |

## Left out

- HTTP itself, response status codes beyond ok/not ok, and `res.json()` parsing are left out. Each request is an abstract `Fetch` outcome.
- The backend base URL taken from the environment is left out. It only forms request URLs.
- Asynchrony is left out. That covers overlapping or stale responses of `load` and `submit`, and the order in which React applies queued state updates. Each handler runs to completion as one step.
- React's scheduling is left out. `useEffect` and `useMemo` become explicit calls (`RouteChanged`, `CurrentStep`), and re-rendering becomes the `View`/`Render` function.
- Markup, CSS classes and display texts are left out. Only the guards that choose what is shown are modelled.
- Step `type` strings other than the four kinds are left out. The kind is a closed variant, so an unknown kind, which would render no slide, cannot occur.
- JSON of unexpected shape is left out:
  - a `null` step entry, missing `details` or `options`, or a non-string explanation; an empty explanation stands for a missing one;
  - a successful response whose body is `null`. For a topic, the source would store `null` and show nothing. For a result, it would jump to the last step with no result stored. `Fetch` carries a value on success, so neither case can be expressed.
- The score is an integer here. JavaScript numbers and floating point are not modelled; the client only displays the score.
- `src/components/TopicList.jsx` is not part of this model. It only sets loading, seeding and error flags around fetch calls.
- `src/components/Router.jsx` and `src/App.jsx` are not part of this model. They are a library route table and a layout wrapper.
- The backend's grading algorithm is not part of this model.
