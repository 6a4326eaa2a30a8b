/** The lesson detail view (src/components/TopicDetail.jsx) as an object: its
    state cells and the handlers that overwrite them. Each network request is
    replaced by its outcome, passed in as a parameter. */
module TopicDetail {
  import opened Wrappers
  import opened Lesson
  import opened LessonView

  /** How one request ends as the view sees it: a parsed body, a response
      whose status is not ok, or an exception (network failure, unparsable
      body) carrying its own message. */
  datatype Fetch<T> = Ok(data: T) | HttpError | Thrown(message: string)

  /** The message set when loading a topic gets a status that is not ok. */
  const LoadFailed: string := "Gagal memuat topik"

  /** The message set when submitting answers gets a status that is not ok. */
  const SubmitFailed: string := "Gagal mengirim jawaban"

  /** The message a failed request leaves in `error`. */
  function FailureMessage<T>(outcome: Fetch<T>, statusMessage: string): string
    requires !outcome.Ok?
  {
    if outcome.HttpError? then statusMessage else outcome.message
  }

  /** A failure whose message is not empty, so that it shows as an error. */
  predicate ReportsError<T>(outcome: Fetch<T>) {
    outcome.HttpError? || (outcome.Thrown? && outcome.message != "")
  }

  /** The JSON body posted to /api/selftest/submit. */
  datatype SubmitPayload = SubmitPayload(topicId: string, answers: Answers)

  class TopicDetailView {
    /** The `id` route parameter. */
    var routeId: string
    var topic: Option<Topic>
    var stepIndex: nat
    var answers: Answers
    var result: Option<GradingResult>
    var loading: bool
    var error: string

    /** The initial values of the state cells on mount. */
    constructor (id: string)
      ensures routeId == id && topic == None && stepIndex == 0 && answers == []
      ensures result == None && loading && error == ""
      ensures View() == LoadingText && IndexWithinSteps()
    {
      routeId, topic, stepIndex, answers := id, None, 0, [];
      result, loading, error := None, true, "";
    }

    /** What the component renders now. */
    function View(): Screen
      reads this
    {
      Render(loading, error, topic, stepIndex, answers, result)
    }

    /** The step index is a valid index, or 0 when there are no steps. A
        page load starts here, and every handler keeps it; only a successful
        `FinishLoad` after `RouteChanged` (a load that does not start at
        index 0) can lose it. */
    predicate IndexWithinSteps()
      reads this
    {
      stepIndex <= LastIndex(topic)
    }

    /** `load` after its request ends (its first statement, `setLoading(true)`,
        is the constructor's initial value or part of `RouteChanged`): a topic
        replaces the old one, a failure only sets the error, and loading always
        ends. The step index, the answers, the result and an earlier error are
        never reset. The first load of a mount starts at index 0 and so keeps
        the index within the new topic's steps. */
    method FinishLoad(outcome: Fetch<Topic>)
      requires loading
      modifies this`topic, this`error, this`loading
      ensures !loading
      ensures outcome.Ok? ==> topic == Some(outcome.data) && error == old(error)
      ensures !outcome.Ok? ==> topic == old(topic) && error == FailureMessage(outcome, LoadFailed)
      ensures old(error) != "" && (outcome.Ok? || ReportsError(outcome)) ==> View().ErrorText?
      ensures outcome.Ok? && old(error) == "" && outcome.data.steps.Some? ==>
        View().Page? && View().stepper.stepCount == |outcome.data.steps.value|
      ensures old(stepIndex) == 0 ==> IndexWithinSteps()
      ensures old(IndexWithinSteps()) && !outcome.Ok? ==> IndexWithinSteps()
    {
      match outcome {
        case Ok(data) => topic := Some(data);
        case HttpError => error := LoadFailed;
        case Thrown(message) => error := message;
      }
      loading := false;
    }

    /** A different `id` route parameter on the same mounted view starts
        `load` again; everything else is kept: the step index, the answers and
        the result. Only client-side navigation keeps the view mounted; a full
        page load mounts a fresh view instead (the constructor). */
    method RouteChanged(id: string)
      requires id != routeId
      modifies this`routeId, this`loading
      ensures routeId == id && loading && View() == LoadingText
    {
      routeId := id;
      loading := true;
    }

    /** The "next" button. */
    method GoNext()
      modifies this`stepIndex
      ensures stepIndex == Next(old(stepIndex), topic)
      ensures IndexWithinSteps()
    {
      stepIndex := Next(stepIndex, topic);
    }

    /** The "previous" button. */
    method GoPrev()
      modifies this`stepIndex
      ensures stepIndex == Prev(old(stepIndex))
      ensures old(IndexWithinSteps()) ==> IndexWithinSteps()
    {
      stepIndex := Prev(stepIndex);
    }

    /** A radio button click: copy the selection array and assign one slot. */
    method SelectAnswer(q: nat, o: nat)
      modifies this`answers
      ensures answers == Assign(old(answers), q, o)
      ensures Checked(answers, q, o)
      ensures old(IndexWithinSteps()) ==> IndexWithinSteps()
    {
      var copy := answers;
      if |copy| <= q {
        copy := copy + Holes(q + 1 - |copy|);
      }
      copy := copy[q := Some(o)];
      answers := copy;
    }

    /** The flattened question list of the current topic; `None` is the
        exception thrown when a topic has no step list. */
    method CollectQuestions() returns (qs: Option<seq<Question>>)
      ensures topic.None? ==> qs == Some([])
      ensures topic.Some? && topic.value.steps.None? ==> qs == None
      ensures topic.Some? && topic.value.steps.Some? ==> qs == Some(QuizQuestions(topic.value.steps.value))
    {
      if topic.None? {
        return Some([]);
      }
      if topic.value.steps.None? {
        return None;
      }
      var steps := topic.value.steps.value;
      var acc: seq<Question> := [];
      var i := 0;
      while i < |steps|
        invariant 0 <= i <= |steps|
        invariant acc == QuizQuestions(steps[..i])
      {
        var s := steps[i];
        if s.kind == Quiz {
          var list := s.quizQuestions.GetOr([]);
          var j := 0;
          while j < |list|
            invariant 0 <= j <= |list|
            invariant acc == QuizQuestions(steps[..i]) + list[..j]
          {
            acc := acc + [list[j]];
            j := j + 1;
          }
          assert list[..j] == list;
        }
        assert steps[..i + 1][..i] == steps[..i];
        i := i + 1;
      }
      assert steps[..i] == steps;
      qs := Some(acc);
    }

    /** The submit button, which exists only while there is no result. The
        whole selection array, holes included, is posted. Success stores the result and jumps to the last step from
        wherever the view was; failure only sets the error. */
    method Submit(outcome: Fetch<GradingResult>) returns (payload: SubmitPayload)
      requires result.None?
      modifies this`result, this`stepIndex, this`error
      ensures payload == SubmitPayload(routeId, answers)
      ensures outcome.Ok? ==> && result == Some(outcome.data) && error == old(error)
                              && stepIndex == (if StepCount(topic) == 0 then 0 else StepCount(topic) - 1)
      ensures !outcome.Ok? ==> && result == old(result) && stepIndex == old(stepIndex)
                               && error == FailureMessage(outcome, SubmitFailed)
      ensures outcome.Ok? && StepCount(topic) > 0 ==> CurrentStep(topic, stepIndex) == Some(Steps(topic)[StepCount(topic) - 1])
      ensures old(error) != "" && (outcome.Ok? || ReportsError(outcome)) ==> error != ""
      ensures outcome.Ok? ==> IndexWithinSteps()
      ensures old(IndexWithinSteps()) ==> IndexWithinSteps()
    {
      payload := SubmitPayload(routeId, answers);
      match outcome {
        case Ok(data) =>
          result := Some(data);
          stepIndex := LastIndex(topic);
        case HttpError => error := SubmitFailed;
        case Thrown(message) => error := message;
      }
    }
  }

  /** A topic of a theory, a two-question quiz and a self-test slide: the
      learner answers, submits and is graded one right, one wrong. */
  method GradedQuizScenario() {
    var q1 := Question("Q1", ["A", "B"]);
    var q2 := Question("Q2", ["A", "B"]);
    var steps := [Step(Theory, "Intro", "text", "", None),
                  Step(Quiz, "Kuis", "", "", Some([q1, q2])),
                  Step(SelfTest, "Hasil", "", "", None)];
    var v := new TopicDetailView("7");
    v.FinishLoad(Ok(Topic("7", "Topik", "", Some(steps))));
    v.GoNext();
    assert v.stepIndex == 1;
    v.SelectAnswer(0, 1);
    v.SelectAnswer(1, 0);
    assert v.answers == [Some(1), Some(0)];
    var grading := GradingResult(50, 1, 2, [Detail(true, "", "C4"), Detail(false, "", "C5")]);
    var payload := v.Submit(Ok(grading));
    assert payload == SubmitPayload("7", [Some(1), Some(0)]);
    assert v.stepIndex == 2;
    assert v.View().stepper.section == SelfTestSection("Hasil", Some(Summary(50, 1, 2)));
    v.GoPrev();
    var page := v.View();
    QuizQuestionsLength(steps);
    assert QuestionsOf(steps[1]) == [q1, q2];
    assert steps[1..][1..] == [steps[2]] && [steps[2]][1..] == [];
    assert QuizQuestionCount([steps[2]]) == 0;
    assert QuizQuestionCount(steps[1..]) == 2;
    assert QuizQuestionCount(steps) == 2;
    assert page.stepper.section.QuizSection? && !page.stepper.section.submitShown;
    assert page.stepper.section.items[0].feedback.value.correct;
    assert !page.stepper.section.items[1].feedback.value.correct;
  }

  /** The step index survives a change of the route parameter on a mounted
      view: after a topic with three steps at its last step, a topic with one
      step leaves the index out of range, no slide is shown, and "previous"
      alone does not fix it at once. This needs client-side navigation; the
      links of src/components/TopicList.jsx:74 and
      src/components/TopicDetail.jsx:84 are plain page loads, which mount a
      fresh view at index 0 instead. */
  method StaleIndexScenario() {
    var s := Step(Theory, "T", "", "", None);
    var v := new TopicDetailView("1");
    v.FinishLoad(Ok(Topic("1", "A", "", Some([s, s, s]))));
    v.GoNext();
    v.GoNext();
    assert v.stepIndex == 2;
    v.RouteChanged("2");
    v.FinishLoad(Ok(Topic("2", "B", "", Some([s]))));
    assert v.stepIndex == 2 && StepCount(v.topic) == 1;
    assert v.View().stepper.section == NoSection;
    v.GoPrev();
    assert v.stepIndex == 1 && CurrentStep(v.topic, v.stepIndex) == None;
  }
}
