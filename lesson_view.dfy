/** What the lesson detail view shows for a given state: the four-way
    precedence of loading text, error text, nothing and the stepper, and inside
    the stepper the guards that pick the slide, the radio buttons, the grading
    feedback and the submit button. Markup, styling and texts are not modelled. */
module LessonView {
  import opened Wrappers
  import opened Lesson

  /** The grading shown under one flattened question. */
  datatype Feedback = Feedback(correct: bool, explanation: Option<string>, level: Option<string>)

  /** One flattened question as displayed: its 1-based number, the question,
      which of its options is checked, and its feedback once graded. */
  datatype QuestionItem = QuestionItem(number: nat, question: Question, checked: seq<bool>,
                                       feedback: Option<Feedback>)

  /** The score line of the self-test slide. */
  datatype Summary = Summary(score: int, correct: nat, total: nat)

  /** The body of the slide, chosen by the current step's kind. */
  datatype Section =
    | NoSection
    | TheorySection(title: string, content: string)
    | CaseSection(title: string, prompt: string)
    | QuizSection(title: string, items: seq<QuestionItem>, submitShown: bool)
    | SelfTestSection(title: string, summary: Option<Summary>)

  /** The stepper: header, "step `position` of `stepCount`", the two
      navigation buttons and the slide body. */
  datatype Stepper = Stepper(title: string, description: string, position: nat, stepCount: nat,
                             prevDisabled: bool, nextDisabled: bool, section: Section)

  /** The whole view. `RenderFault` is a render that throws: a topic without a
      step list reaches `topic.steps.forEach` and `topic.steps.length`. */
  datatype Screen = LoadingText | ErrorText(message: string) | Blank | RenderFault | Page(stepper: Stepper)

  /** `result.details[qi]?.…`: a missing detail reads as not correct, with no
      explanation and no level; the level line is always rendered, empty then. */
  function FeedbackAt(result: GradingResult, qi: nat): (f: Feedback)
    ensures f.correct <==> qi < |result.details| && result.details[qi].isCorrect
    ensures f.explanation.Some? <==> qi < |result.details| && result.details[qi].explanation != ""
    ensures f.explanation.Some? ==> f.explanation.value == result.details[qi].explanation
    ensures f.level == if qi < |result.details| then Some(result.details[qi].hotsLevel) else None
  {
    if qi < |result.details| then
      var d := result.details[qi];
      Feedback(d.isCorrect, if d.explanation != "" then Some(d.explanation) else None, Some(d.hotsLevel))
    else Feedback(false, None, None)
  }

  /** Every flattened question, numbered, with its radio buttons and, once a
      result exists, the feedback found at the same position. */
  function QuestionItems(questions: seq<Question>, answers: Answers, result: Option<GradingResult>): (r: seq<QuestionItem>)
    ensures |r| == |questions|
    ensures forall qi :: 0 <= qi < |r| ==>
      && r[qi].number == qi + 1
      && r[qi].question == questions[qi]
      && |r[qi].checked| == |questions[qi].options|
      && (forall oi :: 0 <= oi < |r[qi].checked| ==> (r[qi].checked[oi] <==> Checked(answers, qi, oi)))
      && (r[qi].feedback.Some? <==> result.Some?)
      && (result.Some? ==> r[qi].feedback == Some(FeedbackAt(result.value, qi)))
  {
    seq(|questions|, qi requires 0 <= qi < |questions| =>
      QuestionItem(qi + 1, questions[qi],
                   seq(|questions[qi].options|, oi requires 0 <= oi => Checked(answers, qi, oi)),
                   if result.Some? then Some(FeedbackAt(result.value, qi)) else None))
  }

  /** The slide body for the current step. A quiz slide lists the questions of
      every quiz step, not just its own. */
  function RenderSection(current: Option<Step>, questions: seq<Question>, answers: Answers,
                         result: Option<GradingResult>): (r: Section)
    ensures r.NoSection? <==> current.None?
    ensures current.Some? ==> match current.value.kind
      case Theory => r == TheorySection(current.value.title, current.value.content)
      case Case => r == CaseSection(current.value.title, current.value.casePrompt)
      case Quiz => r.QuizSection? && r.title == current.value.title
                   && r.items == QuestionItems(questions, answers, result)
                   && (r.submitShown <==> result.None?)
      case SelfTest => r.SelfTestSection? && r.title == current.value.title
                       && (r.summary.Some? <==> result.Some?)
  {
    match current
    case None => NoSection
    case Some(s) =>
      match s.kind
      case Theory => TheorySection(s.title, s.content)
      case Case => CaseSection(s.title, s.casePrompt)
      case Quiz => QuizSection(s.title, QuestionItems(questions, answers, result), result.None?)
      case SelfTest =>
        SelfTestSection(s.title, if result.Some? then Some(Summary(result.value.score, result.value.correct, result.value.total)) else None)
  }

  /** The view for a state: loading first, then a non-empty error, then an
      absent topic, then the stepper. */
  function Render(loading: bool, error: string, topic: Option<Topic>, stepIndex: nat,
                  answers: Answers, result: Option<GradingResult>): (r: Screen)
    ensures r.LoadingText? <==> loading
    ensures r.ErrorText? <==> !loading && error != ""
    ensures r.ErrorText? ==> r.message == error
    ensures r.Blank? <==> !loading && error == "" && topic.None?
    ensures r.RenderFault? <==> !loading && error == "" && topic.Some? && topic.value.steps.None?
    ensures r.Page? ==> && r.stepper.stepCount == StepCount(topic)
                        && r.stepper.position == stepIndex + 1
                        && (r.stepper.prevDisabled <==> stepIndex == 0)
                        && (r.stepper.nextDisabled <==> stepIndex == StepCount(topic) - 1)
  {
    if loading then LoadingText
    else if error != "" then ErrorText(error)
    else if topic.None? then Blank
    else if topic.value.steps.None? then RenderFault
    else
      var t, steps := topic.value, topic.value.steps.value;
      var questions := QuizQuestions(steps);
      Page(Stepper(t.title, t.description, stepIndex + 1, |steps|,
                   stepIndex == 0, stepIndex == |steps| - 1,
                   RenderSection(CurrentStep(topic, stepIndex), questions, answers, result)))
  }

  /** The slide shown is the one at the step index: of the same kind, with
      that step's own title and text; an index outside the steps shows no slide. */
  lemma SectionFollowsCurrentStep(loading: bool, error: string, topic: Option<Topic>, stepIndex: nat,
                                  answers: Answers, result: Option<GradingResult>)
    requires Render(loading, error, topic, stepIndex, answers, result).Page?
    ensures var sec := Render(loading, error, topic, stepIndex, answers, result).stepper.section;
      && (sec.NoSection? <==> stepIndex >= StepCount(topic))
      && (sec.TheorySection? <==> stepIndex < StepCount(topic) && Steps(topic)[stepIndex].kind == Theory)
      && (sec.CaseSection? <==> stepIndex < StepCount(topic) && Steps(topic)[stepIndex].kind == Case)
      && (sec.QuizSection? <==> stepIndex < StepCount(topic) && Steps(topic)[stepIndex].kind == Quiz)
      && (sec.SelfTestSection? <==> stepIndex < StepCount(topic) && Steps(topic)[stepIndex].kind == SelfTest)
      && (sec.TheorySection? ==> sec == TheorySection(Steps(topic)[stepIndex].title, Steps(topic)[stepIndex].content))
      && (sec.CaseSection? ==> sec == CaseSection(Steps(topic)[stepIndex].title, Steps(topic)[stepIndex].casePrompt))
      && (sec.QuizSection? ==> sec.title == Steps(topic)[stepIndex].title)
      && (sec.SelfTestSection? ==> sec.title == Steps(topic)[stepIndex].title)
  {
  }

  /** A quiz slide lists the whole flattened question list, reads each
      question's feedback at its own flattened position, and offers the submit
      button exactly while there is no result. */
  lemma QuizSlideShowsAllQuestions(loading: bool, error: string, topic: Option<Topic>, stepIndex: nat,
                                   answers: Answers, result: Option<GradingResult>, qi: nat)
    requires Render(loading, error, topic, stepIndex, answers, result).Page?
    requires Render(loading, error, topic, stepIndex, answers, result).stepper.section.QuizSection?
    ensures var sec := Render(loading, error, topic, stepIndex, answers, result).stepper.section;
      && |sec.items| == QuizQuestionCount(Steps(topic))
      && (qi < |sec.items| ==> sec.items[qi].question == QuizQuestions(Steps(topic))[qi])
      && (qi < |sec.items| ==> |sec.items[qi].checked| == |QuizQuestions(Steps(topic))[qi].options|)
      && (qi < |sec.items| ==> forall oi :: 0 <= oi < |sec.items[qi].checked| ==>
            (sec.items[qi].checked[oi] <==> Checked(answers, qi, oi)))
      && (qi < |sec.items| && result.Some? ==> sec.items[qi].feedback == Some(FeedbackAt(result.value, qi)))
      && (sec.submitShown <==> result.None?)
  {
    QuizQuestionsLength(Steps(topic));
  }

  /** At most one radio button of a question is checked. */
  lemma RadioExclusive(questions: seq<Question>, answers: Answers, result: Option<GradingResult>,
                       qi: nat, o1: nat, o2: nat)
    requires qi < |questions| && o1 < |questions[qi].options| && o2 < |questions[qi].options|
    requires QuestionItems(questions, answers, result)[qi].checked[o1]
    requires QuestionItems(questions, answers, result)[qi].checked[o2]
    ensures o1 == o2
  {
  }

  /** The self-test slide shows the score line exactly when a result exists,
      and then shows the result's own numbers. */
  lemma SelfTestShowsResult(loading: bool, error: string, topic: Option<Topic>, stepIndex: nat,
                            answers: Answers, result: Option<GradingResult>)
    requires Render(loading, error, topic, stepIndex, answers, result).Page?
    requires Render(loading, error, topic, stepIndex, answers, result).stepper.section.SelfTestSection?
    ensures var sec := Render(loading, error, topic, stepIndex, answers, result).stepper.section;
      && (sec.summary.Some? <==> result.Some?)
      && (result.Some? ==> sec.summary.value == Summary(result.value.score, result.value.correct, result.value.total))
  {
  }

  /** A topic with an empty step list renders a stepper with no slide, no
      questions and an enabled but inert "next" button. */
  lemma EmptyTopicRendersSafely(t: Topic, answers: Answers, result: Option<GradingResult>)
    requires t.steps == Some([])
    ensures var r := Render(false, "", Some(t), 0, answers, result);
      && r.Page? && r.stepper.section.NoSection? && r.stepper.stepCount == 0
      && r.stepper.prevDisabled && !r.stepper.nextDisabled
      && Next(0, Some(t)) == 0
  {
  }

  /** The "previous" button is disabled exactly where it would do nothing; the
      "next" button is disabled only where it would do nothing, and also does
      nothing, while enabled, at index 0 of an empty step list. */
  lemma ButtonsDisabledAtBoundaries(topic: Option<Topic>, stepIndex: nat)
    ensures Prev(stepIndex) == stepIndex <==> stepIndex == 0
    ensures Next(stepIndex, topic) == stepIndex <==>
      (stepIndex == StepCount(topic) - 1 || (StepCount(topic) == 0 && stepIndex == 0))
  {
  }
}
