/** The lesson content the detail view receives from the backend, and the pure
    computations the view derives from it: step navigation, the current step,
    the flattened quiz question list and the answer selection array. */
module Lesson {
  import opened Wrappers

  /** The four slide kinds a step may have (the JSON field `type`). */
  datatype StepKind = Theory | Case | Quiz | SelfTest

  /** A multiple-choice question: its text and its ordered options. */
  datatype Question = Question(text: string, options: seq<string>)

  /** One slide of a topic. `content` is shown on theory slides, `casePrompt`
      on case slides; `quizQuestions` may be missing from the JSON. */
  datatype Step = Step(kind: StepKind, title: string, content: string, casePrompt: string,
                       quizQuestions: Option<seq<Question>>)

  /** A topic in its detail form; its list of steps may be missing from the JSON. */
  datatype Topic = Topic(id: string, title: string, description: string, steps: Option<seq<Step>>)

  /** The backend's grading of one flattened question; an empty explanation
      stands for a missing one. */
  datatype Detail = Detail(isCorrect: bool, explanation: string, hotsLevel: string)

  /** What a successful submission returns; `details` is indexed like the
      flattened question list. The score is shown, never computed, here. */
  datatype GradingResult = GradingResult(score: int, correct: nat, total: nat, details: seq<Detail>)

  /** The answer selection: flattened question index to chosen option index,
      `None` for a hole (a question not answered yet). */
  type Answers = seq<Option<nat>>

  // ---------------------------------------------------------------------------
  // Steps and navigation

  /** `topic?.steps`, reading an absent topic or an absent list as empty. */
  function Steps(topic: Option<Topic>): seq<Step> {
    if topic.Some? && topic.value.steps.Some? then topic.value.steps.value else []
  }

  function StepCount(topic: Option<Topic>): nat {
    |Steps(topic)|
  }

  /** `(topic?.steps?.length || 1) - 1`: a length of 0 falls back to 1. */
  function LastIndex(topic: Option<Topic>): (r: nat)
    ensures StepCount(topic) > 0 ==> r + 1 == StepCount(topic)
    ensures StepCount(topic) == 0 ==> r == 0
  {
    (if StepCount(topic) == 0 then 1 else StepCount(topic)) - 1
  }

  /** The updater of the "next" button: `Math.min(i + 1, LastIndex)`. */
  function Next(i: nat, topic: Option<Topic>): (r: nat)
    ensures r <= i + 1
    ensures i + 1 < StepCount(topic) ==> r == i + 1
    ensures StepCount(topic) > 0 && i + 1 >= StepCount(topic) ==> r == StepCount(topic) - 1
    ensures StepCount(topic) > 0 ==> r < StepCount(topic)
    ensures StepCount(topic) == 0 ==> r == 0
  {
    if i + 1 < LastIndex(topic) then i + 1 else LastIndex(topic)
  }

  /** The updater of the "previous" button: `Math.max(i - 1, 0)`; it has no
      upper clamp. */
  function Prev(i: nat): (r: nat)
    ensures i == 0 ==> r == 0
    ensures i > 0 ==> r + 1 == i
  {
    if i - 1 > 0 then i - 1 else 0
  }

  /** Inside the steps, a move forward is undone by a move back. */
  lemma NextThenPrev(i: nat, topic: Option<Topic>)
    requires i + 1 < StepCount(topic)
    ensures Prev(Next(i, topic)) == i
  {
  }

  /** Inside the steps, a move back is undone by a move forward. */
  lemma PrevThenNext(i: nat, topic: Option<Topic>)
    requires 0 < i < StepCount(topic)
    ensures Next(Prev(i), topic) == i
  {
  }

  /** From two or more past the last step, `prev` leaves the index out of range. */
  lemma PrevKeepsOutOfRange(i: nat, topic: Option<Topic>)
    requires i > StepCount(topic)
    ensures Prev(i) >= StepCount(topic)
  {
  }

  /** From exactly one past the last step, one "previous" lands on the last
      step, whose slide is then shown. */
  lemma PrevFromJustPastLast(topic: Option<Topic>)
    requires StepCount(topic) > 0
    ensures Prev(StepCount(topic)) == StepCount(topic) - 1
    ensures CurrentStep(topic, Prev(StepCount(topic))) == Some(Steps(topic)[StepCount(topic) - 1])
  {
  }

  /** From the last step or any index past it, one "next" lands on the last
      step: it repairs an index left out of range. */
  lemma NextReturnsToLastStep(i: nat, topic: Option<Topic>)
    requires 0 < StepCount(topic) <= i + 1
    ensures Next(i, topic) == StepCount(topic) - 1
    ensures CurrentStep(topic, Next(i, topic)) == Some(Steps(topic)[StepCount(topic) - 1])
  {
  }

  /** A click on one of the two navigation buttons. */
  datatype Move = Forward | Back

  /** The step index after a series of clicks, starting from `i`. */
  function Walk(i: nat, topic: Option<Topic>, moves: seq<Move>): nat
    decreases |moves|
  {
    if moves == [] then i
    else
      var j := match moves[0] case Forward => Next(i, topic) case Back => Prev(i);
      Walk(j, topic, moves[1..])
  }

  /** However many times the buttons are clicked, an index inside the steps stays inside. */
  lemma {:induction false} WalkStaysInRange(i: nat, topic: Option<Topic>, moves: seq<Move>)
    requires i < StepCount(topic)
    ensures Walk(i, topic, moves) < StepCount(topic)
    decreases |moves|
  {
    if moves != [] {
      var j := match moves[0] case Forward => Next(i, topic) case Back => Prev(i);
      WalkStaysInRange(j, topic, moves[1..]);
    }
  }

  /** With no steps (or no topic) the index starting at 0 never leaves 0. */
  lemma {:induction false} WalkWithoutSteps(topic: Option<Topic>, moves: seq<Move>)
    requires StepCount(topic) == 0
    ensures Walk(0, topic, moves) == 0
    decreases |moves|
  {
    if moves != [] {
      WalkWithoutSteps(topic, moves[1..]);
    }
  }

  /** `topic?.steps?.[stepIndex] || null`. */
  function CurrentStep(topic: Option<Topic>, i: nat): (r: Option<Step>)
    ensures r.Some? <==> i < StepCount(topic)
    ensures r.Some? ==> r.value == Steps(topic)[i]
  {
    if i < StepCount(topic) then Some(Steps(topic)[i]) else None
  }

  // ---------------------------------------------------------------------------
  // Question flattening

  /** The questions one step contributes: those of a quiz step, a missing
      list read as empty (`s.quiz_questions || []`), none for other kinds. */
  function QuestionsOf(s: Step): seq<Question> {
    if s.kind == Quiz then s.quizQuestions.GetOr([]) else []
  }

  /** The flattened question list: the questions of every quiz step, in step
      order and in order within each step. */
  function QuizQuestions(steps: seq<Step>): (r: seq<Question>)
    ensures forall q :: q in r ==>
      exists k :: 0 <= k < |steps| && steps[k].kind == Quiz && q in QuestionsOf(steps[k])
    decreases |steps|
  {
    if steps == [] then []
    else
      var init, last := steps[..|steps| - 1], steps[|steps| - 1];
      assert forall k :: 0 <= k < |init| ==> init[k] == steps[k];
      QuizQuestions(init) + QuestionsOf(last)
  }

  /** The sum of the lengths of the quiz steps' question lists. */
  function QuizQuestionCount(steps: seq<Step>): nat
    decreases |steps|
  {
    if steps == [] then 0 else |QuestionsOf(steps[0])| + QuizQuestionCount(steps[1..])
  }

  /** Flattening distributes over concatenation of step lists. */
  lemma {:induction false} QuizQuestionsAppend(a: seq<Step>, b: seq<Step>)
    ensures QuizQuestions(a + b) == QuizQuestions(a) + QuizQuestions(b)
    decreases |b|
  {
    if b == [] {
      assert a + b == a;
    } else {
      var b' := b[..|b| - 1];
      assert (a + b)[..|a + b| - 1] == a + b';
      assert (a + b)[|a + b| - 1] == b[|b| - 1];
      QuizQuestionsAppend(a, b');
    }
  }

  /** The flattened list is exactly as long as all quiz steps' lists together. */
  lemma {:induction false} QuizQuestionsLength(steps: seq<Step>)
    ensures |QuizQuestions(steps)| == QuizQuestionCount(steps)
    decreases |steps|
  {
    if steps != [] {
      assert steps == [steps[0]] + steps[1..];
      QuizQuestionsAppend([steps[0]], steps[1..]);
      assert [steps[0]][..0] == [];
      QuizQuestionsLength(steps[1..]);
    }
  }

  /** Question `j` of step `k` sits in the flattened list right after the
      questions of the steps before `k`. */
  lemma QuizQuestionsPosition(steps: seq<Step>, k: nat, j: nat)
    requires k < |steps| && j < |QuestionsOf(steps[k])|
    ensures |QuizQuestions(steps[..k])| + j < |QuizQuestions(steps)|
    ensures QuizQuestions(steps)[|QuizQuestions(steps[..k])| + j] == QuestionsOf(steps[k])[j]
  {
    assert steps == (steps[..k] + [steps[k]]) + steps[k + 1..];
    QuizQuestionsAppend(steps[..k] + [steps[k]], steps[k + 1..]);
    QuizQuestionsAppend(steps[..k], [steps[k]]);
    QuizQuestionsSingle(steps[k]);
  }

  /** A one-step list flattens to that step's questions. */
  lemma QuizQuestionsSingle(s: Step)
    ensures QuizQuestions([s]) == QuestionsOf(s)
  {
  }

  /** A step that is not a quiz contributes nothing: removing it leaves the
      flattened list unchanged. */
  lemma QuizQuestionsSkipsNonQuiz(steps: seq<Step>, k: nat)
    requires k < |steps| && steps[k].kind != Quiz
    ensures QuizQuestions(steps) == QuizQuestions(steps[..k] + steps[k + 1..])
  {
    var pre, s, post := steps[..k], steps[k], steps[k + 1..];
    assert steps == (pre + [s]) + post;
    calc {
      QuizQuestions(steps);
      { QuizQuestionsAppend(pre + [s], post); }
      QuizQuestions(pre + [s]) + QuizQuestions(post);
      { QuizQuestionsAppend(pre, [s]); }
      QuizQuestions(pre) + QuizQuestions([s]) + QuizQuestions(post);
      { QuizQuestionsSingle(s); }
      QuizQuestions(pre) + QuizQuestions(post);
      { QuizQuestionsAppend(pre, post); }
      QuizQuestions(pre + post);
    }
  }

  // ---------------------------------------------------------------------------
  // Answer selection

  /** `n` unset slots. */
  function Holes(n: nat): Answers {
    seq(n, _ => None)
  }

  /** `copy = [...prev]; copy[q] = o`: a JavaScript array assignment past the
      end grows the array, leaving the slots in between unset. */
  function Assign(a: Answers, q: nat, o: nat): (r: Answers)
    ensures |r| == if q < |a| then |a| else q + 1
    ensures r[q] == Some(o)
    ensures forall i :: 0 <= i < |a| && i != q ==> r[i] == a[i]
    ensures forall i :: |a| <= i < |r| && i != q ==> r[i] == None
  {
    (if q < |a| then a else a + Holes(q + 1 - |a|))[q := Some(o)]
  }

  /** `answers[qi]`, which is `undefined` past the end. */
  function AnswerAt(a: Answers, qi: nat): Option<nat> {
    if qi < |a| then a[qi] else None
  }

  /** Whether the radio button of option `oi` of question `qi` is checked
      (`answers[qi] === oi`). */
  predicate Checked(a: Answers, qi: nat, oi: nat) {
    AnswerAt(a, qi) == Some(oi)
  }

  /** Selecting twice for the same question keeps only the second choice. */
  lemma AssignLastWriteWins(a: Answers, q: nat, o1: nat, o2: nat)
    ensures Assign(Assign(a, q, o1), q, o2) == Assign(a, q, o2)
  {
  }

  /** Repeating a selection changes nothing. */
  lemma AssignIdempotent(a: Answers, q: nat, o: nat)
    ensures Assign(Assign(a, q, o), q, o) == Assign(a, q, o)
  {
  }

  /** Selections for different questions do not interfere: their order does not matter. */
  lemma AssignCommutes(a: Answers, q1: nat, o1: nat, q2: nat, o2: nat)
    requires q1 != q2
    ensures Assign(Assign(a, q1, o1), q2, o2) == Assign(Assign(a, q2, o2), q1, o1)
  {
  }

  /** After a selection, exactly the chosen option of that question is
      checked, and every other question shows what it showed before. */
  lemma AssignChecks(a: Answers, q: nat, o: nat, qi: nat, oi: nat)
    ensures Checked(Assign(a, q, o), qi, oi) <==> if qi == q then oi == o else Checked(a, qi, oi)
  {
  }
}
