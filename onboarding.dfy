/**
 * The onboarding questionnaire of the web app (src/pages/Onboarding.jsx):
 * answers kept in an object keyed by question id, option toggling, the
 * check made before each step, the answers handed to the plan generator,
 * the error shown when generation fails, and the step counter.
 */
module Onboarding {
  import opened Common
  import opened Text
  import opened Domain

  /** A stored answer: the text of a single choice or a typed answer, or the list of a multiple choice. */
  datatype AnswerValue = Single(text: string) | Multi(items: seq<string>)

  /**
   * The kind of answer a question collects: option buttons of a multiple
   * choice store lists, every other question stores text.
   */
  predicate Fits(q: Question, v: AnswerValue)
  {
    v.Multi? <==> q.options.Some? && q.allowMultiple
  }

  /** Every stored answer has the kind its question collects. */
  predicate AnswersFit(questions: seq<Question>, answers: map<int, AnswerValue>)
  {
    forall i :: 0 <= i < |questions| && questions[i].id in answers ==> Fits(questions[i], answers[questions[i].id])
  }

  /** `answers[id]`, absent when the question was never answered. */
  function Lookup(answers: map<int, AnswerValue>, id: int): Option<AnswerValue>
  {
    if id in answers then Some(answers[id]) else None
  }

  /** `answers[question.id] || []` for a multiple-choice question. */
  function Selections(v: Option<AnswerValue>): (r: seq<string>)
    requires v.None? || v.value.Multi?
    ensures v.None? ==> r == []
  {
    if v.None? then [] else v.value.items
  }

  /** The answer as the generator receives it: a list is joined with `", "`. */
  function AnswerText(v: AnswerValue): string
  {
    match v
    case Single(t) => t
    case Multi(items) => Join(items, Sep)
  }

  /** A joined multiple-choice answer splits back into its choices when no choice holds the separator. */
  lemma {:induction false} AnswerTextSplits(items: seq<string>)
    requires |items| >= 1
    requires forall i :: 0 <= i < |items| ==> !HasSep(items[i])
    ensures Split(AnswerText(Multi(items))) == items
  {
    SplitJoin(items);
  }

  const SelectAtLeastOne := "Please select at least one option to continue"
  const SelectOne := "Please select an option to continue"
  const EnterAnswer := "Please enter your answer to continue"

  /**
   * The check `handleNext` makes before leaving a question: a multiple
   * choice needs a non-empty selection, a single choice a non-empty value,
   * and a text question an answer that is not blank.
   */
  function ValidationError(q: Question, v: Option<AnswerValue>): (r: Option<string>)
    requires v.None? || Fits(q, v.value)
    ensures q.options.Some? && q.allowMultiple ==>
              (r.Some? <==> Selections(v) == []) && (r.Some? ==> r.value == SelectAtLeastOne)
    ensures q.options.Some? && !q.allowMultiple ==>
              (r.Some? <==> v.None? || v.value.text == "") && (r.Some? ==> r.value == SelectOne)
    ensures q.options.None? ==>
              (r.Some? <==> v.None? || IsBlank(v.value.text)) && (r.Some? ==> r.value == EnterAnswer)
  {
    if q.options.Some? then
      if q.allowMultiple then
        if v.None? || |v.value.items| == 0 then Some(SelectAtLeastOne) else None
      else
        if v.None? || v.value.text == "" then Some(SelectOne) else None
    else
      if v.None? || Trim(v.value.text) == "" then Some(EnterAnswer) else None
  }

  /**
   * `Object.entries(answers)` turned into the generator's answers: one entry
   * per answered question, in increasing id order (the order of integer-like
   * keys), each carrying that question's answer text.
   */
  function FormatAnswers(answers: map<int, AnswerValue>): (r: seq<UserAnswer>)
    ensures |r| == |answers|
    ensures forall i :: 0 <= i < |r| ==> r[i].questionId in answers && r[i].answer == AnswerText(answers[r[i].questionId])
    ensures forall id :: id in answers ==> exists i :: 0 <= i < |r| && r[i].questionId == id
    ensures forall i, j :: 0 <= i < j < |r| ==> r[i].questionId < r[j].questionId
  {
    var keys := AscendingKeys(answers.Keys);
    EveryKeyFormatted(answers, keys);
    AnswersFor(answers, keys)
  }

  /** One answer per key, carrying the text of that key's answer. */
  function AnswersFor(answers: map<int, AnswerValue>, keys: seq<int>): (r: seq<UserAnswer>)
    requires forall i :: 0 <= i < |keys| ==> keys[i] in answers.Keys
    ensures |r| == |keys|
    ensures forall i :: 0 <= i < |keys| ==> r[i] == UserAnswer(keys[i], AnswerText(answers[keys[i]]))
  {
    seq(|keys|, i requires 0 <= i < |keys| => UserAnswer(keys[i], AnswerText(answers[keys[i]])))
  }

  /**
   * Answers laid out one per key, for keys in increasing order that are
   * exactly the answered questions, are the formatted answers.
   */
  lemma {:induction false} EveryKeyFormatted(answers: map<int, AnswerValue>, keys: seq<int>)
    requires |keys| == |answers.Keys|
    requires forall i :: 0 <= i < |keys| ==> keys[i] in answers.Keys
    requires forall x :: x in answers.Keys ==> x in keys
    requires forall i, j :: 0 <= i < j < |keys| ==> keys[i] < keys[j]
    ensures var r := AnswersFor(answers, keys);
            && |r| == |answers|
            && (forall i :: 0 <= i < |r| ==> r[i].questionId in answers && r[i].answer == AnswerText(answers[r[i].questionId]))
            && (forall id :: id in answers ==> exists i :: 0 <= i < |r| && r[i].questionId == id)
            && (forall i, j :: 0 <= i < j < |r| ==> r[i].questionId < r[j].questionId)
  {
    var r := AnswersFor(answers, keys);
    forall id | id in answers
      ensures exists i :: 0 <= i < |r| && r[i].questionId == id
    {
      assert id in answers.Keys;
      var i :| 0 <= i < |keys| && keys[i] == id;
      assert r[i].questionId == id;
    }
  }

  /** No question appears twice among the formatted answers. */
  lemma {:induction false} FormattedIdsDistinct(answers: map<int, AnswerValue>, i: nat, j: nat)
    requires i < j < |FormatAnswers(answers)|
    ensures FormatAnswers(answers)[i].questionId != FormatAnswers(answers)[j].questionId
  {
  }

  const KeyMessage := "Unable to generate meal plan. Please try again later."
  const NetworkMessage := "Network error. Please check your internet connection and try again."
  const BusyMessage := "Service is busy. Please wait a moment and try again."
  const GenericMessage := "Something went wrong generating your plan. Please try again."

  /** The lower-cased error message, or `""` when the error has none. */
  function LoweredMessage(message: Option<string>): string
  {
    Lower(message.GetOr(""))
  }

  predicate KeyProblem(m: string) { Contains(m, "api key") || Contains(m, "unauthorized") }
  predicate NetworkProblem(m: string) { Contains(m, "network") || Contains(m, "fetch") }
  predicate BusyProblem(m: string) { Contains(m, "rate limit") || Contains(m, "quota") }

  /**
   * The message shown when generation fails: credential problems first, then
   * network problems, then rate limits, and a generic message otherwise; the
   * raw error text is never shown.
   */
  function GenerationErrorMessage(message: Option<string>): (r: string)
    ensures r in {KeyMessage, NetworkMessage, BusyMessage, GenericMessage}
    ensures r == KeyMessage <==> KeyProblem(LoweredMessage(message))
    ensures r == NetworkMessage <==> !KeyProblem(LoweredMessage(message)) && NetworkProblem(LoweredMessage(message))
    ensures r == BusyMessage <==>
              !KeyProblem(LoweredMessage(message)) && !NetworkProblem(LoweredMessage(message)) && BusyProblem(LoweredMessage(message))
  {
    var m := LoweredMessage(message);
    if KeyProblem(m) then KeyMessage
    else if NetworkProblem(m) then NetworkMessage
    else if BusyProblem(m) then BusyMessage
    else GenericMessage
  }

  /** An error without a message gets the generic text; the classification ignores case. */
  lemma {:induction false} GenerationErrorCases(a: string, b: string)
    ensures GenerationErrorMessage(None) == GenericMessage
    ensures EqualsIgnoreCase(a, b) ==> GenerationErrorMessage(Some(a)) == GenerationErrorMessage(Some(b))
  {
    assert LoweredMessage(None) == "";
  }

  /** "Step n of m": registration and verification come first, so question `k` is step `k + 3` of `#questions + 2`. */
  function StepLabel(currentStep: nat, questionCount: nat): (nat, nat)
  {
    (currentStep + 3, 2 + questionCount)
  }

  /** The width of the progress bar, in whole percent. */
  function StepProgress(currentStep: nat, questionCount: nat): nat
  {
    RoundPercent(StepLabel(currentStep, questionCount).0, StepLabel(currentStep, questionCount).1)
  }

  /**
   * The counter never passes the total, the last question shows the total
   * and a full bar, and the bar never shrinks as the questionnaire moves on.
   */
  lemma {:induction false} StepLabelBounds(currentStep: nat, later: nat, questionCount: nat)
    requires currentStep <= later < questionCount
    ensures StepLabel(currentStep, questionCount).0 <= StepLabel(currentStep, questionCount).1
    ensures later == questionCount - 1 ==> StepLabel(later, questionCount).0 == StepLabel(later, questionCount).1
    ensures later == questionCount - 1 ==> StepProgress(later, questionCount) == 100
    ensures StepProgress(currentStep, questionCount) <= StepProgress(later, questionCount) <= 100
  {
    RoundPercentRange(later + 3, 2 + questionCount);
    RoundPercentMonotone(currentStep + 3, later + 3, 2 + questionCount);
  }

  /** What the "next" button led to. */
  datatype NextOutcome =
    | Rejected(message: string)
    | Advanced
    | Submitted(formatted: seq<UserAnswer>)

  class OnboardingPage {
    const questions: seq<Question>
    var currentStep: nat
    var answers: map<int, AnswerValue>
    var isGenerating: bool
    var error: string

    /** The step points at a question, question ids are distinct and every answer has its question's kind. */
    predicate Valid()
      reads this
    {
      currentStep < |questions| && DistinctIds(questions) && AnswersFit(questions, answers)
    }

    /** The question on screen. */
    function Current(): Question
      requires Valid()
      reads this
    {
      questions[currentStep]
    }

    constructor(questions: seq<Question>)
      requires |questions| > 0 && DistinctIds(questions)
      ensures Valid()
      ensures this.questions == questions && currentStep == 0 && answers == map[] && !isGenerating && error == ""
    {
      this.questions := questions;
      currentStep := 0;
      answers := map[];
      isGenerating := false;
      error := "";
    }

    /** Storing an answer of the right kind for the question on screen keeps every answer fitting. */
    lemma {:induction false} StoreFits(v: AnswerValue)
      requires Valid() && Fits(Current(), v)
      ensures AnswersFit(questions, answers[Current().id := v])
    {
      var a := answers[Current().id := v];
      forall i | 0 <= i < |questions| && questions[i].id in a
        ensures Fits(questions[i], a[questions[i].id])
      {
        if i != currentStep {
          assert questions[i].id != Current().id by {
            if i < currentStep {
              assert questions[i].id != questions[currentStep].id;
            } else {
              assert questions[currentStep].id != questions[i].id;
            }
          }
        }
      }
    }

    /**
     * `handleOptionSelect`: for a multiple choice the option is toggled in
     * the question's list (every copy removed when present, appended when
     * absent); for a single choice it becomes the answer. No other answer
     * changes, and the error is cleared.
     */
    method HandleOptionSelect(option: string)
      requires Valid() && Current().options.Some?
      modifies this
      ensures Valid()
      ensures currentStep == old(currentStep) && isGenerating == old(isGenerating) && error == ""
      ensures old(Current()).allowMultiple ==>
                answers == old(answers)[old(Current()).id := Multi(ToggleInList(Selections(Lookup(old(answers), old(Current()).id)), option))]
      ensures !old(Current()).allowMultiple ==> answers == old(answers)[old(Current()).id := Single(option)]
    {
      var q := Current();
      var v: AnswerValue;
      if q.allowMultiple {
        var current := Selections(Lookup(answers, q.id));
        v := Multi(ToggleInList(current, option));
      } else {
        v := Single(option);
      }
      StoreFits(v);
      answers := answers[q.id := v];
      error := "";
    }

    /** `handleInput`: the typed text becomes the answer of the text question on screen; the error is cleared. */
    method HandleInput(value: string)
      requires Valid() && Current().options.None?
      modifies this
      ensures Valid()
      ensures currentStep == old(currentStep) && isGenerating == old(isGenerating) && error == ""
      ensures answers == old(answers)[old(Current()).id := Single(value)]
    {
      StoreFits(Single(value));
      answers := answers[Current().id := Single(value)];
      error := "";
    }

    /**
     * `handleNext`: an unanswered question shows its message and nothing
     * else changes; an answered question clears the error and moves one step
     * on, except the last, which starts generating from the formatted answers.
     */
    method HandleNext() returns (outcome: NextOutcome)
      requires Valid() && !isGenerating
      modifies this
      ensures Valid() && answers == old(answers)
      ensures var e := ValidationError(old(Current()), Lookup(old(answers), old(Current()).id));
              e.Some? ==> outcome == Rejected(e.value) && error == e.value && currentStep == old(currentStep) && !isGenerating
      ensures var e := ValidationError(old(Current()), Lookup(old(answers), old(Current()).id));
              e.None? && old(currentStep) < |questions| - 1 ==>
                outcome == Advanced && error == "" && currentStep == old(currentStep) + 1 && !isGenerating
      ensures var e := ValidationError(old(Current()), Lookup(old(answers), old(Current()).id));
              e.None? && old(currentStep) == |questions| - 1 ==>
                outcome == Submitted(FormatAnswers(answers)) && error == "" && currentStep == old(currentStep) && isGenerating
    {
      var q := Current();
      var e := ValidationError(q, Lookup(answers, q.id));
      if e.Some? {
        error := e.value;
        return Rejected(e.value);
      }
      error := "";
      if currentStep == |questions| - 1 {
        isGenerating := true;
        outcome := Submitted(FormatAnswers(answers));
      } else {
        currentStep := currentStep + 1;
        outcome := Advanced;
      }
    }

    /**
     * The end of `handleNext` on the last question: a generated plan yields
     * the new profile (named "Chef", no saved recipes) carrying the formatted
     * answers; a failure shows its classified message. Generation stops either way.
     */
    method FinishGeneration(formatted: seq<UserAnswer>, generated: Generated, id: string, now: int)
      returns (profile: Option<UserProfile>)
      requires Valid() && isGenerating
      modifies this
      ensures Valid() && !isGenerating
      ensures currentStep == old(currentStep) && answers == old(answers)
      ensures generated.Plan? ==>
                profile == Some(UserProfile(id, "Chef", now, formatted, Some(generated.plan), Some([]))) && error == old(error)
      ensures generated.Failure? ==> profile.None? && error == GenerationErrorMessage(generated.message)
    {
      if generated.Plan? {
        profile := Some(UserProfile(id, "Chef", now, formatted, Some(generated.plan), Some([])));
      } else {
        profile := None;
        error := GenerationErrorMessage(generated.message);
      }
      isGenerating := false;
    }

    /** The back arrow: one step back, except on the first question; answers are kept. */
    method HandleBack()
      requires Valid()
      modifies this
      ensures Valid()
      ensures currentStep == (if old(currentStep) > 0 then old(currentStep) - 1 else old(currentStep))
      ensures answers == old(answers) && error == old(error) && isGenerating == old(isGenerating)
    {
      if currentStep > 0 {
        currentStep := currentStep - 1;
      }
    }
  }
}
