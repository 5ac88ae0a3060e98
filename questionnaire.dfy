/**
 * The onboarding questionnaire of the profile app (components/Onboarding.tsx):
 * answers kept as a list with one entry per question, the multiple-choice
 * selection and its custom "other" text, the answer string they are joined
 * into, and the restore of a previous answer when stepping back.
 */
module Questionnaire {
  import opened Common
  import opened Text
  import opened Domain

  /** The test `a => a.questionId !== id`. */
  function OtherQuestion(id: int): UserAnswer -> bool
  {
    (a: UserAnswer) => a.questionId != id
  }

  /** The test `a => a.questionId === id`. */
  function SameQuestion(id: int): UserAnswer -> bool
  {
    (a: UserAnswer) => a.questionId == id
  }

  /**
   * The answer list after answering question `id`: earlier answers to it are
   * dropped, all others stay in their order, and the new answer goes last.
   */
  function RecordAnswer(answers: seq<UserAnswer>, id: int, answer: string): (r: seq<UserAnswer>)
    ensures |r| >= 1 && r[|r| - 1] == UserAnswer(id, answer)
    ensures forall i :: 0 <= i < |r| - 1 ==> r[i].questionId != id
    ensures forall i :: 0 <= i < |answers| && answers[i].questionId != id ==> answers[i] in r
    ensures forall i :: 0 <= i < |r| - 1 ==> r[i] in answers
  {
    Filter(answers, OtherQuestion(id)) + [UserAnswer(id, answer)]
  }

  /** The answers kept keep their relative order. */
  lemma {:induction false} RecordAnswerKeepsOrder(answers: seq<UserAnswer>, id: int, answer: string)
    ensures var r := RecordAnswer(answers, id, answer);
            IsSubsequence(r[..|r| - 1], answers)
  {
    var kept := Filter(answers, OtherQuestion(id));
    var r := RecordAnswer(answers, id, answer);
    assert r[..|r| - 1] == kept;
  }

  /** Answering a question again replaces the earlier answer: only the last answer counts. */
  lemma {:induction false} RecordAnswerTwice(answers: seq<UserAnswer>, id: int, first: string, second: string)
    ensures RecordAnswer(RecordAnswer(answers, id, first), id, second) == RecordAnswer(answers, id, second)
  {
    var p := OtherQuestion(id);
    var kept := Filter(answers, p);
    FilterSnoc(kept, UserAnswer(id, first), p);
    FilterTwice(answers, p);
  }

  /** Answering leaves exactly one answer for the question. */
  lemma {:induction false} RecordAnswerOnce(answers: seq<UserAnswer>, id: int, answer: string)
    ensures Count(RecordAnswer(answers, id, answer), SameQuestion(id)) == 1
  {
    var r := RecordAnswer(answers, id, answer);
    var kept := r[..|r| - 1];
    assert r == kept + [UserAnswer(id, answer)];
    FilterSnoc(kept, UserAnswer(id, answer), SameQuestion(id));
    FilterNonePass(kept, SameQuestion(id));
    FilterLength(r, SameQuestion(id));
  }

  /** `answers.find(a => a.questionId === id)`. */
  function FindAnswer(answers: seq<UserAnswer>, id: int): (r: Option<UserAnswer>)
    ensures r.None? <==> forall i :: 0 <= i < |answers| ==> answers[i].questionId != id
    ensures r.Some? ==> r.value in answers && r.value.questionId == id
    ensures r.Some? ==> exists k :: 0 <= k < |answers| && r.value == answers[k]
                                    && forall j :: 0 <= j < k ==> answers[j].questionId != id
  {
    var k := FindFirst(answers, SameQuestion(id));
    if k < 0 then None else Some(answers[k])
  }

  /** The answer found for a question just answered is that answer. */
  lemma {:induction false} FindRecorded(answers: seq<UserAnswer>, id: int, answer: string)
    ensures FindAnswer(RecordAnswer(answers, id, answer), id) == Some(UserAnswer(id, answer))
  {
    var r := RecordAnswer(answers, id, answer);
    var k := FindFirst(r, SameQuestion(id));
    assert SameQuestion(id)(r[|r| - 1]);
    assert k == |r| - 1;
  }

  /**
   * The answer `handleMultiSubmit` submits: the selections joined with
   * `", "`, followed by the trimmed custom text (after a separator when the
   * joined selections are not empty); `""` means nothing is submitted.
   */
  function MultiAnswer(selections: seq<string>, other: string): (r: string)
    ensures IsBlank(other) ==> r == Join(selections, Sep)
    ensures !IsBlank(other) && Join(selections, Sep) == "" ==> r == Trim(other)
    ensures !IsBlank(other) && Join(selections, Sep) != "" ==> r == Join(selections, Sep) + Sep + Trim(other)
    ensures r == "" <==> Join(selections, Sep) == "" && IsBlank(other)
  {
    var joined := Join(selections, Sep);
    var o := Trim(other);
    if o != "" then
      if |joined| > 0 then joined + Sep + o else o
    else joined
  }

  /** The test `p => knownOptions.includes(p)`. */
  function Known(options: seq<string>): string -> bool
  {
    p => p in options
  }

  /** The test `p => !knownOptions.includes(p)`. */
  function Unknown(options: seq<string>): string -> bool
  {
    p => p !in options
  }

  /** The selections restored from a stored answer: its `", "` pieces that are known options. */
  function RestoreSelections(options: seq<string>, answer: string): (r: seq<string>)
    ensures forall i :: 0 <= i < |r| ==> r[i] in options && r[i] in Split(answer)
  {
    Filter(Split(answer), Known(options))
  }

  /** The custom text restored from a stored answer: its unknown pieces rejoined, when custom text is allowed. */
  function RestoreOther(options: seq<string>, allowOther: bool, answer: string): (r: string)
    ensures !allowOther ==> r == ""
  {
    if allowOther then Join(Filter(Split(answer), Unknown(options)), Sep) else ""
  }

  /** No known option is empty or holds the separator. */
  predicate PlainOptions(options: seq<string>)
  {
    forall i :: 0 <= i < |options| ==> options[i] != "" && !HasSep(options[i])
  }

  /** Joining non-empty pieces gives the empty text only when there are none. */
  lemma {:induction false} JoinNonEmpty(parts: seq<string>)
    requires forall i :: 0 <= i < |parts| ==> parts[i] != ""
    ensures Join(parts, Sep) == "" <==> parts == []
  {
    if |parts| >= 2 {
      JoinNonEmpty(parts[1..]);
      assert |Join(parts, Sep)| >= |Sep|;
    }
  }

  /**
   * Stepping back restores a submitted multiple choice: when the options are
   * plain, every selection is a known option, and the custom text (trimmed)
   * is empty or an unknown text without the separator, the stored answer
   * yields the same selections and the same custom text.
   */
  lemma {:induction false} RestoreRoundTrip(options: seq<string>, selections: seq<string>, other: string)
    requires PlainOptions(options)
    requires forall i :: 0 <= i < |selections| ==> selections[i] in options
    requires !IsBlank(other) ==> Trim(other) !in options && !HasSep(Trim(other))
    requires MultiAnswer(selections, other) != ""
    ensures RestoreSelections(options, MultiAnswer(selections, other)) == selections
    ensures RestoreOther(options, true, MultiAnswer(selections, other)) == (if IsBlank(other) then "" else Trim(other))
  {
    var answer := MultiAnswer(selections, other);
    var o := Trim(other);
    forall i | 0 <= i < |selections|
      ensures selections[i] != "" && !HasSep(selections[i])
    {
      var k :| 0 <= k < |options| && options[k] == selections[i];
    }
    JoinNonEmpty(selections);
    FilterAllPass(selections, Known(options));
    FilterNonePass(selections, Unknown(options));
    if IsBlank(other) {
      SplitJoin(selections);
    } else if selections == [] {
      SplitPlain(o);
      assert Split(answer) == [o];
      assert Filter([o], Known(options)) == [];
      assert Filter([o], Unknown(options)) == [o];
    } else {
      JoinSnoc(selections, o);
      SplitJoin(selections + [o]);
      FilterSnoc(selections, o, Known(options));
      FilterSnoc(selections, o, Unknown(options));
      assert Filter(selections + [o], Unknown(options)) == [o];
    }
  }

  /**
   * A custom text that happens to equal an option does not come back as
   * custom text: stepping back turns it into a selection.
   */
  lemma {:induction false} OtherMatchingAnOptionBecomesASelection(options: seq<string>, other: string)
    requires !IsBlank(other) && Trim(other) in options && !HasSep(Trim(other))
    ensures RestoreSelections(options, MultiAnswer([], other)) == [Trim(other)]
    ensures RestoreOther(options, true, MultiAnswer([], other)) == ""
  {
    var o := Trim(other);
    SplitPlain(o);
    assert Split(MultiAnswer([], other)) == [o];
    assert Filter([o], Known(options)) == [o];
    assert Filter([o], Unknown(options)) == [];
  }

  /** The alert shown when generation fails. */
  const FailureAlert := "Failed to generate plan. Please try again."

  class QuestionnaireWizard {
    const questions: seq<Question>
    var currentStep: nat
    var answers: seq<UserAnswer>
    var inputValue: string
    var multiSelections: seq<string>
    var otherValue: string
    var isGenerating: bool

    /** The step points at a question. */
    predicate Valid()
      reads this
    {
      currentStep < |questions|
    }

    constructor(questions: seq<Question>)
      requires |questions| > 0
      ensures Valid()
      ensures this.questions == questions && currentStep == 0 && answers == []
      ensures inputValue == "" && multiSelections == [] && otherValue == "" && !isGenerating
    {
      this.questions := questions;
      currentStep := 0;
      answers := [];
      inputValue := "";
      multiSelections := [];
      otherValue := "";
      isGenerating := false;
    }

    /**
     * `handleAnswer`: the answer replaces any earlier answer to the question
     * on screen, the inputs are cleared, and the step moves on, except on the
     * last question, where generation starts with the new answer list.
     */
    method HandleAnswer(answer: string) returns (finished: Option<seq<UserAnswer>>)
      requires Valid()
      modifies this
      ensures Valid()
      ensures answers == RecordAnswer(old(answers), questions[old(currentStep)].id, answer)
      ensures inputValue == "" && multiSelections == [] && otherValue == ""
      ensures old(currentStep) < |questions| - 1 ==>
                currentStep == old(currentStep) + 1 && finished.None? && isGenerating == old(isGenerating)
      ensures old(currentStep) == |questions| - 1 ==>
                currentStep == old(currentStep) && finished == Some(answers) && isGenerating
    {
      inputValue := "";
      multiSelections := [];
      otherValue := "";
      answers := RecordAnswer(answers, questions[currentStep].id, answer);
      if currentStep == |questions| - 1 {
        isGenerating := true;
        finished := Some(answers);
      } else {
        currentStep := currentStep + 1;
        finished := None;
      }
    }

    /** `toggleSelection`: a selected option is deselected (every copy), another is appended. */
    method ToggleSelection(option: string)
      modifies this
      ensures multiSelections == ToggleInList(old(multiSelections), option)
      ensures currentStep == old(currentStep) && answers == old(answers)
      ensures inputValue == old(inputValue) && otherValue == old(otherValue) && isGenerating == old(isGenerating)
    {
      multiSelections := ToggleInList(multiSelections, option);
    }

    /** `handleMultiSubmit`: nothing happens when the combined answer is empty; otherwise it is answered. */
    method HandleMultiSubmit() returns (finished: Option<seq<UserAnswer>>)
      requires Valid()
      modifies this
      ensures Valid()
      ensures MultiAnswer(old(multiSelections), old(otherValue)) == "" ==>
                finished.None? && currentStep == old(currentStep) && answers == old(answers)
                && multiSelections == old(multiSelections) && otherValue == old(otherValue)
                && inputValue == old(inputValue) && isGenerating == old(isGenerating)
      ensures MultiAnswer(old(multiSelections), old(otherValue)) != "" ==>
                answers == RecordAnswer(old(answers), questions[old(currentStep)].id, MultiAnswer(old(multiSelections), old(otherValue)))
                && multiSelections == [] && otherValue == "" && inputValue == ""
                && (old(currentStep) < |questions| - 1 ==> currentStep == old(currentStep) + 1 && finished.None?)
                && (old(currentStep) == |questions| - 1 ==> currentStep == old(currentStep) && finished == Some(answers) && isGenerating)
    {
      var finalAnswer := MultiAnswer(multiSelections, otherValue);
      if finalAnswer == "" {
        return None;
      }
      finished := HandleAnswer(finalAnswer);
    }

    /**
     * The end of `finishOnboarding`: a generated plan yields the new profile
     * (named "My Kitchen", no saved-recipe list) with the submitted answers;
     * a failure raises the alert and stops generating.
     */
    method FinishOnboarding(finalAnswers: seq<UserAnswer>, generated: Generated, id: string, now: int)
      returns (profile: Option<UserProfile>, alert: Option<string>)
      requires isGenerating
      modifies this
      ensures generated.Plan? ==>
                profile == Some(UserProfile(id, "My Kitchen", now, finalAnswers, Some(generated.plan), None))
                && alert.None? && isGenerating
      ensures generated.Failure? ==> profile.None? && alert == Some(FailureAlert) && !isGenerating
      ensures currentStep == old(currentStep) && answers == old(answers)
      ensures inputValue == old(inputValue) && multiSelections == old(multiSelections) && otherValue == old(otherValue)
    {
      if generated.Plan? {
        profile := Some(UserProfile(id, "My Kitchen", now, finalAnswers, Some(generated.plan), None));
        alert := None;
      } else {
        profile := None;
        alert := Some(FailureAlert);
        isGenerating := false;
      }
    }

    /**
     * `handleBack`: on any question but the first, step back and restore the
     * previous question's stored answer: the selections and custom text of a
     * multiple choice, the typed text of a text question; a single choice
     * restores nothing.
     */
    method HandleBack()
      requires Valid()
      modifies this
      ensures Valid() && answers == old(answers) && isGenerating == old(isGenerating)
      ensures old(currentStep) == 0 ==>
                currentStep == 0 && inputValue == old(inputValue)
                && multiSelections == old(multiSelections) && otherValue == old(otherValue)
      ensures old(currentStep) > 0 ==> currentStep == old(currentStep) - 1
      ensures old(currentStep) > 0 ==>
                var q := questions[currentStep];
                var found := FindAnswer(answers, q.id);
                (found.Some? && q.options.Some? && q.allowMultiple ==>
                   multiSelections == RestoreSelections(q.options.value, found.value.answer)
                   && otherValue == RestoreOther(q.options.value, q.allowOther, found.value.answer)
                   && inputValue == old(inputValue))
                && (found.Some? && q.options.None? ==>
                      inputValue == found.value.answer
                      && multiSelections == old(multiSelections) && otherValue == old(otherValue))
                && (found.None? || (q.options.Some? && !q.allowMultiple) ==>
                      inputValue == old(inputValue)
                      && multiSelections == old(multiSelections) && otherValue == old(otherValue))
    {
      if currentStep > 0 {
        var prevIndex := currentStep - 1;
        currentStep := prevIndex;
        var prevQuestion := questions[prevIndex];
        var prevAnswer := FindAnswer(answers, prevQuestion.id);
        if prevAnswer.Some? {
          if prevQuestion.options.Some? && prevQuestion.allowMultiple {
            multiSelections := RestoreSelections(prevQuestion.options.value, prevAnswer.value.answer);
            otherValue := RestoreOther(prevQuestion.options.value, prevQuestion.allowOther, prevAnswer.value.answer);
          } else if prevQuestion.options.None? {
            inputValue := prevAnswer.value.answer;
          }
        }
      }
    }
  }
}
