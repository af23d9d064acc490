/** The "Draft with AI" wizard (components/SectionDrafter.tsx): it walks
    through a fixed list of questions one at a time, collects an answer per
    question id, asks the text-generation service for a draft built from
    those answers, lets the user edit the draft, and hands the accepted
    draft to the section it belongs to. */
module SectionDrafter {
  import opened Text
  import opened Service

  datatype Step = Questions | Generating | Review

  datatype Question = Question(id: string, question: string, placeholder: string)

  /** What `onAccept` receives: the draft parsed as JSON when it parses,
      the raw draft text otherwise. */
  datatype Accepted<V> = Parsed(value: V) | Raw(text: string)

  const NotAnswered := "Not answered"
  const BlockSeparator := "\n\n"
  const FailurePrefix := "Failed to generate content: "
  const FailureSuffix := ". Please try again."
  const UnknownError := "Unknown error"

  /** `answers[id] || 'Not answered'`: a missing answer and an empty one
      both read as not answered. */
  function AnswerOrDefault(answers: map<string, string>, id: string): string {
    if id in answers && answers[id] != "" then answers[id] else NotAnswered
  }

  /** One question with its answer under it. */
  function AnswerBlock(q: Question, answers: map<string, string>): string {
    q.question + "\n" + AnswerOrDefault(answers, q.id)
  }

  function AnswerBlocks(questions: seq<Question>, answers: map<string, string>): (r: seq<string>)
    ensures |r| == |questions|
    ensures forall i :: 0 <= i < |questions| ==> r[i] == AnswerBlock(questions[i], answers)
  {
    seq(|questions|, i requires 0 <= i < |questions| => AnswerBlock(questions[i], answers))
  }

  /** The answers part of the prompt: one block per question, in the order
      of the questions, separated by blank lines. */
  function AnswersText(questions: seq<Question>, answers: map<string, string>): string {
    Join(AnswerBlocks(questions, answers), BlockSeparator)
  }

  /** Question `i`'s block (its wording, a line break, then its answer or
      'Not answered') appears in the answers text at its place in the list,
      and, unless it is the last question, a blank line follows it. */
  lemma {:induction false} AnswersTextInOrder(questions: seq<Question>, answers: map<string, string>, i: nat)
    requires i < |questions|
    ensures var t := AnswersText(questions, answers);
      var o := Offset(AnswerBlocks(questions, answers), BlockSeparator, i);
      var e := o + |AnswerBlock(questions[i], answers)|;
      && e <= |t|
      && t[o..e] == AnswerBlock(questions[i], answers)
      && (i + 1 < |questions| ==> e + |BlockSeparator| <= |t| && t[e..e + |BlockSeparator|] == BlockSeparator)
      && (i + 1 == |questions| ==> e == |t|)
  {
    var blocks := AnswerBlocks(questions, answers);
    JoinPlacesParts(blocks, BlockSeparator, i);
    if i + 1 < |questions| {
      assert Offset(blocks, BlockSeparator, i + 1) == Offset(blocks, BlockSeparator, i) + |blocks[i]| + |BlockSeparator|;
    }
  }

  /** The answers text is the blocks and the blank lines between them and
      nothing more: empty when there are no questions, and otherwise as
      long as every block plus one separator between each two. */
  lemma {:induction false} AnswersTextLength(questions: seq<Question>, answers: map<string, string>)
    ensures questions == [] ==> AnswersText(questions, answers) == ""
    ensures questions != [] ==>
      |AnswersText(questions, answers)|
        == Offset(AnswerBlocks(questions, answers), BlockSeparator, |questions|) - |BlockSeparator|
  {
    JoinLength(AnswerBlocks(questions, answers), BlockSeparator);
  }

  /** The error shown when generation fails: the thrown error's message,
      or 'Unknown error' for a thrown value that is not an `Error`, framed
      by the fixed prefix and suffix. Never empty. */
  function FailureText(message: Option<string>): (r: string)
    ensures |r| >= |FailurePrefix| + |FailureSuffix| > 0
    ensures r[..|FailurePrefix|] == FailurePrefix
    ensures r[|r| - |FailureSuffix|..] == FailureSuffix
    ensures message.Some? ==> r[|FailurePrefix|..|r| - |FailureSuffix|] == message.value
    ensures message.None? ==> r[|FailurePrefix|..|r| - |FailureSuffix|] == UnknownError
  {
    var m := if message.Some? then message.value else UnknownError;
    var r := FailurePrefix + m + FailureSuffix;
    assert r[..|FailurePrefix|] == FailurePrefix;
    assert r[|FailurePrefix|..|r| - |FailureSuffix|] == m;
    r
  }

  /** The wizard's state. The questions, the section name and the system
      prompt are the component's props and do not change. */
  class Drafter {
    const sectionName: string
    const questions: seq<Question>
    const systemPrompt: string
    var isOpen: bool
    var step: Step
    var answers: map<string, string>
    var generatedContent: string
    var editedContent: string
    var currentQuestionIndex: int
    var error: string

    /** The question index points at a question, or is 0 when there are
        none: it is never negative and never runs past the last question. */
    predicate Valid()
      reads this
    {
      0 <= currentQuestionIndex && (currentQuestionIndex < |questions| || currentQuestionIndex == 0)
    }

    constructor (sectionName: string, questions: seq<Question>, systemPrompt: string)
      ensures this.sectionName == sectionName && this.questions == questions
      ensures this.systemPrompt == systemPrompt
      ensures !isOpen && step == Questions && answers == map[] && currentQuestionIndex == 0
      ensures generatedContent == "" && editedContent == "" && error == ""
      ensures Valid()
    {
      this.sectionName := sectionName;
      this.questions := questions;
      this.systemPrompt := systemPrompt;
      isOpen := false;
      step := Questions;
      answers := map[];
      generatedContent := "";
      editedContent := "";
      currentQuestionIndex := 0;
      error := "";
    }

    /** `isLastQuestion` */
    predicate IsLastQuestion()
      reads this
    {
      currentQuestionIndex == |questions| - 1
    }

    /** `canProceed`: there is a current question and its answer holds at
        least one character that is not whitespace. */
    function CanProceed(): (b: bool)
      reads this
      ensures b <==>
        && 0 <= currentQuestionIndex < |questions|
        && questions[currentQuestionIndex].id in answers
        && exists k :: 0 <= k < |answers[questions[currentQuestionIndex].id]|
             && !IsJsWhitespace(answers[questions[currentQuestionIndex].id][k])
    {
      if 0 <= currentQuestionIndex < |questions| && questions[currentQuestionIndex].id in answers then
        var a := answers[questions[currentQuestionIndex].id];
        TrimEmptyIffBlank(a);
        Trim(a) != []
      else
        false
    }

    /** `handleOpen`: the wizard opens at its first question with every
        answer, the draft and the error cleared. */
    method HandleOpen()
      modifies this
      ensures isOpen && step == Questions && answers == map[] && currentQuestionIndex == 0
      ensures generatedContent == "" && editedContent == "" && error == ""
      ensures Valid()
    {
      isOpen := true;
      step := Questions;
      answers := map[];
      currentQuestionIndex := 0;
      generatedContent := "";
      editedContent := "";
      error := "";
    }

    /** `handleClose`: only the open flag changes; the answers are kept
        until the next `handleOpen`. */
    method HandleClose()
      modifies this
      ensures old(Valid()) ==> Valid()
      ensures !isOpen
      ensures step == old(step) && answers == old(answers) && currentQuestionIndex == old(currentQuestionIndex)
      ensures generatedContent == old(generatedContent) && editedContent == old(editedContent)
      ensures error == old(error)
    {
      isOpen := false;
    }

    /** `handleAnswerChange(id, v)`: the answer under `id` becomes `v`;
        every other answer is kept. */
    method HandleAnswerChange(id: string, v: string)
      modifies this
      ensures old(Valid()) ==> Valid()
      ensures id in answers && answers[id] == v
      ensures answers.Keys == old(answers).Keys + {id}
      ensures forall k :: k in old(answers) && k != id ==> answers[k] == old(answers)[k]
      ensures isOpen == old(isOpen) && step == old(step) && currentQuestionIndex == old(currentQuestionIndex)
      ensures generatedContent == old(generatedContent) && editedContent == old(editedContent)
      ensures error == old(error)
    {
      answers := answers[id := v];
    }

    /** The synchronous start of `generateContent`: the step shows the
        spinner and the error is cleared. */
    method BeginGenerate()
      modifies this
      ensures old(Valid()) ==> Valid()
      ensures step == Generating && error == ""
      ensures isOpen == old(isOpen) && answers == old(answers) && currentQuestionIndex == old(currentQuestionIndex)
      ensures generatedContent == old(generatedContent) && editedContent == old(editedContent)
    {
      step := Generating;
      error := "";
    }

    /** The rest of `generateContent` once the service has answered: on
        success the draft and its editable copy are the response and the
        review step opens; on failure the error is set and the questions
        come back. The answers and the index are kept either way. */
    method CompleteGenerate(reply: Reply)
      modifies this
      ensures old(Valid()) ==> Valid()
      ensures reply.Success? ==>
        && step == Review && generatedContent == reply.text && editedContent == reply.text
        && error == old(error)
      ensures reply.Failure? ==>
        && step == Questions && error == FailureText(reply.message) && error != ""
        && generatedContent == old(generatedContent) && editedContent == old(editedContent)
      ensures isOpen == old(isOpen) && answers == old(answers) && currentQuestionIndex == old(currentQuestionIndex)
    {
      match reply {
        case Success(text) =>
          generatedContent := text;
          editedContent := text;
          step := Review;
        case Failure(message) =>
          error := FailureText(message);
          step := Questions;
      }
    }

    /** `generateContent` with the request completing as `reply`. It
        returns the answers part of the prompt it sent, which lists every
        question with the answer given at the time of the call. */
    method GenerateContent(reply: Reply) returns (sentAnswers: string)
      modifies this
      ensures old(Valid()) ==> Valid()
      ensures sentAnswers == AnswersText(questions, old(answers))
      ensures reply.Success? ==>
        && step == Review && generatedContent == reply.text && editedContent == reply.text
        && error == ""
      ensures reply.Failure? ==>
        && step == Questions && error == FailureText(reply.message) && error != ""
        && generatedContent == old(generatedContent) && editedContent == old(editedContent)
      ensures isOpen == old(isOpen) && answers == old(answers) && currentQuestionIndex == old(currentQuestionIndex)
    {
      BeginGenerate();
      sentAnswers := AnswersText(questions, answers);
      CompleteGenerate(reply);
    }

    /** `handleNext`, reachable only while the Next button is enabled, that
        is while `canProceed` holds. Before the last question it moves one
        question on and changes nothing else; on the last question it
        generates instead and the index stays. */
    method HandleNext(reply: Reply)
      requires Valid() && CanProceed()
      modifies this
      ensures Valid()
      ensures !old(IsLastQuestion()) ==>
        && currentQuestionIndex == old(currentQuestionIndex) + 1
        && step == old(step) && error == old(error)
        && generatedContent == old(generatedContent) && editedContent == old(editedContent)
      ensures old(IsLastQuestion()) ==>
        && currentQuestionIndex == old(currentQuestionIndex)
        && (reply.Success? ==>
              step == Review && generatedContent == reply.text && editedContent == reply.text && error == "")
        && (reply.Failure? ==>
              && step == Questions && error == FailureText(reply.message) && error != ""
              && generatedContent == old(generatedContent) && editedContent == old(editedContent))
      ensures isOpen == old(isOpen) && answers == old(answers)
    {
      if IsLastQuestion() {
        var _ := GenerateContent(reply);
      } else {
        currentQuestionIndex := currentQuestionIndex + 1;
      }
    }

    /** `handleBack`: one question back, or nothing at the first one. */
    method HandleBack()
      requires Valid()
      modifies this
      ensures Valid()
      ensures currentQuestionIndex == if old(currentQuestionIndex) > 0 then old(currentQuestionIndex) - 1 else 0
      ensures isOpen == old(isOpen) && step == old(step) && answers == old(answers)
      ensures generatedContent == old(generatedContent) && editedContent == old(editedContent)
      ensures error == old(error)
    {
      if currentQuestionIndex > 0 {
        currentQuestionIndex := currentQuestionIndex - 1;
      }
    }

    /** The review step's text area: only the editable copy changes. */
    method EditContent(v: string)
      modifies this
      ensures old(Valid()) ==> Valid()
      ensures editedContent == v
      ensures isOpen == old(isOpen) && step == old(step) && answers == old(answers)
      ensures currentQuestionIndex == old(currentQuestionIndex)
      ensures generatedContent == old(generatedContent) && error == old(error)
    {
      editedContent := v;
    }

    /** The review step's "back to questions" button. */
    method BackToQuestions()
      modifies this
      ensures old(Valid()) ==> Valid()
      ensures step == Questions
      ensures isOpen == old(isOpen) && answers == old(answers)
      ensures currentQuestionIndex == old(currentQuestionIndex)
      ensures generatedContent == old(generatedContent) && editedContent == old(editedContent)
      ensures error == old(error)
    {
      step := Questions;
    }

    /** `handleAccept` with `parse` standing for `JSON.parse`: the value
        returned is the one `onAccept` is called with, once — the parsed
        draft when the edited text parses, the edited text itself when it
        does not — and the wizard closes. */
    method HandleAccept<V>(parse: string -> Option<V>) returns (accepted: Accepted<V>)
      modifies this
      ensures old(Valid()) ==> Valid()
      ensures parse(old(editedContent)).Some? ==> accepted == Parsed(parse(old(editedContent)).value)
      ensures parse(old(editedContent)).None? ==> accepted == Raw(old(editedContent))
      ensures !isOpen
      ensures step == old(step) && answers == old(answers) && currentQuestionIndex == old(currentQuestionIndex)
      ensures generatedContent == old(generatedContent) && editedContent == old(editedContent)
      ensures error == old(error)
    {
      var parsed := parse(editedContent);
      if parsed.Some? {
        accepted := Parsed(parsed.value);
      } else {
        accepted := Raw(editedContent);
      }
      HandleClose();
    }
  }
}
