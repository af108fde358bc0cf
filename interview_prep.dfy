/**
 * The interview preparation page's question list: generated questions and
 * answers, edits by id, and adding and removing entries. Each helper returns
 * a new list.
 */
module InterviewPrep {
  import opened Wrappers
  import opened Lists

  /** A question with its answer; the answer may be absent. */
  datatype QuestionAnswer = QuestionAnswer(id: string, question: string, answer: Option<string>)

  const SuggestedAnswer :=
    "I would approach this by first analyzing the requirements and then implementing a solution that balances performance and maintainability..."
  const DesignSystemQuestion := "How would you implement a design system that can be used across multiple projects?"
  const AccessibilityQuestion := "What strategies do you use to ensure accessibility in your web applications?"

  /** `!q.answer`: the answer is absent or empty. */
  predicate NeedsAnswer(q: QuestionAnswer) {
    q.answer.None? || q.answer.value == ""
  }

  /**
   * `generateQuestions()` once its timer fires: the two fixed questions, with
   * the ids `nanoid()` drew and empty answers, after the existing ones.
   */
  function GenerateQuestions(qs: seq<QuestionAnswer>, id1: string, id2: string): (r: seq<QuestionAnswer>)
    ensures |r| == |qs| + 2 && r[..|qs|] == qs
    ensures r[|qs|] == QuestionAnswer(id1, DesignSystemQuestion, Some(""))
    ensures r[|qs| + 1] == QuestionAnswer(id2, AccessibilityQuestion, Some(""))
  {
    qs + [QuestionAnswer(id1, DesignSystemQuestion, Some("")), QuestionAnswer(id2, AccessibilityQuestion, Some(""))]
  }

  /**
   * `generateAnswers()` once its timer fires: every unanswered entry gets the
   * fixed suggestion; answered entries, ids and questions are untouched.
   */
  function GenerateAnswers(qs: seq<QuestionAnswer>): (r: seq<QuestionAnswer>)
    ensures |r| == |qs|
    ensures forall i :: 0 <= i < |qs| ==> r[i].id == qs[i].id && r[i].question == qs[i].question
    ensures forall i :: 0 <= i < |qs| && NeedsAnswer(qs[i]) ==> r[i].answer == Some(SuggestedAnswer)
    ensures forall i :: 0 <= i < |qs| && !NeedsAnswer(qs[i]) ==> r[i] == qs[i]
  {
    seq(|qs|, i requires 0 <= i < |qs| =>
      if NeedsAnswer(qs[i]) then qs[i].(answer := Some(SuggestedAnswer)) else qs[i])
  }

  /** Afterwards no entry is unanswered, so a second run changes nothing. */
  lemma {:induction false} GenerateAnswersIdempotent(qs: seq<QuestionAnswer>)
    ensures forall i :: 0 <= i < |qs| ==> !NeedsAnswer(GenerateAnswers(qs)[i])
    ensures GenerateAnswers(GenerateAnswers(qs)) == GenerateAnswers(qs)
  {
    var once := GenerateAnswers(qs);
    forall i | 0 <= i < |qs| ensures !NeedsAnswer(once[i]) {
      assert SuggestedAnswer != "";
    }
  }

  /** `updateAnswer(id, answer)`: exactly the entries with that id take the answer. */
  function UpdateAnswer(qs: seq<QuestionAnswer>, id: string, answer: string): (r: seq<QuestionAnswer>)
    ensures |r| == |qs|
    ensures forall i :: 0 <= i < |qs| ==> r[i].(answer := qs[i].answer) == qs[i]
    ensures forall i :: 0 <= i < |qs| ==> r[i].answer == (if qs[i].id == id then Some(answer) else qs[i].answer)
  {
    seq(|qs|, i requires 0 <= i < |qs| => if qs[i].id == id then qs[i].(answer := Some(answer)) else qs[i])
  }

  /** `updateQuestion(id, question)`: exactly the entries with that id take the question. */
  function UpdateQuestion(qs: seq<QuestionAnswer>, id: string, question: string): (r: seq<QuestionAnswer>)
    ensures |r| == |qs|
    ensures forall i :: 0 <= i < |qs| ==> r[i].(question := qs[i].question) == qs[i]
    ensures forall i :: 0 <= i < |qs| ==> r[i].question == (if qs[i].id == id then question else qs[i].question)
  {
    seq(|qs|, i requires 0 <= i < |qs| => if qs[i].id == id then qs[i].(question := question) else qs[i])
  }

  /** Editing the answer and editing the question of an entry do not interfere. */
  lemma {:induction false} EditsCommute(qs: seq<QuestionAnswer>, id: string, id': string, answer: string, question: string)
    ensures UpdateQuestion(UpdateAnswer(qs, id, answer), id', question)
         == UpdateAnswer(UpdateQuestion(qs, id', question), id, answer)
  {
    var a := UpdateQuestion(UpdateAnswer(qs, id, answer), id', question);
    var b := UpdateAnswer(UpdateQuestion(qs, id', question), id, answer);
    forall i | 0 <= i < |qs| ensures a[i] == b[i] {
      assert UpdateAnswer(qs, id, answer)[i].id == qs[i].id;
      assert UpdateQuestion(qs, id', question)[i].id == qs[i].id;
    }
  }

  /** `addQuestion()`: one blank entry with the id `nanoid()` drew, after the others. */
  function AddQuestion(qs: seq<QuestionAnswer>, freshId: string): (r: seq<QuestionAnswer>)
    ensures |r| == |qs| + 1 && r[..|qs|] == qs
    ensures r[|qs|] == QuestionAnswer(freshId, "", Some(""))
  {
    qs + [QuestionAnswer(freshId, "", Some(""))]
  }

  /** The filter's test `q => q.id !== id`. */
  function KeepsOtherIds(id: string): QuestionAnswer -> bool {
    (q: QuestionAnswer) => q.id != id
  }

  /** `removeQuestion(id)`: every entry with that id goes, the others stay in order. */
  function RemoveQuestion(qs: seq<QuestionAnswer>, id: string): (r: seq<QuestionAnswer>)
    ensures forall q :: q in r <==> q in qs && q.id != id
    ensures |r| == Count(qs, KeepsOtherIds(id))
  {
    FilterIsSubsequence(qs, KeepsOtherIds(id));
    Filter(qs, KeepsOtherIds(id))
  }

  lemma RemoveQuestionIsSubsequence(qs: seq<QuestionAnswer>, id: string)
    ensures IsSubsequence(RemoveQuestion(qs, id), qs)
    ensures |RemoveQuestion(qs, id)| == Count(qs, KeepsOtherIds(id))
  {
    FilterIsSubsequence(qs, KeepsOtherIds(id));
  }

  /** Removing a question just added under a fresh id gives back the list. */
  lemma {:induction false} RemoveAddedQuestion(qs: seq<QuestionAnswer>, freshId: string)
    requires forall i :: 0 <= i < |qs| ==> qs[i].id != freshId
    ensures RemoveQuestion(AddQuestion(qs, freshId), freshId) == qs
  {
    var p := KeepsOtherIds(freshId);
    FilterAppend(qs, [QuestionAnswer(freshId, "", Some(""))], p);
    FilterAll(qs, p);
    assert Filter([QuestionAnswer(freshId, "", Some(""))], p) == [];
  }
}
