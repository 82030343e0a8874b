/**
 * The adaptive interview of `ProductForm`: an append-only list of questions
 * seeded with three fixed ones, a cursor, the answer map and the flag that is
 * up while follow-up questions are being generated. Submitting the last
 * question asks an outside service for follow-ups; its reply (a list, no list,
 * or an exception) is a parameter here.
 *
 * The one `await` of the submit handler splits it into two atomic steps:
 * `Submit` runs up to the call, `ResolveFollowUps` runs once the call has
 * settled. `isGenerating` is up exactly between the two.
 */
module Interview {
  import opened Wrappers
  import opened JsText
  import opened AnswerLedger
  import opened QuestionIds

  /** Presentation hint only (`'text' | 'textarea'`); it has no effect on the interview. */
  datatype QuestionType = Text | Textarea

  datatype Question = Question(id: string, text: string, kind: QuestionType)

  const InitialQuestions: seq<Question> := [
    Question("productName", "What is the name of the product?", Text),
    Question("productCategory", "What category does the product belong to (e.g., food, electronics, clothing)?", Text),
    Question("mainMaterials", "What are the primary materials or ingredients used in this product?", Textarea)
  ]

  const MinAnswerLength: nat := 2

  /** The answer schema `z.string().min(2)`: at least two UTF-16 code units of the raw string, nothing trimmed. */
  function AnswerAccepted(answer: string): (ok: bool)
    ensures |answer| >= MinAnswerLength ==> ok
    ensures ok ==> answer != []
  {
    Utf16Length(answer) >= MinAnswerLength
  }

  /**
   * The schema counts code units of the raw string: whitespace counts, and a
   * single character outside the Basic Multilingual Plane already has two.
   */
  lemma AnswerAcceptedIff(answer: string)
    ensures AnswerAccepted(answer) <==> |answer| >= 2 || (|answer| == 1 && answer[0] as int >= 0x10000)
  {
  }

  /** How the follow-up call settled: a list, a reply without a usable list, or an exception. */
  datatype FollowUpResult = FollowUps(texts: seq<string>) | NoFollowUpList | GenerationFailed

  /** What a press of the submit button did. */
  datatype SubmitOutcome =
    | Rejected
    | Advanced
    | AwaitingFollowUps(previousAnswers: Ledger, currentQuestion: string)

  /** The questions built from one batch of follow-up texts, asked at cursor `round`. */
  function FollowUpQuestions(round: nat, texts: seq<string>): (qs: seq<Question>)
    ensures Texts(qs) == texts
    ensures forall i :: 0 <= i < |qs| ==> qs[i].kind == Textarea && qs[i].id == GeneratedId(round, i)
  {
    seq(|texts|, i requires 0 <= i < |texts| => Question(GeneratedId(round, i), texts[i], Textarea))
  }

  function Texts(qs: seq<Question>): (ts: seq<string>)
    ensures |ts| == |qs|
    ensures forall i :: 0 <= i < |qs| ==> ts[i] == qs[i].text
  {
    seq(|qs|, i requires 0 <= i < |qs| => qs[i].text)
  }

  predicate IdsDistinct(qs: seq<Question>) {
    forall i, j :: 0 <= i < j < |qs| ==> qs[i].id != qs[j].id
  }

  /** Every question after the seed ones has a generated id from a round before `cursor`. */
  predicate GeneratedBefore(qs: seq<Question>, cursor: nat) {
    forall j :: |InitialQuestions| <= j < |qs| ==>
      ParseGeneratedId(qs[j].id).Some? && ParseGeneratedId(qs[j].id).value.round < cursor
  }

  lemma SeedIdsAreNotGenerated(j: nat)
    requires j < |InitialQuestions|
    ensures ParseGeneratedId(InitialQuestions[j].id) == None
  {
  }

  /**
   * Appending a batch generated at cursor `round` keeps all ids distinct: ids
   * in the batch differ by index, earlier generated ids come from earlier
   * rounds, and seed ids do not have the generated shape.
   */
  lemma FollowUpIdsStayDistinct(qs: seq<Question>, round: nat, texts: seq<string>)
    requires InitialQuestions <= qs
    requires IdsDistinct(qs) && GeneratedBefore(qs, round)
    ensures IdsDistinct(qs + FollowUpQuestions(round, texts))
    ensures GeneratedBefore(qs + FollowUpQuestions(round, texts), round + 1)
  {
    var batch := FollowUpQuestions(round, texts);
    var all := qs + batch;
    forall j | |qs| <= j < |all|
      ensures ParseGeneratedId(all[j].id) == Some(IdParts(round, j - |qs|))
    {
      ParseGeneratedIdRoundTrip(round, j - |qs|);
    }
    forall i, j | 0 <= i < j < |all| ensures all[i].id != all[j].id {
      if j >= |qs| {
        if i >= |qs| {
          assert ParseGeneratedId(all[i].id) != ParseGeneratedId(all[j].id);
        } else if i < |InitialQuestions| {
          SeedIdsAreNotGenerated(i);
          assert all[i] == InitialQuestions[i];
        } else {
          assert all[i] == qs[i];
        }
      } else {
        assert all[i] == qs[i] && all[j] == qs[j];
      }
    }
  }

  /** Answer keys drawn from the texts of a list stay drawn from them once the list grows. */
  lemma KeysStayWithin(m: Ledger, small: seq<Question>, big: seq<Question>)
    requires small <= big
    requires forall key :: key in Keys(m) ==> key in Texts(small)
    ensures forall key :: key in Keys(m) ==> key in Texts(big)
  {
  }

  /** Storing an answer under the question at `cursor` keeps the keys unique and drawn from the questions reached. */
  lemma RecordKeepsKeysWithin(m: Ledger, qs: seq<Question>, cursor: nat, answer: string)
    requires cursor < |qs| && UniqueKeys(m)
    requires forall key :: key in Keys(m) ==> key in Texts(qs[..cursor + 1])
    ensures UniqueKeys(Put(m, qs[cursor].text, answer))
    ensures qs[cursor].text in Keys(Put(m, qs[cursor].text, answer))
    ensures forall key :: key in Keys(Put(m, qs[cursor].text, answer)) ==> key in Texts(qs[..cursor + 1])
  {
    PutKeepsKeysUnique(m, qs[cursor].text, answer);
    KeysAfterPut(m, qs[cursor].text, answer);
    assert Texts(qs[..cursor + 1])[cursor] == qs[cursor].text;
  }

  /**
   * The answers `handleFinish` submits: the earlier answers, plus the current
   * field value (untrimmed, with no minimum length) under the current
   * question's text when the field holds anything besides whitespace.
   */
  function FinalAnswers(answers: Ledger, currentText: string, fieldValue: string): (r: Ledger)
    ensures AllWhitespace(fieldValue) ==> r == answers
    ensures !AllWhitespace(fieldValue) ==> r == Put(answers, currentText, fieldValue)
  {
    TrimEmptyIffAllWhitespace(fieldValue);
    if fieldValue != "" && Trim(fieldValue) != "" then Put(answers, currentText, fieldValue) else answers
  }

  /**
   * What holds of the interview's state between any two events: the seed
   * questions stay first, the cursor is in range, generation only runs at the
   * last question and after its answer was stored, question ids are distinct,
   * and the answer map has unique keys drawn from the questions reached so far.
   */
  predicate FormInvariant(qs: seq<Question>, cursor: nat, answers: Ledger, generating: bool) {
    && InitialQuestions <= qs
    && cursor < |qs|
    && (generating ==> cursor == |qs| - 1 && qs[cursor].text in Keys(answers))
    && IdsDistinct(qs)
    && GeneratedBefore(qs, cursor)
    && UniqueKeys(answers)
    && forall key :: key in Keys(answers) ==> key in Texts(qs[..cursor + 1])
  }

  /** The follow-up call settled without new questions: the state stays as it was, out of generation. */
  lemma EndGenerationKeepsInvariant(qs: seq<Question>, cursor: nat, answers: Ledger)
    requires FormInvariant(qs, cursor, answers, true)
    ensures FormInvariant(qs, cursor, answers, false)
  {
  }

  lemma InitialStateSatisfiesInvariant()
    ensures FormInvariant(InitialQuestions, 0, [], false)
  {
  }

  /** An accepted answer before the last question, then a step forward. */
  lemma AdvanceKeepsInvariant(qs: seq<Question>, cursor: nat, answers: Ledger, answer: string)
    requires FormInvariant(qs, cursor, answers, false) && cursor < |qs| - 1
    ensures FormInvariant(qs, cursor + 1, Put(answers, qs[cursor].text, answer), false)
  {
    RecordKeepsKeysWithin(answers, qs, cursor, answer);
    KeysStayWithin(Put(answers, qs[cursor].text, answer), qs[..cursor + 1], qs[..cursor + 2]);
  }

  /** An accepted answer at the last question, then the follow-up call starts. */
  lemma StartGenerationKeepsInvariant(qs: seq<Question>, cursor: nat, answers: Ledger, answer: string)
    requires FormInvariant(qs, cursor, answers, false) && cursor == |qs| - 1
    ensures FormInvariant(qs, cursor, Put(answers, qs[cursor].text, answer), true)
  {
    RecordKeepsKeysWithin(answers, qs, cursor, answer);
  }

  /** A non-empty batch of follow-ups is appended and the cursor moves onto its first question. */
  lemma AppendFollowUpsKeepsInvariant(qs: seq<Question>, cursor: nat, answers: Ledger, texts: seq<string>)
    requires FormInvariant(qs, cursor, answers, true) && texts != []
    ensures FormInvariant(qs + FollowUpQuestions(cursor, texts), |qs|, answers, false)
  {
    var all := qs + FollowUpQuestions(cursor, texts);
    FollowUpIdsStayDistinct(qs, cursor, texts);
    assert cursor + 1 == |qs| < |all|;
    assert InitialQuestions <= all;
    assert all[..cursor + 1] == qs;
    KeysStayWithin(answers, qs[..cursor + 1], all[..|qs| + 1]);
  }

  /** Progress as the fraction `num / den` of a percentage. */
  datatype Fraction = Fraction(num: nat, den: nat)

  class ProductForm {
    var questions: seq<Question>
    var currentQuestionIndex: nat
    var answers: Ledger
    var isGenerating: bool

    ghost predicate Valid()
      reads this
    {
      FormInvariant(questions, currentQuestionIndex, answers, isGenerating)
    }

    constructor ()
      ensures Valid()
      ensures questions == InitialQuestions && currentQuestionIndex == 0
      ensures answers == [] && !isGenerating
    {
      InitialStateSatisfiesInvariant();
      questions := InitialQuestions;
      currentQuestionIndex := 0;
      answers := [];
      isGenerating := false;
    }

    /** `currentQuestion`: always defined, because the cursor is always in range. */
    function CurrentQuestion(): (q: Question)
      reads this
      requires Valid()
      ensures q in questions
      ensures isGenerating ==> q == questions[|questions| - 1] && q.text in Keys(answers)
    {
      questions[currentQuestionIndex]
    }

    function IsLastQuestion(): (last: bool)
      reads this
      ensures last <==> currentQuestionIndex + 1 == |questions|
      ensures Valid() && isGenerating ==> last
    {
      currentQuestionIndex == |questions| - 1
    }

    /** `progress`, `currentQuestionIndex / questions.length * 100`, as an exact fraction. */
    function Progress(): (p: Fraction)
      reads this
      requires Valid()
      ensures p.den > 0 && p.num < 100 * p.den
    {
      Fraction(currentQuestionIndex * 100, |questions|)
    }

    /**
     * The submit button (`form.handleSubmit(handleNext)`) up to the follow-up
     * call: a rejected answer changes nothing; an accepted one is stored under
     * the current question's text, then the cursor advances or, at the last
     * question, generation starts.
     */
    method Submit(answer: string) returns (outcome: SubmitOutcome)
      requires Valid() && !isGenerating
      modifies this
      ensures Valid()
      ensures !AnswerAccepted(answer) ==> outcome == Rejected && unchanged(this)
      ensures AnswerAccepted(answer) ==>
        && questions == old(questions)
        && answers == Put(old(answers), old(CurrentQuestion().text), answer)
      ensures AnswerAccepted(answer) && !old(IsLastQuestion()) ==>
        outcome == Advanced && currentQuestionIndex == old(currentQuestionIndex) + 1 && !isGenerating
      ensures AnswerAccepted(answer) && old(IsLastQuestion()) ==>
        && outcome == AwaitingFollowUps(answers, old(CurrentQuestion().text))
        && currentQuestionIndex == old(currentQuestionIndex) && isGenerating
    {
      if !AnswerAccepted(answer) {
        outcome := Rejected;
      } else {
        var text := questions[currentQuestionIndex].text;
        var previous := answers;
        answers := Put(previous, text, answer);
        if currentQuestionIndex < |questions| - 1 {
          AdvanceKeepsInvariant(questions, currentQuestionIndex, previous, answer);
          currentQuestionIndex := currentQuestionIndex + 1;
          outcome := Advanced;
        } else {
          StartGenerationKeepsInvariant(questions, currentQuestionIndex, previous, answer);
          isGenerating := true;
          outcome := AwaitingFollowUps(answers, text);
        }
      }
    }

    /**
     * The rest of the submit handler, once the follow-up call has settled. A
     * non-empty list is appended and the cursor moves to its first question;
     * an empty list, a missing list or an exception submits the answers
     * instead. Generation is over in every case.
     */
    method ResolveFollowUps(result: FollowUpResult) returns (submitted: Option<Ledger>)
      requires Valid() && isGenerating
      modifies this
      ensures Valid() && !isGenerating
      ensures answers == old(answers)
      ensures result.FollowUps? && result.texts != [] ==>
        && submitted == None
        && questions == old(questions) + FollowUpQuestions(old(currentQuestionIndex), result.texts)
        && currentQuestionIndex == old(|questions|)
      ensures !(result.FollowUps? && result.texts != []) ==>
        && submitted == Some(answers)
        && questions == old(questions) && currentQuestionIndex == old(currentQuestionIndex)
    {
      if result.FollowUps? && result.texts != [] {
        var oldLength := |questions|;
        AppendFollowUpsKeepsInvariant(questions, currentQuestionIndex, answers, result.texts);
        questions := questions + FollowUpQuestions(currentQuestionIndex, result.texts);
        currentQuestionIndex := oldLength;
        submitted := None;
      } else {
        EndGenerationKeepsInvariant(questions, currentQuestionIndex, answers);
        submitted := Some(answers);
      }
      isGenerating := false;
    }

    /** `handleFinish`: submits at once, with no check on the earlier answers. */
    method HandleFinish(fieldValue: string) returns (submitted: Ledger)
      requires Valid() && !isGenerating
      ensures submitted == FinalAnswers(answers, CurrentQuestion().text, fieldValue)
    {
      var finalAnswers := answers;
      if fieldValue != "" && Trim(fieldValue) != "" {
        finalAnswers := Put(finalAnswers, questions[currentQuestionIndex].text, fieldValue);
      }
      submitted := finalAnswers;
    }
  }

  /** The answer map never holds more entries than there are questions, and no more than have been reached. */
  lemma AnswersWithinQuestions(f: ProductForm)
    requires f.Valid()
    ensures |f.answers| <= f.currentQuestionIndex + 1 <= |f.questions|
  {
    LedgerNoLongerThanKeySource(f.answers, Texts(f.questions[..f.currentQuestionIndex + 1]));
  }
}
