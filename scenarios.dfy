/**
 * Walk-throughs of one session, checked from the contracts alone, in the
 * manner of a client of the two components.
 */
module Scenarios {
  import opened Wrappers
  import opened JsText
  import opened AnswerLedger
  import opened Interview
  import opened Session

  /** At the last question, an accepted answer and one follow-up: the list grows by one and that question is asked next. */
  method LastAnswerThenOneFollowUp(form: ProductForm)
    requires form.Valid() && !form.isGenerating && form.IsLastQuestion()
    modifies form
  {
    var n := |form.questions|;
    var o := form.Submit("Germany");
    assert o.AwaitingFollowUps? && form.isGenerating;
    var sub := form.ResolveFollowUps(FollowUps(["Where is it manufactured?"]));
    assert sub == None && form.currentQuestionIndex == n && |form.questions| == n + 1;
    assert form.CurrentQuestion().text == "Where is it manufactured?";
    assert !form.isGenerating && form.IsLastQuestion();
  }

  /** An empty list and a failed call end the same way: the answers, the last one included, are handed on. */
  method NoFollowUpsHandsOnAnswers(form: ProductForm, result: FollowUpResult)
    requires form.Valid() && !form.isGenerating && form.IsLastQuestion()
    requires result == FollowUps([]) || result == NoFollowUpList || result == GenerationFailed
    modifies form
  {
    var qs, text := form.questions, form.CurrentQuestion().text;
    var o := form.Submit("Germany");
    var sub := form.ResolveFollowUps(result);
    assert sub == Some(o.previousAnswers) && form.questions == qs;
    LookupAfterPut(old(form.answers), text, "Germany", text);
    assert Lookup(sub.value, text) == Some("Germany");
  }

  /** A one-character answer is refused and nothing moves; a leading space makes a two-character answer. */
  method ShortAnswerRejected(form: ProductForm)
    requires form.Valid() && !form.isGenerating
    modifies form
  {
    var i := form.currentQuestionIndex;
    var o := form.Submit("a");
    assert o == Rejected && form.currentQuestionIndex == i;
    o := form.Submit(" a");
    assert o != Rejected;
  }

  /** Finishing early keeps a short, untrimmed field value. */
  method FinishEarlyKeepsShortValue(form: ProductForm)
    requires form.Valid() && !form.isGenerating
  {
    var text := form.CurrentQuestion().text;
    var sub := form.HandleFinish(" x ");
    assert !AllWhitespace(" x ") by {
      assert " x "[1] == 'x';
    }
    LookupAfterPut(form.answers, text, " x ", text);
    assert Lookup(sub, text) == Some(" x ");
  }

  /** Finishing early with a blank field hands on the earlier answers unchanged. */
  method FinishEarlyDropsBlankValue(form: ProductForm)
    requires form.Valid() && !form.isGenerating
  {
    var sub := form.HandleFinish(" \t");
    assert AllWhitespace(" \t");
    assert sub == form.answers;
  }

  /** A failed summary shows the form again, without the answers; a successful one shows the report. */
  method SummaryOutcomes(app: ClarityApp, data: Ledger)
    requires app.Valid() && !app.isLoading
    modifies app
  {
    var report := app.BeginFormSubmit(data);
    assert app.CurrentView() == LoadingView;
    app.CompleteFormSubmit(SummaryFailed);
    assert app.CurrentView() == FormView && app.formData == None;
    report := app.BeginFormSubmit(data);
    app.CompleteFormSubmit(Summarized("A kettle made of steel."));
    assert app.CurrentView() == ReportView(data, "A kettle made of steel.");
    app.HandleReset();
    assert app.CurrentView() == FormView;
  }
}
