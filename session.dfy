/**
 * `ClarityApp`, the top of the page: it receives the finished answers,
 * serialises them for the summarisation service, shows a loader while the
 * service works, and then shows either the report or the form again.
 *
 * The one `await` of the submit handler splits it into two atomic steps:
 * `BeginFormSubmit` runs up to the call, `CompleteFormSubmit` once it has
 * settled; `isLoading` is up exactly between the two.
 */
module Session {
  import opened Wrappers
  import opened AnswerLedger
  import opened ReportTranscript

  /** How the summarisation call settled. */
  datatype SummaryResult = Summarized(summary: string) | SummaryFailed

  /** The three things the page can render. */
  datatype View = LoadingView | ReportView(formData: Ledger, summary: string) | FormView

  /**
   * The render choice: the loader whenever loading; else the report when both
   * the answers and a non-empty summary are there (an empty string is falsy in
   * JavaScript, an object never is); else the form.
   */
  function SelectView(formData: Option<Ledger>, summary: Option<string>, isLoading: bool): (v: View)
    ensures v == LoadingView <==> isLoading
    ensures v.ReportView? <==> !isLoading && formData.Some? && summary.Some? && summary.value != ""
    ensures v.ReportView? ==> v.formData == formData.value && v.summary == summary.value
  {
    if isLoading then LoadingView
    else if formData.Some? && summary.Some? && summary.value != "" then ReportView(formData.value, summary.value)
    else FormView
  }

  class ClarityApp {
    var formData: Option<Ledger>
    var summary: Option<string>
    var isLoading: bool

    /** While the summary is being generated the submitted answers are held. */
    ghost predicate Valid()
      reads this
    {
      isLoading ==> formData.Some?
    }

    constructor ()
      ensures Valid()
      ensures formData == None && summary == None && !isLoading
      ensures CurrentView() == FormView
    {
      formData, summary, isLoading := None, None, false;
    }

    function CurrentView(): View
      reads this
    {
      SelectView(formData, summary, isLoading)
    }

    /**
     * `handleFormSubmit` up to the summarisation call: loading starts, the
     * answers are held, and the transcript sent to the service is returned.
     * Its caller is the interview form, which is not on screen while loading.
     */
    method BeginFormSubmit(data: Ledger) returns (report: string)
      requires Valid() && !isLoading
      modifies this
      ensures Valid()
      ensures isLoading && formData == Some(data) && summary == old(summary)
      ensures CurrentView() == LoadingView
      ensures report == Transcript(data)
    {
      isLoading := true;
      formData := Some(data);
      report := Transcript(data);
    }

    /**
     * The rest of `handleFormSubmit`: on success the summary is stored, on
     * failure the answers are dropped (the form is shown again) and the old
     * summary is kept; loading ends either way.
     */
    method CompleteFormSubmit(result: SummaryResult)
      requires Valid() && isLoading
      modifies this
      ensures Valid() && !isLoading
      ensures result.Summarized? ==> formData == old(formData) && summary == Some(result.summary)
      ensures result.SummaryFailed? ==> formData == None && summary == old(summary)
      ensures result.Summarized? && result.summary != "" ==> CurrentView() == ReportView(old(formData).value, result.summary)
      ensures result.SummaryFailed? || result.summary == "" ==> CurrentView() == FormView
    {
      match result {
        case Summarized(s) =>
          summary := Some(s);
        case SummaryFailed =>
          formData := None;
      }
      isLoading := false;
    }

    /**
     * `handleReset`: both the answers and the summary are dropped. Its only
     * caller is the report view's reset button, which is on screen only when
     * nothing is loading.
     */
    method HandleReset()
      requires Valid() && !isLoading
      modifies this
      ensures Valid() && !isLoading
      ensures formData == None && summary == None
      ensures CurrentView() == FormView
    {
      formData := None;
      summary := None;
    }
  }
}
