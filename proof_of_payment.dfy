/** The proof-of-payment form: a screenshot that is analysed to fill in the
    amount and transaction code, a smart and a manual tab, and the guard in
    front of the submission. */
module ProofOfPayment {
  import opened Collections
  import opened Web

  datatype Tab = Smart | Manual

  /** The values the analysis reads off every screenshot. */
  const ExtractedAmount := "5000"
  const ExtractedCode := "QHJ8K9L0M1"
  const AnalysisFailure := "Could not extract transaction details. Please enter manually."

  /** `submitPayment` goes ahead with a non-empty screenshot, amount and code. */
  predicate SubmissionAllowed(screenshot: Option<string>, amount: string, transactionCode: string)
  {
    !(screenshot.None? || screenshot.value == "" || amount == "" || transactionCode == "")
  }

  class ProofOfPaymentForm {
    var activeTab: Tab
    var screenshot: Option<string>
    var isAnalyzing: bool
    var isAutoFilled: bool
    var isSubmitting: bool
    var analysisError: Option<string>
    var amount: string
    var transactionCode: string
    var selectedFile: Option<File>

    constructor ()
      ensures activeTab == Smart && screenshot == None && selectedFile == None
      ensures !isAnalyzing && !isAutoFilled && !isSubmitting && analysisError == None
      ensures amount == "" && transactionCode == ""
    {
      activeTab, screenshot, selectedFile := Smart, None, None;
      isAnalyzing, isAutoFilled, isSubmitting, analysisError := false, false, false, None;
      amount, transactionCode := "", "";
    }

    /** `setActiveTab`: only the tab changes. */
    method SetActiveTab(tab: Tab)
      modifies this`activeTab
      ensures activeTab == tab
    {
      activeTab := tab;
    }

    /** `analyzeScreenshot` up to its two-second pause: the analysis is
        running and no error is shown. The outcome arrives through
        `OnAnalysisFinished`. */
    method AnalyzeScreenshot()
      modifies this`isAnalyzing, this`analysisError
      ensures isAnalyzing && analysisError == None
    {
      isAnalyzing := true;
      analysisError := None;
    }

    /** The end of the analysis; `succeeded` stands for the random draw. A
        success fills in the form and switches to the manual tab; a failure
        only reports the error. Either way the analysis is over. */
    method OnAnalysisFinished(succeeded: bool)
      modifies this`amount, this`transactionCode, this`isAutoFilled, this`activeTab,
               this`analysisError, this`isAnalyzing
      ensures !isAnalyzing
      ensures succeeded ==>
                amount == ExtractedAmount && transactionCode == ExtractedCode && isAutoFilled
                && activeTab == Manual && analysisError == old(analysisError)
      ensures succeeded && screenshot.Some? && screenshot.value != "" ==>
                SubmissionAllowed(screenshot, amount, transactionCode)
      ensures !succeeded ==>
                analysisError == Some(AnalysisFailure) && amount == old(amount)
                && transactionCode == old(transactionCode) && activeTab == old(activeTab)
                && isAutoFilled == old(isAutoFilled)
    {
      if succeeded {
        amount := ExtractedAmount;
        transactionCode := ExtractedCode;
        isAutoFilled := true;
        activeTab := Manual;
      } else {
        analysisError := Some(AnalysisFailure);
      }
      isAnalyzing := false;
    }

    /** `onFileSelected`, the file reader taken as finishing at once with the
        data URL `preview`: the first chosen file becomes the screenshot, the
        earlier autofill and error are dropped, and analysis starts. Choosing
        no file changes nothing. */
    method OnFileSelected(files: seq<File>, preview: string)
      modifies this`selectedFile, this`screenshot, this`isAutoFilled, this`analysisError, this`isAnalyzing
      ensures files == [] ==>
                selectedFile == old(selectedFile) && screenshot == old(screenshot)
                && isAutoFilled == old(isAutoFilled) && analysisError == old(analysisError)
                && isAnalyzing == old(isAnalyzing)
      ensures files != [] ==>
                selectedFile == Some(files[0]) && screenshot == Some(preview)
                && !isAutoFilled && analysisError == None && isAnalyzing
    {
      if |files| > 0 {
        var file := files[0];
        selectedFile := Some(file);

        screenshot := Some(preview);
        isAutoFilled := false;
        analysisError := None;
        AnalyzeScreenshot();
      }
    }

    /** `removeScreenshot`: the screenshot, file, autofill, error, amount and
        code are all cleared; the tab stays where it is. */
    method RemoveScreenshot()
      modifies this`screenshot, this`selectedFile, this`isAutoFilled, this`analysisError,
               this`amount, this`transactionCode
      ensures screenshot == None && selectedFile == None && !isAutoFilled && analysisError == None
      ensures amount == "" && transactionCode == ""
      ensures !SubmissionAllowed(screenshot, amount, transactionCode)
    {
      screenshot := None;
      selectedFile := None;
      isAutoFilled := false;
      analysisError := None;
      amount := "";
      transactionCode := "";
    }

    /** `submitPayment` up to its two-second pause: a refused submission only
        raises the alert; an accepted one marks the form as submitting. */
    method SubmitPayment() returns (accepted: bool, notice: Option<Notice>)
      modifies this`isSubmitting
      ensures accepted <==> SubmissionAllowed(screenshot, amount, transactionCode)
      ensures accepted ==> isSubmitting && notice == None
      ensures !accepted ==>
                isSubmitting == old(isSubmitting)
                && notice == Some(Notice("Please fill all required fields and upload a screenshot", Warning))
    {
      if screenshot.None? || screenshot.value == "" || amount == "" || transactionCode == "" {
        return false, Some(Notice("Please fill all required fields and upload a screenshot", Warning));
      }
      isSubmitting := true;
      accepted, notice := true, None;
    }

    /** The end of the submission: the form stops submitting, confirms, and
        the page moves on to the main menu. */
    method OnSubmitFinished() returns (notice: Notice, route: string)
      modifies this`isSubmitting
      ensures !isSubmitting
      ensures notice == Notice("Payment uploaded successfully!", Success) && route == "/main-menu"
    {
      isSubmitting := false;
      notice, route := Notice("Payment uploaded successfully!", Success), "/main-menu";
    }
  }
}
