/** The success page: it shows the generated code and explanation and runs
    the refinement loop, which re-sends the diagram, the language, the
    current code and the user's fix instructions, and replaces code and
    explanation only when the backend accepts the fix. */
module Refinement {
  import opened Text
  import opened Remote
  import UploadGate

  /** The navigation state the page is opened with. */
  datatype NavState = NavState(
    code: string, explanation: string, filename: string,
    language: string, diagramFile: UploadGate.UploadFile)

  /** The page's guard: without state, code or explanation it shows the missing-data screen. */
  predicate CanEnter(state: Option<NavState>) {
    state.Some? && state.value.code != "" && state.value.explanation != ""
  }

  /** What a refinement sends: diagram, language, the code being refined and the instructions. */
  datatype RefineRequest = RefineRequest(
    file: UploadGate.UploadFile, targetLanguage: string,
    previousCode: string, fixInstructions: string)

  const NeedInstructions: string := "Please enter fix instructions"
  const CouldNotApply: string := "Could not apply fix instructions."
  const RefineFailed: string := "Failed to refine code"

  class SuccessPage {
    const state: NavState
    var currentCode: string
    var currentExplanation: string
    var showFixInstructions: bool
    var fixInstructions: string
    var isRefining: bool
    var refinementError: string

    /** Between handler steps no refinement is in flight: every exit of
        the send handler resets `isRefining`. */
    ghost predicate Valid()
      reads this
    {
      !isRefining
    }

    /** The page's state after the entry guard has let `state` through. */
    constructor (nav: NavState)
      requires CanEnter(Some(nav))
      ensures Valid()
      ensures state == nav && currentCode == nav.code && currentExplanation == nav.explanation
      ensures !showFixInstructions && fixInstructions == "" && refinementError == ""
    {
      state := nav;
      currentCode := nav.code;
      currentExplanation := nav.explanation;
      showFixInstructions := false;
      fixInstructions := "";
      isRefining := false;
      refinementError := "";
    }

    /** The Send button is enabled. */
    predicate CanSend()
      reads this
    {
      !isRefining && Trim(Js, fixInstructions) != ""
    }

    /** `handleDownloadCode`: the current code, under the original file name. */
    method DownloadCode() returns (d: Download)
      ensures d.content == currentCode && d.filename == state.filename
    {
      d := Download(currentCode, state.filename);
    }

    /** `handleAddFixInstructions`. */
    method AddFixInstructions()
      requires Valid()
      modifies this
      ensures Valid()
      ensures showFixInstructions && fixInstructions == "" && refinementError == ""
      ensures currentCode == old(currentCode) && currentExplanation == old(currentExplanation)
    {
      showFixInstructions := true;
      refinementError := "";
      fixInstructions := "";
    }

    /** `handleCancelFixInstructions`. */
    method CancelFixInstructions()
      requires Valid()
      modifies this
      ensures Valid()
      ensures !showFixInstructions && fixInstructions == "" && refinementError == ""
      ensures currentCode == old(currentCode) && currentExplanation == old(currentExplanation)
    {
      showFixInstructions := false;
      fixInstructions := "";
      refinementError := "";
    }

    /** The instructions text area's `onChange`. */
    method TypeInstructions(text: string)
      requires Valid()
      modifies this
      ensures Valid()
      ensures fixInstructions == text
      ensures currentCode == old(currentCode) && currentExplanation == old(currentExplanation)
      ensures showFixInstructions == old(showFixInstructions) && refinementError == old(refinementError)
    {
      fixInstructions := text;
    }

    /** `handleSendFixInstructions`, with the awaited `refineCode` as the
        input `outcome`. Returns the request it sent, if any. */
    method SendFixInstructions(outcome: Outcome<CodeResponse>) returns (sent: Option<RefineRequest>)
      requires Valid()
      modifies this
      ensures Valid()
      ensures IsBlank(Js, old(fixInstructions)) ==>
                sent == None && refinementError == NeedInstructions
                && currentCode == old(currentCode) && currentExplanation == old(currentExplanation)
                && fixInstructions == old(fixInstructions) && showFixInstructions == old(showFixInstructions)
      ensures !IsBlank(Js, old(fixInstructions)) ==>
                sent == Some(RefineRequest(state.diagramFile, state.language, old(currentCode), old(fixInstructions)))
      ensures sent.Some? && outcome.Returned? && outcome.value.status == "valid" ==>
                currentCode == outcome.value.code && currentExplanation == outcome.value.explanation
                && !showFixInstructions && fixInstructions == "" && refinementError == ""
      ensures sent.Some? && outcome.Returned? && outcome.value.status != "valid" ==>
                currentCode == old(currentCode) && currentExplanation == old(currentExplanation)
                && refinementError == (if outcome.value.explanation != "" then outcome.value.explanation else CouldNotApply)
                && fixInstructions == old(fixInstructions) && showFixInstructions == old(showFixInstructions)
      ensures sent.Some? && outcome.Threw? ==>
                currentCode == old(currentCode) && currentExplanation == old(currentExplanation)
                && refinementError == ErrorText(outcome.error, RefineFailed)
                && fixInstructions == old(fixInstructions) && showFixInstructions == old(showFixInstructions)
    {
      if TrimsToEmpty(Js, fixInstructions) {
        refinementError := NeedInstructions;
        return None;
      }
      sent := Some(RefineRequest(state.diagramFile, state.language, currentCode, fixInstructions));
      Settle(outcome);
    }

    /** The rest of the send handler once the instructions passed: the
        request is in flight and the error cleared, then the `try`/`catch`/
        `finally` settles it. A valid answer replaces the code and closes
        the panel; a refusal or a failure only sets the error. */
    method Settle(outcome: Outcome<CodeResponse>)
      requires Valid()
      modifies this
      ensures Valid()
      ensures outcome.Returned? && outcome.value.status == "valid" ==>
                currentCode == outcome.value.code && currentExplanation == outcome.value.explanation
                && !showFixInstructions && fixInstructions == "" && refinementError == ""
      ensures outcome.Returned? && outcome.value.status != "valid" ==>
                currentCode == old(currentCode) && currentExplanation == old(currentExplanation)
                && refinementError == (if outcome.value.explanation != "" then outcome.value.explanation else CouldNotApply)
                && fixInstructions == old(fixInstructions) && showFixInstructions == old(showFixInstructions)
      ensures outcome.Threw? ==>
                currentCode == old(currentCode) && currentExplanation == old(currentExplanation)
                && refinementError == ErrorText(outcome.error, RefineFailed)
                && fixInstructions == old(fixInstructions) && showFixInstructions == old(showFixInstructions)
    {
      isRefining, refinementError := true, "";
      var code, explanation, panel, instructions, error :=
        currentCode, currentExplanation, showFixInstructions, fixInstructions, refinementError;
      match outcome {
        case Returned(response) =>
          if response.status == "valid" {
            code, explanation := response.code, response.explanation;
            panel, instructions, error := false, "", "";
          } else {
            error := if response.explanation != "" then response.explanation else CouldNotApply;
          }
        case Threw(e) =>
          error := ErrorText(e, RefineFailed);
      }
      currentCode, currentExplanation := code, explanation;
      showFixInstructions, fixInstructions, refinementError := panel, instructions, error;
      isRefining := false;
    }
  }

  /** A rejected fix keeps the code and the typed instructions, so the
      second attempt refines the same code with the same text. */
  method RefinementScenario(file: UploadGate.UploadFile)
  {
    var page := new SuccessPage(NavState("v1", "why", "out.py", "python", file));
    page.AddFixInstructions();
    page.TypeInstructions("rename x");
    assert !IsSpace(Js, page.fixInstructions[0]);
    var sent := page.SendFixInstructions(Returned(CodeResponse("invalid", "", "", "")));
    assert page.currentCode == "v1" && page.refinementError == CouldNotApply;
    assert page.fixInstructions == "rename x" && page.showFixInstructions;
    sent := page.SendFixInstructions(Returned(CodeResponse("valid", "v2", "out.py", "renamed")));
    assert sent == Some(RefineRequest(file, "python", "v1", "rename x"));
    assert page.currentCode == "v2" && page.fixInstructions == "" && !page.showFixInstructions;
    var d := page.DownloadCode();
    assert d == Download("v2", "out.py");
  }
}
