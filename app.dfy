/**
 * The photo-capture wizard of App.tsx: six pieces of React state and the handlers that
 * update them. Each handler is one atomic update of the state. The handlers that only a
 * particular screen exposes (the outlet dropdown, the two advance buttons, the remove
 * buttons, the camera's callbacks) require that screen to be showing.
 */
module App {
  import opened Wrappers
  import opened JsString
  import Reporting

  /** The wizard's steps (the `AppState` enumeration). */
  datatype AppState = SelectOutlet | PseudoCapture | FridgeCapture | Confirmation | Submitting | Success | Error

  // The messages are written as short pieces so that the verifier can inspect them character by character.
  const SERVER_ERROR_MESSAGE := "Failed to submit the report. " + "The server responded " + "with an error."
  const UNEXPECTED_ERROR_MESSAGE := "An unexpected error " + "occurred during submission."
  /** The text the error screen looks for to offer setup instructions. */
  const CONFIG_ERROR_MARKER := "Backend is not configured"

  /** `error?.includes('Backend is not configured')` on the error screen. */
  predicate IsConfigError(error: Option<string>)
    ensures IsConfigError(error) ==> error.Some? && |CONFIG_ERROR_MARKER| <= |error.value|
  {
    error.Some? &&
    var found := Includes(error.value, CONFIG_ERROR_MARKER);
    (if found then IncludesLength(error.value, CONFIG_ERROR_MARKER); found else found)
  }

  /** The setup panel appears for the not-configured error and for no other message the wizard records itself. */
  lemma ConfigErrorDetection()
    ensures IsConfigError(Some(Reporting.NOT_CONFIGURED_MESSAGE))
    ensures !IsConfigError(Some(Reporting.NETWORK_ERROR_MESSAGE))
    ensures !IsConfigError(Some(SERVER_ERROR_MESSAGE))
    ensures !IsConfigError(Some(UNEXPECTED_ERROR_MESSAGE))
    ensures !IsConfigError(None)
  {
    assert Reporting.NOT_CONFIGURED_MESSAGE[..|CONFIG_ERROR_MARKER|] == CONFIG_ERROR_MARKER;
    assert CONFIG_ERROR_MARKER[0] == 'B';
    assert 'B' !in Reporting.NETWORK_ERROR_MESSAGE;
    NotIncludedWithoutFirstChar(Reporting.NETWORK_ERROR_MESSAGE, CONFIG_ERROR_MARKER);
    assert 'B' !in SERVER_ERROR_MESSAGE;
    NotIncludedWithoutFirstChar(SERVER_ERROR_MESSAGE, CONFIG_ERROR_MARKER);
    assert 'B' !in UNEXPECTED_ERROR_MESSAGE;
    NotIncludedWithoutFirstChar(UNEXPECTED_ERROR_MESSAGE, CONFIG_ERROR_MARKER);
  }

  /** `prev.filter((_, index) => index !== indexToRemove)`. */
  function FilterOutIndex<T>(s: seq<T>, indexToRemove: int): (r: seq<T>)
    ensures |r| == if 0 <= indexToRemove < |s| then |s| - 1 else |s|
    decreases |s|
  {
    if s == [] then []
    else (if indexToRemove == 0 then [] else [s[0]]) + FilterOutIndex(s[1..], indexToRemove - 1)
  }

  /** Filtering out a position of the list removes exactly that element and keeps the order of the rest. */
  lemma {:induction false} FilterOutIndexInRange<T>(s: seq<T>, indexToRemove: int)
    requires 0 <= indexToRemove < |s|
    ensures FilterOutIndex(s, indexToRemove) == s[..indexToRemove] + s[indexToRemove + 1..]
    decreases |s|
  {
    if indexToRemove == 0 {
      FilterOutIndexOutOfRange(s[1..], -1);
    } else {
      FilterOutIndexInRange(s[1..], indexToRemove - 1);
      assert s[..indexToRemove] == [s[0]] + s[1..][..indexToRemove - 1];
    }
  }

  /** Filtering out a position the list does not have leaves it unchanged. */
  lemma {:induction false} FilterOutIndexOutOfRange<T>(s: seq<T>, indexToRemove: int)
    requires !(0 <= indexToRemove < |s|)
    ensures FilterOutIndex(s, indexToRemove) == s
    decreases |s|
  {
    if s != [] {
      FilterOutIndexOutOfRange(s[1..], indexToRemove - 1);
    }
  }

  class Wizard {
    var appState: AppState
    var selectedOutlet: string
    var pseudoImages: seq<string>
    var fridgeImage: Option<string>
    var error: Option<string>
    var imageForPreview: Option<string>

    /**
     * What the guarded advances keep true: past the first step an outlet is chosen; from
     * the fridge step on (short of an error) at least one pseudo photo exists; from
     * confirmation on a fridge photo exists; and a photo awaits keep-or-retake only on a
     * capture step.
     */
    predicate Valid()
      reads this
    {
      (appState != SelectOutlet ==> selectedOutlet != "") &&
      (appState in {FridgeCapture, Confirmation, Submitting, Success} ==> |pseudoImages| > 0) &&
      (appState in {Confirmation, Submitting, Success} ==> Truthy(fridgeImage)) &&
      (appState !in {PseudoCapture, FridgeCapture} ==> !Truthy(imageForPreview))
    }

    /** The state `useState` starts from (App.tsx:9-14). */
    predicate IsInitial()
      reads this
    {
      appState == SelectOutlet && selectedOutlet == "" && pseudoImages == [] &&
      fridgeImage == None && error == None && imageForPreview == None
    }

    /** The live camera view is on screen: a capture step with no photo awaiting a decision. */
    predicate CameraShown()
      reads this
    {
      appState in {PseudoCapture, FridgeCapture} && !Truthy(imageForPreview)
    }

    constructor ()
      ensures IsInitial() && Valid()
    {
      appState := SelectOutlet;
      selectedOutlet := "";
      pseudoImages := [];
      fridgeImage := None;
      error := None;
      imageForPreview := None;
    }

    /** Choosing an entry of the outlet dropdown, which only the first screen shows. */
    method SelectOutletCode(code: string)
      requires Valid() && appState == SelectOutlet
      modifies this
      ensures Valid()
      ensures selectedOutlet == code
      ensures appState == old(appState) && pseudoImages == old(pseudoImages) && fridgeImage == old(fridgeImage)
      ensures error == old(error) && imageForPreview == old(imageForPreview)
    {
      selectedOutlet := code;
    }

    /** The "Continue" button: disabled, and so without effect, until an outlet is chosen. */
    method Continue()
      requires Valid() && appState == SelectOutlet
      modifies this
      ensures Valid()
      ensures appState == (if selectedOutlet != "" then PseudoCapture else SelectOutlet)
      ensures selectedOutlet == old(selectedOutlet) && pseudoImages == old(pseudoImages) && fridgeImage == old(fridgeImage)
      ensures error == old(error) && imageForPreview == old(imageForPreview)
    {
      if selectedOutlet != "" {
        appState := PseudoCapture;
      }
    }

    /** The "Next Step" button of the pseudo step: disabled, and so without effect, while no photo is kept. */
    method NextStep()
      requires Valid() && appState == PseudoCapture && !Truthy(imageForPreview)
      modifies this
      ensures Valid()
      ensures appState == (if |pseudoImages| > 0 then FridgeCapture else PseudoCapture)
      ensures selectedOutlet == old(selectedOutlet) && pseudoImages == old(pseudoImages) && fridgeImage == old(fridgeImage)
      ensures error == old(error) && imageForPreview == old(imageForPreview)
    {
      if |pseudoImages| > 0 {
        appState := FridgeCapture;
      }
    }

    /** `handleCapture`: the camera froze a frame, which now awaits keep-or-retake. */
    method HandleCapture(imageDataUrl: string)
      requires Valid() && CameraShown()
      modifies this
      ensures Valid()
      ensures imageForPreview == Some(imageDataUrl)
      ensures appState == old(appState) && selectedOutlet == old(selectedOutlet) && pseudoImages == old(pseudoImages)
      ensures fridgeImage == old(fridgeImage) && error == old(error)
    {
      imageForPreview := Some(imageDataUrl);
    }

    /**
     * `handleConfirmPreview`: keeps the awaiting photo, appended to the pseudo list on the
     * pseudo step, as the fridge photo (moving on to confirmation) on the fridge step.
     * Without an awaiting photo nothing changes.
     */
    method HandleConfirmPreview()
      requires Valid()
      modifies this
      ensures Valid()
      ensures !Truthy(old(imageForPreview)) ==>
        appState == old(appState) && selectedOutlet == old(selectedOutlet) && pseudoImages == old(pseudoImages) &&
        fridgeImage == old(fridgeImage) && error == old(error) && imageForPreview == old(imageForPreview)
      ensures Truthy(old(imageForPreview)) ==>
        imageForPreview == None && selectedOutlet == old(selectedOutlet) && error == old(error) &&
        appState == (if old(appState) == FridgeCapture then Confirmation else old(appState)) &&
        pseudoImages == (if old(appState) == PseudoCapture then old(pseudoImages) + [old(imageForPreview).value] else old(pseudoImages)) &&
        fridgeImage == (if old(appState) == FridgeCapture then old(imageForPreview) else old(fridgeImage))
    {
      if !Truthy(imageForPreview) {
        return;
      }
      if appState == PseudoCapture {
        pseudoImages := pseudoImages + [imageForPreview.value];
      } else if appState == FridgeCapture {
        fridgeImage := imageForPreview;
        appState := Confirmation;
      }
      imageForPreview := None;
    }

    /** `handleRetake`: discards the awaiting photo. */
    method HandleRetake()
      requires Valid()
      modifies this
      ensures Valid()
      ensures imageForPreview == None
      ensures appState == old(appState) && selectedOutlet == old(selectedOutlet) && pseudoImages == old(pseudoImages)
      ensures fridgeImage == old(fridgeImage) && error == old(error)
    {
      imageForPreview := None;
    }

    /**
     * `handleRemovePseudoImage`, behind the remove buttons of the pseudo step: drops the
     * photo at `indexToRemove`; a position the list does not have changes nothing.
     */
    method HandleRemovePseudoImage(indexToRemove: int)
      requires Valid() && appState == PseudoCapture && !Truthy(imageForPreview)
      modifies this
      ensures Valid()
      ensures pseudoImages == FilterOutIndex(old(pseudoImages), indexToRemove)
      ensures 0 <= indexToRemove < |old(pseudoImages)| ==>
        |pseudoImages| == |old(pseudoImages)| - 1 &&
        pseudoImages == old(pseudoImages)[..indexToRemove] + old(pseudoImages)[indexToRemove + 1..]
      ensures !(0 <= indexToRemove < |old(pseudoImages)|) ==> pseudoImages == old(pseudoImages)
      ensures appState == old(appState) && selectedOutlet == old(selectedOutlet) && fridgeImage == old(fridgeImage)
      ensures error == old(error) && imageForPreview == old(imageForPreview)
    {
      if 0 <= indexToRemove < |pseudoImages| {
        FilterOutIndexInRange(pseudoImages, indexToRemove);
      } else {
        FilterOutIndexOutOfRange(pseudoImages, indexToRemove);
      }
      pseudoImages := FilterOutIndex(pseudoImages, indexToRemove);
    }

    /**
     * `handleCameraError` as the wizard means it: a failure reported while the camera view
     * is on screen records the message and shows the error screen.
     */
    method HandleCameraError(errorMessage: string)
      requires Valid() && CameraShown()
      modifies this
      ensures Valid()
      ensures appState == Error && error == Some(errorMessage)
      ensures selectedOutlet == old(selectedOutlet) && pseudoImages == old(pseudoImages)
      ensures fridgeImage == old(fridgeImage) && imageForPreview == old(imageForPreview)
    {
      error := Some(errorMessage);
      appState := Error;
    }

    /**
     * `handleCameraError` as the code delivers it: the camera view's pending request may
     * fail after the view has gone (a preview is awaiting a decision, or the wizard has
     * moved on), and the handler still records the message and shows the error screen,
     * whatever the step. Nothing then keeps `Valid()`.
     */
    method HandleStaleCameraError(errorMessage: string)
      modifies this
      ensures appState == Error && error == Some(errorMessage)
      ensures selectedOutlet == old(selectedOutlet) && pseudoImages == old(pseudoImages)
      ensures fridgeImage == old(fridgeImage) && imageForPreview == old(imageForPreview)
    {
      error := Some(errorMessage);
      appState := Error;
    }

    /** The guard of `handleSubmit`: an outlet, at least one pseudo photo and a fridge photo. */
    predicate ReadyToSubmit()
      reads this
      ensures Valid() && appState == Confirmation ==> ReadyToSubmit()
    {
      selectedOutlet != "" && |pseudoImages| > 0 && Truthy(fridgeImage)
    }

    /**
     * The synchronous half of `handleSubmit`: when the guard holds, shows the spinner of
     * the submitting step; otherwise nothing changes. On the confirmation screen, where
     * the submit button is, the guard always holds.
     */
    method BeginSubmit() returns (started: bool)
      requires Valid() && appState == Confirmation
      modifies this
      ensures Valid()
      ensures started == old(ReadyToSubmit())
      ensures old(appState) == Confirmation ==> started
      ensures appState == (if started then Submitting else old(appState))
      ensures selectedOutlet == old(selectedOutlet) && pseudoImages == old(pseudoImages) && fridgeImage == old(fridgeImage)
      ensures error == old(error) && imageForPreview == old(imageForPreview)
    {
      started := selectedOutlet != "" && |pseudoImages| > 0 && Truthy(fridgeImage);
      if started {
        appState := Submitting;
      }
    }

    /**
     * The continuation of `handleSubmit` once `submitReport` settles: success, or the error
     * screen with the server's, the thrown error's or the generic message.
     */
    method FinishSubmit(outcome: Reporting.Outcome)
      requires Valid() && appState == Submitting
      modifies this
      ensures Valid()
      ensures appState == (if outcome == Reporting.Ok(true) then Success else Error)
      ensures error == match outcome
        case Ok(success) => if success then old(error) else Some(SERVER_ERROR_MESSAGE)
        case ThrownError(message) => Some(message)
        case ThrownNonError => Some(UNEXPECTED_ERROR_MESSAGE)
      ensures selectedOutlet == old(selectedOutlet) && pseudoImages == old(pseudoImages)
      ensures fridgeImage == old(fridgeImage) && imageForPreview == old(imageForPreview)
    {
      match outcome
      case Ok(success) =>
        if success {
          appState := Success;
        } else {
          error := Some(SERVER_ERROR_MESSAGE);
          appState := Error;
        }
      case ThrownError(message) =>
        error := Some(message);
        appState := Error;
      case ThrownNonError =>
        error := Some(UNEXPECTED_ERROR_MESSAGE);
        appState := Error;
    }

    /**
     * `handleSubmit` from start to finish against endpoint `url`, when the network
     * exchange would produce `fetched`.
     */
    method HandleSubmit(url: string, fetched: Reporting.FetchResult) returns (sent: Option<Reporting.Payload>)
      requires Valid() && appState == Confirmation
      modifies this
      ensures Valid()
      ensures sent == (if old(ReadyToSubmit())
        then Reporting.SubmitReport(url, Reporting.ReportData(old(selectedOutlet), old(pseudoImages), old(fridgeImage)), fetched).request
        else None)
      ensures appState == Success ==> error == old(error)
      ensures !old(ReadyToSubmit()) ==> appState == old(appState) && error == old(error)
      ensures old(ReadyToSubmit()) && !Reporting.IsConfigured(url) ==>
        appState == Error && error == Some(Reporting.NOT_CONFIGURED_MESSAGE) && IsConfigError(error)
      ensures old(ReadyToSubmit()) && Reporting.IsConfigured(url) ==>
        (appState == Success <==> fetched == Reporting.Response(true, true))
      ensures old(ReadyToSubmit()) && Reporting.IsConfigured(url) && fetched.Response? && appState != Success ==>
        appState == Error && error == Some(SERVER_ERROR_MESSAGE) && !IsConfigError(error)
      ensures old(ReadyToSubmit()) && Reporting.IsConfigured(url) && fetched.TransportFailure? ==>
        appState == Error && error == Some(Reporting.NETWORK_ERROR_MESSAGE) && !IsConfigError(error)
      ensures selectedOutlet == old(selectedOutlet) && pseudoImages == old(pseudoImages)
      ensures fridgeImage == old(fridgeImage) && imageForPreview == old(imageForPreview)
    {
      ConfigErrorDetection();
      sent := None;
      var started := BeginSubmit();
      if started {
        var data := Reporting.ReportData(selectedOutlet, pseudoImages, fridgeImage);
        var submission := Reporting.SubmitReport(url, data, fetched);
        sent := submission.request;
        FinishSubmit(submission.outcome);
      }
    }

    /** `handleReset`: back to the initial state from any step. */
    method HandleReset()
      modifies this
      ensures IsInitial() && Valid()
    {
      appState := SelectOutlet;
      selectedOutlet := "";
      pseudoImages := [];
      fridgeImage := None;
      error := None;
      imageForPreview := None;
      assert !Truthy(imageForPreview);
    }
  }
}
