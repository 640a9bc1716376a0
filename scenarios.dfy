/**
 * Whole sessions of the wizard, driven through its handlers the way a user drives the
 * screens: what the final screen shows follows from the handlers' contracts alone.
 */
module Scenarios {
  import opened Wrappers
  import opened JsString
  import Reporting
  import App

  /** Outlet chosen, two pseudo photos and a fridge photo kept, then the submit button pressed. */
  method CaptureAndSubmit(outlet: string, pseudo1: string, pseudo2: string, fridge: string,
                          url: string, fetched: Reporting.FetchResult)
    returns (step: App.AppState, error: Option<string>, pseudoCount: nat, fridgeKept: bool,
             sent: Option<Reporting.Payload>)
    requires outlet != "" && pseudo1 != "" && pseudo2 != "" && fridge != ""
    ensures pseudoCount == 2 && fridgeKept
    ensures sent.Some? <==> Reporting.IsConfigured(url)
    ensures sent.Some? ==>
      sent.value.outletCode == outlet &&
      sent.value.pseudoImages == [Reporting.CleanBase64(pseudo1), Reporting.CleanBase64(pseudo2)] &&
      sent.value.fridgeImage == Some(Reporting.CleanBase64(fridge))
    ensures Reporting.IsConfigured(url) ==> (step == App.Success <==> fetched == Reporting.Response(true, true))
    ensures !Reporting.IsConfigured(url) ==>
      step == App.Error && error == Some(Reporting.NOT_CONFIGURED_MESSAGE) && App.IsConfigError(error)
    ensures Reporting.IsConfigured(url) && fetched == Reporting.Response(true, false) ==>
      step == App.Error && error == Some(App.SERVER_ERROR_MESSAGE) && !App.IsConfigError(error)
    ensures Reporting.IsConfigured(url) && fetched.TransportFailure? ==>
      step == App.Error && error == Some(Reporting.NETWORK_ERROR_MESSAGE) && !App.IsConfigError(error)
  {
    var w := new App.Wizard();
    w.SelectOutletCode(outlet);
    w.Continue();
    w.HandleCapture(pseudo1);
    w.HandleConfirmPreview();
    w.HandleCapture(pseudo2);
    w.HandleConfirmPreview();
    w.NextStep();
    w.HandleCapture(fridge);
    w.HandleConfirmPreview();
    assert w.appState == App.Confirmation && w.ReadyToSubmit();
    assert w.selectedOutlet == outlet && w.pseudoImages == [pseudo1, pseudo2] && w.fridgeImage == Some(fridge);
    PayloadOfSession(outlet, pseudo1, pseudo2, fridge);
    sent := w.HandleSubmit(url, fetched);
    step, error, pseudoCount, fridgeKept := w.appState, w.error, |w.pseudoImages|, Truthy(w.fridgeImage);
  }

  /** The payload of a session with two pseudo photos and a fridge photo. */
  lemma PayloadOfSession(outlet: string, pseudo1: string, pseudo2: string, fridge: string)
    requires fridge != ""
    ensures var p := Reporting.BuildPayload(Reporting.ReportData(outlet, [pseudo1, pseudo2], Some(fridge)));
      p.outletCode == outlet &&
      p.pseudoImages == [Reporting.CleanBase64(pseudo1), Reporting.CleanBase64(pseudo2)] &&
      p.fridgeImage == Some(Reporting.CleanBase64(fridge))
  {
    var p := Reporting.BuildPayload(Reporting.ReportData(outlet, [pseudo1, pseudo2], Some(fridge)));
    assert p.pseudoImages[0] == Reporting.CleanBase64(pseudo1);
    assert p.pseudoImages[1] == Reporting.CleanBase64(pseudo2);
  }

  /** With the endpoint as shipped, a complete session ends on the error screen with the setup instructions. */
  method ShippedEndpointSession(outlet: string, pseudo: string, fridge: string, fetched: Reporting.FetchResult)
    returns (step: App.AppState, error: Option<string>)
    requires outlet != "" && pseudo != "" && fridge != ""
    ensures step == App.Error && App.IsConfigError(error)
  {
    Reporting.ShippedEndpointNotConfigured(Reporting.ReportData(outlet, [pseudo], Some(fridge)), fetched);
    var w := new App.Wizard();
    w.SelectOutletCode(outlet);
    w.Continue();
    w.HandleCapture(pseudo);
    w.HandleConfirmPreview();
    w.NextStep();
    w.HandleCapture(fridge);
    w.HandleConfirmPreview();
    var sent := w.HandleSubmit(Reporting.WEB_APP_URL, fetched);
    step, error := w.appState, w.error;
  }

  /** The camera fails on the pseudo step: the error screen shows the camera's message; starting over restores the initial state. */
  method CameraFailure(outlet: string, message: string)
    returns (step: App.AppState, error: Option<string>, stepAfterReset: App.AppState, outletAfterReset: string)
    requires outlet != ""
    ensures step == App.Error && error == Some(message)
    ensures stepAfterReset == App.SelectOutlet && outletAfterReset == ""
  {
    var w := new App.Wizard();
    w.SelectOutletCode(outlet);
    w.Continue();
    w.HandleCameraError(message);
    step, error := w.appState, w.error;
    w.HandleReset();
    stepAfterReset, outletAfterReset := w.appState, w.selectedOutlet;
  }

  /** Without an outlet the first screen's button does nothing, and without a kept photo neither does the second. */
  method DisabledAdvances(image: string) returns (firstStep: App.AppState, secondStep: App.AppState)
    ensures firstStep == App.SelectOutlet
    ensures secondStep == App.PseudoCapture
  {
    var w := new App.Wizard();
    w.Continue();
    firstStep := w.appState;
    w.SelectOutletCode("OUT01");
    w.Continue();
    w.HandleCapture(image);
    w.HandleRetake();
    w.NextStep();
    secondStep := w.appState;
  }

  /**
   * The camera view of the fridge step is left by keeping a frame taken before the stream
   * arrived (`"data:,"`, a 0x0 image), and the user starts over on the confirmation screen.
   * A camera failure that arrives then shows the error screen
   * although no outlet is chosen, which breaks the wizard's invariant.
   */
  method StaleCameraErrorAfterReset(outlet: string, pseudo: string, message: string)
    returns (step: App.AppState, selectedOutlet: string, valid: bool)
    requires outlet != "" && pseudo != ""
    ensures step == App.Error && selectedOutlet == "" && !valid
  {
    var w := new App.Wizard();
    w.SelectOutletCode(outlet);
    w.Continue();
    w.HandleCapture(pseudo);
    w.HandleConfirmPreview();
    w.NextStep();
    w.HandleCapture("data:,");
    w.HandleConfirmPreview();
    w.HandleReset();
    w.HandleStaleCameraError(message);
    step, selectedOutlet, valid := w.appState, w.selectedOutlet, w.Valid();
  }

  /**
   * The camera view of the fridge step is left by keeping a frame taken before the stream
   * arrived (`"data:,"`, a 0x0 image); the report is then uploaded, and the camera failure
   * arriving afterwards replaces the success screen with the error screen.
   */
  method StaleCameraErrorAfterSuccess(outlet: string, pseudo: string, url: string, message: string)
    returns (stepBefore: App.AppState, stepAfter: App.AppState, error: Option<string>)
    requires outlet != "" && pseudo != "" && Reporting.IsConfigured(url)
    ensures stepBefore == App.Success
    ensures stepAfter == App.Error && error == Some(message)
  {
    var w := new App.Wizard();
    w.SelectOutletCode(outlet);
    w.Continue();
    w.HandleCapture(pseudo);
    w.HandleConfirmPreview();
    w.NextStep();
    w.HandleCapture("data:,");
    w.HandleConfirmPreview();
    var sent := w.HandleSubmit(url, Reporting.Response(true, true));
    stepBefore := w.appState;
    w.HandleStaleCameraError(message);
    stepAfter, error := w.appState, w.error;
  }
}
