# Pseudo/fridge record photo wizard — a Dafny model

This project models the two pieces of logic in the daily photo-upload app. The rest of the
app is camera access and rendering.

- **The capture wizard** (`App.tsx`). A user picks an outlet code, keeps one or more
  "pseudo record" photos and one "fridge record" photo, reviews them and submits them. The
  six pieces of React state become the fields of class `App.Wizard`. Each handler becomes a
  method whose contract states the whole new state. The two guarded advance buttons become
  `Continue` and `NextStep`. The asynchronous `handleSubmit` becomes `BeginSubmit` (the guard
  and the spinner step) followed by `FinishSubmit` (how the call settled). `HandleSubmit`
  composes the two with the report submitter. `Wizard.Valid()` is the invariant that the
  guarded advances keep. Past the first step an outlet is chosen. From the fridge step to
  success at least one pseudo photo exists. From confirmation to success a fridge photo exists.
  A photo awaits keep-or-retake only on a capture step. Every method requires and ensures it,
  with two exceptions. `HandleReset` ensures it from any state without requiring it.
  `HandleStaleCameraError` neither requires nor ensures it (see "## Findings").
- **The report submitter** (`services/reportingService.ts`). It has a configuration guard
  against an empty or placeholder endpoint. `cleanBase64` strips the data-URL header. It
  builds the JSON payload and classifies the response as success, soft failure or thrown
  error. These are pure functions in module `Reporting`, over JavaScript's string primitives
  in module `JsString` (`includes`, `indexOf`, `split`, `join`, truthiness).
- `Scenarios` drives whole sessions through the wizard's handlers: the happy path,
  submission with the endpoint as shipped, a soft failure, a network failure, a camera
  failure followed by a reset, and the two disabled advance buttons. Two further sessions,
  `StaleCameraErrorAfterReset` and `StaleCameraErrorAfterSuccess`, show a camera failure
  that arrives after the camera view has gone (see "## Findings").

The network exchange is an input. `Reporting.FetchResult` is either
`Response(ok, success)` or `TransportFailure`. `Response` carries the HTTP `ok` flag and
whether the parsed body's `success` field was truthy. `TransportFailure` is a failure
anywhere in `fetch` or `response.json()`. It also covers a body that parses to
`null`: reading its `success` field (OK response) or its `message` field (non-OK response)
then throws inside the `try`, so the source throws the network message for it
(services/reportingService.ts:36-49). The camera is an input too. Its frames are the
`imageDataUrl` arguments of `HandleCapture`, and its failures are the message given to
`HandleCameraError`.

The model follows the code in these details:

- Keeping with no photo awaiting a decision is a no-op (App.tsx:21).
- Emptiness follows JavaScript truthiness: an empty string counts as absent for the outlet,
  the preview and the fridge photo (App.tsx:21, 46, 100; services/reportingService.ts:21).
- `cleanBase64` is `split(',')[1]`. For a text without a comma it yields JavaScript's
  `undefined` (`None` here). For a text with several commas it yields the piece between the
  first and the second comma (services/reportingService.ts:4).
- "Not configured" is not a separate error kind. It is an `Error` whose message the error
  screen recognises by a substring (services/reportingService.ts:13, App.tsx:265).
- The submit button exists only on the confirmation screen, and `Valid()` makes
  `handleSubmit`'s guard always true there. `BeginSubmit` still states what the guard does
  (App.tsx:46).

## Model

| member | source | states |
|---|---|---|
| `JsString.IndexOf` | services/reportingService.ts:4 | the result is the first position of the character, and absent exactly when the character does not occur |
| `JsString.Split` | services/reportingService.ts:4 | `split` yields at least one piece, no piece holds the separator, and there is one piece exactly when the text lacks the separator |
| `JsString.JoinSplit` | services/reportingService.ts:4 | joining the pieces of a split with the separator gives back the original text |
| `JsString.SplitJoin` | services/reportingService.ts:4 | splitting pieces that are free of the separator, once joined, gives back the same pieces |
| `JsString.IncludesAt` | services/reportingService.ts:11 | `includes` finds an occurrence at any position |
| `JsString.IncludesLength` | App.tsx:265 | a text includes only search texts no longer than itself |
| `JsString.NotIncludedWithoutFirstChar` | App.tsx:265 | a text lacking the first character of the search text does not include it |
| `Reporting.IsConfigured` | services/reportingService.ts:11 | a configured endpoint is neither empty nor the placeholder; `SubmitReport`, `ShippedEndpointNotConfigured` and `NotConfiguredIgnoresNetwork` state what the guard does |
| `Reporting.CleanBase64` | services/reportingService.ts:4 | the result is absent exactly when the text has no comma; otherwise it is the comma-free piece that follows the first comma and runs to the next comma or the end |
| `Reporting.CleanBase64DataUrl` | services/reportingService.ts:4 | a data URL whose header and data hold no comma cleans to exactly its data |
| `Reporting.CleanAll` | services/reportingService.ts:20 | the cleaned list has the input's length, and each element is the cleaned image at the same position |
| `Reporting.BuildPayload` | services/reportingService.ts:18-22 | the outlet code is passed unchanged, the pseudo images are cleaned one for one in order, and the fridge image is null exactly when the input is null or empty, else its cleaned text |
| `Reporting.PayloadOfDataUrls` | services/reportingService.ts:18-22 | for well-formed data URLs the payload carries exactly their base64 data, in capture order |
| `Reporting.SubmitReport` | services/reportingService.ts:6-50 | a request is sent exactly when the endpoint is configured. An unconfigured endpoint throws the not-configured message. A configured one resolves `{success: true}` exactly for an OK response with a truthy success field, and otherwise resolves `{success: false}` without throwing. A transport or parse failure throws the fixed network message |
| `Reporting.ShippedEndpointNotConfigured` | services/reportingService.ts:2-14 | with the endpoint constant as shipped, every submission stops at the guard with the not-configured error and sends nothing |
| `Reporting.NotConfiguredIgnoresNetwork` | services/reportingService.ts:11-14 | with an unusable endpoint, nothing the network would do changes the result |
| `Reporting.SubmitThrowsOnlyErrors` | services/reportingService.ts:11-49 | `submitReport` only ever throws `Error` values, with the not-configured or the network message |
| `App.ConfigErrorDetection` | App.tsx:265 | the error screen's setup panel appears for the not-configured message. It does not appear for the network, server-error and unexpected-error messages, or for no message |
| `App.IsConfigError` | App.tsx:265 | the error screen's test holds only for a recorded message at least as long as the marker; `ConfigErrorDetection` says which messages pass it |
| `App.FilterOutIndex` | App.tsx:37 | filtering out a position shortens the list by one when the position exists, and keeps its length otherwise; `FilterOutIndexInRange` and `FilterOutIndexOutOfRange` give the resulting list |
| `App.FilterOutIndexInRange` | App.tsx:36-38 | filtering out an existing position removes exactly that element and keeps the others in order |
| `App.FilterOutIndexOutOfRange` | App.tsx:36-38 | filtering out a position the list does not have leaves the list unchanged |
| `App.Wizard.constructor` | App.tsx:9-14 | the wizard starts on outlet selection with no outlet, no photos, no error and no preview, and satisfies the invariant |
| `App.Wizard.SelectOutletCode` | App.tsx:88-97 | the outlet can be chosen only on the first screen, and choosing it changes nothing else |
| `App.Wizard.Continue` | App.tsx:98-100 | the first screen advances to the pseudo step exactly when an outlet is chosen, and nothing else changes |
| `App.Wizard.NextStep` | App.tsx:158-160 | offered on the pseudo step while no photo awaits a decision, the button advances to the fridge step exactly when at least one pseudo photo is kept, and nothing else changes |
| `App.Wizard.HandleCapture` | App.tsx:16-18 | a captured frame becomes the photo awaiting a decision, and step, outlet, photos and error are unchanged |
| `App.Wizard.HandleConfirmPreview` | App.tsx:20-30 | without an awaiting photo nothing changes. On the pseudo step the photo is appended to the end of the list and the step stays. On the fridge step it becomes the fridge photo and the step moves to confirmation with the pseudo list unchanged. The awaiting photo is cleared. The invariant is kept |
| `App.Wizard.HandleRetake` | App.tsx:32-34 | the awaiting photo is discarded and nothing else changes |
| `App.Wizard.HandleRemovePseudoImage` | App.tsx:36-38 | offered on the pseudo step while no photo awaits a decision: an existing position is removed: the list shrinks by one and the rest keep their order. Any other position leaves the list unchanged, and nothing else changes |
| `App.Wizard.HandleCameraError` | App.tsx:40-43 | a camera failure reported while the camera view is on screen records its message and shows the error screen, keeping the invariant; the photos, outlet and preview are unchanged |
| `App.Wizard.HandleStaleCameraError` | App.tsx:40-43 | a camera failure reported at any step, as the code allows, records its message and shows the error screen; the photos, outlet and preview are unchanged |
| `App.Wizard.ReadyToSubmit` | App.tsx:46 | under the invariant the guard of `handleSubmit` always holds on the confirmation screen; `BeginSubmit` states what the guard does |
| `App.Wizard.BeginSubmit` | App.tsx:45-47 | the submission starts exactly when an outlet, a pseudo photo and a fridge photo are present. On the confirmation screen it always starts. The step becomes submitting, and nothing else changes |
| `App.Wizard.FinishSubmit` | App.tsx:48-67 | a truthy success leads to the success screen. An unsuccessful result records the server-error message. A thrown `Error` records its own message, and any other thrown value records the generic message. The error screen follows in each of those cases |
| `App.Wizard.HandleSubmit` | App.tsx:45-69 | the request sent is the one `submitReport` makes from the wizard's outlet, pseudo images and fridge image, and none is sent when the guard fails. On success the error is unchanged. A full submission ends on success exactly for a configured endpoint answering OK with success. An unconfigured endpoint ends on the error screen with the setup panel. A soft failure ends on the server-error message, and a transport failure on the network message, neither with the setup panel. The photos and outlet are unchanged |
| `App.Wizard.HandleReset` | App.tsx:71-78 | from any state, starting over yields exactly the initial state |
| `Scenarios.CaptureAndSubmit` | App.tsx:16-69 | a session that keeps two pseudo photos and one fridge photo holds both. A request is sent exactly when the endpoint is configured, and it carries the outlet, the two cleaned pseudo photos in capture order and the cleaned fridge photo. Success comes exactly when the endpoint is configured and answers with success. The unconfigured, soft-failure and network-failure endings each show their own message |
| `Scenarios.ShippedEndpointSession` | services/reportingService.ts:2-14 | with the endpoint as shipped, a complete session ends on the error screen with the setup panel |
| `Scenarios.CameraFailure` | App.tsx:40-78 | a camera failure shows its message on the error screen, and starting over returns to outlet selection with no outlet |
| `Scenarios.DisabledAdvances` | App.tsx:98-160 | neither advance button moves on while its guard is unmet |
| `Scenarios.StaleCameraErrorAfterReset` | App.tsx:40-43 | after a fridge frame kept before the stream arrived, Start Over on the confirmation screen, then a late camera failure, shows the error screen with no outlet chosen, breaking the invariant |
| `Scenarios.StaleCameraErrorAfterSuccess` | App.tsx:40-43 | a camera failure arriving after a successful upload replaces the success screen with the error screen |

## Left out

- `components/Camera.tsx` is not part of this model. It opens the camera stream, draws
  frames and encodes JPEG at quality 0.9, and releases the stream's tracks. That is device
  I/O. Its only effect on the wizard is a call to `onCapture(image)` or
  `onCameraError(message)`, and those are the arguments of `HandleCapture` and
  `HandleCameraError`. Its error texts are not modelled.
- `fetch`, its CORS, cache and redirect options, the request header, `JSON.stringify` and
  `response.json()` are abstracted into `FetchResult`
  (services/reportingService.ts:25-36). How a missing image (`undefined`) is serialised is
  left out with them.
- `async`/`await` scheduling and React re-rendering are left out. Each handler is one atomic
  update, and a submission is the two steps `BeginSubmit` and `FinishSubmit`.
- `console.log` and `console.error` output is left out.
- `OUTLET_CODES` (`./constants`) and `AppState` (`./types`) are not part of this model.
  `SelectOutletCode` accepts any string, and `AppState` is a datatype with the seven steps.
- Rendering is left out, except for three things that carry behaviour. The first is the
  screen that shows a handler's control, which becomes a `requires` clause for the outlet
  dropdown, the two advance buttons, the remove buttons, the camera view and the submit
  button. The others are the two `disabled` guards and the error screen's substring test.
  Start Over (`HandleReset`), Retake (`HandleRetake`) and Keep (`HandleConfirmPreview`) are
  modelled as callable from any step, although the code shows them only on the
  confirmation, success and error screens and on the preview screens
  (App.tsx:110-124, 171-185, 222-228, 255-260, 283-288).
- App.Wizard.HandleCameraError: requires the camera view to be on screen, so the proved
  invariant does not cover a camera failure reported after that view has gone. In the code
  the camera request's failure handler (components/Camera.tsx:23-47) still calls
  `onCameraError` then, at any step, because unmounting (components/Camera.tsx:52-54)
  does not cancel the pending request; the code then shows the error screen whatever the
  step, possibly with a preview pending or no outlet, and a submission still in flight
  afterwards settles onto the screen it lands on. `HandleStaleCameraError` models that
  call; `FinishSubmit` keeps requiring the submitting step. See "## Findings".
- `Reporting.FetchResult`: a body that parses to `null` counts as `TransportFailure`, as
  explained above. The body's `success` field is reduced to its truthiness, and the
  `message` field, which is only logged, is left out.

## Findings

| source | as written | input that shows it | evidently intended | confidence | as-written member | corrected member |
|---|---|---|---|---|---|---|
| components/Camera.tsx:23-54 | the camera request's failure handler calls `onCameraError` even after the camera view has unmounted, and `handleCameraError` (App.tsx:40-43) moves to the error screen from any step | press Take Photo before the stream arrives (a 0x0 frame, `"data:,"`), keep it, upload successfully, then deny the permission prompt; or deny it after Start Over | a camera failure is reported only while the camera view is on screen, so the wizard's invariant holds | medium, not executed | `Scenarios.StaleCameraErrorAfterSuccess`, `Scenarios.StaleCameraErrorAfterReset` (over `App.Wizard.HandleStaleCameraError`) | `App.Wizard.HandleCameraError` |
