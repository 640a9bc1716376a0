/**
 * The report submitter of services/reportingService.ts: the configuration guard,
 * `cleanBase64`, the JSON payload and the classification of what `fetch` produced.
 * The network exchange itself is an input: `FetchResult` stands for the response
 * (its HTTP `ok` flag and whether the parsed body's `success` field was truthy) or
 * for a failure anywhere in `fetch` or `response.json()`.
 */
module Reporting {
  import opened Wrappers
  import opened JsString

  /** The placeholder the endpoint constant holds until the backend is deployed. */
  const PLACEHOLDER_URL := "PASTE_YOUR_GOOGLE_APPS_SCRIPT_URL_HERE"
  /** The endpoint constant as shipped. */
  const WEB_APP_URL := PLACEHOLDER_URL

  // The messages are written as short pieces so that the verifier can inspect them character by character.
  const NOT_CONFIGURED_MESSAGE := "Backend is not configured. " + "Please set the WEB_APP_URL."
  const NETWORK_ERROR_MESSAGE :=
    "Failed to send data to the server. " + "Check your network connection " + "and the App Script URL."

  /** What the caller hands to `submitReport`. */
  datatype ReportData = ReportData(outletCode: string, pseudoImages: seq<string>, fridgeImage: Option<string>)

  /**
   * The JSON body. An image whose text has no comma cleans to JavaScript's `undefined`,
   * written `None`; `fridgeImage` is `None` for JSON `null`.
   */
  datatype Payload = Payload(outletCode: string, pseudoImages: seq<Option<string>>, fridgeImage: Option<Option<string>>)

  /** What `fetch` followed by `response.json()` produced. */
  datatype FetchResult = Response(ok: bool, success: bool) | TransportFailure

  /**
   * How a call to `submitReport` settles: it resolves with `{ success }`, or it rejects
   * with an `Error` carrying a message, or it rejects with something that is not an `Error`.
   */
  datatype Outcome = Ok(success: bool) | ThrownError(message: string) | ThrownNonError

  /** One call: the payload posted (`None` when no request was made) and how the call settled. */
  datatype Submission = Submission(request: Option<Payload>, outcome: Outcome)

  /** The endpoint is usable: neither empty nor still holding the placeholder. */
  predicate IsConfigured(url: string)
    ensures IsConfigured(url) ==> url != "" && url != PLACEHOLDER_URL
  {
    url != "" && !Includes(url, PLACEHOLDER_URL)
  }

  /**
   * `dataUrl.split(',')[1]`: the text after the first comma, up to the next comma if there
   * is one; `None` (JavaScript's `undefined`) when the text has no comma.
   */
  function CleanBase64(dataUrl: string): (r: Option<string>)
    ensures r.None? <==> ',' !in dataUrl
    ensures r.Some? ==>
      var start := IndexOf(dataUrl, ',').value + 1;
      ',' !in r.value && StartsWith(dataUrl[start..], r.value) &&
      (start + |r.value| == |dataUrl| || dataUrl[start + |r.value|] == ',')
  {
    var parts := Split(dataUrl, ',');
    if |parts| > 1 then
      var i := IndexOf(dataUrl, ',').value;
      var rest := dataUrl[i + 1..];
      assert parts[1] == Split(rest, ',')[0];
      SplitHead(rest, ',');
      Some(parts[1])
    else
      None
  }

  /** The first piece of a split is the text up to the first separator. */
  lemma SplitHead(s: string, sep: char)
    ensures var head := Split(s, sep)[0];
      StartsWith(s, head) && (|head| == |s| || s[|head|] == sep)
  {
  }

  /**
   * A data URL `data:[<mediatype>][;base64],<data>` (section 3 of RFC 2397) whose header
   * and data hold no comma, as base64 text never does, cleans to exactly its data.
   */
  lemma CleanBase64DataUrl(header: string, data: string)
    requires ',' !in header && ',' !in data
    ensures CleanBase64(header + "," + data) == Some(data)
  {
    SplitJoin([header, data], ',');
    assert Join([header, data], ',') == header + "," + data by {
      assert [header, data][1..] == [data];
    }
  }

  /** `pseudoImages.map(cleanBase64)`. */
  function CleanAll(images: seq<string>): (r: seq<Option<string>>)
    ensures |r| == |images|
    ensures forall i :: 0 <= i < |images| ==> r[i] == CleanBase64(images[i])
  {
    if images == [] then [] else [CleanBase64(images[0])] + CleanAll(images[1..])
  }

  /** The body posted for `data` (services/reportingService.ts:18-22). */
  function BuildPayload(data: ReportData): (p: Payload)
    ensures p.outletCode == data.outletCode
    ensures |p.pseudoImages| == |data.pseudoImages|
    ensures forall i :: 0 <= i < |data.pseudoImages| ==> p.pseudoImages[i] == CleanBase64(data.pseudoImages[i])
    ensures p.fridgeImage.None? <==> !Truthy(data.fridgeImage)
    ensures p.fridgeImage.Some? ==> p.fridgeImage.value == CleanBase64(data.fridgeImage.value)
  {
    Payload(
      data.outletCode,
      CleanAll(data.pseudoImages),
      if Truthy(data.fridgeImage) then Some(CleanBase64(data.fridgeImage.value)) else None)
  }

  /**
   * When every image is a data URL `headers[i] + "," + bodies[i]` free of further commas,
   * the payload carries exactly the bodies, in order.
   */
  lemma PayloadOfDataUrls(data: ReportData, headers: seq<string>, bodies: seq<string>)
    requires |headers| == |bodies| == |data.pseudoImages|
    requires forall i :: 0 <= i < |bodies| ==>
      ',' !in headers[i] && ',' !in bodies[i] && data.pseudoImages[i] == headers[i] + "," + bodies[i]
    ensures forall i :: 0 <= i < |bodies| ==> BuildPayload(data).pseudoImages[i] == Some(bodies[i])
  {
    forall i | 0 <= i < |bodies|
      ensures BuildPayload(data).pseudoImages[i] == Some(bodies[i])
    {
      CleanBase64DataUrl(headers[i], bodies[i]);
    }
  }

  /**
   * `submitReport(data)` against endpoint `url`, when the network exchange would produce
   * `fetched` (services/reportingService.ts:6-50).
   */
  function SubmitReport(url: string, data: ReportData, fetched: FetchResult): (s: Submission)
    ensures s.request.Some? <==> IsConfigured(url)
    ensures s.request.Some? ==> s.request.value == BuildPayload(data)
    ensures !IsConfigured(url) ==> s.outcome == ThrownError(NOT_CONFIGURED_MESSAGE)
    ensures IsConfigured(url) ==> (s.outcome == Ok(true) <==> fetched == Response(true, true))
    ensures IsConfigured(url) && fetched.Response? ==> s.outcome.Ok?
    ensures IsConfigured(url) && fetched.TransportFailure? ==> s.outcome == ThrownError(NETWORK_ERROR_MESSAGE)
  {
    if !IsConfigured(url) then
      Submission(None, ThrownError(NOT_CONFIGURED_MESSAGE))
    else
      var payload := BuildPayload(data);
      match fetched
      case TransportFailure => Submission(Some(payload), ThrownError(NETWORK_ERROR_MESSAGE))
      case Response(ok, success) => Submission(Some(payload), Ok(ok && success))
  }

  /** The endpoint as shipped is the placeholder, so every submission stops at the guard. */
  lemma ShippedEndpointNotConfigured(data: ReportData, fetched: FetchResult)
    ensures SubmitReport(WEB_APP_URL, data, fetched) == Submission(None, ThrownError(NOT_CONFIGURED_MESSAGE))
  {
  }

  /** With an unusable endpoint nothing the network could do changes the result. */
  lemma NotConfiguredIgnoresNetwork(url: string, data: ReportData, f1: FetchResult, f2: FetchResult)
    requires !IsConfigured(url)
    ensures SubmitReport(url, data, f1) == SubmitReport(url, data, f2)
  {
  }

  /** Submitting never rejects with a non-`Error` value, and an answered request never rejects. */
  lemma SubmitThrowsOnlyErrors(url: string, data: ReportData, fetched: FetchResult)
    ensures !SubmitReport(url, data, fetched).outcome.ThrownNonError?
    ensures SubmitReport(url, data, fetched).outcome.ThrownError? ==>
      SubmitReport(url, data, fetched).outcome.message in {NOT_CONFIGURED_MESSAGE, NETWORK_ERROR_MESSAGE}
  {
  }
}
