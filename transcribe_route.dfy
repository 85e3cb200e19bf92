/** The `POST /api/transcribe` route: guards on the `audio` form field and
    the Sarvam key (a missing or placeholder key answers with a fixed mock
    transcription), the multipart request sent to the speech-to-text
    service, and the mapping of its answer.

    As for the places route, the handler first decides whether to answer at
    once or to call upstream (`Guard`), and the upstream reply then
    determines the answer (`Finish`). */
module TranscribeRoute {
  import opened Js

  const NoAudioMessage := "No audio file provided"
  const PlaceholderKey := "your_sarvam_api_key_here"
  const MockTranscript := "Take me to Central Park (Mock transcription - API key not configured)"
  const MockLanguage := "en-US"
  const MockRequestId := "mock-request-id"
  const SarvamUrl := "https://api.sarvam.ai/speech-to-text-translate"
  const KeyHeader := "api-subscription-key"
  const Prompt := "ride hailing, location, destination, address"
  const Model := "saaras:v2.5"
  const TranscriptionFailedMessage := "Transcription failed"
  const InternalErrorMessage := "Internal server error"

  /** A value of a multipart form field: an uploaded file or plain text. */
  datatype FormValue = FileValue(fileName: string, bytes: seq<bv8>) | TextValue(text: string)

  /** The parsed request body; `request.formData()` can also throw. */
  datatype Form = Unreadable | Form(audio: Option<FormValue>)

  /** An HTTP status a failed `fetch` response can carry. */
  type FailureStatus = s: int | 300 <= s <= 599 witness 500

  datatype SarvamResult = SarvamResult(
    transcript: Option<string>,
    language_code: Option<string>,
    request_id: Option<string>)

  /** How the upstream call went: it threw; it answered not-ok with a body
      text (`None` if reading the text threw); or it answered ok with a JSON
      body (`None` if it is not JSON). */
  datatype Reply =
    | Threw
    | NotOk(status: FailureStatus, text: Option<string>)
    | Ok(json: Option<SarvamResult>)

  datatype UpstreamRequest = UpstreamRequest(
    url: string,
    httpMethod: string,
    headers: seq<(string, string)>,
    fields: seq<(string, FormValue)>)

  datatype Body =
    | ErrorBody(error: string, details: Option<string>)
    | Transcription(success: bool, transcript: Option<string>, language: Option<string>, requestId: Option<string>)

  datatype Response = Response(status: int, body: Body)

  datatype Decision = Respond(response: Response) | CallUpstream(request: UpstreamRequest)

  const MockResponse := Response(200, Transcription(true, Some(MockTranscript), Some(MockLanguage), Some(MockRequestId)))

  /** JavaScript truthiness of a form entry: a file always, text unless empty. */
  predicate Present(v: Option<FormValue>) {
    v.Some? && v.value != TextValue("")
  }

  /** A key that is set, non-empty and not the placeholder. */
  predicate Usable(apiKey: Option<string>) {
    apiKey.Some? && apiKey.value != "" && apiKey.value != PlaceholderKey
  }

  /** The multipart request to the speech-to-text service. */
  function BuildRequest(audio: FormValue, key: string): UpstreamRequest {
    UpstreamRequest(SarvamUrl, "POST", [(KeyHeader, key)],
                    [("file", audio), ("prompt", TextValue(Prompt)), ("model", TextValue(Model))])
  }

  /** The key travels only in the header: two requests for the same audio
      with different keys differ in the header alone. */
  lemma KeyOnlyInHeader(audio: FormValue, k1: string, k2: string)
    ensures BuildRequest(audio, k1).(headers := []) == BuildRequest(audio, k2).(headers := [])
    ensures k1 != k2 ==> BuildRequest(audio, k1) != BuildRequest(audio, k2)
  {
    assert BuildRequest(audio, k1).headers[0].1 == k1;
  }

  /** The request forwards the uploaded audio as it came, and two requests
      are the same exactly when they carry the same audio and the same key. */
  lemma RequestDeterminedByAudioAndKey(a1: FormValue, k1: string, a2: FormValue, k2: string)
    ensures ("file", a1) in BuildRequest(a1, k1).fields
    ensures BuildRequest(a1, k1) == BuildRequest(a2, k2) <==> a1 == a2 && k1 == k2
  {
    if BuildRequest(a1, k1) == BuildRequest(a2, k2) {
      assert BuildRequest(a1, k1).fields[0].1 == a1;
      assert BuildRequest(a1, k1).headers[0].1 == k1;
    }
  }

  /** The guards before any upstream call: an unreadable body is a 500, a
      missing or empty `audio` a 400 (before the key is looked at), an
      unusable key the mock transcription; otherwise the request goes out. */
  function Guard(form: Form, apiKey: Option<string>): (d: Decision)
    ensures form.Unreadable? ==> d == Respond(Response(500, ErrorBody(InternalErrorMessage, None)))
    ensures form.Form? && !Present(form.audio) ==> d == Respond(Response(400, ErrorBody(NoAudioMessage, None)))
    ensures form.Form? && Present(form.audio) && !Usable(apiKey) ==> d == Respond(MockResponse)
    ensures d.CallUpstream? <==> form.Form? && Present(form.audio) && Usable(apiKey)
    ensures d.CallUpstream? ==> d.request == BuildRequest(form.audio.value, apiKey.value)
  {
    match form
    case Unreadable => Respond(Response(500, ErrorBody(InternalErrorMessage, None)))
    case Form(audio) =>
      if audio.None? || audio.value == TextValue("") then Respond(Response(400, ErrorBody(NoAudioMessage, None)))
      else if apiKey.None? || apiKey.value == "" || apiKey.value == PlaceholderKey then Respond(MockResponse)
      else CallUpstream(BuildRequest(audio.value, apiKey.value))
  }

  /** The answer once the upstream call is over: a not-ok reply keeps its
      status and carries its body text as `details`; an ok reply gives the
      transcript, `language_code` as `language` and `request_id` as
      `requestId`; anything that throws is a 500. */
  function Finish(reply: Reply): (r: Response)
    ensures reply.NotOk? && reply.text.Some? ==>
              r == Response(reply.status, ErrorBody(TranscriptionFailedMessage, reply.text))
    ensures reply.Ok? && reply.json.Some? ==>
              r == Response(200, Transcription(true, reply.json.value.transcript,
                                               reply.json.value.language_code, reply.json.value.request_id))
    ensures reply.Threw? || (reply.NotOk? && reply.text.None?) || (reply.Ok? && reply.json.None?) ==>
              r == Response(500, ErrorBody(InternalErrorMessage, None))
  {
    match reply
    case Threw => Response(500, ErrorBody(InternalErrorMessage, None))
    case NotOk(status, text) =>
      if text.None? then Response(500, ErrorBody(InternalErrorMessage, None))
      else Response(status, ErrorBody(TranscriptionFailedMessage, text))
    case Ok(json) =>
      match json
      case None => Response(500, ErrorBody(InternalErrorMessage, None))
      case Some(res) => Response(200, Transcription(true, res.transcript, res.language_code, res.request_id))
  }

  /** `POST`, given what the upstream would reply if called. */
  function Post(form: Form, apiKey: Option<string>, reply: Reply): Response {
    match Guard(form, apiKey)
    case Respond(r) => r
    case CallUpstream(_) => Finish(reply)
  }

  /** A successful answer (200 with `success: true`) comes from the mock or
      from an ok upstream reply that is JSON, and from nothing else; every
      other answer is an error body whose status is never 2xx. Without a
      usable key the upstream plays no part. */
  lemma PostAnswers(form: Form, apiKey: Option<string>, reply: Reply, other: Reply)
    ensures var r := Post(form, apiKey, reply);
      r.body.Transcription? <==>
        form.Form? && Present(form.audio) && (!Usable(apiKey) || (reply.Ok? && reply.json.Some?))
    ensures var r := Post(form, apiKey, reply);
      r.body.Transcription? ==> r.status == 200 && r.body.success
    ensures var r := Post(form, apiKey, reply);
      r.body.ErrorBody? ==> r.status >= 300
    ensures !Usable(apiKey) ==> Post(form, apiKey, reply) == Post(form, apiKey, other)
  {
  }
}
