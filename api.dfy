/** The HTTP endpoints: request bodies with their defaults, the shaping of
    what is passed to the relay and to TTS dispatch, and the responses built
    from what those return. Routing, middleware and the server are not
    modelled; each endpoint is a function or method of its request. */
module Api {

  import opened Wrappers
  import opened Config
  import opened Sse
  import opened Debate
  import opened Tts

  const DefaultModel := "deepseek-chat"
  const DefaultTemperature: real := 0.7
  const ServiceVersion := "1.0.0"
  const InternalError: nat := 500

  datatype ChatMessage = ChatMessage(role: string, content: string)

  /** A field of a request body: left out, sent as null, or given. */
  datatype Field<T> = Omitted | Null | Given(value: T)

  /** An optional field with a default: left out it takes the default, sent
      as null it is None. */
  function FieldOr<T>(f: Field<T>, default: T): (r: Option<T>)
    ensures f.Omitted? ==> r == Some(default)
    ensures f.Null? ==> r == None
    ensures f.Given? ==> r == Some(f.value)
  {
    match f
    case Omitted => Some(default)
    case Null => None
    case Given(v) => Some(v)
  }

  /** The body of both debate endpoints. */
  datatype DebateRequest = DebateRequest(
    messages: seq<ChatMessage>,
    model: Option<string>,
    temperature: Option<real>)

  /** A debate request as the body fields arrive: a model left out is
      "deepseek-chat" and a temperature left out is 0.7; a field sent as null
      stays None, and a given one is kept as it is. */
  function DebateRequestOf(messages: seq<ChatMessage>, model: Field<string>, temperature: Field<real>)
    : (r: DebateRequest)
    ensures r.messages == messages
    ensures model.Omitted? ==> r.model == Some(DefaultModel)
    ensures model.Null? ==> r.model.None?
    ensures model.Given? ==> r.model == Some(model.value)
    ensures temperature.Omitted? ==> r.temperature == Some(DefaultTemperature)
    ensures temperature.Null? ==> r.temperature.None?
    ensures temperature.Given? ==> r.temperature == Some(temperature.value)
  {
    DebateRequest(messages, FieldOr(model, DefaultModel), FieldOr(temperature, DefaultTemperature))
  }

  /** The messages as the relay takes them: one dictionary per message, with
      exactly the keys "role" and "content", in the same order. */
  function MessageDicts(msgs: seq<ChatMessage>): (ds: seq<MessageDict>)
    ensures |ds| == |msgs|
    ensures forall i :: 0 <= i < |ds| ==>
      && ds[i].Keys == {"role", "content"}
      && ds[i]["role"] == msgs[i].role
      && ds[i]["content"] == msgs[i].content
  {
    seq(|msgs|, i requires 0 <= i < |msgs| => map["role" := msgs[i].role, "content" := msgs[i].content])
  }

  /** The temperature passed on: `t or 0.7`. Python's `or` treats 0.0 as
      false, so a requested 0.0 becomes 0.7 and 0.0 is never passed on. */
  function Temperature(t: Option<real>): (r: real)
    ensures t.Some? && t.value != 0.0 ==> r == t.value
    ensures t.None? || t.value == 0.0 ==> r == DefaultTemperature
    ensures r != 0.0
  {
    if t.Some? && t.value != 0.0 then t.value else DefaultTemperature
  }

  /** What reaches the upstream call for a debate body: with the model field
      left out, the body's default "deepseek-chat" is sent and the configured
      model is not consulted; only a null or empty model falls back to it.
      The temperature is the one given unless it is null or 0.0. */
  lemma DebateRequestShaping(settings: Settings, messages: seq<ChatMessage>, model: Field<string>, temperature: Field<real>)
    ensures var req := DebateRequestOf(messages, model, temperature);
      && (model.Omitted? ==> RequestedModel(req.model, settings) == DefaultModel)
      && (model.Null? ==> RequestedModel(req.model, settings) == settings.deepseekModel)
      && (model.Given? ==>
            RequestedModel(req.model, settings) ==
              (if model.value != "" then model.value else settings.deepseekModel))
      && (temperature.Omitted? || temperature.Null? ==> Temperature(req.temperature) == DefaultTemperature)
      && (temperature.Given? ==>
            Temperature(req.temperature) ==
              (if temperature.value != 0.0 then temperature.value else DefaultTemperature))
  {
  }

  // ---------------------------------------------------------------------
  // POST /api/debate/stream

  datatype StreamingResponse = StreamingResponse(
    events: seq<string>,
    mediaType: string,
    headers: map<string, string>)

  /** The streaming endpoint: an event stream, with caching and proxy
      buffering turned off, whose events are the relay's frames. */
  method DebateStream(settings: Settings, request: DebateRequest, upstream: Upstream)
    returns (response: StreamingResponse, sent: Option<CompletionRequest>)
    ensures response.mediaType == "text/event-stream"
    ensures response.headers ==
      map["Cache-Control" := "no-cache", "Connection" := "keep-alive", "X-Accel-Buffering" := "no"]
    ensures response.events == RenderAll(RelayFrames(settings, upstream))
    ensures WellTerminated(RelayFrames(settings, upstream))
    ensures settings.deepseekApiKey == "" <==> sent.None?
    ensures sent.Some? ==> sent.value == CompletionRequest(
      RequestedModel(request.model, settings),
      MessageDicts(request.messages),
      Temperature(request.temperature),
      true)
  {
    var messages := MessageDicts(request.messages);
    var events;
    events, sent := StreamDebateResponse(settings, messages, request.model, Temperature(request.temperature), upstream);
    response := StreamingResponse(
      events,
      "text/event-stream",
      map["Cache-Control" := "no-cache", "Connection" := "keep-alive", "X-Accel-Buffering" := "no"]);
  }

  // ---------------------------------------------------------------------
  // Responses of the non-streaming endpoints

  /** A JSON body, or the error every non-streaming endpoint turns an
      exception into: status 500 with a fixed prefix and the message. */
  datatype HttpResult<T> = Ok(body: T) | HttpError(status: nat, detail: string)

  // POST /api/debate/generate

  datatype GenerateBody = GenerateBody(content: Option<string>)

  datatype GenerateOutcome = GenerateOutcome(sent: Option<CompletionRequest>, response: HttpResult<GenerateBody>)

  /** The non-streaming endpoint. The body is `{"content": r}` with `r`
      exactly the upstream's first choice; a missing key gives status 500
      without any upstream call; an upstream exception, or a reply without
      choices, gives status 500 with its message after the fixed prefix. */
  function DebateGenerate(settings: Settings, request: DebateRequest, upstream: CompletionOutcome)
    : (o: GenerateOutcome)
    ensures settings.deepseekApiKey == "" ==>
      o.sent.None? && o.response == HttpError(InternalError, "Generation error: " + KeyMissingMessage)
    ensures settings.deepseekApiKey != "" ==>
      && o.sent.Some?
      && o.sent.value.model == RequestedModel(request.model, settings)
      && o.sent.value.messages == MessageDicts(request.messages)
      && o.sent.value.temperature == Temperature(request.temperature)
      && !o.sent.value.stream
    ensures settings.deepseekApiKey != "" && upstream.Completed? && |upstream.choices| > 0 ==>
      o.response == Ok(GenerateBody(upstream.choices[0]))
    ensures settings.deepseekApiKey != "" && upstream.CallFailed? ==>
      o.response == HttpError(InternalError, "Generation error: " + upstream.message)
    ensures settings.deepseekApiKey != "" && upstream == Completed([]) ==>
      o.response == HttpError(InternalError, "Generation error: " + IndexErrorMessage)
  {
    var g := GenerateDebateResponse(
      settings, MessageDicts(request.messages), request.model, Temperature(request.temperature), upstream);
    match g.result
    case Success(c) => GenerateOutcome(g.sent, Ok(GenerateBody(c)))
    case Failure(e) => GenerateOutcome(g.sent, HttpError(InternalError, "Generation error: " + e))
  }

  // POST /api/tts/generate

  datatype TtsRequest = TtsRequest(text: string, voiceId: Option<string>, provider: Option<string>)

  type Bytes = seq<bv8>

  datatype AudioResponse = AudioResponse(content: Bytes, mediaType: string, contentDisposition: string)

  /** The dispatched synthesis and the endpoint's response. */
  datatype TtsOutcome = TtsOutcome(synthesis: Result<Synthesis, string>, response: HttpResult<AudioResponse>)

  /** The label of an audio response: MPEG audio in "audio.mp3" or WAV audio
      in "audio.wav"; the extension always agrees with the media type. */
  function AudioLabel(mp3: bool): (tag: (string, string))
    ensures tag.0 == "audio/mpeg" <==> tag.1 == "attachment; filename=audio.mp3"
    ensures tag.0 == "audio/wav" <==> tag.1 == "attachment; filename=audio.wav"
    ensures tag.0 == "audio/mpeg" || tag.0 == "audio/wav"
    ensures mp3 <==> tag.0 == "audio/mpeg"
  {
    if mp3 then ("audio/mpeg", "attachment; filename=audio.mp3")
    else ("audio/wav", "attachment; filename=audio.wav")
  }

  /** The bytes the dispatched back end returned, or its failure, labelled
      as MPEG or WAV; a dispatch or back-end failure is status 500. */
  function AudioResult(synthesis: Result<Synthesis, string>, audio: Result<Bytes, string>, mp3: bool)
    : HttpResult<AudioResponse>
  {
    match synthesis
    case Failure(e) => HttpError(InternalError, "TTS error: " + e)
    case Success(_) =>
      match audio
      case Failure(e) => HttpError(InternalError, "TTS error: " + e)
      case Success(bytes) =>
        var tag := AudioLabel(mp3);
        Ok(AudioResponse(bytes, tag.0, tag.1))
  }

  /** The TTS endpoint as written: it dispatches on the resolved provider but
      labels the audio by the raw request field alone, so the label is MPEG
      exactly when the request names "elevenlabs". `audio` is what the
      dispatched back end returned; it comes back unchanged. */
  function TtsGenerate(settings: Settings, request: TtsRequest, audio: Result<Bytes, string>): (o: TtsOutcome)
    ensures o.synthesis == GenerateTts(request.text, request.voiceId, request.provider, settings)
    ensures o.response.HttpError? <==> o.synthesis.Failure? || audio.Failure?
    ensures o.response.HttpError? ==>
      o.response == HttpError(InternalError, "TTS error: " + (if o.synthesis.Failure? then o.synthesis.error else audio.error))
    ensures o.response.Ok? ==>
      && o.response.body.content == audio.value
      && (o.response.body.mediaType == "audio/mpeg" <==> request.provider == Some(RemoteProviderName))
      && (o.response.body.contentDisposition == "attachment; filename=audio.mp3" <==>
            request.provider == Some(RemoteProviderName))
    ensures o.response.Ok? ==>
      (o.response.body.mediaType, o.response.body.contentDisposition) ==
        AudioLabel(request.provider == Some(RemoteProviderName))
    ensures o.response.Ok? && request.provider != Some(RemoteProviderName) ==>
      && o.response.body.mediaType == "audio/wav"
      && o.response.body.contentDisposition == "attachment; filename=audio.wav"
  {
    var synthesis := GenerateTts(request.text, request.voiceId, request.provider, settings);
    TtsOutcome(synthesis, AudioResult(synthesis, audio, request.provider == Some(RemoteProviderName)))
  }

  /** With "elevenlabs" configured, a key set and no provider in the request
      (left out or empty), the audio is synthesised remotely as MPEG yet
      labelled WAV; the corrected endpoint labels it MPEG. */
  lemma TtsGenerateMislabelsRemoteAudio(settings: Settings, request: TtsRequest, bytes: Bytes)
    requires settings.ttsProvider == RemoteProviderName && settings.elevenlabsApiKey != ""
    requires !Truthy(request.provider)
    ensures var o := TtsGenerate(settings, request, Success(bytes));
      && o.synthesis.Success? && Format(o.synthesis.value) == Mp3
      && o.response.Ok? && o.response.body.mediaType == "audio/wav"
    ensures TtsGenerateLabelled(settings, request, Success(bytes)).response.body.mediaType == "audio/mpeg"
  {
  }

  /** The TTS endpoint with the label taken from the back end actually used:
      the label always names the format of the audio it carries. */
  function TtsGenerateLabelled(settings: Settings, request: TtsRequest, audio: Result<Bytes, string>)
    : (o: TtsOutcome)
    ensures o.synthesis == GenerateTts(request.text, request.voiceId, request.provider, settings)
    ensures o.response.HttpError? <==> o.synthesis.Failure? || audio.Failure?
    ensures o.response.Ok? ==>
      && o.synthesis.Success?
      && o.response.body.content == audio.value
      && (o.response.body.mediaType == "audio/mpeg" <==> Format(o.synthesis.value) == Mp3)
      && (o.response.body.contentDisposition == "attachment; filename=audio.mp3" <==>
            Format(o.synthesis.value) == Mp3)
    ensures o.response.Ok? ==>
      (o.response.body.mediaType, o.response.body.contentDisposition) ==
        AudioLabel(Format(o.synthesis.value) == Mp3)
    ensures o.response.Ok? && Format(o.synthesis.value) == Wav ==>
      && o.response.body.mediaType == "audio/wav"
      && o.response.body.contentDisposition == "attachment; filename=audio.wav"
  {
    var synthesis := GenerateTts(request.text, request.voiceId, request.provider, settings);
    TtsOutcome(synthesis, AudioResult(synthesis, audio, synthesis.Success? && Format(synthesis.value) == Mp3))
  }

  // GET /api/tts/voices

  datatype VoicesBody = VoicesBody(voices: seq<Voice>)

  function TtsVoices(settings: Settings, engine: Result<seq<string>, string>): (r: HttpResult<VoicesBody>)
    ensures r.Ok? <==> GetAvailableVoices(settings, engine).Success?
    ensures r.Ok? ==> r.body.voices == GetAvailableVoices(settings, engine).value
    ensures r.HttpError? ==>
      r == HttpError(InternalError, "Voice listing error: " + GetAvailableVoices(settings, engine).error)
  {
    match GetAvailableVoices(settings, engine)
    case Success(vs) => Ok(VoicesBody(vs))
    case Failure(e) => HttpError(InternalError, "Voice listing error: " + e)
  }

  // GET /api/health

  datatype HealthResponse = HealthResponse(status: string, version: string)

  function HealthCheck(): (r: HealthResponse)
    ensures r.status == "ok" && r.version == "1.0.0"
  {
    HealthResponse("ok", ServiceVersion)
  }
}
