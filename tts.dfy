/** Speech synthesis dispatch and the voice catalog. The synthesis engines
    themselves (the local engine and the remote HTTP service) are not modelled:
    dispatch yields the synthesis call to make, and the voice listing takes
    what the local engine reports as an argument. */
module Tts {

  import opened Wrappers
  import opened Config
  import opened Decimal

  const RemoteProviderName := "elevenlabs"
  /** The remote service's voice "Adam", used when no voice is asked for. */
  const DefaultVoiceId := "pNInz6obpgDQGcFmaJgB"
  const RemoteEndpoint := "https://api.elevenlabs.io/v1/text-to-speech/"
  const RemoteModelId := "eleven_monolingual_v1"
  const RemoteKeyMissingMessage := "ElevenLabs API key not configured"

  /** The two synthesis back ends. */
  datatype Provider = ElevenLabs | Pyttsx3

  /** Only the exact name "elevenlabs" selects the remote back end; every other
      name, unknown ones included, selects the local engine. */
  function Route(name: string): (p: Provider)
    ensures p == ElevenLabs <==> name == RemoteProviderName
  {
    if name == RemoteProviderName then ElevenLabs else Pyttsx3
  }

  /** The provider name in force: the request's when it is non-empty, else the
      configured one. */
  function ResolveProvider(provider: Option<string>, settings: Settings): (name: string)
    ensures Truthy(provider) ==> name == provider.value
    ensures !Truthy(provider) ==> name == settings.ttsProvider
  {
    Or(provider, settings.ttsProvider)
  }

  datatype AudioFormat = Mp3 | Wav

  /** The fixed voice parameters of the remote request. */
  datatype VoiceSettings = VoiceSettings(stability: real, similarityBoost: real)

  /** The POST the remote path makes: URL, headers and JSON body. */
  datatype RemoteRequest = RemoteRequest(
    url: string,
    accept: string,
    contentType: string,
    apiKey: string,
    text: string,
    modelId: string,
    voiceSettings: VoiceSettings)

  /** The synthesis call a TTS request is dispatched to. */
  datatype Synthesis = Remote(request: RemoteRequest) | Local(text: string)

  /** The audio a back end returns: the remote service is asked for MPEG audio,
      the local engine writes a WAV file. */
  function Format(s: Synthesis): (f: AudioFormat)
    ensures f == Mp3 <==> s.Remote?
  {
    match s
    case Remote(_) => Mp3
    case Local(_) => Wav
  }

  /** The remote voice: the requested one when it is non-empty, else Adam. */
  function RemoteVoice(voiceId: Option<string>): (v: string)
    ensures v != ""
    ensures Truthy(voiceId) ==> v == voiceId.value
    ensures !Truthy(voiceId) ==> v == DefaultVoiceId
  {
    Or(voiceId, DefaultVoiceId)
  }

  /** The remote path's pre-flight and request building: fails before any
      request when neither the argument nor the settings hold a key. */
  function RemoteRequestFor(text: string, voiceId: Option<string>, apiKey: Option<string>, settings: Settings)
    : (r: Result<RemoteRequest, string>)
    ensures r.Failure? <==> !Truthy(apiKey) && settings.elevenlabsApiKey == ""
    ensures r.Failure? ==> r.error == RemoteKeyMissingMessage
    ensures r.Success? ==>
      && r.value.url == RemoteEndpoint + RemoteVoice(voiceId)
      && r.value.text == text
      && r.value.modelId == RemoteModelId
      && r.value.accept == "audio/mpeg"
      && r.value.apiKey != ""
      && r.value.apiKey == (if Truthy(apiKey) then apiKey.value else settings.elevenlabsApiKey)
  {
    var key := Or(apiKey, settings.elevenlabsApiKey);
    if key == "" then Failure(RemoteKeyMissingMessage)
    else
      Success(RemoteRequest(
        RemoteEndpoint + RemoteVoice(voiceId),
        "audio/mpeg",
        "application/json",
        key,
        text,
        RemoteModelId,
        VoiceSettings(0.5, 0.5)))
  }

  /** The voice id a remote synthesis URL names, if it is one. */
  function UrlVoice(url: string): Option<string> {
    if |url| > |RemoteEndpoint| && url[..|RemoteEndpoint|] == RemoteEndpoint
    then Some(url[|RemoteEndpoint|..])
    else None
  }

  /** The URL of a built request names exactly the voice asked for (or Adam),
      so distinct voices are sent to distinct URLs. */
  lemma RemoteUrlNamesVoice(text: string, voiceId: Option<string>, apiKey: Option<string>, settings: Settings)
    requires RemoteRequestFor(text, voiceId, apiKey, settings).Success?
    ensures UrlVoice(RemoteRequestFor(text, voiceId, apiKey, settings).value.url) == Some(RemoteVoice(voiceId))
  {
    var url := RemoteEndpoint + RemoteVoice(voiceId);
    assert url[..|RemoteEndpoint|] == RemoteEndpoint;
    assert url[|RemoteEndpoint|..] == RemoteVoice(voiceId);
  }

  /** TTS dispatch: resolves the provider and routes the request; the remote
      path is called without an explicit key, so it uses the configured one.
      By the provider in force: the remote back end, with MPEG audio, exactly
      when the resolved name is "elevenlabs" and a key is configured; the key
      error exactly when the name is "elevenlabs" and no key is; the local
      engine, with WAV audio and the text unchanged, for every other name. */
  function GenerateTts(text: string, voiceId: Option<string>, provider: Option<string>, settings: Settings)
    : (r: Result<Synthesis, string>)
    ensures var remote := (Truthy(provider) && provider.value == RemoteProviderName)
                          || (!Truthy(provider) && settings.ttsProvider == RemoteProviderName);
      && (r.Failure? <==> remote && settings.elevenlabsApiKey == "")
      && (r.Failure? ==> r.error == RemoteKeyMissingMessage)
      && (r.Success? ==> (Format(r.value) == Mp3 <==> remote))
      && (r.Success? && r.value.Local? ==> r.value.text == text)
      && (r.Success? && r.value.Remote? ==>
            && r.value.request.text == text
            && r.value.request.url == RemoteEndpoint + RemoteVoice(voiceId)
            && r.value.request.modelId == RemoteModelId
            && r.value.request.apiKey == settings.elevenlabsApiKey)
  {
    match Route(ResolveProvider(provider, settings))
    case ElevenLabs =>
      (match RemoteRequestFor(text, voiceId, None, settings)
       case Success(req) => Success(Remote(req))
       case Failure(e) => Failure(e))
    case Pyttsx3 => Success(Local(text))
  }

  // ---------------------------------------------------------------------
  // Voice catalog

  datatype Voice = Voice(id: string, name: string)

  /** The remote service's fixed catalog: five voices, Adam first. */
  function RemoteVoices(): (vs: seq<Voice>)
    ensures |vs| == 5
    ensures vs[0].name == "Adam" && vs[1].name == "Charlie" && vs[2].name == "Bella"
         && vs[3].name == "Elli" && vs[4].name == "Josh"
    ensures vs[0].id == DefaultVoiceId
    ensures forall i, j :: 0 <= i < j < |vs| ==> vs[i].id != vs[j].id
  {
    [ Voice("pNInz6obpgDQGcFmaJgB", "Adam"),
      Voice("IKne3meq5aSn9XLyUdCD", "Charlie"),
      Voice("EXAVITQu4vr4xnSDxMaL", "Bella"),
      Voice("MF3mGyEYCl7XYWbV9V6O", "Elli"),
      Voice("TxGEqnHWrfWFTfGW9XjX", "Josh") ]
  }

  /** The local engine's voices, numbered by position. */
  function LocalVoices(names: seq<string>): (vs: seq<Voice>)
    ensures |vs| == |names|
    ensures forall i :: 0 <= i < |vs| ==> vs[i] == Voice(NatToString(i), names[i])
  {
    seq(|names|, i requires 0 <= i < |names| => Voice(NatToString(i), names[i]))
  }

  /** The voice listing, for the configured provider only; `engine` is the
      local engine's voice names, or the message of its failure, which is
      passed on. With the remote provider configured the listing is the fixed
      catalog; otherwise it fails exactly when the engine does, and has one
      entry per engine voice, in engine order, with the name copied and the
      position as id. */
  function GetAvailableVoices(settings: Settings, engine: Result<seq<string>, string>)
    : (r: Result<seq<Voice>, string>)
    ensures settings.ttsProvider == RemoteProviderName ==> r == Success(RemoteVoices())
    ensures settings.ttsProvider != RemoteProviderName ==>
      && (r.Failure? <==> engine.Failure?)
      && (r.Failure? ==> r.error == engine.error)
      && (r.Success? ==>
            && |r.value| == |engine.value|
            && forall i :: 0 <= i < |r.value| ==>
                 r.value[i] == Voice(NatToString(i), engine.value[i]) && ParseNat(r.value[i].id) == i)
  {
    if settings.ttsProvider == RemoteProviderName then Success(RemoteVoices())
    else match engine
      case Success(names) => LocalVoiceIds(names); Success(LocalVoices(names))
      case Failure(e) => Failure(e)
  }

  /** Local voice ids are the positions "0", "1", ... written in decimal: each
      reads back as its position, so no two voices share an id. */
  lemma LocalVoiceIds(names: seq<string>)
    ensures var vs := LocalVoices(names);
      && (forall i :: 0 <= i < |vs| ==> ParseNat(vs[i].id) == i && vs[i].name == names[i])
      && (forall i, j :: 0 <= i < j < |vs| ==> vs[i].id != vs[j].id)
  {
    var vs := LocalVoices(names);
    forall i | 0 <= i < |vs| ensures ParseNat(vs[i].id) == i {
      ParseNatToString(i);
    }
    forall i, j | 0 <= i < j < |vs| ensures vs[i].id != vs[j].id {
      NatToStringInjective(i, j);
    }
  }

  /** The listing follows the configured provider: with the remote provider it
      is the fixed catalog whatever the local engine would report or raise. */
  lemma RemoteListingIgnoresEngine(settings: Settings, e1: Result<seq<string>, string>, e2: Result<seq<string>, string>)
    requires settings.ttsProvider == RemoteProviderName
    ensures GetAvailableVoices(settings, e1) == GetAvailableVoices(settings, e2)
    ensures GetAvailableVoices(settings, e1).Success?
  {
  }
}
