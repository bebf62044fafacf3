# Debate relay backend: a Dafny model

This project models the decision logic of a small debate-simulator backend.
The backend relays chat messages to an OpenAI-compatible chat-completion API,
and it relays text to a text-to-speech (TTS) engine. The model covers three parts:

- **The event-stream relay** (`Debate`, `Sse`, `JsonText`). It turns an upstream
  stream of completion chunks into Server-Sent Events frames `data: <JSON>\n\n`.
  This framing is from the WHATWG HTML Living Standard, section 9.2. The relay
  first checks the key, then forwards each chunk's non-empty delta as a content
  frame, then ends with exactly one terminal frame: done, or an error. It is a
  method with a loop, proved equal to the function `RelayFrames` that specifies it.
  A client-side parser (`ParseStream`) is proved to recover exactly the frames
  that were sent. The non-streaming call is also modelled.
- **TTS dispatch and the voice catalog** (`Tts`, `Decimal`). This covers provider
  resolution (`provider or settings.tts_provider`), routing on the exact name
  `"elevenlabs"`, the remote path's key check, default voice, URL and request
  body, and the voice listing.
- **The HTTP layer** (`Api`). This covers request defaults, message conversion,
  the `or 0.7` temperature, the stream response headers, the 500 error mapping,
  the audio media type and filename, and the health check.

Settings are an immutable `Config.Settings` record passed to every operation.
The network, the TTS engine and the web framework are replaced by arguments
that describe what they deliver:

- `Debate.Upstream`: the upstream stream raises at `create`, or it yields chunks
  and then ends or raises.
- `Debate.CompletionOutcome`: what the non-streaming call returns.
- `audio`: the bytes, or the failure, of the TTS back end that was used.
- `engine`: the local engine's voice names, or its failure.

An operation that makes an upstream call returns that call as `sent`. `sent` is
`None` when no call is made.

Three behaviours of the code are worth stating plainly, because the model follows them:

- A failed local synthesis has no fallback audio. The engine's failure propagates, and `/api/tts/generate` answers 500 (backend/src/tts.py:16-53, backend/main.py:185-186).
- A failed voice query propagates, and there is no default voice list (backend/src/tts.py:146-154, backend/main.py:200-201).
- The pre-flight error event has only the `"error"` key (backend/src/debate.py:41). The mid-stream one also has `"done": true` (backend/src/debate.py:72). In the model these are `Sse.Frame.Error(m, false)` and `Error(m, true)`.

## Model

| member | source | states |
|---|---|---|
| `Debate.StreamDebateResponse` | backend/src/debate.py:38-73 | Without a key, no upstream call is made. With a key, exactly one streaming call is made with the resolved model, the messages and the temperature. The emitted events are the rendering of `RelayFrames`. A client parsing their concatenation gets back exactly those frames. |
| `Debate.RelayChunks` | backend/src/debate.py:60-66 | The forwarding loop emits the rendered content frames of the chunks, in order. |
| `Debate.ContentFrames` | backend/src/debate.py:60-66 | Content frames are all `Content` frames with non-empty text. There are never more of them than chunks. |
| `Debate.ContentFramesCarryDeltas` | backend/src/debate.py:60-66 | The content frames' texts are exactly the non-empty deltas, in arrival order. A chunk with no choices, or with None or empty content, emits nothing. |
| `Debate.JoinNonEmptyDeltas` | backend/src/debate.py:60-66 | Dropping empty deltas leaves the concatenation of all deltas unchanged. |
| `Debate.KeyMissingRun` | backend/src/debate.py:40-42 | With an empty key, the run is exactly the one frame `data: {"error": "DeepSeek API key not configured"}\n\n`, with no `done` key, whatever the upstream would have done. |
| `Debate.RelayFrames` | backend/src/debate.py:40-73 | Every run, whatever the key and the upstream, is content frames followed by exactly one terminal frame, which comes last. The last frame is `Done` exactly when a key is set and the upstream stream ran out normally. No key gives the single pre-flight error frame. A failed `create` gives the single frame `Error(msg, true)`. |
| `Debate.RelayExhausted` | backend/src/debate.py:59-69 | A normal end gives the content frames plus one `Done`, which is last and occurs nowhere else. The content texts concatenate to the concatenation of all upstream deltas. |
| `Debate.RelayRaised` | backend/src/debate.py:50-73 | When iteration raises, the content frames already sent form a prefix of any longer run over the same chunks. Exactly one `{"error": msg, "done": true}` frame follows them. |
| `Debate.RequestedModel` | backend/src/debate.py:53 | The model sent is the argument when it is non-empty, else `settings.deepseek_model`. |
| `Debate.Terminal` | backend/src/debate.py:69-73 | The frame that closes an opened stream is always terminal. |
| `Debate.GenerateDebateResponse` | backend/src/debate.py:92-109 | No key gives the ValueError message and no call. Otherwise exactly one non-streaming call is made. The result is `choices[0].message.content` exactly when the call returns a choice. An upstream exception's message is passed on. A reply without choices fails with `list index out of range`, the `IndexError` of `choices[0]`. |
| `Sse.Payload` | backend/src/debate.py:41-73 | A frame's JSON text is one object: it starts with `{` and ends with `}`. |
| `Sse.Render` | backend/src/debate.py:41-73 | An event is `data: `, then the frame's JSON object, then the blank line `\n\n`. |
| `Sse.PayloadNoBreak` | backend/src/debate.py:62-72 | A frame's JSON object contains neither a line feed nor a carriage return, whatever text it carries. |
| `Sse.RenderShape` | backend/src/debate.py:66-73 | An event is one line, as an event-stream parser counts lines. It has no carriage return anywhere, and the first line feed of the closing blank line is its only other line feed. |
| `Sse.EventRoundTrip` | backend/src/debate.py:62-73 | Parsing a rendered event gives back its frame, so distinct frames render to distinct events. |
| `Sse.StreamRoundTrip` | backend/src/debate.py:59-73 | Splitting the concatenated events at blank lines recovers the frame sequence exactly, with nothing lost, merged or split. |
| `Sse.PlainErrorRender` | backend/src/debate.py:41 | A pre-flight error with nothing to escape renders as the message verbatim in `{"error": "…"}`. |
| `JsonText.Escape` | backend/src/debate.py:66 | An escaped string contains neither a line feed nor a carriage return, whatever the input. |
| `JsonText.ReadEscaped` | backend/src/debate.py:66 | Reading an escaped string back up to its closing quote gives the original text and leaves what follows untouched. |
| `JsonText.EscapePlain` | backend/src/debate.py:41 | Text with nothing to escape is its own escape. |
| `Wrappers.Or` | backend/src/tts.py:119 | Python's `a or b` on an optional string: `a` when present and non-empty, else `b`. |
| `Tts.Route` | backend/src/tts.py:121-125 | Only the exact name `"elevenlabs"` selects the remote back end. Every other name, unknown ones included, selects the local engine. |
| `Tts.ResolveProvider` | backend/src/tts.py:119 | The provider in force is the argument when it is non-empty, else `settings.tts_provider`. |
| `Tts.Format` | backend/src/tts.py:81-83 | Audio is MP3 exactly when the remote back end is used. |
| `Tts.RemoteVoice` | backend/src/tts.py:77 | The remote voice is never empty. It is the requested id, or `"pNInz6obpgDQGcFmaJgB"` when the id is None or empty. |
| `Tts.RemoteRequestFor` | backend/src/tts.py:71-94 | The call fails with the key error exactly when both the argument key and the configured key are empty. Otherwise the URL is the endpoint followed by the voice id. The body carries the text unchanged and model `eleven_monolingual_v1`. The request asks for `audio/mpeg`, with a non-empty key taken from the argument first. |
| `Tts.RemoteUrlNamesVoice` | backend/src/tts.py:77-79 | The voice id can be read back from the built URL. |
| `Tts.GenerateTts` | backend/src/tts.py:102-125 | Dispatch is remote (MP3) exactly when the resolved name is `"elevenlabs"` and a key is configured. It fails with the key error exactly when the name is `"elevenlabs"` and no key is configured. Otherwise it is local (WAV) with the text unchanged. The remote path uses the configured key. |
| `Tts.RemoteVoices` | backend/src/tts.py:137-145 | The remote catalog is 5 voices in the order Adam, Charlie, Bella, Elli, Josh. Their ids are pairwise distinct, and the first id is the default remote voice. |
| `Tts.LocalVoices` | backend/src/tts.py:151-154 | There is one local voice per engine voice, in engine order, with id `str(i)` and the name copied. |
| `Tts.GetAvailableVoices` | backend/src/tts.py:128-154 | With `"elevenlabs"` configured, the listing is the fixed catalog. Otherwise it fails exactly when the engine fails, with the engine's message. On success it has the engine's length, entry `i` is `str(i)` with the `i`-th name, and each id reads back as its position. |
| `Tts.LocalVoiceIds` | backend/src/tts.py:151-154 | Local ids read back as their positions, so no two local voices share an id. |
| `Tts.RemoteListingIgnoresEngine` | backend/src/tts.py:135-145 | With `"elevenlabs"` configured, the listing succeeds and does not depend on the local engine. |
| `Decimal.NatToString` | backend/src/tts.py:152 | `str(i)` is a non-empty string of decimal digits with no leading zero. |
| `Decimal.ParseNatToString` | backend/src/tts.py:152 | Reading `str(i)` back as a decimal number gives `i`. |
| `Decimal.NatToStringInjective` | backend/src/tts.py:152 | Distinct positions give distinct `str(i)`. |
| `Api.FieldOr` | backend/main.py:38-39 | An omitted body field takes its default, an explicit null stays None, and a given value is kept. |
| `Api.DebateRequestOf` | backend/main.py:36-45 | A body without `model` gets `"deepseek-chat"`, and one without `temperature` gets 0.7. A field sent as null stays None, and a given value is kept. The messages are kept. |
| `Api.DebateRequestShaping` | backend/main.py:36-45 | When the model is omitted, `"deepseek-chat"` is sent and `settings.deepseek_model` is ignored. Only a null or empty model falls back to the setting. The temperature is 0.7 when omitted, null or 0.0, and is kept otherwise. |
| `Api.MessageDicts` | backend/main.py:110 | Message conversion keeps length and order. Each dict has exactly the keys `role` and `content`, copied from its message. |
| `Api.Temperature` | backend/main.py:116 | `t or 0.7` keeps a non-zero temperature. None and 0.0 become 0.7, so 0.0 is never passed on. |
| `Api.DebateStream` | backend/main.py:108-128 | The response is `text/event-stream` with the three no-cache and no-buffering headers. Its events are the relay's, and the run is well terminated. The call carries the converted messages and the `or 0.7` temperature. |
| `Api.DebateGenerate` | backend/main.py:134-153 | The body is `{"content": r}` with `r` exactly the upstream's first choice. A missing key gives status 500 `Generation error: …` with no call. Otherwise one non-streaming call carries the resolved model, the converted messages and the `or 0.7` temperature. An upstream exception gives status 500 with its message. A reply without choices gives 500 `Generation error: list index out of range`. |
| `Api.AudioLabel` | backend/main.py:173-181 | MP3 audio is labelled `audio/mpeg` in `audio.mp3`, and any other audio `audio/wav` in `audio.wav`. The media type and the filename always agree. |
| `Api.TtsGenerate` | backend/main.py:156-186 | Dispatch is `Tts.GenerateTts` of the request. As written, an audio response carries the back end's bytes and is labelled `audio/mpeg`, `audio.mp3` exactly when the raw `request.provider` is `"elevenlabs"`. Otherwise it is labelled `audio/wav`, `audio.wav`. A dispatch or back-end failure is status 500 `TTS error: ` followed by its message. |
| `Api.TtsGenerateMislabelsRemoteAudio` | backend/main.py:173 | For every setting with `tts_provider` `"elevenlabs"` and a key, every request whose provider is left out or empty, and any bytes: the audio is synthesised remotely as MP3 but labelled `audio/wav`. The corrected endpoint labels it `audio/mpeg`. |
| `Api.TtsGenerateLabelled` | backend/main.py:173-181 | Corrected labelling: the media type and filename name the format of the back end actually used. MP3 audio is `audio/mpeg`, `audio.mp3`, and WAV audio is `audio/wav`, `audio.wav`. |
| `Api.TtsVoices` | backend/main.py:196-201 | The body is `{"voices": …}` from the listing. A listing failure is status 500 `Voice listing error: ` followed by the message. |
| `Api.HealthCheck` | backend/main.py:93-96 | The health response is status `"ok"`, version `"1.0.0"`. |

## Left out

- FastAPI plumbing is not modelled: app construction, route decorators, CORS middleware, the lifespan prints, logging setup and the uvicorn launch (backend/main.py:20-27, 59-90, 204-207). The logging setup reads `settings.debug`, which the settings class in backend/src/config.py does not declare.
- Settings loading is not modelled: environment and `.env` reading, the `cors_origins` JSON parse and the `lru_cache` memoisation in backend/src/config.py. Settings are a record argument. `deepseekBaseUrl` is carried but only matters to the client, which is not modelled.
- The OpenAI client and the httpx POST are foreign network calls (backend/src/debate.py:45-57, 97-107; backend/src/tts.py:96-99). They are replaced by `Upstream`, `CompletionOutcome` and the `audio` argument. The model assumes that building the client does not raise. If it did raise (backend/src/debate.py:45-48, outside the `try`), that exception would escape the generator, and this is not modelled.
- Local synthesis with pyttsx3 is not modelled: the native engine, its rate and volume settings, and the temporary WAV file (backend/src/tts.py:16-53, 148-150). Dispatch yields `Local(text)`, and the engine's voices or failure are an argument.
- `Api.DebateStream`: the `except` branch (backend/main.py:130-131) is not modelled. It only wraps message conversion and response construction, and neither can fail here, so that 500 response is unreachable.
- `JsonText.Escape`: this is a stand-in for `json.dumps`, weaker than the real encoder. It escapes `"`, `\`, newline, carriage return and tab. It does not write the `\uXXXX` escapes of other control characters and of non-ASCII text (`ensure_ascii`). The model's frame parsing and round-trip lemmas are proved for this stand-in.
- Async scheduling, back-pressure and client disconnects are not modelled. These are runtime concerns, and the model treats a run as its whole frame sequence.
- `Api.Temperature`: temperatures and voice-stability values are `real`, not IEEE floats. NaN and infinities are not modelled. Python's falsiness of a float (equal to zero, either sign) is the `== 0.0` test.

## Findings

| source | as written | input that shows it | evidently intended | confidence | as-written member | corrected member |
|---|---|---|---|---|---|---|
| backend/main.py:173 | The media type and filename come from the raw `request.provider`. Dispatch resolves a missing provider to `settings.tts_provider` (backend/src/tts.py:119). | `tts_provider = "elevenlabs"` with a key set, and a request whose `provider` is left out, null or `""`: the audio comes from the remote service as MP3 but is sent as `audio/wav`, `audio.wav`. | The label should follow the back end that produced the audio. | high; not executed | `Api.TtsGenerateMislabelsRemoteAudio` | `Api.TtsGenerateLabelled` |
