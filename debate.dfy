/** The debate relay: the streaming relay that turns an upstream chat
    completion into event-stream frames, and the non-streaming call. The
    upstream client is replaced by what it delivers: a chunk sequence that
    ends normally or by an exception, or an exception from the call itself. */
module Debate {

  import opened Wrappers
  import opened Config
  import opened JsonText
  import opened Sse

  const KeyMissingMessage := "DeepSeek API key not configured"
  /** What Python's `str` gives for the exception of indexing an empty list. */
  const IndexErrorMessage := "list index out of range"

  /** One chat message as the relay forwards it: a dictionary of strings. */
  type MessageDict = map<string, string>

  /** A streamed choice; `deltaContent` is its `delta.content`, possibly None. */
  datatype Choice = Choice(deltaContent: Option<string>)
  /** A streamed chunk; its `choices` may be empty. */
  datatype Chunk = Chunk(choices: seq<Choice>)

  datatype StreamEnd = Exhausted | Raised(message: string)

  /** What the upstream delivers for one streaming call: the call raises
      before any chunk, or it yields chunks and then ends or raises. */
  datatype Upstream =
    | CreateFailed(message: string)
    | Opened(chunks: seq<Chunk>, end: StreamEnd)

  /** The chat-completion call the relay makes upstream. */
  datatype CompletionRequest = CompletionRequest(
    model: string,
    messages: seq<MessageDict>,
    temperature: real,
    stream: bool)

  /** The model asked for: the caller's when it is non-empty, else the
      configured default. */
  function RequestedModel(model: Option<string>, settings: Settings): (m: string)
    ensures Truthy(model) ==> m == model.value
    ensures !Truthy(model) ==> m == settings.deepseekModel
  {
    Or(model, settings.deepseekModel)
  }

  /** The text a chunk carries: the first choice's delta content, or "" when
      there is no choice or the content is None. */
  function Delta(c: Chunk): string {
    if |c.choices| > 0 && c.choices[0].deltaContent.Some? then c.choices[0].deltaContent.value
    else ""
  }

  /** The frames one chunk produces: one content frame when it carries text. */
  function ChunkFrames(c: Chunk): seq<Frame> {
    if Delta(c) != "" then [Content(Delta(c))] else []
  }

  /** The content frames of a chunk sequence, built chunk by chunk. */
  function ContentFrames(cs: seq<Chunk>): (fs: seq<Frame>)
    ensures |fs| <= |cs|
    ensures forall i :: 0 <= i < |fs| ==> fs[i].Content? && fs[i].text != ""
  {
    if cs == [] then [] else ContentFrames(cs[..|cs| - 1]) + ChunkFrames(cs[|cs| - 1])
  }

  /** The frame that ends a stream that was opened. */
  function Terminal(end: StreamEnd): (f: Frame)
    ensures IsTerminal(f)
  {
    match end
    case Exhausted => Done
    case Raised(m) => Error(m, true)
  }

  /** The frames of one relay run: whatever the key and the upstream, content
      frames followed by exactly one terminal frame, which is `Done` only when
      the upstream stream ran out normally. */
  function RelayFrames(settings: Settings, up: Upstream): (fs: seq<Frame>)
    ensures WellTerminated(fs)
    ensures settings.deepseekApiKey == "" ==> fs == [Error(KeyMissingMessage, false)]
    ensures settings.deepseekApiKey != "" && up.CreateFailed? ==> fs == [Error(up.message, true)]
    ensures fs[|fs| - 1] == Done <==> settings.deepseekApiKey != "" && up.Opened? && up.end.Exhausted?
  {
    if settings.deepseekApiKey == "" then [Error(KeyMissingMessage, false)]
    else match up
      case CreateFailed(m) => [Error(m, true)]
      case Opened(chunks, end) => ContentFrames(chunks) + [Terminal(end)]
  }

  /** The streaming relay: checks the key, then makes one streaming call and
      forwards each chunk that carries text as a content frame, then sends
      one terminal frame. `sent` is the call made upstream, None when none is. */
  method StreamDebateResponse(
    settings: Settings,
    messages: seq<MessageDict>,
    model: Option<string>,
    temperature: real,
    upstream: Upstream)
    returns (events: seq<string>, sent: Option<CompletionRequest>)
    ensures settings.deepseekApiKey == "" <==> sent.None?
    ensures sent.Some? ==>
      sent.value == CompletionRequest(RequestedModel(model, settings), messages, temperature, true)
    ensures events == RenderAll(RelayFrames(settings, upstream))
    ensures ParseStream(Join(events)) == Some(RelayFrames(settings, upstream))
  {
    ghost var fs := RelayFrames(settings, upstream);
    if settings.deepseekApiKey == "" {
      events := [Render(Error(KeyMissingMessage, false))];
      sent := None;
      RenderOne(Error(KeyMissingMessage, false));
    } else {
      sent := Some(CompletionRequest(RequestedModel(model, settings), messages, temperature, true));
      match upstream {
        case CreateFailed(m) =>
          events := [Render(Error(m, true))];
          RenderOne(Error(m, true));
        case Opened(chunks, end) =>
          events := RelayChunks(chunks);
          RenderAllAppend(ContentFrames(chunks), [Terminal(end)]);
          RenderOne(Terminal(end));
          events := events + [Render(Terminal(end))];
      }
    }
    assert events == RenderAll(fs);
    StreamRoundTrip(fs);
  }

  /** The forwarding loop of the relay: one content frame for each chunk
      whose first choice carries non-empty delta content, in arrival order. */
  method RelayChunks(chunks: seq<Chunk>) returns (events: seq<string>)
    ensures events == RenderAll(ContentFrames(chunks))
  {
    events := [];
    var i := 0;
    while i < |chunks|
      invariant 0 <= i <= |chunks|
      invariant events == RenderAll(ContentFrames(chunks[..i]))
    {
      var chunk := chunks[i];
      RelayStep(chunks, i);
      if |chunk.choices| > 0 && Truthy(chunk.choices[0].deltaContent) {
        events := events + [Render(Content(chunk.choices[0].deltaContent.value))];
      }
      i := i + 1;
    }
    assert chunks[..i] == chunks;
  }

  /** The events one more chunk adds, written as the loop tests for them. */
  lemma RelayStep(cs: seq<Chunk>, i: nat)
    requires i < |cs|
    ensures RenderAll(ContentFrames(cs[..i + 1])) ==
      RenderAll(ContentFrames(cs[..i])) +
      (if |cs[i].choices| > 0 && Truthy(cs[i].choices[0].deltaContent)
       then [Render(Content(cs[i].choices[0].deltaContent.value))]
       else [])
  {
    ContentFramesStep(cs, i);
    RenderAllAppend(ContentFrames(cs[..i]), ChunkFrames(cs[i]));
    ChunkEvents(cs[i]);
  }

  lemma ChunkEvents(c: Chunk)
    ensures RenderAll(ChunkFrames(c)) ==
      if |c.choices| > 0 && Truthy(c.choices[0].deltaContent)
      then [Render(Content(c.choices[0].deltaContent.value))]
      else []
  {
  }

  lemma ContentFramesStep(cs: seq<Chunk>, i: nat)
    requires i < |cs|
    ensures ContentFrames(cs[..i + 1]) == ContentFrames(cs[..i]) + ChunkFrames(cs[i])
  {
    assert cs[..i + 1][..i] == cs[..i];
  }

  // ---------------------------------------------------------------------
  // What a relay run promises

  /** The texts of the content frames, in order. */
  function Texts(fs: seq<Frame>): seq<string> {
    if fs == [] then []
    else (if fs[0].Content? then [fs[0].text] else []) + Texts(fs[1..])
  }

  /** The non-empty upstream deltas, in arrival order. */
  function NonEmptyDeltas(cs: seq<Chunk>): seq<string> {
    if cs == [] then []
    else (if Delta(cs[0]) != "" then [Delta(cs[0])] else []) + NonEmptyDeltas(cs[1..])
  }

  /** Every upstream delta, empty ones included. */
  function AllDeltas(cs: seq<Chunk>): (ds: seq<string>)
    ensures |ds| == |cs| && forall i :: 0 <= i < |cs| ==> ds[i] == Delta(cs[i])
  {
    seq(|cs|, i requires 0 <= i < |cs| => Delta(cs[i]))
  }

  /** A well-formed run: content frames, then exactly one terminal frame last. */
  predicate WellTerminated(fs: seq<Frame>) {
    |fs| > 0 && IsTerminal(fs[|fs| - 1]) && forall i :: 0 <= i < |fs| - 1 ==> fs[i].Content?
  }

  lemma {:induction false} ContentFramesAppend(a: seq<Chunk>, b: seq<Chunk>)
    ensures ContentFrames(a + b) == ContentFrames(a) + ContentFrames(b)
    decreases |b|
  {
    if b == [] {
      assert a + b == a;
    } else {
      var b', last := b[..|b| - 1], b[|b| - 1];
      assert (a + b)[..|a + b| - 1] == a + b';
      assert (a + b)[|a + b| - 1] == last;
      calc {
        ContentFrames(a + b);
        ContentFrames(a + b') + ChunkFrames(last);
        { ContentFramesAppend(a, b'); }
        ContentFrames(a) + ContentFrames(b') + ChunkFrames(last);
        ContentFrames(a) + (ContentFrames(b') + ChunkFrames(last));
        ContentFrames(a) + ContentFrames(b);
      }
    }
  }

  lemma {:induction false} TextsAppend(f: seq<Frame>, g: seq<Frame>)
    ensures Texts(f + g) == Texts(f) + Texts(g)
  {
    if f != [] {
      TextsAppend(f[1..], g);
      assert (f + g)[1..] == f[1..] + g;
    } else {
      assert f + g == g;
    }
  }

  /** One content frame per chunk that carries text, holding that text, in
      arrival order; chunks without text produce nothing. */
  lemma {:induction false} ContentFramesCarryDeltas(cs: seq<Chunk>)
    ensures Texts(ContentFrames(cs)) == NonEmptyDeltas(cs)
  {
    if cs != [] {
      ContentFramesCarryDeltas(cs[1..]);
      assert [cs[0]] + cs[1..] == cs;
      ContentFramesAppend([cs[0]], cs[1..]);
      assert [cs[0]][..0] == [];
      assert ContentFrames([cs[0]]) == ChunkFrames(cs[0]);
      TextsAppend(ChunkFrames(cs[0]), ContentFrames(cs[1..]));
    }
  }

  /** Dropping the empty deltas does not change their concatenation. */
  lemma {:induction false} JoinNonEmptyDeltas(cs: seq<Chunk>)
    ensures Join(NonEmptyDeltas(cs)) == Join(AllDeltas(cs))
  {
    if cs != [] {
      JoinNonEmptyDeltas(cs[1..]);
      assert AllDeltas(cs)[1..] == AllDeltas(cs[1..]);
      if Delta(cs[0]) == "" {
        assert NonEmptyDeltas(cs) == [] + NonEmptyDeltas(cs[1..]) == NonEmptyDeltas(cs[1..]);
        assert Join(AllDeltas(cs)) == "" + Join(AllDeltas(cs[1..])) == Join(AllDeltas(cs[1..]));
      } else {
        assert NonEmptyDeltas(cs) == [Delta(cs[0])] + NonEmptyDeltas(cs[1..]);
        assert ([Delta(cs[0])] + NonEmptyDeltas(cs[1..]))[1..] == NonEmptyDeltas(cs[1..]);
      }
    }
  }

  lemma KeyMissingPlain()
    ensures forall i :: 0 <= i < |KeyMissingMessage| ==> !NeedsEscape(KeyMissingMessage[i])
  {
  }

  /** Without a key the run is the single pre-flight error frame, whose
      object has no "done" key, whatever the upstream would have done. */
  lemma KeyMissingRun(settings: Settings, up: Upstream)
    requires settings.deepseekApiKey == ""
    ensures RelayFrames(settings, up) == [Error(KeyMissingMessage, false)]
    ensures RenderAll(RelayFrames(settings, up)) ==
      [DataField + (ErrorHead + KeyMissingMessage + "\"" + ErrorTail) + Delimiter]
  {
    assert RelayFrames(settings, up) == [Error(KeyMissingMessage, false)];
    KeyMissingPlain();
    PlainErrorRender(KeyMissingMessage);
  }

  /** A stream that ends normally: its content frames carry the non-empty
      deltas in order, their texts concatenate to the concatenation of all
      deltas, and exactly one done frame ends it. */
  lemma RelayExhausted(settings: Settings, cs: seq<Chunk>)
    requires settings.deepseekApiKey != ""
    ensures var fs := RelayFrames(settings, Opened(cs, Exhausted));
      && fs == ContentFrames(cs) + [Done]
      && Texts(fs) == NonEmptyDeltas(cs)
      && Join(Texts(fs)) == Join(AllDeltas(cs))
      && fs[|fs| - 1] == Done
      && forall i :: 0 <= i < |fs| - 1 ==> fs[i] != Done
  {
    var fs := RelayFrames(settings, Opened(cs, Exhausted));
    ContentFramesCarryDeltas(cs);
    TextsAppend(ContentFrames(cs), [Done]);
    assert Texts([Done]) == [];
    JoinNonEmptyDeltas(cs);
  }

  /** A stream that raises after the chunks `cs`: the content frames already
      sent are those a longer run over the same chunks would have sent too,
      and exactly one error frame, with a "done" key, follows them. */
  lemma RelayRaised(settings: Settings, cs: seq<Chunk>, m: string, more: seq<Chunk>, end: StreamEnd)
    requires settings.deepseekApiKey != ""
    ensures var failed := RelayFrames(settings, Opened(cs, Raised(m)));
      && failed == ContentFrames(cs) + [Error(m, true)]
      && failed[..|failed| - 1] <= RelayFrames(settings, Opened(cs + more, end))
  {
    ContentFramesAppend(cs, more);
    var failed := RelayFrames(settings, Opened(cs, Raised(m)));
    assert failed[..|failed| - 1] == ContentFrames(cs);
  }

  // ---------------------------------------------------------------------
  // The non-streaming call

  /** What the upstream delivers for one non-streaming call: an exception, or
      the `message.content` of each returned choice. */
  datatype CompletionOutcome =
    | CallFailed(message: string)
    | Completed(choices: seq<Option<string>>)

  /** A non-streaming run: the call made upstream (None when none is) and the
      returned content or the message of the exception raised. */
  datatype Generated = Generated(sent: Option<CompletionRequest>, result: Result<Option<string>, string>)

  /** The non-streaming call: fails before any call without a key, otherwise
      makes one call and returns the first choice's content. */
  function GenerateDebateResponse(
    settings: Settings,
    messages: seq<MessageDict>,
    model: Option<string>,
    temperature: real,
    response: CompletionOutcome): (g: Generated)
    ensures settings.deepseekApiKey == "" <==> g.sent.None?
    ensures settings.deepseekApiKey == "" ==> g.result == Failure(KeyMissingMessage)
    ensures g.sent.Some? ==>
      g.sent.value == CompletionRequest(RequestedModel(model, settings), messages, temperature, false)
    ensures g.result.Success? <==>
      settings.deepseekApiKey != "" && response.Completed? && |response.choices| > 0
    ensures g.result.Success? ==> g.result.value == response.choices[0]
    ensures settings.deepseekApiKey != "" && response.CallFailed? ==>
      g.result == Failure(response.message)
    ensures settings.deepseekApiKey != "" && response == Completed([]) ==>
      g.result == Failure(IndexErrorMessage)
  {
    if settings.deepseekApiKey == "" then Generated(None, Failure(KeyMissingMessage))
    else
      var request := CompletionRequest(RequestedModel(model, settings), messages, temperature, false);
      match response
      case CallFailed(e) => Generated(Some(request), Failure(e))
      case Completed(choices) =>
        if |choices| == 0 then Generated(Some(request), Failure(IndexErrorMessage))
        else Generated(Some(request), Success(choices[0]))
  }
}
