/** The frames the debate relay sends downstream and their text on the wire:
    one event-stream event per frame (WHATWG HTML Living Standard, section 9.2,
    "Server-sent events"): a `data: ` field holding a JSON object, ended by a
    blank line. */
module Sse {

  import opened Wrappers
  import opened JsonText

  /** A relay frame. `Error(m, false)` is the pre-flight error, whose JSON
      object has no "done" key; `Error(m, true)` is the mid-stream one. */
  datatype Frame =
    | Content(text: string)
    | Done
    | Error(message: string, withDone: bool)

  /** A frame that ends a relay run. */
  predicate IsTerminal(f: Frame) {
    !f.Content?
  }

  const DataField := "data: "
  const Delimiter := "\n\n"

  const ContentHead := "{\"content\": \""
  const ContentTail := ", \"done\": false}"
  const DoneObject := "{\"done\": true}"
  const ErrorHead := "{\"error\": \""
  const ErrorDoneTail := ", \"done\": true}"
  const ErrorTail := "}"

  /** The JSON object of a frame, as `json.dumps` writes it with its default
      separators: one object, braces first and last. */
  function Payload(f: Frame): (p: string)
    ensures |p| >= 2 && p[0] == '{' && p[|p| - 1] == '}'
  {
    match f
    case Content(t) => ContentHead + Escape(t) + "\"" + ContentTail
    case Done => DoneObject
    case Error(m, d) => ErrorHead + Escape(m) + "\"" + (if d then ErrorDoneTail else ErrorTail)
  }

  /** The event text of a frame: the data field holding the frame's JSON
      object, then the blank line that ends the event. */
  function Render(f: Frame): (e: string)
    ensures |e| == |DataField| + |Payload(f)| + |Delimiter|
    ensures e[..|DataField|] == DataField
    ensures e[|DataField|..|e| - |Delimiter|] == Payload(f)
    ensures e[|e| - |Delimiter|..] == Delimiter
  {
    var e := DataField + Payload(f) + Delimiter;
    assert e[..|DataField|] == DataField;
    assert e[|DataField|..|e| - |Delimiter|] == Payload(f);
    e
  }

  /** A text holding no line break: neither a line feed nor a carriage
      return, the two characters an event-stream parser ends a line at. */
  predicate NoBreak(s: string) {
    forall i :: 0 <= i < |s| ==> s[i] != '\n' && s[i] != '\r'
  }

  lemma NoBreakConcat(a: string, b: string)
    requires NoBreak(a) && NoBreak(b)
    ensures NoBreak(a + b)
  {
    forall i | 0 <= i < |a + b| ensures (a + b)[i] != '\n' && (a + b)[i] != '\r' {
      if i < |a| { assert (a + b)[i] == a[i]; } else { assert (a + b)[i] == b[i - |a|]; }
    }
  }

  /** A frame's JSON object never holds a line break, whatever text it carries. */
  lemma PayloadNoBreak(f: Frame)
    ensures NoBreak(Payload(f))
  {
    match f
    case Content(t) =>
      NoBreakConcat(ContentHead, Escape(t));
      NoBreakConcat(ContentHead + Escape(t), "\"");
      NoBreakConcat(ContentHead + Escape(t) + "\"", ContentTail);
    case Done =>
    case Error(m, d) =>
      var tail := if d then ErrorDoneTail else ErrorTail;
      NoBreakConcat(ErrorHead, Escape(m));
      NoBreakConcat(ErrorHead + Escape(m), "\"");
      NoBreakConcat(ErrorHead + Escape(m) + "\"", tail);
  }

  /** An event is one line in the event-stream sense: no carriage return
      anywhere, and the blank line's first line feed is the only other one. */
  lemma RenderShape(f: Frame)
    ensures var e := Render(f);
      && (forall i :: 0 <= i < |e| - |Delimiter| ==> e[i] != '\n')
      && (forall i :: 0 <= i < |e| ==> e[i] != '\r')
  {
    var e := Render(f);
    var line := DataField + Payload(f);
    PayloadNoBreak(f);
    NoBreakConcat(DataField, Payload(f));
    assert e == line + Delimiter;
    forall i | 0 <= i < |e| ensures e[i] != '\r' && (i < |line| ==> e[i] != '\n') {
      if i < |line| { assert e[i] == line[i]; } else { assert e[i] == Delimiter[i - |line|]; }
    }
  }

  /** The event texts of a frame sequence, one per frame, in order. */
  function RenderAll(fs: seq<Frame>): (es: seq<string>)
    ensures |es| == |fs|
    ensures forall i :: 0 <= i < |fs| ==> es[i] == Render(fs[i])
  {
    seq(|fs|, i requires 0 <= i < |fs| => Render(fs[i]))
  }

  /** The byte stream a client receives: the events back to back. */
  function Join(es: seq<string>): string {
    if es == [] then [] else es[0] + Join(es[1..])
  }

  function ParsePayload(p: string): Option<Frame> {
    if p == DoneObject then Some(Done)
    else if |p| >= |ContentHead| && p[..|ContentHead|] == ContentHead then
      match ReadString(p[|ContentHead|..])
      case Some((v, tail)) => if tail == ContentTail then Some(Content(v)) else None
      case None => None
    else if |p| >= |ErrorHead| && p[..|ErrorHead|] == ErrorHead then
      match ReadString(p[|ErrorHead|..])
      case Some((v, tail)) =>
        if tail == ErrorDoneTail then Some(Error(v, true))
        else if tail == ErrorTail then Some(Error(v, false))
        else None
      case None => None
    else None
  }

  /** A client's reading of one event text. */
  function ParseEvent(e: string): Option<Frame> {
    if |e| >= |DataField| + |Delimiter| && e[..|DataField|] == DataField
       && e[|e| - |Delimiter|..] == Delimiter
    then ParsePayload(e[|DataField|..|e| - |Delimiter|])
    else None
  }

  /** The index of the first line break of `s`, or `|s|` when it has none. */
  function LineEnd(s: string): (k: nat)
    ensures k <= |s|
    ensures forall j :: 0 <= j < k ==> s[j] != '\n'
    ensures k < |s| ==> s[k] == '\n'
  {
    if s == [] || s[0] == '\n' then 0 else 1 + LineEnd(s[1..])
  }

  /** A client's reading of a whole stream: split after each blank line and
      read each event; None when some piece is not a well-formed event. */
  function ParseStream(s: string): Option<seq<Frame>>
    decreases |s|
  {
    if s == [] then Some([])
    else
      var k := LineEnd(s);
      if k + |Delimiter| <= |s| && s[k..k + |Delimiter|] == Delimiter then
        match ParseEvent(s[..k + |Delimiter|])
        case None => None
        case Some(f) =>
          match ParseStream(s[k + |Delimiter|..])
          case None => None
          case Some(fs) => Some([f] + fs)
      else None
  }

  /** Each frame's JSON object reads back as that frame. */
  lemma PayloadRoundTrip(f: Frame)
    ensures ParsePayload(Payload(f)) == Some(f)
  {
    var p := Payload(f);
    match f
    case Content(t) =>
      var rest := Escape(t) + "\"" + ContentTail;
      assert p == ContentHead + rest;
      assert p[2] != DoneObject[2];
      assert p[..|ContentHead|] == ContentHead && p[|ContentHead|..] == rest;
      ReadEscaped(t, ContentTail);
    case Done =>
    case Error(m, d) =>
      var tail := if d then ErrorDoneTail else ErrorTail;
      var rest := Escape(m) + "\"" + tail;
      assert p == ErrorHead + rest;
      assert p[2] != DoneObject[2] && p[2] != ContentHead[2];
      assert p[..|ErrorHead|] == ErrorHead && p[|ErrorHead|..] == rest;
      ReadEscaped(m, tail);
  }

  /** Each event text reads back as its frame, so `Render` is injective. */
  lemma EventRoundTrip(f: Frame)
    ensures ParseEvent(Render(f)) == Some(f)
  {
    var e := Render(f);
    RenderShape(f);
    assert e[|DataField|..|e| - |Delimiter|] == Payload(f);
    PayloadRoundTrip(f);
  }

  /** The pre-flight error frame of a message with nothing to escape: the
      message verbatim in an object with no "done" key. */
  lemma PlainErrorRender(m: string)
    requires forall i :: 0 <= i < |m| ==> !NeedsEscape(m[i])
    ensures RenderAll([Error(m, false)]) == [DataField + (ErrorHead + m + "\"" + ErrorTail) + Delimiter]
  {
    EscapePlain(m);
    assert Payload(Error(m, false)) == ErrorHead + m + "\"" + ErrorTail;
  }

  /** Rendering distributes over concatenation of frame sequences. */
  lemma RenderAllAppend(a: seq<Frame>, b: seq<Frame>)
    ensures RenderAll(a + b) == RenderAll(a) + RenderAll(b)
  {
    var l := RenderAll(a + b);
    var r := RenderAll(a) + RenderAll(b);
    forall i | 0 <= i < |l| ensures l[i] == r[i] {
      if i < |a| { assert (a + b)[i] == a[i]; } else { assert (a + b)[i] == b[i - |a|]; }
    }
  }

  lemma RenderOne(f: Frame)
    ensures RenderAll([f]) == [Render(f)]
  {
  }

  /** A client reading a stream that starts with a rendered frame reads that
      frame first and then goes on with the rest. */
  lemma ParseAfterEvent(f: Frame, rest: string, fs: seq<Frame>)
    requires ParseStream(rest) == Some(fs)
    ensures ParseStream(Render(f) + rest) == Some([f] + fs)
  {
    var e := Render(f);
    RenderShape(f);
    var s := e + rest;
    var n := |e| - |Delimiter|;
    assert s[n] == '\n';
    assert LineEnd(s) == n;
    assert s[n..n + |Delimiter|] == Delimiter;
    assert s[..n + |Delimiter|] == e;
    assert s[n + |Delimiter|..] == rest;
    EventRoundTrip(f);
  }

  lemma JoinFirst(fs: seq<Frame>)
    requires fs != []
    ensures Join(RenderAll(fs)) == Render(fs[0]) + Join(RenderAll(fs[1..]))
  {
    assert RenderAll(fs)[1..] == RenderAll(fs[1..]);
  }

  /** A client splitting the stream at blank lines recovers exactly the frames
      that were sent, in order: no frame is lost, merged or split. */
  lemma {:induction false} StreamRoundTrip(fs: seq<Frame>)
    ensures ParseStream(Join(RenderAll(fs))) == Some(fs)
  {
    if fs != [] {
      var rest := Join(RenderAll(fs[1..]));
      JoinFirst(fs);
      StreamRoundTrip(fs[1..]);
      ParseAfterEvent(fs[0], rest, fs[1..]);
      assert [fs[0]] + fs[1..] == fs;
    }
  }
}
