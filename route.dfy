/** The chat stream route: the authorisation guard, the conversion of the
    request history into LangChain messages, and the encoder that turns the
    agent's event stream into server-sent-event frames (the `text/event-stream`
    format of section 9.2 of the WHATWG HTML Living Standard). */
module Route {
  import opened Values
  import opened Protocol
  import Agent

  // ---------------------------------------------------------------------------
  // From agent events to stream messages
  // ---------------------------------------------------------------------------

  /** One event of the agent's `streamEvents` stream, reduced to what the
      encoder reads: its kind, its `name`, and `data.chunk`, `data.input`,
      `data.output`. `toolMessage` is what `new ToolMessage(data.output)`
      gives, which the message library decides: the `name` among its
      arguments (`lc_kwargs.name`), or what the constructor throws. */
  datatype StreamEvent = StreamEvent(
    event: string,
    name: Option<string>,
    chunk: Option<Json>,
    input: Option<Json>,
    output: Option<Json>,
    toolMessage: Result<Option<string>, Thrown>)

  /** `name || "unknown"`. */
  function OrUnknown(name: Option<string>): string {
    if name.Some? && name.value != "" then name.value else "unknown"
  }

  /** `chunk.content.at(0)?.["text"]`: the `text` of the first content part.
      String content gives the first character, which has no `text`; content
      that is `undefined`, `null`, a number, a boolean or a plain object has no
      `at` method, so the read throws. */
  function ChunkText(chunk: Json): (r: Result<Option<Json>, Thrown>)
    ensures r.Err? <==> (Field(chunk, "content").None? ||
                         !(Field(chunk, "content").value.JStr? || Field(chunk, "content").value.JArr?))
    ensures r.Ok? && r.value.Some? ==> Field(chunk, "content").value.JArr?
  {
    match Field(chunk, "content")
    case None => Err(JsError(TYPE_ERROR))
    case Some(content) =>
      match content
      case JStr(_) => Ok(None)
      case JArr(parts) => Ok(if parts == [] || parts[0].JNull? then None else Field(parts[0], "text"))
      case _ => Err(JsError(TYPE_ERROR))
  }

  /** The messages sent for one event, in order, or what its handling throws. */
  function EventFrames(e: StreamEvent): (r: Result<seq<StreamMessage>, Thrown>)
    ensures r.Ok? ==> |r.value| <= 1
    ensures r.Err? <==>
      || (e.event == "on_chat_model_stream" && e.chunk.Some? && Truthy(e.chunk.value) && ChunkText(e.chunk.value).Err?)
      || (e.event == "on_tool_end" && e.toolMessage.Err?)
  {
    if e.event == "on_chat_model_stream" then
      if e.chunk.None? || !Truthy(e.chunk.value) then Ok([])
      else
        match ChunkText(e.chunk.value)
        case Err(t) => Err(t)
        case Ok(text) => Ok(if text.Some? && Truthy(text.value) then [Token(text.value)] else [])
    else if e.event == "on_chat_model_end" then Ok([Done])
    else if e.event == "on_tool_start" then Ok([ToolStart(OrUnknown(e.name), e.input)])
    else if e.event == "on_tool_end" then
      (match e.toolMessage
       case Err(t) => Err(t)
       case Ok(name) => Ok([ToolEnd(OrUnknown(name), e.output)]))
    else Ok([])
  }

  /** The loop over the events: all their messages in order, stopping at the
      first event whose handling throws. */
  datatype Drained = Drained(frames: seq<StreamMessage>, failure: Option<Thrown>)

  function MapEvents(events: seq<StreamEvent>): (d: Drained)
    ensures |d.frames| <= |events|
  {
    if events == [] then Drained([], None)
    else
      match EventFrames(events[0])
      case Err(t) => Drained([], Some(t))
      case Ok(fs) =>
        var rest := MapEvents(events[1..]);
        Drained(fs + rest.frames, rest.failure)
  }

  /** Handling one more event extends the loop's output by that event's messages. */
  lemma {:induction false} MapEventsSnoc(events: seq<StreamEvent>, e: StreamEvent)
    requires MapEvents(events).failure.None?
    ensures MapEvents(events + [e]) ==
      match EventFrames(e)
      case Err(t) => Drained(MapEvents(events).frames, Some(t))
      case Ok(fs) => Drained(MapEvents(events).frames + fs, None)
  {
    if events == [] {
      assert [] + [e] == [e];
      assert [e][1..] == [];
    } else {
      assert (events + [e])[1..] == events[1..] + [e];
      assert (events + [e])[0] == events[0];
      MapEventsSnoc(events[1..], e);
    }
  }

  /** The event stream `submitQuestion` hands back: the events it yields, and
      whether iterating it then throws instead of ending. */
  datatype EventSource = EventSource(events: seq<StreamEvent>, end: Option<Thrown>)

  /** Everything `startStream` writes, in order, for the parsed request
      `body`. `stored` is the outcome of storing the user's message (a failure
      is what it throws), `submitted` the outcome of `submitQuestion`. A
      failure to store or to convert the history is caught by the outer
      `catch`, one of `submitQuestion` or the events by the inner one. */
  function StreamRun(stored: Option<Thrown>, body: Json, submitted: Result<EventSource, Thrown>): (run: seq<StreamMessage>)
    ensures |run| >= 2 && run[0] == Connected
  {
    [Connected] +
    if stored.Some? then [Error(ErrorText(stored.value, "Unknown error in chat stream"))]
    else
      match ConvertRequest(body)
      case Err(t) => [Error(ErrorText(t, "Unknown error in chat stream"))]
      case Ok(_) =>
        match submitted
        case Err(t) => [Error(ErrorText(t, "Stream processing failed"))]
        case Ok(source) => AgentFrames(source)
  }

  /** The messages of a run the agent accepted: its events' messages, then
      `Done`, or an `Error` if an event or the stream itself failed. */
  function AgentFrames(source: EventSource): (fs: seq<StreamMessage>)
    ensures |fs| == |MapEvents(source.events).frames| + 1
    ensures fs[|fs| - 1].Done? <==> MapEvents(source.events).failure.None? && source.end.None?
    ensures fs[..|fs| - 1] == MapEvents(source.events).frames
    ensures !fs[|fs| - 1].Done? ==>
      var failure := if MapEvents(source.events).failure.Some? then MapEvents(source.events).failure else source.end;
      fs[|fs| - 1] == Error(ErrorText(failure.value, "Stream processing failed"))
  {
    var d := MapEvents(source.events);
    var failure := if d.failure.Some? then d.failure else source.end;
    d.frames + if failure.None? then [Done] else [Error(ErrorText(failure.value, "Stream processing failed"))]
  }

  // ---------------------------------------------------------------------------
  // Properties of the message stream
  // ---------------------------------------------------------------------------

  /** The loop itself never emits `Connected` or `Error`. */
  lemma {:induction false} MapEventsNoConnectedOrError(events: seq<StreamEvent>)
    ensures forall i :: 0 <= i < |MapEvents(events).frames| ==>
      !MapEvents(events).frames[i].Connected? && !MapEvents(events).frames[i].Error?
  {
    if events != [] {
      MapEventsNoConnectedOrError(events[1..]);
    }
  }

  /** `Connected` is the first message and appears nowhere else. */
  lemma RunStartsConnected(stored: Option<Thrown>, body: Json, submitted: Result<EventSource, Thrown>)
    ensures StreamRun(stored, body, submitted)[0] == Connected
    ensures forall i :: 0 < i < |StreamRun(stored, body, submitted)| ==> !StreamRun(stored, body, submitted)[i].Connected?
  {
    if stored.None? && ConvertRequest(body).Ok? && submitted.Ok? {
      MapEventsNoConnectedOrError(submitted.value.events);
    }
  }

  /** The last message is `Done` or `Error`; an `Error` is always the last
      message and there is at most one, so no backup `Done` follows it. */
  lemma RunEndsTerminal(stored: Option<Thrown>, body: Json, submitted: Result<EventSource, Thrown>)
    ensures var run := StreamRun(stored, body, submitted);
      && |run| >= 2
      && (run[|run| - 1].Done? || run[|run| - 1].Error?)
      && forall i :: 0 <= i < |run| - 1 ==> !run[i].Error?
  {
    if stored.None? && ConvertRequest(body).Ok? && submitted.Ok? {
      MapEventsNoConnectedOrError(submitted.value.events);
    }
  }

  /** A run fails (ends in `Error`) exactly when storing the message,
      converting the history, `submitQuestion`, an event's handling or the
      iteration throws. */
  lemma RunFailsIffSomethingThrows(stored: Option<Thrown>, body: Json, submitted: Result<EventSource, Thrown>)
    ensures var run := StreamRun(stored, body, submitted);
      run[|run| - 1].Error? <==>
        stored.Some? || ConvertRequest(body).Err? || submitted.Err? ||
        MapEvents(submitted.value.events).failure.Some? || submitted.value.end.Some?
  {
  }

  /** A run that fails before the agent streams anything is `Connected` and
      one `Error`: the outer `catch` reports a failure to store the message or
      to convert the history, the inner one a failure of `submitQuestion`. */
  lemma EarlyFailureRun(stored: Option<Thrown>, body: Json, submitted: Result<EventSource, Thrown>)
    ensures stored.Some? ==>
      StreamRun(stored, body, submitted) == [Connected, Error(ErrorText(stored.value, "Unknown error in chat stream"))]
    ensures stored.None? && ConvertRequest(body).Err? ==>
      StreamRun(stored, body, submitted) ==
        [Connected, Error(ErrorText(ConvertRequest(body).error, "Unknown error in chat stream"))]
    ensures stored.None? && ConvertRequest(body).Ok? && submitted.Err? ==>
      StreamRun(stored, body, submitted) == [Connected, Error(ErrorText(submitted.error, "Stream processing failed"))]
  {
  }

  /** Number of `Done` messages in a sequence. */
  function DoneCount(frames: seq<StreamMessage>): nat {
    if frames == [] then 0 else (if frames[0].Done? then 1 else 0) + DoneCount(frames[1..])
  }

  /** Number of model-end events in a sequence. */
  function ModelEndCount(events: seq<StreamEvent>): nat {
    if events == [] then 0 else (if events[0].event == "on_chat_model_end" then 1 else 0) + ModelEndCount(events[1..])
  }

  lemma {:induction false} DoneCountAppend(a: seq<StreamMessage>, b: seq<StreamMessage>)
    ensures DoneCount(a + b) == DoneCount(a) + DoneCount(b)
  {
    if a == [] {
      assert a + b == b;
    } else {
      assert (a + b)[1..] == a[1..] + b;
      DoneCountAppend(a[1..], b);
    }
  }

  /** Without a failure, the loop sends one `Done` per model-end event. */
  lemma {:induction false} MapEventsDoneCount(events: seq<StreamEvent>)
    requires MapEvents(events).failure.None?
    ensures DoneCount(MapEvents(events).frames) == ModelEndCount(events)
  {
    if events != [] {
      MapEventsDoneCount(events[1..]);
      var fs := EventFrames(events[0]).value;
      DoneCountAppend(fs, MapEvents(events[1..]).frames);
      if events[0].event == "on_chat_model_end" {
        assert fs == [Done];
        assert fs[1..] == [];
      }
    }
  }

  /** On normal exhaustion the run is `Connected`, the loop's messages, then the
      backup `Done` — which comes on top of the one sent per model-end event,
      so a run can hold several `Done` messages. */
  lemma NormalRunDoneMessages(body: Json, source: EventSource)
    requires ConvertRequest(body).Ok?
    requires MapEvents(source.events).failure.None? && source.end.None?
    ensures StreamRun(None, body, Ok(source)) == [Connected] + MapEvents(source.events).frames + [Done]
    ensures DoneCount(StreamRun(None, body, Ok(source))) == ModelEndCount(source.events) + 1
  {
    var fs := MapEvents(source.events).frames;
    MapEventsDoneCount(source.events);
    DoneCountAppend([Connected], fs + [Done]);
    DoneCountAppend(fs, [Done]);
    assert [Connected] + (fs + [Done]) == [Connected] + fs + [Done];
    assert [Connected][1..] == [] && [Done][1..] == [];
  }

  /** A stream-chunk event yields a `Token` exactly when the chunk is truthy,
      its content can be read, and the first part's `text` is truthy; the
      token carries that text. Any other event yields no `Token`. */
  lemma TokenOnlyFromText(e: StreamEvent)
    ensures EventFrames(e).Ok? && EventFrames(e).value != [] && EventFrames(e).value[0].Token? <==>
      e.event == "on_chat_model_stream" && e.chunk.Some? && Truthy(e.chunk.value) &&
      ChunkText(e.chunk.value).Ok? && ChunkText(e.chunk.value).value.Some? &&
      Truthy(ChunkText(e.chunk.value).value.value)
    ensures EventFrames(e).Ok? && EventFrames(e).value != [] && EventFrames(e).value[0].Token? ==>
      EventFrames(e).value == [Token(ChunkText(e.chunk.value).value.value)]
  {
  }

  /** A chunk whose content is a plain string yields no `Token`: the first
      character has no `text` property. */
  lemma StringChunkYieldsNoToken(e: StreamEvent, s: string)
    requires e.event == "on_chat_model_stream" && e.chunk.Some? && Field(e.chunk.value, "content") == Some(JStr(s))
    ensures EventFrames(e) == Ok([])
  {
  }

  /** Tool events are passed through: the input or output untouched, the name
      defaulting to `"unknown"`; a tool end whose `ToolMessage` cannot be built
      throws that failure. Kinds the encoder does not know yield nothing. */
  lemma ToolEventsPassThrough(e: StreamEvent)
    ensures e.event == "on_tool_start" ==> EventFrames(e) == Ok([ToolStart(OrUnknown(e.name), e.input)])
    ensures e.event == "on_tool_end" && e.toolMessage.Err? ==> EventFrames(e) == Err(e.toolMessage.error)
    ensures e.event == "on_tool_end" && e.toolMessage.Ok? ==>
      EventFrames(e) == Ok([ToolEnd(OrUnknown(e.toolMessage.value), e.output)])
    ensures OrUnknown(e.name) == if e.name.None? || e.name == Some("") then "unknown" else e.name.value
    ensures e.event !in {"on_chat_model_stream", "on_chat_model_end", "on_tool_start", "on_tool_end"} ==>
      EventFrames(e) == Ok([])
  {
  }

  // ---------------------------------------------------------------------------
  // The response writer
  // ---------------------------------------------------------------------------

  /** `sendSSEMessage`'s record: the data prefix, the JSON text, the line delimiter. */
  function SseFrame(prefix: string, delimiter: string, stringify: Json -> string, m: StreamMessage): string {
    prefix + stringify(ToWire(m)) + delimiter
  }

  /** The writable side of the response stream. The data prefix, the line
      delimiter and `JSON.stringify` are fixed for the writer; `sent` is the
      ghost list of messages behind the written records. */
  class SseWriter {
    const prefix: string
    const delimiter: string
    const stringify: Json -> string
    var written: seq<string>
    var closed: bool
    ghost var sent: seq<StreamMessage>

    ghost predicate Valid()
      reads this
    {
      |written| == |sent| &&
      forall i :: 0 <= i < |sent| ==> written[i] == SseFrame(prefix, delimiter, stringify, sent[i])
    }

    constructor (prefix: string, delimiter: string, stringify: Json -> string)
      ensures Valid() && !closed && written == [] && sent == []
      ensures this.prefix == prefix && this.delimiter == delimiter && this.stringify == stringify
    {
      this.prefix := prefix;
      this.delimiter := delimiter;
      this.stringify := stringify;
      written := [];
      closed := false;
      sent := [];
    }

    /** `sendSSEMessage`: one write of one encoded record. */
    method Send(m: StreamMessage)
      requires Valid() && !closed
      modifies this
      ensures Valid() && !closed
      ensures sent == old(sent) + [m]
      ensures written == old(written) + [SseFrame(prefix, delimiter, stringify, m)]
    {
      written := written + [SseFrame(prefix, delimiter, stringify, m)];
      sent := sent + [m];
    }

    /** `writer.close()`; closing twice rejects, and the caller swallows that. */
    method Close()
      modifies this
      ensures closed && written == old(written) && sent == old(sent)
    {
      closed := true;
    }
  }

  // ---------------------------------------------------------------------------
  // The route
  // ---------------------------------------------------------------------------

  /** A prior turn as the route reads it: its `role` (`None` when missing)
      and its content. */
  datatype Turn = Turn(role: Option<Json>, content: Json)

  /** What the conversion of the history takes from the body: the prior turns
      and the new message. */
  datatype Conversation = Conversation(turns: seq<Turn>, newMessage: Json)

  /** `messages.map(...)`: reading `role` of a `null` entry throws, and so
      does building a message from an `undefined` content. */
  function ConvertTurns(entries: seq<Json>): (r: Result<seq<Turn>, Thrown>)
    ensures r.Ok? <==> forall i :: 0 <= i < |entries| ==> Has(entries[i], "content")
    ensures r.Err? ==> r.error == JsError(TYPE_ERROR)
    ensures r.Ok? ==> |r.value| == |entries| && forall i :: 0 <= i < |entries| ==>
      r.value[i] == Turn(Field(entries[i], "role"), entries[i].fields["content"])
  {
    if entries == [] then Ok([])
    else if !Has(entries[0], "content") then Err(JsError(TYPE_ERROR))
    else
      match ConvertTurns(entries[1..])
      case Err(t) => Err(t)
      case Ok(rest) => Ok([Turn(Field(entries[0], "role"), entries[0].fields["content"])] + rest)
  }

  /** A body the conversion accepts: `messages` is an array whose entries all
      carry a `content`, and `newMessage` is present. */
  predicate Convertible(body: Json) {
    && Field(body, "messages").Some? && Field(body, "messages").value.JArr?
    && (forall i :: 0 <= i < |body.fields["messages"].items| ==> Has(body.fields["messages"].items[i], "content"))
    && Has(body, "newMessage")
  }

  /** The history conversion of `startStream`: `messages` that is missing or
      no array has no `map` to call, and a missing `newMessage` makes the last
      message constructor throw; every failure is a `TypeError`. */
  function ConvertRequest(body: Json): (r: Result<Conversation, Thrown>)
    ensures r.Ok? <==> Convertible(body)
    ensures r.Err? ==> r.error == JsError(TYPE_ERROR)
    ensures r.Ok? ==>
      && r.value.newMessage == body.fields["newMessage"]
      && |r.value.turns| == |body.fields["messages"].items|
      && forall i :: 0 <= i < |r.value.turns| ==>
        var entry := body.fields["messages"].items[i];
        r.value.turns[i] == Turn(Field(entry, "role"), entry.fields["content"])
  {
    var messages := Field(body, "messages");
    if messages.None? || !messages.value.JArr? then Err(JsError(TYPE_ERROR))
    else
      match ConvertTurns(messages.value.items)
      case Err(t) => Err(t)
      case Ok(turns) =>
        if !Has(body, "newMessage") then Err(JsError(TYPE_ERROR))
        else Ok(Conversation(turns, body.fields["newMessage"]))
  }

  /** The class each prior turn becomes: `user` is human, anything else
      (another role, or none) is AI; the new message is appended as human. */
  function PromptKinds(turns: seq<Turn>): (kinds: seq<Agent.Kind>)
    ensures |kinds| == |turns| + 1 && kinds[|turns|] == Agent.Human
    ensures forall i :: 0 <= i < |turns| ==>
      (kinds[i] == Agent.Human <==> turns[i].role == Some(JStr("user"))) && kinds[i] in {Agent.Human, Agent.AI}
  {
    seq(|turns|, i requires 0 <= i < |turns| =>
      if turns[i].role == Some(JStr("user")) then Agent.Human else Agent.AI) + [Agent.Human]
  }

  /** The contents of the prompt: each prior turn's, then the new message. */
  function PromptContents(c: Conversation): (cs: seq<Json>)
    ensures |cs| == |c.turns| + 1 && cs[|c.turns|] == c.newMessage
    ensures forall i :: 0 <= i < |c.turns| ==> cs[i] == c.turns[i].content
  {
    seq(|c.turns|, i requires 0 <= i < |c.turns| => c.turns[i].content) + [c.newMessage]
  }

  /** The body the page posts is always converted: each prior turn keeps its
      role and content, a `user` turn becomes human, and the new message is
      the trimmed text. */
  lemma PostedBodyConverts(b: ChatRequestBody)
    ensures var r := ConvertRequest(RequestJson(b));
      && r.Ok? && r.value.newMessage == JStr(b.newMessage) && |r.value.turns| == |b.messages|
      && forall i :: 0 <= i < |b.messages| ==>
        && r.value.turns[i] == Turn(Some(JStr(b.messages[i].role)), b.messages[i].content)
        && (PromptKinds(r.value.turns)[i] == Agent.Human <==> b.messages[i].role == "user")
  {
  }

  /** The LangChain history: a fresh message per prior turn, with its content
      unchanged, followed by the new human message. */
  method BuildHistory(turns: seq<Turn>, newMessage: Json) returns (history: array<Agent.Message>)
    ensures fresh(history) && history.Length == |turns| + 1
    ensures forall i :: 0 <= i < history.Length ==> fresh(history[i])
    ensures forall i, j :: 0 <= i < j < history.Length ==> history[i] != history[j]
    ensures Agent.KindsOf(history[..]) == PromptKinds(turns)
    ensures forall i :: 0 <= i < |turns| ==> history[i].content == turns[i].content && history[i].toolCalls == []
    ensures history[|turns|].content == newMessage && history[|turns|].toolCalls == []
  {
    var last := new Agent.Message(Agent.Human, newMessage, []);
    history := new Agent.Message[|turns| + 1](_ => last);
    var k := 0;
    while k < |turns|
      invariant 0 <= k <= |turns|
      invariant forall i :: 0 <= i < history.Length ==> fresh(history[i])
      invariant forall i :: k <= i < history.Length ==> history[i] == last
      invariant forall i, j :: 0 <= i < j < k ==> history[i] != history[j]
      invariant forall i :: 0 <= i < k ==> history[i] != last
      invariant forall i :: 0 <= i < k ==>
        history[i].kind == PromptKinds(turns)[i] &&
        history[i].content == turns[i].content && history[i].toolCalls == []
      invariant last.content == newMessage && last.kind == Agent.Human && last.toolCalls == []
    {
      var kind := if turns[k].role == Some(JStr("user")) then Agent.Human else Agent.AI;
      var m := new Agent.Message(kind, turns[k].content, []);
      history[k] := m;
      k := k + 1;
    }
  }

  /** `startStream`: `Connected` first, then the user's message is stored, the
      history is converted and annotated and the agent is run; every message
      is written as one record, and the writer is closed on every path. */
  method StartStream(
    w: SseWriter, body: Json,
    stored: Option<Thrown>, submitted: Result<EventSource, Thrown>)
    requires w.Valid() && !w.closed
    modifies w
    ensures w.Valid() && w.closed
    ensures w.sent == old(w.sent) + StreamRun(stored, body, submitted)
  {
    w.Send(Connected);
    ghost var tail: seq<StreamMessage>;
    var conversion := ConvertRequest(body);
    if stored.Some? {
      w.Send(Error(ErrorText(stored.value, "Unknown error in chat stream")));
      tail := [Error(ErrorText(stored.value, "Unknown error in chat stream"))];
    } else if conversion.Err? {
      w.Send(Error(ErrorText(conversion.error, "Unknown error in chat stream")));
      tail := [Error(ErrorText(conversion.error, "Unknown error in chat stream"))];
    } else {
      tail := if submitted.Err? then [Error(ErrorText(submitted.error, "Stream processing failed"))]
              else AgentFrames(submitted.value);
      RunAgent(w, conversion.value, submitted);
    }
    assert StreamRun(stored, body, submitted) == [Connected] + tail;
    Associate(old(w.sent), [Connected], tail);
    w.Close();
  }

  lemma Associate(a: seq<StreamMessage>, b: seq<StreamMessage>, c: seq<StreamMessage>)
    ensures a + b + c == a + (b + c)
  {
  }

  /** The inner `try`: the converted history is annotated, `submitQuestion`
      is called, and its events are streamed, or its failure reported. */
  method RunAgent(w: SseWriter, c: Conversation, submitted: Result<EventSource, Thrown>)
    requires w.Valid() && !w.closed
    modifies w
    ensures w.Valid() && !w.closed
    ensures submitted.Err? ==> w.sent == old(w.sent) + [Error(ErrorText(submitted.error, "Stream processing failed"))]
    ensures submitted.Ok? ==> w.sent == old(w.sent) + AgentFrames(submitted.value)
  {
    var cached := PreparePrompt(c);
    if submitted.Err? {
      w.Send(Error(ErrorText(submitted.error, "Stream processing failed")));
    } else {
      StreamAgent(w, submitted.value);
    }
  }

  /** The prompt handed to the agent: the converted history with the cache
      annotations added. */
  method PreparePrompt(c: Conversation) returns (cached: array<Agent.Message>)
    ensures cached.Length == |c.turns| + 1
    ensures Agent.KindsOf(cached[..]) == PromptKinds(c.turns)
    ensures forall i :: 0 <= i < cached.Length ==>
      cached[i].content ==
        var content := PromptContents(c)[i];
        if Agent.CacheSelected(PromptKinds(c.turns), i) then Agent.CacheWrap(content) else content
  {
    var history := BuildHistory(c.turns, c.newMessage);
    cached := Agent.AddCachingHeaders(history);
  }

  /** The event loop and the closing `Done` or `Error`. */
  method StreamAgent(w: SseWriter, source: EventSource)
    requires w.Valid() && !w.closed
    modifies w
    ensures w.Valid() && !w.closed
    ensures w.sent == old(w.sent) + AgentFrames(source)
  {
    var failure := DrainEvents(w, source.events);
    if failure.None? {
      failure := source.end;
    }
    var last := if failure.None? then Done else Error(ErrorText(failure.value, "Stream processing failed"));
    w.Send(last);
  }

  /** The `for await` loop: each event's messages are written in arrival order
      until an event's handling throws; that failure is returned. */
  method DrainEvents(w: SseWriter, events: seq<StreamEvent>) returns (failure: Option<Thrown>)
    requires w.Valid() && !w.closed
    modifies w
    ensures w.Valid() && !w.closed
    ensures failure == MapEvents(events).failure
    ensures w.sent == old(w.sent) + MapEvents(events).frames
  {
    var k := 0;
    failure := None;
    while k < |events| && failure.None?
      invariant 0 <= k <= |events|
      invariant w.Valid() && !w.closed
      invariant failure.None? ==> MapEvents(events[..k]).failure.None?
      invariant failure.Some? ==> MapEvents(events[..k]) == MapEvents(events) && MapEvents(events).failure == failure
      invariant w.sent == old(w.sent) + MapEvents(events[..k]).frames
    {
      ghost var before := MapEvents(events[..k]).frames;
      MapEventsSnoc(events[..k], events[k]);
      assert events[..k + 1] == events[..k] + [events[k]];
      match EventFrames(events[k]) {
        case Err(t) =>
          failure := Some(t);
          MapEventsStopsAtFailure(events, k + 1);
        case Ok(fs) =>
          if fs != [] {
            w.Send(fs[0]);
            assert fs == [fs[0]];
          }
          Associate(old(w.sent), before, fs);
      }
      k := k + 1;
    }
    if failure.None? {
      assert events[..k] == events;
    }
  }

  /** Once the loop fails on a prefix, the remaining events are never looked at. */
  lemma {:induction false} MapEventsStopsAtFailure(events: seq<StreamEvent>, k: nat)
    requires k <= |events| && MapEvents(events[..k]).failure.Some?
    ensures MapEvents(events) == MapEvents(events[..k])
  {
    if events != [] {
      assert k > 0;
      assert events[..k][0] == events[0];
      if EventFrames(events[0]).Ok? {
        assert events[..k][1..] == events[1..][..k - 1];
        MapEventsStopsAtFailure(events[1..], k - 1);
      }
    }
  }

  /** The route's reply. */
  datatype HttpResponse =
    | PlainText(status: nat, text: string)
    | JsonReply(status: nat, json: Json)
    | EventStream(headers: map<string, string>)

  const STREAM_HEADERS: map<string, string> :=
    map["Content-Type" := "text/event-stream", "Connection" := "keep-alive", "X-Accel-Buffering" := "no"]

  /** `POST`: without a user id the reply is 401 and no stream exists; a body
      that does not parse, or parses to `null` (which cannot be destructured),
      is a 500; otherwise the event-stream reply comes with a fresh writer on
      which `startStream` writes everything and which it closes. */
  method Post(
    userId: Option<string>, body: Result<Json, Thrown>,
    prefix: string, delimiter: string, stringify: Json -> string,
    stored: Option<Thrown>, submitted: Result<EventSource, Thrown>)
    returns (response: HttpResponse, w: SseWriter?)
    ensures userId.None? || userId == Some("") ==> response == PlainText(401, "Unauthorized") && w == null
    ensures userId.Some? && userId != Some("") && (body.Err? || body == Ok(JNull)) ==>
      response == JsonReply(500, JObj(map["error" := JStr("Failed to process chat request")])) && w == null
    ensures userId.Some? && userId != Some("") && body.Ok? && body != Ok(JNull) ==>
      response == EventStream(STREAM_HEADERS) && w != null && fresh(w) &&
      w.Valid() && w.closed && w.sent == StreamRun(stored, body.value, submitted) &&
      w.prefix == prefix && w.delimiter == delimiter && w.stringify == stringify
  {
    if userId.None? || userId == Some("") {
      return PlainText(401, "Unauthorized"), null;
    }
    if body.Err? || body == Ok(JNull) {
      return JsonReply(500, JObj(map["error" := JStr("Failed to process chat request")])), null;
    }
    w := new SseWriter(prefix, delimiter, stringify);
    response := EventStream(STREAM_HEADERS);
    StartStream(w, body.value, stored, submitted);
  }
}
