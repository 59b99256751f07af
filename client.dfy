/** The chat page's client side: the tool-block renderers, the normalisation
    of stored messages into the request body, and `handleSubmit`, which posts
    the request and folds every streamed message into the page state.
    The incremental SSE parser is not part of this model: each read arrives
    here already parsed into the messages it carried. */
module Client {
  import opened Values
  import opened Protocol
  import Agent

  // ---------------------------------------------------------------------------
  // Strings
  // ---------------------------------------------------------------------------

  /** The characters `String.prototype.trim` removes: ECMAScript white space and line terminators. */
  predicate IsJsSpace(c: char) {
    c == ' ' || c == '\t' || c == '\n' || c == '\r' || c == '\U{000B}' || c == '\U{000C}' ||
    c == '\U{00A0}' || c == '\U{1680}' || ('\U{2000}' <= c <= '\U{200A}') ||
    c == '\U{2028}' || c == '\U{2029}' || c == '\U{202F}' || c == '\U{205F}' ||
    c == '\U{3000}' || c == '\U{FEFF}'
  }

  function TrimStart(s: string): (r: string)
    ensures |r| <= |s| && r == s[|s| - |r|..]
    ensures forall i :: 0 <= i < |s| - |r| ==> IsJsSpace(s[i])
    ensures r != [] ==> !IsJsSpace(r[0])
  {
    if s != [] && IsJsSpace(s[0]) then
      var r := TrimStart(s[1..]);
      assert s[1..][|s| - 1 - |r|..] == s[|s| - |r|..];
      r
    else s
  }

  function TrimEnd(s: string): (r: string)
    ensures |r| <= |s| && r == s[..|r|]
    ensures forall i :: |r| <= i < |s| ==> IsJsSpace(s[i])
    ensures r != [] ==> !IsJsSpace(r[|r| - 1])
  {
    if s != [] && IsJsSpace(s[|s| - 1]) then
      var r := TrimEnd(s[..|s| - 1]);
      assert s[..|s| - 1][..|r|] == s[..|r|];
      r
    else s
  }

  /** `s.trim()`: the input without leading and trailing white space; it is
      empty exactly when the input is blank. */
  function Trim(s: string): (r: string)
    ensures r == "" <==> forall i :: 0 <= i < |s| ==> IsJsSpace(s[i])
    ensures r != "" ==> !IsJsSpace(r[0]) && !IsJsSpace(r[|r| - 1])
    ensures exists a, b ::
      && 0 <= a <= b <= |s| && r == s[a..b]
      && (forall i :: 0 <= i < a ==> IsJsSpace(s[i]))
      && (forall i :: b <= i < |s| ==> IsJsSpace(s[i]))
  {
    TrimInfix(s, TrimStart(s), TrimEnd(TrimStart(s)));
    TrimEnd(TrimStart(s))
  }

  /** Trimming both ends leaves the infix `s[a..b]` between two blank margins. */
  lemma TrimInfix(s: string, t: string, r: string)
    requires |t| <= |s| && t == s[|s| - |t|..] && forall i :: 0 <= i < |s| - |t| ==> IsJsSpace(s[i])
    requires |r| <= |t| && r == t[..|r|] && forall i :: |r| <= i < |t| ==> IsJsSpace(t[i])
    requires r != [] ==> !IsJsSpace(r[|r| - 1])
    ensures r == "" <==> forall i :: 0 <= i < |s| ==> IsJsSpace(s[i])
    ensures var a := |s| - |t|;
      && a + |r| <= |s| && r == s[a..a + |r|]
      && (forall i :: 0 <= i < a ==> IsJsSpace(s[i]))
      && (forall i :: a + |r| <= i < |s| ==> IsJsSpace(s[i]))
  {
    var a := |s| - |t|;
    assert t == s[a..];
    assert r == s[a..a + |r|] by {
      SliceOfSuffix(s, a, |r|);
    }
    forall i | a + |r| <= i < |s|
      ensures IsJsSpace(s[i])
    {
      assert s[i] == t[i - a];
    }
    if r != "" {
      assert r[|r| - 1] == s[a + |r| - 1];
    } else {
      forall i | 0 <= i < |s|
        ensures IsJsSpace(s[i])
      {
        if i >= a {
          assert s[i] == t[i - a];
        }
      }
    }
  }

  lemma SliceOfSuffix(s: string, a: nat, k: nat)
    requires a + k <= |s|
    ensures s[a..][..k] == s[a..a + k]
  {
  }

  predicate OccursAt(s: string, p: string, k: int) {
    0 <= k && k + |p| <= |s| && s[k..k + |p|] == p
  }

  /** The last occurrence of `p` starting before position `n`. */
  function LastBefore(s: string, p: string, n: nat): (r: Option<nat>)
    ensures r.Some? ==> r.value < n && OccursAt(s, p, r.value) && forall k :: r.value < k < n ==> !OccursAt(s, p, k)
    ensures r.None? ==> forall k :: 0 <= k < n ==> !OccursAt(s, p, k)
  {
    if n == 0 then None else if OccursAt(s, p, n - 1) then Some(n - 1) else LastBefore(s, p, n - 1)
  }

  /** `s.lastIndexOf(p)`, with `None` for -1. */
  function LastIndexOf(s: string, p: string): (r: Option<nat>)
    ensures r.Some? ==> OccursAt(s, p, r.value) && forall k :: r.value < k ==> !OccursAt(s, p, k)
    ensures r.None? ==> forall k :: !OccursAt(s, p, k)
  {
    LastBefore(s, p, |s| + 1)
  }

  // ---------------------------------------------------------------------------
  // Tool blocks
  // ---------------------------------------------------------------------------

  const START_LINE: string := "---START---\n"
  const END_LINE: string := "\n---END---"

  /** What `tool_end` searches for: the opening of the terminal block. */
  const TERMINAL_MARKER: string := "<div class=\"bg-[#1e1e1e]"

  /** The fixed text of a terminal block around its variable parts: what
      follows the marker up to the tool name, what comes between the tool name
      and the input, between the input and the output, and after the output. */
  datatype Markup = Markup(openRest: string, inputHead: string, outputHead: string, close: string)

  /** The page's block markup. */
  const PAGE_MARKUP: Markup := Markup(
    " text-white font-mono p-2 rounded-md my-2 overflow-x-auto whitespace-normal max-w-[600px]\">\n" +
      "      <div class=\"flex items-center gap-1.5 border-b border-gray-700 pb-1\">\n" +
      "        <span class=\"text-red-500\">\U{25CF}</span>\n" +
      "        <span class=\"text-yellow-500\">\U{25CF}</span>\n" +
      "        <span class=\"text-green-500\">\U{25CF}</span>\n" +
      "        <span class=\"text-gray-400 ml-1 text-sm\">~/",
    "</span>\n" +
      "      </div>\n" +
      "      <div class=\"text-gray-400 mt-1\">$ Input</div>\n" +
      "      <pre class=\"text-yellow-400 mt-0.5 whitespace-pre-wrap overflow-x-auto\">",
    "</pre>\n" +
      "      <div class=\"text-gray-400 mt-2\">$ Output</div>\n" +
      "      <pre class=\"text-green-400 mt-0.5 whitespace-pre-wrap overflow-x-auto\">",
    "</pre>\n    </div>")

  /** How a block is rendered: `JSON.stringify(_, null, 2)` and the markup.
      The fold is stated for any markup; the page uses `PAGE_MARKUP`. */
  datatype Render = Render(pretty: Json -> string, markup: Markup)

  /** `formatToolOutput`; `pretty` is `JSON.stringify(_, null, 2)`. */
  function FormatToolOutput(output: Json, pretty: Json -> string): (r: string)
    ensures output.JStr? ==> r == output.s
    ensures !output.JStr? ==> r == pretty(output)
  {
    if output.JStr? then output.s else pretty(output)
  }

  /** `formatTerminalOutput`: a START line, the terminal block (opening with the
      marker `tool_end` looks for) and an END line. A string input appears
      verbatim in the block; anything else is JSON-rendered. */
  function FormatTerminalOutput(tool: Json, input: Json, output: Json, render: Render): (r: string)
    ensures |r| >= |START_LINE| + |TERMINAL_MARKER| + |END_LINE|
    ensures r[..|START_LINE|] == START_LINE
    ensures r[|r| - |END_LINE|..] == END_LINE
    ensures OccursAt(r, TERMINAL_MARKER, |START_LINE|)
    ensures var at := |START_LINE| + |TERMINAL_MARKER| + |render.markup.openRest| + |JsString(tool)| + |render.markup.inputHead|;
      var rendered := if input.JStr? then input.s else render.pretty(input);
      at + |rendered| <= |r| && r[at..at + |rendered|] == rendered
  {
    var m := render.markup;
    var rendered := FormatToolOutput(input, render.pretty);
    var tail := m.outputHead + FormatToolOutput(output, render.pretty) + m.close;
    Layout(START_LINE, TERMINAL_MARKER, m.openRest, JsString(tool), m.inputHead, rendered, tail, END_LINE);
    START_LINE + (TERMINAL_MARKER + (m.openRest + (JsString(tool) + (m.inputHead + (rendered + tail))))) + END_LINE
  }

  /** Where the pieces of a block sit, whatever they hold. */
  lemma Layout(start: string, marker: string, openRest: string, tool: string, inputHead: string,
               rendered: string, tail: string, end: string)
    ensures var r := start + (marker + (openRest + (tool + (inputHead + (rendered + tail))))) + end;
      var at := |start| + |marker + openRest| + |tool| + |inputHead|;
      && |r| >= |start| + |marker| + |end|
      && r[..|start|] == start
      && r[|r| - |end|..] == end
      && OccursAt(r, marker, |start|)
      && at + |rendered| <= |r| && r[at..at + |rendered|] == rendered
  {
    var r := start + (marker + (openRest + (tool + (inputHead + (rendered + tail))))) + end;
    var at := |start| + |marker + openRest| + |tool| + |inputHead|;
    assert r[at..at + |rendered|] == rendered by {
      forall k | 0 <= k < |rendered|
        ensures r[at + k] == rendered[k]
      {
      }
    }
  }

  // ---------------------------------------------------------------------------
  // Request body
  // ---------------------------------------------------------------------------

  /** A message document as the page holds it. */
  datatype ChatMessage = ChatMessage(id: string, chatId: string, content: Json, role: string)

  /** `part.type === "text"`. */
  predicate IsTextPart(p: Json) {
    Field(p, "type") == Some(JStr("text"))
  }

  /** `find` walks past `parts[i..k]`: none of them is `null` (whose `type`
      cannot be read) or a text part. */
  predicate PassesOver(parts: seq<Json>, i: int, k: int)
    requires 0 <= i <= k <= |parts|
  {
    forall j :: i <= j < k ==> !parts[j].JNull? && !IsTextPart(parts[j])
  }

  /** `content.find(part => part.type === "text")` from position `i` on: the
      first text part, `undefined` when there is none, or the `TypeError` of
      reading `type` of a `null` met before any text part. */
  function FindTextFrom(parts: seq<Json>, i: nat): (r: Result<Option<Json>, Thrown>)
    requires i <= |parts|
    ensures r.Err? ==> r.error == JsError(TYPE_ERROR)
    ensures r.Err? <==> exists k :: i <= k < |parts| && parts[k].JNull? && PassesOver(parts, i, k)
    ensures r == Ok(None) <==> PassesOver(parts, i, |parts|)
    ensures r.Ok? && r.value.Some? ==>
      exists k :: i <= k < |parts| && IsTextPart(parts[k]) && PassesOver(parts, i, k) && r.value.value == parts[k]
    decreases |parts| - i
  {
    if i == |parts| then Ok(None)
    else if parts[i].JNull? then Err(JsError(TYPE_ERROR))
    else if IsTextPart(parts[i]) then Ok(Some(parts[i]))
    else
      var r := FindTextFrom(parts, i + 1);
      assert forall k :: i + 1 <= k <= |parts| ==> (PassesOver(parts, i, k) <==> PassesOver(parts, i + 1, k));
      r
  }

  /** The search from the start finds exactly the first text part. */
  lemma FirstTextFound(parts: seq<Json>)
    ensures forall k :: 0 <= k < |parts| && IsTextPart(parts[k]) && PassesOver(parts, 0, k) ==>
      FindTextFrom(parts, 0) == Ok(Some(parts[k]))
  {
    forall k | 0 <= k < |parts| && IsTextPart(parts[k]) && PassesOver(parts, 0, k)
      ensures FindTextFrom(parts, 0) == Ok(Some(parts[k]))
    {
      forall j | 0 <= j < |parts| && PassesOver(parts, 0, j)
        ensures !parts[j].JNull? && (IsTextPart(parts[j]) ==> j == k)
      {
        assert j <= k;
        assert j < k ==> !parts[j].JNull? && !IsTextPart(parts[j]);
      }
      assert !PassesOver(parts, 0, |parts|) by { assert IsTextPart(parts[k]); }
    }
  }

  /** `x || ""` for the `text` read off the part found. */
  function TextOrEmpty(text: Option<Json>): Json {
    if text.Some? && Truthy(text.value) then text.value else JStr("")
  }

  /** Array content becomes the truthy `text` of its first text part, or `""`
      when that is missing or falsy or there is no text part; the search
      throws when a `null` part comes before any text part. Any other content
      is kept. */
  function NormalizeContent(content: Json): (r: Result<Json, Thrown>)
    ensures !content.JArr? ==> r == Ok(content)
    ensures content.JArr? ==>
      (r.Err? <==> exists k :: 0 <= k < |content.items| && content.items[k].JNull? && PassesOver(content.items, 0, k))
    ensures r.Err? ==> r.error == JsError(TYPE_ERROR)
    ensures content.JArr? ==> forall k :: 0 <= k < |content.items| && IsTextPart(content.items[k]) && PassesOver(content.items, 0, k) ==>
      r == Ok(TextOrEmpty(Field(content.items[k], "text")))
    ensures content.JArr? && PassesOver(content.items, 0, |content.items|) ==> r == Ok(JStr(""))
  {
    match content
    case JArr(parts) =>
      FirstTextFound(parts);
      (match FindTextFrom(parts, 0)
       case Err(t) => Err(t)
       case Ok(part) =>
         Ok(TextOrEmpty(if part.Some? then Field(part.value, "text") else None)))
    case _ => Ok(content)
  }

  /** The request's `messages`: each stored message normalised and reduced to
      its role and content, in order. The mapping succeeds exactly when every
      content normalises; otherwise it throws the first failure. */
  function NormalizeAll(messages: seq<ChatMessage>): (r: Result<seq<RequestMessage>, Thrown>)
    ensures r.Ok? <==> forall i :: 0 <= i < |messages| ==> NormalizeContent(messages[i].content).Ok?
    ensures r.Err? ==> r.error == JsError(TYPE_ERROR)
    ensures r.Ok? ==> |r.value| == |messages| && forall i :: 0 <= i < |messages| ==>
      r.value[i] == RequestMessage(messages[i].role, NormalizeContent(messages[i].content).value)
  {
    if messages == [] then Ok([])
    else
      match NormalizeContent(messages[0].content)
      case Err(t) => Err(t)
      case Ok(c) =>
        match NormalizeAll(messages[1..])
        case Err(t) => Err(t)
        case Ok(rest) => Ok([RequestMessage(messages[0].role, c)] + rest)
  }

  /** String content passes unchanged; content annotated by the agent's cache
      step reads back as the text it wrapped (or `""` when that was falsy). */
  lemma NormalizeReadsCacheWrap(s: string, c: Json)
    ensures NormalizeContent(JStr(s)) == Ok(JStr(s))
    ensures NormalizeContent(Agent.CacheWrap(c)) == Ok(if Truthy(c) then c else JStr(""))
  {
    var part := Agent.CacheWrap(c).items[0];
    assert Field(part, "type") == Some(JStr("text"));
    assert FindTextFrom(Agent.CacheWrap(c).items, 0) == Ok(Some(part));
  }

  // ---------------------------------------------------------------------------
  // The per-message fold
  // ---------------------------------------------------------------------------

  /** The open tool as `setCurrentTool` records it. */
  datatype ToolInfo = ToolInfo(name: Json, input: Json)

  /** What the fold updates: the local `fullResponse`, and the page state it
      writes (`streamedResponse`, `currentTool`, `messages`), plus the replies
      handed to the message store. */
  datatype View = View(full: string, streamed: string, tool: Option<ToolInfo>, messages: seq<ChatMessage>, stored: seq<string>)

  /** What the fold reads but never changes. `captured` is the `currentTool`
      the running `handleSubmit` closed over: the state at the moment of
      submission, not the value `tool_start` later sets. */
  datatype Ctx = Ctx(chatId: string, captured: Option<ToolInfo>, assistantId: string, storeFailure: Option<Thrown>, render: Render)

  /** After a message: go on, leave the per-chunk callback (`return`), or throw. */
  datatype Flow = Go(v: View) | Return(v: View) | Throw(v: View, error: Thrown)

  /** The handling of one parsed message (the `switch` of the callback):
      messages without a truthy `type`, and types it does not know, change nothing. */
  function Step(ctx: Ctx, v: View, message: Json): (r: Flow)
    ensures r.Throw? ==> r.v == v
    ensures !r.Return? ==> r.v.messages == v.messages && r.v.stored == v.stored
    ensures r.Return? ==> |r.v.messages| == |v.messages| + 1 && r.v.messages[..|v.messages|] == v.messages
  {
    var ty := Field(message, "type");
    if !Truthy(message) || ty.None? || !Truthy(ty.value) then Go(v)
    else if ty.value == JStr(TOKEN) then TokenStep(v, message)
    else if ty.value == JStr(TOOL_START) then ToolStartStep(ctx, v, message)
    else if ty.value == JStr(TOOL_END) then ToolEndStep(ctx, v, message)
    else if ty.value == JStr(ERROR) then ErrorStep(v, message)
    else if ty.value == JStr(DONE) then DoneStep(ctx, v)
    else Go(v)
  }

  /** `token`: a string token is appended to the response. */
  function TokenStep(v: View, message: Json): (r: Flow)
    ensures r.Go? && r.v.messages == v.messages && r.v.stored == v.stored && r.v.tool == v.tool
    ensures v.full <= r.v.full
  {
    var token := Field(message, "token");
    if token.Some? && token.value.JStr? then
      var full := v.full + token.value.s;
      Go(v.(full := full, streamed := full))
    else Go(v)
  }

  /** `tool_start`: a block with output "Processing..." is appended and the tool recorded. */
  function ToolStartStep(ctx: Ctx, v: View, message: Json): (r: Flow)
    ensures r.Go? && r.v.messages == v.messages && r.v.stored == v.stored
    ensures v.full <= r.v.full
    ensures r.v != v ==> r.v.tool.Some? && r.v.streamed == r.v.full
  {
    if Has(message, "tool") && Has(message, "input") then
      var tool := message.fields["tool"];
      var input := message.fields["input"];
      var full := v.full + FormatTerminalOutput(tool, input, JStr("Processing..."), ctx.render);
      Go(v.(tool := Some(ToolInfo(tool, input)), full := full, streamed := full))
    else Go(v)
  }

  /** `tool_end`: everything from the last terminal block on is replaced by a
      block with the tool's output (and the captured tool's input); the
      `---START---` line written before that block stays. */
  function ToolEndStep(ctx: Ctx, v: View, message: Json): (r: Flow)
    ensures r.Go? && r.v.messages == v.messages && r.v.stored == v.stored
    ensures r.v == v || r.v.tool.None?
    ensures ctx.captured.None? ==> r.v == v
  {
    if Has(message, "tool") && Has(message, "output") && ctx.captured.Some? then
      match LastIndexOf(v.full, TERMINAL_MARKER)
      case Some(k) =>
        var full := v.full[..k] +
          FormatTerminalOutput(message.fields["tool"], ctx.captured.value.input, message.fields["output"], ctx.render);
        Go(v.(full := full, streamed := full, tool := None))
      case None => Go(v.(tool := None))
    else Go(v)
  }

  /** `error`: throws an `Error` carrying the server's text. */
  function ErrorStep(v: View, message: Json): (r: Flow)
    ensures r.v == v
    ensures r.Throw? <==> Has(message, "error")
  {
    if Has(message, "error") then Throw(v, JsError(JsString(message.fields["error"]))) else Go(v)
  }

  /** `done`: the response is stored, appended as the assistant's message, and the stream area cleared. */
  function DoneStep(ctx: Ctx, v: View): (r: Flow)
    ensures r.Return? <==> ctx.storeFailure.None?
    ensures r.Throw? ==> r.v == v
    ensures r.Return? ==>
      && |r.v.messages| == |v.messages| + 1 && r.v.messages[..|v.messages|] == v.messages
      && r.v.messages[|v.messages|].content == JStr(v.full) && r.v.messages[|v.messages|].role == "assistant"
      && r.v.stored == v.stored + [v.full] && r.v.streamed == ""
      && r.v.messages[|v.messages|].chatId == ctx.chatId
    ensures r.v.full == v.full && r.v.tool == v.tool
  {
    if ctx.storeFailure.Some? then Throw(v, ctx.storeFailure.value)
    else
      var reply := ChatMessage(ctx.assistantId, ctx.chatId, JStr(v.full), "assistant");
      Return(v.(stored := v.stored + [v.full], messages := v.messages + [reply], streamed := ""))
  }

  /** The per-chunk callback over the messages one chunk parsed into. */
  function Batch(ctx: Ctx, v: View, messages: seq<Json>): (r: Flow)
    ensures r.Go? ==> r.v.messages == v.messages && r.v.stored == v.stored
    decreases |messages|
  {
    if messages == [] then Go(v)
    else
      var r := Step(ctx, v, messages[0]);
      if r.Go? then Batch(ctx, r.v, messages[1..]) else r
  }

  /** One `reader.read()`: a chunk (already parsed), a read without a value,
      or a failed read. The stream ends after the last one. */
  datatype Read = Chunk(messages: seq<Json>) | NoValue | ReadFailure(error: Thrown)

  /** `processStream`: every read in order; a `return` from the callback ends
      only that chunk, a throw ends the loop. */
  function Drain(ctx: Ctx, v: View, results: seq<Read>): (r: Flow)
    ensures !r.Return?
    decreases |results|
  {
    if results == [] then Go(v)
    else
      match results[0]
      case NoValue => Drain(ctx, v, results[1..])
      case ReadFailure(t) => Throw(v, t)
      case Chunk(ms) =>
        var r := Batch(ctx, v, ms);
        if r.Throw? then r else Drain(ctx, r.v, results[1..])
  }

  // ---------------------------------------------------------------------------
  // handleSubmit
  // ---------------------------------------------------------------------------

  /** The page state. */
  datatype UiState = UiState(
    messages: seq<ChatMessage>, input: string, isLoading: bool,
    streamed: string, tool: Option<ToolInfo>, stored: seq<string>)

  /** How the server answered the POST: the fetch threw, or a response with its
      status, status text and body (`None` when it has none). */
  datatype Reply = FetchFailed(error: Thrown) | Response(ok: bool, statusText: string, body: Option<seq<Read>>)

  /** What one submission meets from outside: the ids `Date.now()` yields for
      the optimistic and the assistant message, the server's reply, and
      whether storing a reply throws. */
  datatype Env = Env(tempId: string, assistantId: string, reply: Reply, storeFailure: Option<Thrown>)

  /** The request and the stream, once the body is built. */
  function Exchange(ctx: Ctx, v: View, reply: Reply): (r: Flow)
    ensures !r.Return?
    ensures !(reply.Response? && reply.ok && reply.body.Some?) ==> r.Throw? && r.v == v
  {
    match reply
    case FetchFailed(t) => Throw(v, t)
    case Response(ok, statusText, body) =>
      if !ok then Throw(v, JsError("Error del servidor: " + statusText))
      else if body.None? then Throw(v, JsError("No hay cuerpo de respuesta disponible"))
      else Drain(ctx, v, body.value)
  }

  /** The optimistic user message of a submission. */
  function Optimistic(s: UiState, chatId: string, env: Env): (m: ChatMessage)
    ensures m.id == env.tempId && m.chatId == chatId && m.role == "user" && m.content.JStr?
  {
    ChatMessage(env.tempId, chatId, JStr(Trim(s.input)), "user")
  }

  /** The fold of a submission that passed the guard: it starts from the reset
      state with the optimistic message appended. */
  function SubmitFlow(s: UiState, chatId: string, render: Render, env: Env): (r: Flow)
    ensures !r.Return?
    ensures NormalizeAll(s.messages).Err? ==>
      r == Throw(View("", "", None, s.messages + [Optimistic(s, chatId, env)], s.stored), JsError(TYPE_ERROR))
    ensures NormalizeAll(s.messages).Ok? ==>
      r == Exchange(Ctx(chatId, s.tool, env.assistantId, env.storeFailure, render),
                    View("", "", None, s.messages + [Optimistic(s, chatId, env)], s.stored), env.reply)
  {
    var v0 := View("", "", None, s.messages + [Optimistic(s, chatId, env)], s.stored);
    var ctx := Ctx(chatId, s.tool, env.assistantId, env.storeFailure, render);
    var prompt := NormalizeAll(s.messages);
    if prompt.Err? then Throw(v0, prompt.error) else Exchange(ctx, v0, env.reply)
  }

  /** `filter(msg => msg._id !== id)`. */
  function Remove(messages: seq<ChatMessage>, id: string): (r: seq<ChatMessage>)
    ensures |r| <= |messages|
    ensures forall i :: 0 <= i < |r| ==> r[i].id != id
  {
    if messages == [] then [] else (if messages[0].id == id then [] else [messages[0]]) + Remove(messages[1..], id)
  }

  /** The streaming area after a failure. */
  function ErrorBlock(t: Thrown, render: Render): (r: string)
    ensures t.JsError? ==>
      r == FormatTerminalOutput(JStr("error"), JStr("Failed to process message"), JStr(t.message), render)
    ensures t.NonError? ==>
      r == FormatTerminalOutput(JStr("error"), JStr("Failed to process message"), JStr("Unknown error"), render)
  {
    FormatTerminalOutput(JStr("error"), JStr("Failed to process message"), JStr(ErrorText(t, "Unknown error")), render)
  }

  /** The `catch` and `finally` blocks. */
  function Settle(outcome: Flow, tempId: string, render: Render): (u: UiState)
    ensures u.input == "" && !u.isLoading
    ensures u.tool == outcome.v.tool && u.stored == outcome.v.stored
    ensures outcome.Throw? ==> u.messages == Remove(outcome.v.messages, tempId)
    ensures !outcome.Throw? ==> u.messages == outcome.v.messages && u.streamed == outcome.v.streamed
  {
    match outcome
    case Throw(v, t) => UiState(Remove(v.messages, tempId), "", false, ErrorBlock(t, render), v.tool, v.stored)
    case _ => UiState(outcome.v.messages, "", false, outcome.v.streamed, outcome.v.tool, outcome.v.stored)
  }

  /** `handleSubmit`: the new page state, and the request body it posted (if it got that far). */
  function Submit(s: UiState, chatId: string, render: Render, env: Env): (r: (UiState, Option<ChatRequestBody>))
    ensures r.0 == s || (r.0.input == "" && !r.0.isLoading)
    ensures r.1.Some? ==> r.1.value.newMessage == Trim(s.input) != "" && r.1.value.chatId == chatId
    ensures r.1.Some? <==>
      && Trim(s.input) != "" && !s.isLoading
      && forall i :: 0 <= i < |s.messages| ==> NormalizeContent(s.messages[i].content).Ok?
    ensures r.1.Some? ==> |r.1.value.messages| == |s.messages| && forall i :: 0 <= i < |s.messages| ==>
      r.1.value.messages[i] == RequestMessage(s.messages[i].role, NormalizeContent(s.messages[i].content).value)
  {
    var trimmed := Trim(s.input);
    if trimmed == "" || s.isLoading then (s, None)
    else
      var prompt := NormalizeAll(s.messages);
      (Settle(SubmitFlow(s, chatId, render, env), env.tempId, render),
       if prompt.Ok? then Some(ChatRequestBody(prompt.value, trimmed, chatId)) else None)
  }

  // ---------------------------------------------------------------------------
  // Properties of the fold and of a submission
  // ---------------------------------------------------------------------------

  /** Blank or busy: nothing changes and nothing is sent. Otherwise the
      submission always ends with the input cleared and loading off. */
  lemma SubmitGuard(s: UiState, chatId: string, render: Render, env: Env)
    ensures (s.isLoading || forall i :: 0 <= i < |s.input| ==> IsJsSpace(s.input[i])) ==>
      Submit(s, chatId, render, env) == (s, None)
    ensures !s.isLoading && (exists i :: 0 <= i < |s.input| && !IsJsSpace(s.input[i])) ==>
      var r := Submit(s, chatId, render, env).0;
      r.input == "" && !r.isLoading && r.stored == SubmitFlow(s, chatId, render, env).v.stored
  {
  }

  /** `after` is `before` followed only by assistant replies of this submission. */
  predicate RepliesAppended(before: seq<ChatMessage>, after: seq<ChatMessage>, ctx: Ctx) {
    |before| <= |after| && after[..|before|] == before &&
    forall i :: |before| <= i < |after| ==>
      after[i].id == ctx.assistantId && after[i].chatId == ctx.chatId && after[i].role == "assistant"
  }

  lemma RepliesAppendedTrans(a: seq<ChatMessage>, b: seq<ChatMessage>, c: seq<ChatMessage>, ctx: Ctx)
    requires RepliesAppended(a, b, ctx) && RepliesAppended(b, c, ctx)
    ensures RepliesAppended(a, c, ctx)
  {
    assert c[..|a|] == c[..|b|][..|a|];
  }

  /** One message adds at most the assistant's reply to the history. */
  lemma StepHistory(ctx: Ctx, v: View, message: Json)
    ensures RepliesAppended(v.messages, Step(ctx, v, message).v.messages, ctx)
  {
    var w := Step(ctx, v, message).v;
    if w.messages != v.messages {
      assert w.messages == v.messages + [ChatMessage(ctx.assistantId, ctx.chatId, JStr(v.full), "assistant")];
      assert w.messages[..|v.messages|] == v.messages;
    }
  }

  lemma {:induction false} BatchHistory(ctx: Ctx, v: View, messages: seq<Json>)
    ensures RepliesAppended(v.messages, Batch(ctx, v, messages).v.messages, ctx)
    decreases |messages|
  {
    if messages != [] {
      var r := Step(ctx, v, messages[0]);
      StepHistory(ctx, v, messages[0]);
      if r.Go? {
        BatchHistory(ctx, r.v, messages[1..]);
        RepliesAppendedTrans(v.messages, r.v.messages, Batch(ctx, r.v, messages[1..]).v.messages, ctx);
      }
    }
  }

  /** However the stream goes, the history before it is kept and only the
      assistant's replies are added after it; the loop never ends by `return`. */
  lemma {:induction false} DrainHistory(ctx: Ctx, v: View, results: seq<Read>)
    ensures RepliesAppended(v.messages, Drain(ctx, v, results).v.messages, ctx)
    ensures !Drain(ctx, v, results).Return?
    decreases |results|
  {
    if results != [] {
      match results[0]
      case NoValue => DrainHistory(ctx, v, results[1..]);
      case ReadFailure(_) =>
      case Chunk(ms) =>
        var r := Batch(ctx, v, ms);
        BatchHistory(ctx, v, ms);
        if !r.Throw? {
          DrainHistory(ctx, r.v, results[1..]);
          RepliesAppendedTrans(v.messages, r.v.messages, Drain(ctx, r.v, results[1..]).v.messages, ctx);
        }
    }
  }

  /** A message that returns ends its chunk: the messages after it in the
      same chunk are dropped. */
  lemma ReturnDropsRestOfChunk(ctx: Ctx, v: View, m: Json, rest: seq<Json>)
    requires Step(ctx, v, m).Return?
    ensures Batch(ctx, v, [m] + rest) == Step(ctx, v, m)
  {
  }

  /** A `return` leaves only the callback: the read loop goes on with the
      next read from the state the chunk left. */
  lemma ReturnKeepsReading(ctx: Ctx, v: View, ms: seq<Json>, rest: seq<Read>)
    requires Batch(ctx, v, ms).Return?
    ensures Drain(ctx, v, [Chunk(ms)] + rest) == Drain(ctx, Batch(ctx, v, ms).v, rest)
  {
  }

  /** Two `done` messages in two reads, as the server sends when a model end
      is followed by the backup `done`: since `done` does not reset the
      response, the same text is stored twice and a second reply with the
      same content is appended. */
  lemma TwoDonesTwoReplies(ctx: Ctx, v: View)
    requires ctx.storeFailure.None?
    ensures var r := Drain(ctx, v, [Chunk([ToWire(Done)]), Chunk([ToWire(Done)])]);
      && r.Go?
      && r.v.stored == v.stored + [v.full, v.full]
      && r.v.full == v.full
      && |r.v.messages| == |v.messages| + 2 && r.v.messages[..|v.messages|] == v.messages
      && r.v.messages[|v.messages|] == r.v.messages[|v.messages| + 1]
      && r.v.messages[|v.messages|].content == JStr(v.full)
  {
    var d := ToWire(Done);
    assert Field(d, "type") == Some(JStr(DONE));
    var w1 := Step(ctx, v, d).v;
    assert Batch(ctx, v, [d]) == Step(ctx, v, d);
    ReturnKeepsReading(ctx, v, [d], [Chunk([d])]);
    var w2 := Step(ctx, w1, d).v;
    assert Batch(ctx, w1, [d]) == Step(ctx, w1, d);
    ReturnKeepsReading(ctx, w1, [d], []);
    assert w2.messages[..|v.messages|] == w1.messages[..|w1.messages| - 1][..|v.messages|];
  }

  lemma {:induction false} RemoveAppend(a: seq<ChatMessage>, b: seq<ChatMessage>, id: string)
    ensures Remove(a + b, id) == Remove(a, id) + Remove(b, id)
  {
    if a != [] {
      var head := if a[0].id == id then [] else [a[0]];
      assert (a + b)[0] == a[0];
      assert (a + b)[1..] == a[1..] + b;
      RemoveAppend(a[1..], b, id);
      calc {
        Remove(a + b, id);
        head + Remove(a[1..] + b, id);
        head + (Remove(a[1..], id) + Remove(b, id));
        (head + Remove(a[1..], id)) + Remove(b, id);
        Remove(a, id) + Remove(b, id);
      }
    } else {
      assert a + b == b;
    }
  }

  lemma {:induction false} RemoveAbsent(a: seq<ChatMessage>, id: string)
    requires forall i :: 0 <= i < |a| ==> a[i].id != id
    ensures Remove(a, id) == a
  {
    if a != [] {
      RemoveAbsent(a[1..], id);
    }
  }

  /** The fold of a submission starts from the history with the optimistic
      message appended and only adds the assistant's replies to it. */
  lemma FlowHistory(s: UiState, chatId: string, render: Render, env: Env)
    ensures var ctx := Ctx(chatId, s.tool, env.assistantId, env.storeFailure, render);
      RepliesAppended(s.messages + [Optimistic(s, chatId, env)], SubmitFlow(s, chatId, render, env).v.messages, ctx)
  {
    var ctx := Ctx(chatId, s.tool, env.assistantId, env.storeFailure, render);
    var v0 := View("", "", None, s.messages + [Optimistic(s, chatId, env)], s.stored);
    ExchangeHistory(ctx, v0, env.reply);
  }

  /** The request and the stream add at most the assistant's replies. */
  lemma ExchangeHistory(ctx: Ctx, v: View, reply: Reply)
    ensures RepliesAppended(v.messages, Exchange(ctx, v, reply).v.messages, ctx)
  {
    if reply.Response? && reply.ok && reply.body.Some? {
      DrainHistory(ctx, v, reply.body.value);
    }
  }

  /** Past the guard, the new state is the settled outcome of the fold:
      a failure withdraws the optimistic message and shows the error block. */
  lemma SubmitSettles(s: UiState, chatId: string, render: Render, env: Env)
    requires Trim(s.input) != "" && !s.isLoading
    ensures var outcome := SubmitFlow(s, chatId, render, env);
      var r := Submit(s, chatId, render, env).0;
      && r.messages == (if outcome.Throw? then Remove(outcome.v.messages, env.tempId) else outcome.v.messages)
      && r.streamed == (if outcome.Throw? then ErrorBlock(outcome.error, render) else outcome.v.streamed)
      && r.tool == outcome.v.tool && r.stored == outcome.v.stored
  {
    assert Submit(s, chatId, render, env).0 == Settle(SubmitFlow(s, chatId, render, env), env.tempId, render);
  }

  /** Whenever a request is posted, the optimistic message shows exactly the
      text posted as `newMessage`: the trimmed input. */
  lemma OptimisticMatchesRequest(s: UiState, chatId: string, render: Render, env: Env)
    ensures Submit(s, chatId, render, env).1.Some? ==>
      Optimistic(s, chatId, env).content == JStr(Submit(s, chatId, render, env).1.value.newMessage)
  {
  }

  /** After the fold the history is the old one, the optimistic message, then
      the assistant's replies (`FlowHistory`). Removing by the optimistic
      message's id, as a failure does (`SubmitSettles`), takes out that
      message and nothing else, provided no other message shares its id. */
  lemma SubmitHistory(prior: seq<ChatMessage>, optimistic: ChatMessage, after: seq<ChatMessage>, ctx: Ctx)
    requires RepliesAppended(prior + [optimistic], after, ctx)
    requires forall i :: 0 <= i < |prior| ==> prior[i].id != optimistic.id
    requires optimistic.id != ctx.assistantId
    ensures |prior| < |after| && after[|prior|] == optimistic
    ensures Remove(after, optimistic.id) == prior + after[|prior| + 1..]
  {
    var head := prior + [optimistic];
    assert after == head + after[|head|..];
    assert after[|prior|] == head[|prior|];
    Rollback(prior, optimistic, after[|head|..], optimistic.id);
  }

  /** Removing the optimistic message by its id leaves every other message, in order. */
  lemma Rollback(prior: seq<ChatMessage>, optimistic: ChatMessage, added: seq<ChatMessage>, id: string)
    requires optimistic.id == id
    requires forall i :: 0 <= i < |prior| ==> prior[i].id != id
    requires forall i :: 0 <= i < |added| ==> added[i].id != id
    ensures Remove(prior + [optimistic] + added, id) == prior + added
  {
    calc {
      Remove(prior + [optimistic] + added, id);
      { RemoveAppend(prior + [optimistic], added, id); }
      Remove(prior + [optimistic], id) + Remove(added, id);
      { RemoveAppend(prior, [optimistic], id); }
      Remove(prior, id) + Remove([optimistic], id) + Remove(added, id);
      { assert Remove([optimistic], id) == []; }
      Remove(prior, id) + Remove(added, id);
      { RemoveAbsent(prior, id); RemoveAbsent(added, id); }
      prior + added;
    }
  }

  /** The server answers with an error status: the optimistic message is
      withdrawn and the stream area shows the status text. */
  lemma ServerErrorShown(s: UiState, chatId: string, render: Render, env: Env, statusText: string, body: Option<seq<Read>>)
    requires Trim(s.input) != "" && !s.isLoading
    requires forall i :: 0 <= i < |s.messages| ==> s.messages[i].id != env.tempId
    requires env.reply == Response(false, statusText, body)
    requires NormalizeAll(s.messages).Ok?
    ensures var r := Submit(s, chatId, render, env).0;
      && r.messages == s.messages
      && r.streamed == ErrorBlock(JsError("Error del servidor: " + statusText), render)
      && r.tool == None && r.stored == s.stored
  {
    RemoveAppend(s.messages, [Optimistic(s, chatId, env)], env.tempId);
    RemoveAbsent(s.messages, env.tempId);
  }

  /** The token messages a run of text chunks is streamed as. */
  function TokenMessages(tokens: seq<string>): (r: seq<Json>)
    ensures |r| == |tokens|
    ensures forall i :: 0 <= i < |tokens| ==> r[i] == ToWire(Token(JStr(tokens[i])))
  {
    if tokens == [] then [] else [ToWire(Token(JStr(tokens[0])))] + TokenMessages(tokens[1..])
  }

  function Concat(tokens: seq<string>): string {
    if tokens == [] then "" else tokens[0] + Concat(tokens[1..])
  }

  /** One string token message extends the response and what is shown. */
  lemma TokenStepAppends(ctx: Ctx, v: View, t: string)
    ensures Step(ctx, v, ToWire(Token(JStr(t)))) == Go(v.(full := v.full + t, streamed := v.full + t))
  {
  }

  /** A chunk that starts with a string token hands the rest of the chunk the
      extended response. */
  lemma TokenBatch(ctx: Ctx, v: View, t: string, rest: seq<Json>)
    ensures Batch(ctx, v, [ToWire(Token(JStr(t)))] + rest) ==
      Batch(ctx, v.(full := v.full + t, streamed := v.full + t), rest)
  {
    TokenStepAppends(ctx, v, t);
    assert ([ToWire(Token(JStr(t)))] + rest)[1..] == rest;
  }

  /** Tokens accumulate: after a chunk of token messages the response (and
      what is shown) is the old response followed by the tokens in order. */
  lemma {:induction false} TokensAccumulate(ctx: Ctx, v: View, tokens: seq<string>)
    requires tokens != []
    decreases |tokens|
    ensures Batch(ctx, v, TokenMessages(tokens)) ==
      Go(v.(full := v.full + Concat(tokens), streamed := v.full + Concat(tokens)))
  {
    var w := v.(full := v.full + tokens[0], streamed := v.full + tokens[0]);
    TokenBatch(ctx, v, tokens[0], TokenMessages(tokens[1..]));
    if |tokens| > 1 {
      TokensAccumulate(ctx, w, tokens[1..]);
      var full := v.full + Concat(tokens);
      assert w.full + Concat(tokens[1..]) == full;
      assert w.(full := full, streamed := full) == v.(full := full, streamed := full);
    } else {
      assert TokenMessages(tokens[1..]) == [];
      assert Concat(tokens) == tokens[0] + "";
    }
  }

  /** How each server message lands on the client. A `tool_start` whose input
      was `undefined` (and so dropped by `JSON.stringify`) is ignored. */
  lemma ServerMessagesOnClient(ctx: Ctx, v: View, m: StreamMessage)
    ensures m.Connected? ==> Step(ctx, v, ToWire(m)) == Go(v)
    ensures m.Token? && m.token.JStr? ==>
      Step(ctx, v, ToWire(m)) == Go(v.(full := v.full + m.token.s, streamed := v.full + m.token.s))
    ensures m.Token? && !m.token.JStr? ==> Step(ctx, v, ToWire(m)) == Go(v)
    ensures m.ToolStart? && m.input.Some? ==>
      var full := v.full + FormatTerminalOutput(JStr(m.tool), m.input.value, JStr("Processing..."), ctx.render);
      Step(ctx, v, ToWire(m)) == Go(v.(tool := Some(ToolInfo(JStr(m.tool), m.input.value)), full := full, streamed := full))
    ensures m.ToolStart? && m.input.None? ==> Step(ctx, v, ToWire(m)) == Go(v)
    ensures m.ToolEnd? && (m.output.None? || ctx.captured.None?) ==> Step(ctx, v, ToWire(m)) == Go(v)
    ensures m.Error? ==> Step(ctx, v, ToWire(m)) == Throw(v, JsError(m.error))
    ensures m.Done? ==> (Step(ctx, v, ToWire(m)).Return? <==> ctx.storeFailure.None?)
  {
    var w := ToWire(m);
    match m
    case Connected =>
      assert Field(w, "type") == Some(JStr(CONNECTED));
    case Token(t) =>
      assert Field(w, "type") == Some(JStr(TOKEN)) && Field(w, "token") == Some(t);
    case ToolStart(tool, input) =>
      assert Field(w, "type") == Some(JStr(TOOL_START)) && Has(w, "tool") && w.fields["tool"] == JStr(tool);
      assert Has(w, "input") <==> input.Some?;
    case ToolEnd(tool, output) =>
      assert Field(w, "type") == Some(JStr(TOOL_END));
      assert Has(w, "output") <==> output.Some?;
    case Error(e) =>
      assert Field(w, "type") == Some(JStr(ERROR)) && w.fields["error"] == JStr(e);
    case Done =>
      assert Field(w, "type") == Some(JStr(DONE));
  }

  /** `tool_end` replaces from the last terminal marker, which sits after the
      `---START---` line of the block it replaces: that line stays and the
      new block brings its own, so the response holds two START lines in a row. */
  lemma ToolEndKeepsOldStartLine(ctx: Ctx, v: View, prefix: string, tool: Json, input: Json, output: Json)
    requires ctx.captured.Some?
    requires v.full == prefix + FormatTerminalOutput(tool, input, JStr("Processing..."), ctx.render)
    requires LastIndexOf(v.full, TERMINAL_MARKER) == Some(|prefix| + |START_LINE|)
    ensures var m := ToWire(ToolEnd(JsString(tool), Some(output)));
      var r := Step(ctx, v, m);
      && r.Go? && r.v.tool == None
      && r.v.full == prefix + START_LINE +
           FormatTerminalOutput(JStr(JsString(tool)), ctx.captured.value.input, output, ctx.render)
      && r.v.full[|prefix|..|prefix| + 2 * |START_LINE|] == START_LINE + START_LINE
  {
    ToolEndReplacesFromMarker(ctx, v, JsString(tool), output);
    StartLineTwice(prefix,
      FormatTerminalOutput(tool, input, JStr("Processing..."), ctx.render),
      FormatTerminalOutput(JStr(JsString(tool)), ctx.captured.value.input, output, ctx.render));
  }

  /** Cutting a block just after its START line and appending another block
      leaves two START lines in a row. */
  lemma StartLineTwice(prefix: string, before: string, after: string)
    requires |START_LINE| <= |before| && before[..|START_LINE|] == START_LINE
    requires |START_LINE| <= |after| && after[..|START_LINE|] == START_LINE
    ensures (prefix + before)[..|prefix| + |START_LINE|] + after == prefix + START_LINE + after
    ensures (prefix + START_LINE + after)[|prefix|..|prefix| + 2 * |START_LINE|] == START_LINE + START_LINE
  {
    TakeThrough(prefix, before, |START_LINE|);
    Window(prefix, START_LINE, after, |START_LINE|);
  }

  /** `tool_end` with a tool open at submission: the tool is closed, and
      everything from the last terminal marker on becomes a block with the
      server's output and the captured tool's input; with no marker the text
      stays as it is. */
  lemma ToolEndReplacesFromMarker(ctx: Ctx, v: View, tool: string, output: Json)
    requires ctx.captured.Some?
    ensures var r := Step(ctx, v, ToWire(ToolEnd(tool, Some(output))));
      && r.Go? && r.v.tool == None && r.v.messages == v.messages && r.v.stored == v.stored
      && (LastIndexOf(v.full, TERMINAL_MARKER).Some? ==>
            var k := LastIndexOf(v.full, TERMINAL_MARKER).value;
            r.v.full == v.full[..k] + FormatTerminalOutput(JStr(tool), ctx.captured.value.input, output, ctx.render) &&
            r.v.streamed == r.v.full)
      && (LastIndexOf(v.full, TERMINAL_MARKER).None? ==> r.v.full == v.full && r.v.streamed == v.streamed)
  {
    var m := ToWire(ToolEnd(tool, Some(output)));
    assert Field(m, "type") == Some(JStr(TOOL_END)) && Has(m, "tool") && Has(m, "output");
    assert m.fields["tool"] == JStr(tool) && m.fields["output"] == output;
    assert Step(ctx, v, m) == ToolEndStep(ctx, v, m);
  }

  lemma TakeThrough(a: string, b: string, k: nat)
    requires k <= |b|
    ensures (a + b)[..|a| + k] == a + b[..k]
  {
  }

  lemma Window(a: string, b: string, c: string, k: nat)
    requires k <= |c|
    ensures (a + b + c)[|a|..|a| + |b| + k] == b + c[..k]
  {
  }

  /** The tool the closure captured is the one current at submission. When
      none was open then, a `tool_end` in the same submission is ignored:
      the "Processing..." block stays and the tool stays recorded as open. */
  lemma StaleCaptureIgnoresToolEnd(ctx: Ctx, v: View, tool: string, input: Json, output: Json)
    requires ctx.captured.None?
    ensures var ms := [ToWire(ToolStart(tool, Some(input))), ToWire(ToolEnd(tool, Some(output)))];
      var full := v.full + FormatTerminalOutput(JStr(tool), input, JStr("Processing..."), ctx.render);
      Batch(ctx, v, ms) == Go(v.(tool := Some(ToolInfo(JStr(tool), input)), full := full, streamed := full))
  {
    var ms := [ToWire(ToolStart(tool, Some(input))), ToWire(ToolEnd(tool, Some(output)))];
    var full := v.full + FormatTerminalOutput(JStr(tool), input, JStr("Processing..."), ctx.render);
    var w := v.(tool := Some(ToolInfo(JStr(tool), input)), full := full, streamed := full);
    assert Step(ctx, v, ms[0]) == Go(w) by {
      ServerMessagesOnClient(ctx, v, ToolStart(tool, Some(input)));
    }
    assert Step(ctx, w, ms[1]) == Go(w) by {
      ServerMessagesOnClient(ctx, w, ToolEnd(tool, Some(output)));
    }
    assert ms[1..][0] == ms[1] && ms[1..][1..] == [];
    assert Batch(ctx, w, ms[1..]) == Go(w);
  }

  /** How `HandleFrame` left the callback. */
  datatype Signal = Continue | Returned | Threw(error: Thrown)

  function FlowOf(v: View, signal: Signal): Flow {
    match signal
    case Continue => Go(v)
    case Returned => Return(v)
    case Threw(t) => Throw(v, t)
  }

  /** The chat page component, its React state held in fields. */
  class ChatInterface {
    const chatId: string
    const render: Render
    var messages: seq<ChatMessage>
    var input: string
    var isLoading: bool
    var streamedResponse: string
    var currentTool: Option<ToolInfo>
    var storedReplies: seq<string>

    constructor (chatId: string, initialMessages: seq<ChatMessage>, pretty: Json -> string)
      ensures this.chatId == chatId && render == Render(pretty, PAGE_MARKUP)
      ensures State() == UiState(initialMessages, "", false, "", None, [])
    {
      this.chatId := chatId;
      render := Render(pretty, PAGE_MARKUP);
      messages := initialMessages;
      input := "";
      isLoading := false;
      streamedResponse := "";
      currentTool := None;
      storedReplies := [];
    }

    ghost function State(): UiState
      reads this
    {
      UiState(messages, input, isLoading, streamedResponse, currentTool, storedReplies)
    }

    ghost function ViewOf(full: string): View
      reads this
    {
      View(full, streamedResponse, currentTool, messages, storedReplies)
    }

    /** The input's `onChange`. */
    method OnInputChange(value: string)
      modifies this
      ensures State() == old(State()).(input := value)
    {
      input := value;
    }

    /** The callback's `switch` on one message. */
    method HandleFrame(ctx: Ctx, message: Json, full: string) returns (full': string, signal: Signal)
      modifies this
      ensures input == old(input) && isLoading == old(isLoading)
      ensures FlowOf(ViewOf(full'), signal) == Step(ctx, old(ViewOf(full)), message)
    {
      full', signal := full, Continue;
      var ty := Field(message, "type");
      if !Truthy(message) || ty.None? || !Truthy(ty.value) {
        return;
      }
      if ty.value == JStr(TOKEN) {
        full' := HandleToken(message, full');
      } else if ty.value == JStr(TOOL_START) {
        full' := HandleToolStart(ctx, message, full');
      } else if ty.value == JStr(TOOL_END) {
        full' := HandleToolEnd(ctx, message, full');
      } else if ty.value == JStr(ERROR) {
        if Has(message, "error") {
          signal := Threw(JsError(JsString(message.fields["error"])));
        }
      } else if ty.value == JStr(DONE) {
        signal := HandleDone(ctx, full');
      }
    }

    method HandleToken(message: Json, full: string) returns (full': string)
      modifies this
      ensures input == old(input) && isLoading == old(isLoading)
      ensures Go(ViewOf(full')) == TokenStep(old(ViewOf(full)), message)
    {
      full' := full;
      var token := Field(message, "token");
      if token.Some? && token.value.JStr? {
        full' := full' + token.value.s;
        streamedResponse := full';
      }
    }

    method HandleToolStart(ctx: Ctx, message: Json, full: string) returns (full': string)
      modifies this
      ensures input == old(input) && isLoading == old(isLoading)
      ensures Go(ViewOf(full')) == ToolStartStep(ctx, old(ViewOf(full)), message)
    {
      full' := full;
      if Has(message, "tool") && Has(message, "input") {
        currentTool := Some(ToolInfo(message.fields["tool"], message.fields["input"]));
        full' := full' + FormatTerminalOutput(message.fields["tool"], message.fields["input"], JStr("Processing..."), ctx.render);
        streamedResponse := full';
      }
    }

    method HandleToolEnd(ctx: Ctx, message: Json, full: string) returns (full': string)
      modifies this
      ensures input == old(input) && isLoading == old(isLoading)
      ensures Go(ViewOf(full')) == ToolEndStep(ctx, old(ViewOf(full)), message)
    {
      full' := full;
      if Has(message, "tool") && Has(message, "output") && ctx.captured.Some? {
        var lastTerminalIndex := LastIndexOf(full', TERMINAL_MARKER);
        if lastTerminalIndex.Some? {
          full' := full'[..lastTerminalIndex.value] +
            FormatTerminalOutput(message.fields["tool"], ctx.captured.value.input, message.fields["output"], ctx.render);
          streamedResponse := full';
        }
        currentTool := None;
      }
    }

    method HandleDone(ctx: Ctx, full: string) returns (signal: Signal)
      modifies this
      ensures input == old(input) && isLoading == old(isLoading)
      ensures FlowOf(ViewOf(full), signal) == DoneStep(ctx, old(ViewOf(full)))
    {
      var reply := ChatMessage(ctx.assistantId, ctx.chatId, JStr(full), "assistant");
      if ctx.storeFailure.Some? {
        signal := Threw(ctx.storeFailure.value);
      } else {
        storedReplies := storedReplies + [full];
        messages := messages + [reply];
        streamedResponse := "";
        signal := Returned;
      }
    }

    /** The per-chunk callback: the chunk's messages in order, until one
      returns or throws. */
    method OnChunk(ctx: Ctx, frames: seq<Json>, full: string) returns (full': string, signal: Signal)
      modifies this
      ensures input == old(input) && isLoading == old(isLoading)
      ensures FlowOf(ViewOf(full'), signal) == Batch(ctx, old(ViewOf(full)), frames)
    {
      full', signal := full, Continue;
      var i := 0;
      while i < |frames| && signal == Continue
        invariant 0 <= i <= |frames|
        invariant input == old(input) && isLoading == old(isLoading)
        invariant signal == Continue ==> Batch(ctx, old(ViewOf(full)), frames) == Batch(ctx, ViewOf(full'), frames[i..])
        invariant signal != Continue ==> Batch(ctx, old(ViewOf(full)), frames) == FlowOf(ViewOf(full'), signal)
      {
        assert frames[i..][1..] == frames[i + 1..];
        full', signal := HandleFrame(ctx, frames[i], full');
        i := i + 1;
      }
    }

    /** `processStream`: reads until the stream ends or something throws. */
    method ProcessStream(ctx: Ctx, results: seq<Read>, full: string) returns (full': string, failure: Option<Thrown>)
      modifies this
      ensures input == old(input) && isLoading == old(isLoading)
      ensures var r := Drain(ctx, old(ViewOf(full)), results);
        ViewOf(full') == r.v && failure == (if r.Throw? then Some(r.error) else None)
    {
      full', failure := full, None;
      var i := 0;
      while i < |results| && failure.None?
        invariant 0 <= i <= |results|
        invariant input == old(input) && isLoading == old(isLoading)
        invariant failure.None? ==> Drain(ctx, old(ViewOf(full)), results) == Drain(ctx, ViewOf(full'), results[i..])
        invariant failure.Some? ==> Drain(ctx, old(ViewOf(full)), results) == Throw(ViewOf(full'), failure.value)
      {
        assert results[i..][1..] == results[i + 1..];
        match results[i] {
          case NoValue =>
          case ReadFailure(t) =>
            failure := Some(t);
          case Chunk(frames) =>
            var signal;
            full', signal := OnChunk(ctx, frames, full');
            if signal.Threw? {
              failure := Some(signal.error);
            }
        }
        i := i + 1;
      }
    }

    /** The `fetch`, the response checks and `processStream`. */
    method Exchanging(ctx: Ctx, reply: Reply, full: string) returns (full': string, failure: Option<Thrown>)
      modifies this
      ensures input == old(input) && isLoading == old(isLoading)
      ensures var r := Exchange(ctx, old(ViewOf(full)), reply);
        ViewOf(full') == r.v && failure == (if r.Throw? then Some(r.error) else None)
    {
      full', failure := full, None;
      match reply {
        case FetchFailed(t) =>
          failure := Some(t);
        case Response(ok, statusText, body) =>
          if !ok {
            failure := Some(JsError("Error del servidor: " + statusText));
          } else if body.None? {
            failure := Some(JsError("No hay cuerpo de respuesta disponible"));
          } else {
            full', failure := ProcessStream(ctx, body.value, full');
          }
      }
    }

    /** `handleSubmit`. */
    method HandleSubmit(env: Env) returns (request: Option<ChatRequestBody>)
      modifies this
      ensures State() == Submit(old(State()), chatId, render, env).0
      ensures request == Submit(old(State()), chatId, render, env).1
    {
      var trimmedInput := Trim(input);
      if trimmedInput == "" || isLoading {
        return None;
      }
      ghost var s := State();
      var failure;
      request, failure := Submitting(env, trimmedInput);
      Settling(env.tempId, failure);
      assert State() == Settle(SubmitFlow(s, chatId, render, env), env.tempId, render);
    }

    /** The `catch` and `finally` blocks of `handleSubmit`. */
    method Settling(tempId: string, failure: Option<Thrown>)
      modifies this
      ensures failure.Some? ==> State() == old(State()).(
        messages := Remove(old(messages), tempId), streamed := ErrorBlock(failure.value, render), isLoading := false)
      ensures failure.None? ==> State() == old(State()).(isLoading := false)
    {
      if failure.Some? {
        messages := Remove(messages, tempId);
        streamedResponse := ErrorBlock(failure.value, render);
      }
      isLoading := false;
    }

    /** The `try` block of `handleSubmit`, up to the `catch`. */
    method Submitting(env: Env, trimmedInput: string) returns (request: Option<ChatRequestBody>, failure: Option<Thrown>)
      requires trimmedInput == Trim(input)
      modifies this
      ensures var outcome := SubmitFlow(old(State()), chatId, render, env);
        && messages == outcome.v.messages && streamedResponse == outcome.v.streamed
        && currentTool == outcome.v.tool && storedReplies == outcome.v.stored
        && input == "" && isLoading
        && failure == (if outcome.Throw? then Some(outcome.error) else None)
      ensures var prompt := NormalizeAll(old(messages));
        request == if prompt.Ok? then Some(ChatRequestBody(prompt.value, trimmedInput, chatId)) else None
    {
      ghost var s := State();
      var ctx, prior := Resetting(env, trimmedInput);
      ghost var v0 := ViewOf("");
      assert Optimistic(s, chatId, env) == ChatMessage(env.tempId, chatId, JStr(trimmedInput), "user");
      failure := None;
      request := None;
      var prompt := NormalizeAll(prior);
      if prompt.Err? {
        failure := Some(prompt.error);
      } else {
        request := Some(ChatRequestBody(prompt.value, trimmedInput, chatId));
        var fullResponse;
        fullResponse, failure := Exchanging(ctx, env.reply, "");
      }
      assert SubmitFlow(s, chatId, render, env) == if prompt.Err? then Throw(v0, prompt.error) else Exchange(ctx, v0, env.reply);
    }

    /** The resets at the start of the `try` block and the optimistic user
        message: the view the fold starts from. */
    method Resetting(env: Env, trimmedInput: string) returns (ctx: Ctx, prior: seq<ChatMessage>)
      modifies this
      ensures prior == old(messages) && input == "" && isLoading
      ensures ctx == Ctx(chatId, old(currentTool), env.assistantId, env.storeFailure, render)
      ensures ViewOf("") == View("", "", None, old(messages) + [ChatMessage(env.tempId, chatId, JStr(trimmedInput), "user")], old(storedReplies))
    {
      ctx := Ctx(chatId, currentTool, env.assistantId, env.storeFailure, render);
      prior := messages;
      input := "";
      streamedResponse := "";
      currentTool := None;
      isLoading := true;
      messages := messages + [ChatMessage(env.tempId, chatId, JStr(trimmedInput), "user")];
    }
  }
}
