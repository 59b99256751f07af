/** The wire vocabulary shared by the server route and the browser client:
    the typed stream messages, the JSON object each one is sent as, and the
    body of the chat request. */
module Protocol {
  import opened Values

  /** The `type` discriminants of the stream messages. */
  const CONNECTED: string := "connected"
  const TOKEN: string := "token"
  const TOOL_START: string := "tool_start"
  const TOOL_END: string := "tool_end"
  const ERROR: string := "error"
  const DONE: string := "done"

  /** One message the server streams. Tool inputs and outputs are passed
      through untouched; a missing input or output is `None`. */
  datatype StreamMessage =
    | Connected
    | Token(token: Json)
    | ToolStart(tool: string, input: Option<Json>)
    | ToolEnd(tool: string, output: Option<Json>)
    | Error(error: string)
    | Done

  /** Adds `key: value` unless the value is `undefined` (JSON.stringify drops such keys). */
  function WithOptional(fields: map<string, Json>, key: string, value: Option<Json>): map<string, Json> {
    if value.Some? then fields[key := value.value] else fields
  }

  /** The object literal handed to `JSON.stringify` for each message. */
  function ToWire(m: StreamMessage): (j: Json)
    ensures j.JObj? && "type" in j.fields && j.fields["type"].JStr?
    ensures m.Connected? ==> j.fields == map["type" := JStr(CONNECTED)]
    ensures m.Token? ==> j.fields == map["type" := JStr(TOKEN), "token" := m.token]
    ensures m.ToolStart? ==>
      && j.fields.Keys == {"type", "tool"} + (if m.input.Some? then {"input"} else {})
      && j.fields["type"] == JStr(TOOL_START) && j.fields["tool"] == JStr(m.tool)
      && (m.input.Some? ==> j.fields["input"] == m.input.value)
    ensures m.ToolEnd? ==>
      && j.fields.Keys == {"type", "tool"} + (if m.output.Some? then {"output"} else {})
      && j.fields["type"] == JStr(TOOL_END) && j.fields["tool"] == JStr(m.tool)
      && (m.output.Some? ==> j.fields["output"] == m.output.value)
    ensures m.Error? ==> j.fields == map["type" := JStr(ERROR), "error" := JStr(m.error)]
    ensures m.Done? ==> j.fields == map["type" := JStr(DONE)]
  {
    match m
    case Connected => JObj(map["type" := JStr(CONNECTED)])
    case Token(t) => JObj(map["type" := JStr(TOKEN), "token" := t])
    case ToolStart(tool, input) =>
      JObj(WithOptional(map["type" := JStr(TOOL_START), "tool" := JStr(tool)], "input", input))
    case ToolEnd(tool, output) =>
      JObj(WithOptional(map["type" := JStr(TOOL_END), "tool" := JStr(tool)], "output", output))
    case Error(e) => JObj(map["type" := JStr(ERROR), "error" := JStr(e)])
    case Done => JObj(map["type" := JStr(DONE)])
  }

  /** Reads a message back from its object: the `type` picks the variant and
      the other keys its fields; an object that is no message gives `None`. */
  function FromWire(j: Json): Option<StreamMessage> {
    if !j.JObj? || "type" !in j.fields then None
    else
      var f := j.fields;
      var ty := f["type"];
      if ty == JStr(CONNECTED) then Some(Connected)
      else if ty == JStr(TOKEN) then (if "token" in f then Some(Token(f["token"])) else None)
      else if ty == JStr(TOOL_START) || ty == JStr(TOOL_END) then
        if "tool" !in f || !f["tool"].JStr? then None
        else if ty == JStr(TOOL_START) then
          Some(ToolStart(f["tool"].s, if "input" in f then Some(f["input"]) else None))
        else Some(ToolEnd(f["tool"].s, if "output" in f then Some(f["output"]) else None))
      else if ty == JStr(ERROR) then
        (if "error" in f && f["error"].JStr? then Some(Error(f["error"].s)) else None)
      else if ty == JStr(DONE) then Some(Done)
      else None
  }

  /** Every message is read back from its object unchanged: the six types are
      distinct and no field is lost, an absent input or output included. */
  lemma WireRoundTrip(m: StreamMessage)
    ensures FromWire(ToWire(m)) == Some(m)
  {
  }

  /** One prior turn of the conversation as the client sends it. */
  datatype RequestMessage = RequestMessage(role: string, content: Json)

  /** The JSON body POSTed to the stream route. */
  datatype ChatRequestBody = ChatRequestBody(messages: seq<RequestMessage>, newMessage: string, chatId: string)

  /** One prior turn as an object `{role, content}`. */
  function MessageJson(m: RequestMessage): (r: Json)
    ensures r.JObj? && r.fields.Keys == {"role", "content"}
    ensures r.fields["role"] == JStr(m.role) && r.fields["content"] == m.content
  {
    JObj(map["role" := JStr(m.role), "content" := m.content])
  }

  /** The body as the route reads it: `JSON.stringify` on the page and
      `request.json()` on the route are taken to give back the same object. */
  function RequestJson(b: ChatRequestBody): (r: Json)
    ensures r.JObj? && r.fields.Keys == {"messages", "newMessage", "chatId"}
    ensures r.fields["newMessage"] == JStr(b.newMessage) && r.fields["chatId"] == JStr(b.chatId)
    ensures r.fields["messages"].JArr? && |r.fields["messages"].items| == |b.messages|
    ensures forall i :: 0 <= i < |b.messages| ==> r.fields["messages"].items[i] == MessageJson(b.messages[i])
  {
    JObj(map[
      "messages" := JArr(seq(|b.messages|, i requires 0 <= i < |b.messages| => MessageJson(b.messages[i]))),
      "newMessage" := JStr(b.newMessage),
      "chatId" := JStr(b.chatId)])
  }
}
