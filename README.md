# A verified model of a streaming AI chat agent

The application is a Next.js chat front end for a LangGraph agent with a
Convex document store. A user types a question on the chat page. The page
posts it, with the conversation so far, to a streaming API route. The route
stores the question, runs the agent graph over the conversation and streams
what the agent does back as server-sent events: tokens, tool starts and tool
ends, errors, and `done`. The page folds these messages into its state, and
stores and shows the assistant's reply. Separately, the store's chat
mutations create chats and delete a chat together with all its messages.

This project models four parts of that system in Dafny and proves properties
about them:

- `values.dfy` (module `Values`) holds the JavaScript vocabulary the other
  modules share:
  - JSON-shaped values;
  - truthiness and property reads;
  - `String(x)`;
  - thrown values.
- `protocol.dfy` (module `Protocol`) holds the wire vocabulary:
  - the typed stream messages and the object each is serialised from;
  - the chat request body.
- `langgraph.dfy` (module `Agent`) models the agent graph:
  - the message objects;
  - `addCachingHeaders`, an in-place loop over an array of message objects;
  - the `shouldContinue` router;
  - the edges `createWorkflow` adds.
- `route.dfy` (module `Route`) models the stream route:
  - the mapping from agent events to stream messages;
  - a response writer class that records every frame it writes;
  - `startStream`, which writes `Connected`, then the loop's messages, then `Done` or `Error`, and closes the writer on every path;
  - the conversion of the request history;
  - the `POST` guard.
- `client.dfy` (module `Client`) models the chat page:
  - `trim` and `lastIndexOf`;
  - the tool-block renderers;
  - the normalisation of stored messages into the request body;
  - the per-message `switch`, the per-chunk callback and the `processStream` read loop;
  - `handleSubmit` with its guard, the optimistic message, and the `catch` rollback and `finally`.

  The page is a class whose fields are the React state. The methods are
  proved against pure functions (`Step`, `Batch`, `Drain`, `Submit`), and the
  lemmas state the page's behaviour in terms of those functions.
- `chats.dfy` (module `Chats`) models `createChat` and `deleteChat`:
  - the store is a class holding the `chats` and `messages` tables as maps;
  - each mutation is proved equal to a pure specification;
  - lemmas state the error-means-no-change and nothing-else-changes properties.

Some of the system's behaviour is modelled as written, though it is not what
its comments suggest. Each such behaviour is stated by a lemma:

- The server can send several `done` messages: one per model-end event, plus a backup after the loop (`NormalRunDoneMessages`).
- A `return` on the page leaves only the per-chunk callback, and the read loop goes on (`ReturnKeepsReading`). Since `done` does not reset the response, a second `done` stores the same text again and appends a second reply with the same content (`TwoDonesTwoReplies`).
- A `tool_end` keeps the old block's `---START---` line (`ToolEndKeepsOldStartLine`).
- The page's `tool_end` handler reads the `currentTool` captured when the submission began, not the one a `tool_start` of the same submission set (`StaleCaptureIgnoresToolEnd`).
- The router names a node `"tools"`, but the graph registers `"tool"` (`ToolRouteIsUnregistered`).
- Re-annotating content nests it (`CacheWrapNests`).
- The header comment of `addCachingHeaders` lists caching of the first system message among its rules. That function does not annotate a system message, because the agent node's prompt template adds the system message with its own cache annotation (lib/langgraph.ts:77-80). `CacheSelection` lists exactly what `addCachingHeaders` annotates.
- A body that parses but lacks a usable `messages` array or `newMessage` is not rejected before the stream opens. The route sends `Connected`, stores the message, and then sends an `Error` when the history conversion throws (`ConvertRequest`, `RunFailsIffSomethingThrows`). Only a body that does not parse, or parses to `null`, gets the 500 reply.

## Model

| member | source | states |
|---|---|---|
| Protocol.ToWire | app/api/chat/stream/route.ts:63-104 | each message is sent as an object holding its own `type` string and its own fields and no others. `connected` and `done` carry only the type. `token` carries the token. `tool_start` and `tool_end` carry the tool name and the input or output when present. `error` carries the error text |
| Protocol.WireRoundTrip | app/api/chat/stream/route.ts:63-104 | every message object the route sends reads back as the message it came from, so no two messages share a wire form |
| Agent.Message.constructor | app/api/chat/stream/route.ts:47-50 | a message object keeps the class, content and tool calls it was built with |
| Agent.SecondHumanUnique | lib/langgraph.ts:124-133 | at most one position is the second human message counted from the end |
| Agent.SecondHumanExists | lib/langgraph.ts:124-133 | the backward scan finds a second human message exactly when the history holds at least two |
| Agent.SecondHumanWitness | lib/langgraph.ts:124-133 | with two or more human messages, the position where the counter reaches 2 exists |
| Agent.SecondHumanNotLast | lib/langgraph.ts:122-133 | the second human from the end is never the last message, so no message is annotated twice |
| Agent.CacheSelection | lib/langgraph.ts:99-133 | annotation covers nothing for an empty history. Otherwise it covers the last message and, when at least two messages are human, exactly one other message: a human one before the last; nothing else is annotated by this function (the system message is annotated by the prompt template instead) |
| Agent.CacheWrap | lib/langgraph.ts:110-120 | the annotated content is a one-element array: a `text` part holding the old content, tagged with an ephemeral `cache_control` |
| Agent.CacheWrapNests | lib/langgraph.ts:110-120 | annotating changes the content, and annotating twice nests the first annotation inside a new text part (not idempotent) |
| Agent.AddCache | lib/langgraph.ts:110-120 | the message's content becomes a single cache-tagged text part holding the old content |
| Agent.ScanSelection | lib/langgraph.ts:124-133 | where the backward scan stops (at a second human, or nowhere) together with the last position is exactly the selection |
| Agent.AddCachingHeaders | lib/langgraph.ts:99-136 | the empty array is returned itself. Otherwise the result is a fresh array with the same objects in the same order. Exactly the selected messages (the last, and the second human from the end) have their content wrapped; every other message keeps its content |
| Agent.ShouldContinue | lib/langgraph.ts:56-67 | the router fails (a `TypeError`) exactly on an empty history. Otherwise it names `"tools"`, `"agent"` or END |
| Agent.ShouldContinueOutcomes | lib/langgraph.ts:56-67 | returns `"tools"` iff the last message has tool calls. Returns `"agent"` iff it has none and is a tool message with truthy content. Returns END otherwise. Tool calls take precedence |
| Agent.CreateWorkflow | lib/langgraph.ts:69-97 | the graph registers `agent` and `tool`. Every edge leaves START or a registered node, every plain edge enters a registered node, and the only conditional edge leaves `agent` |
| Agent.WorkflowTopology | lib/langgraph.ts:91-94 | a run starts at `agent`; `tool` always returns to `agent`; after `agent` only the router decides |
| Agent.UnfoldWorkflowEdges | lib/langgraph.ts:91-94 | the routes out of any node, read edge by edge from the graph's edge list |
| Agent.ToolRouteIsUnregistered | lib/langgraph.ts:60-93 | with a pending tool call the agent routes to `"tools"`, which is neither a registered node nor END |
| Route.ChunkText | app/api/chat/stream/route.ts:58-62 | reading the chunk's first part throws exactly when the chunk has no `content`, or its content is neither a string nor an array. A text is found only in array content |
| Route.EventFrames | app/api/chat/stream/route.ts:56-87 | one event yields at most one message. Its handling throws exactly when a truthy stream chunk's content cannot be read, or when the `ToolMessage` of a tool end cannot be built |
| Route.MapEvents | app/api/chat/stream/route.ts:56-87 | the loop sends no more messages than it receives events |
| Route.StreamRun | app/api/chat/stream/route.ts:37-104 | every run holds at least two messages and starts with `Connected` |
| Route.ConvertTurns | app/api/chat/stream/route.ts:47-48 | the prior turns convert exactly when every entry is an object with a `content`; each turn then keeps its entry's `role` and `content`, in order. A `null` entry or a missing content throws a `TypeError` |
| Route.ConvertRequest | app/api/chat/stream/route.ts:47-50 | the history converts exactly when `messages` is an array of entries with a `content` and `newMessage` is present; it then holds one turn per entry and the new message. Any other body throws a `TypeError` |
| Protocol.MessageJson | components/chat-interface.tsx:120-123 | each prior turn is posted as an object with exactly the keys `role` and `content`, holding the turn's role and normalised content |
| Protocol.RequestJson | components/chat-interface.tsx:119-126 | the posted body has exactly the keys `messages`, `newMessage` and `chatId`; `messages` holds one object per turn, in order |
| Route.PostedBodyConverts | app/api/chat/stream/route.ts:47-50 | the body the page posts always converts. Each turn keeps its role and content, a `user` turn becomes human, and the new message is the posted text |
| Route.AgentFrames | app/api/chat/stream/route.ts:52-98 | the loop's messages unchanged, then exactly one more: `Done` exactly when neither an event's handling nor the iteration threw. Otherwise an `Error` carrying the message of the event's throw, or else of the iteration's, with `"Stream processing failed"` as the fallback |
| Route.RunAgent | app/api/chat/stream/route.ts:52-98 | when `submitQuestion` throws, only the stream `Error` is written. Otherwise the writer receives the loop's messages and the closing `Done` or `Error` |
| Route.MapEventsSnoc | app/api/chat/stream/route.ts:56-87 | one more event extends the loop's output by that event's messages, or stops it with that event's failure |
| Route.MapEventsNoConnectedOrError | app/api/chat/stream/route.ts:56-87 | the event loop itself never sends `Connected` or `Error` |
| Route.EarlyFailureRun | app/api/chat/stream/route.ts:37-104 | a run whose message storing or history conversion throws is `Connected` and one `Error` with the outer fallback `"Unknown error in chat stream"`. A run whose `submitQuestion` throws is `Connected` and one `Error` with the inner fallback `"Stream processing failed"` |
| Route.RunStartsConnected | app/api/chat/stream/route.ts:37-98 | `Connected` is the first message of every run and appears nowhere else |
| Route.RunEndsTerminal | app/api/chat/stream/route.ts:52-104 | every run ends in `Done` or `Error`. No `Error` occurs before the last message, so at most one `Error` is sent and no backup `Done` follows it |
| Route.RunFailsIffSomethingThrows | app/api/chat/stream/route.ts:38-104 | a run ends in `Error` exactly when one of these throws: storing the user message, converting the history, `submitQuestion`, an event's handling, or the iteration |
| Route.MapEventsDoneCount | app/api/chat/stream/route.ts:69-72 | a loop without failure sends one `Done` per model-end event |
| Route.NormalRunDoneMessages | app/api/chat/stream/route.ts:69-90 | on normal exhaustion the run is `Connected`, the loop's messages, then a backup `Done`. The run holds one `Done` per model-end event plus one |
| Route.TokenOnlyFromText | app/api/chat/stream/route.ts:57-68 | a `Token` is produced only by a stream-chunk event, iff the chunk is truthy, its content can be read and its first part's `text` is truthy. The token carries that text |
| Route.StringChunkYieldsNoToken | app/api/chat/stream/route.ts:58-62 | a chunk whose content is a plain string yields no `Token` |
| Route.ToolEventsPassThrough | app/api/chat/stream/route.ts:73-86 | tool events pass their input or output through unchanged. The name falls back to `"unknown"` when it is missing or empty. A tool end whose `ToolMessage` cannot be built throws that failure. Unknown event kinds yield nothing |
| Route.SseWriter.constructor | app/api/chat/stream/route.ts:25-26 | a new writer is open, has written nothing, and keeps its prefix, delimiter and encoder |
| Route.SseWriter.Send | app/api/chat/stream/route.ts:9-12 | each send writes exactly one record: data prefix, JSON of the message, line delimiter |
| Route.SseWriter.Close | app/api/chat/stream/route.ts:105-111 | closing marks the writer closed and leaves what was written unchanged |
| Route.PromptKinds | app/api/chat/stream/route.ts:47-50 | the history has one entry per prior turn plus one. A `user` role becomes human, and every other role or none becomes AI; the new message is human |
| Route.PromptContents | app/api/chat/stream/route.ts:47-50 | each prior turn's content unchanged, then the new message |
| Route.BuildHistory | app/api/chat/stream/route.ts:47-50 | builds fresh, pairwise distinct message objects of length \|turns\|+1 with the converted classes and the unchanged contents, ending with the new human message |
| Route.StartStream | app/api/chat/stream/route.ts:37-112 | the writer receives exactly the run's messages, `Connected` first, and is closed on every path |
| Route.PreparePrompt | app/api/chat/stream/route.ts:47-53 | the prompt handed to the agent is the converted history with exactly the selected messages annotated |
| Route.StreamAgent | app/api/chat/stream/route.ts:53-98 | the writer receives the loop's messages, then `Done`, or an `Error` when the loop or the stream failed |
| Route.DrainEvents | app/api/chat/stream/route.ts:56-87 | the loop writes every event's messages in arrival order and stops at the first event whose handling throws |
| Route.MapEventsStopsAtFailure | app/api/chat/stream/route.ts:56-98 | once an event's handling throws, the later events are never handled |
| Route.Post | app/api/chat/stream/route.ts:14-120 | without a user id: 401 and no writer. With a body that does not parse, or parses to `null`: 500. Otherwise an event-stream reply whose fresh writer ends closed, holding exactly the run's messages |
| Client.Trim | components/chat-interface.tsx:88-89 | the trimmed input is the part of the input between two margins of white space. It is empty exactly when the input is blank, and otherwise it neither starts nor ends with white space |
| Client.LastIndexOf | components/chat-interface.tsx:185-188 | the result is the last position where the marker occurs, or none when it occurs nowhere |
| Client.FormatToolOutput | components/chat-interface.tsx:36-39 | a string is shown as it is; any other value in its two-space JSON form |
| Client.FormatTerminalOutput | components/chat-interface.tsx:41-60 | a block starts with the START line, then the terminal marker; it ends with the END line; the rendered input sits at its fixed place |
| Client.FindTextFrom | components/chat-interface.tsx:113 | the search throws a `TypeError` exactly when a `null` part comes before any text part. It finds nothing exactly when no part is `null` or a text part. Otherwise it returns the first text part |
| Client.FirstTextFound | components/chat-interface.tsx:113 | a text part that only non-null, non-text parts precede is exactly what the search from the start returns |
| Client.NormalizeContent | components/chat-interface.tsx:111-117 | content that is not an array is kept. Array content becomes the truthy `text` of its first text part, or `""` when that text is falsy or there is no text part. It throws exactly when a `null` part comes before any text part |
| Client.NormalizeAll | components/chat-interface.tsx:111-126 | the mapping succeeds exactly when every stored content normalises. It then keeps every message in order, with its role and its normalised content |
| Client.NormalizeReadsCacheWrap | components/chat-interface.tsx:111-117 | string content is kept. Content annotated by the agent's cache step reads back as the text it wrapped, or `""` when that was falsy |
| Client.Step | components/chat-interface.tsx:151-234 | a message that throws leaves the state as it was. Only a `done` that returns changes the history: it appends exactly one message and keeps the rest. Every other message leaves the history and the stored replies alone |
| Client.TokenStep | components/chat-interface.tsx:157-164 | a `token` never ends the callback and only extends the response; the history, stored replies and tool stay |
| Client.ToolStartStep | components/chat-interface.tsx:166-181 | a `tool_start` never ends the callback and only extends the response. When it acts, it records a tool and shows the whole response |
| Client.ToolEndStep | components/chat-interface.tsx:183-202 | a `tool_end` never ends the callback. It either changes nothing or clears the tool, and changes nothing when no tool was captured |
| Client.ErrorStep | components/chat-interface.tsx:204-210 | an `error` throws exactly when it carries an `error` field, and changes no state |
| Client.DoneStep | components/chat-interface.tsx:212-233 | a `done` returns exactly when storing succeeds. It then appends one assistant message of this chat with the whole response, records the response as stored and clears the stream area. The response itself and the tool are kept, so the response is not reset. A store failure throws without changing the state |
| Client.Batch | components/chat-interface.tsx:145-236 | a chunk that neither returns nor throws leaves the history and the stored replies unchanged. That a `return` drops the rest of the chunk is `ReturnDropsRestOfChunk` |
| Client.Drain | components/chat-interface.tsx:62-84 | the read loop never ends by `return`. That it goes on reading after a chunk returns is `ReturnKeepsReading` |
| Client.Exchange | components/chat-interface.tsx:128-145 | a failed fetch, an error status or a missing body throws before any state changes, and the exchange never ends by `return` |
| Client.ExchangeHistory | components/chat-interface.tsx:128-145 | the request and its stream only append assistant replies to the history |
| Client.Settle | components/chat-interface.tsx:237-251 | the input is empty and loading ends. A throw filters out the optimistic message; otherwise the fold's history and stream area stand. The tool and the stored replies are the fold's |
| Client.Submit | components/chat-interface.tsx:86-252 | a submission either changes nothing or ends with the input cleared and loading off. A request is posted exactly when the trimmed input is non-blank, nothing is loading and every stored content normalises. It carries that input, the chat id and each stored message's role and normalised content |
| Client.Optimistic | components/chat-interface.tsx:96-103 | the optimistic message carries the temporary id, the chat id and the role `user`, and its content is a string |
| Client.OptimisticMatchesRequest | components/chat-interface.tsx:96-126 | whenever a request is posted (exactly when, `Client.Submit` states), the optimistic message shows exactly the text posted as `newMessage` |
| Client.SubmitFlow | components/chat-interface.tsx:105-236 | the fold starts from the reset state with the optimistic message appended. A history that does not normalise throws the `TypeError` from there before any request; otherwise the outcome is the exchange's. It never ends by `return` |
| Client.ErrorBlock | components/chat-interface.tsx:242-248 | the stream area after a failure is the error block of `Failed to process message`, with the error's message, or `Unknown error` for a thrown value that is not an `Error` |
| Client.Remove | components/chat-interface.tsx:239-241 | the filtered list is no longer than before and holds no message with that id |
| Client.SubmitGuard | components/chat-interface.tsx:86-251 | a blank input or a submission while loading changes nothing and sends nothing. Any other submission ends with the input cleared and loading off |
| Client.StepHistory | components/chat-interface.tsx:145-236 | one message adds at most the assistant's reply to the history |
| Client.BatchHistory | components/chat-interface.tsx:145-236 | a chunk only appends assistant replies to the history |
| Client.DrainHistory | components/chat-interface.tsx:62-84 | the read loop keeps the history and only appends assistant replies, and it never ends by `return` |
| Client.ReturnDropsRestOfChunk | components/chat-interface.tsx:145-236 | a message that returns ends its chunk: the later messages of that chunk are dropped |
| Client.ReturnKeepsReading | components/chat-interface.tsx:62-84 | a chunk that returns leaves only the callback: the read loop goes on with the next read, from the state the chunk left |
| Client.TwoDonesTwoReplies | components/chat-interface.tsx:212-233 | two `done` messages in two reads store the same response twice and append a second assistant reply with the same content, because `done` does not reset the response. The two replies are equal records here only because the model gives every reply of a submission one id |
| Client.RemoveAppend | components/chat-interface.tsx:239-241 | filtering a concatenation filters each part |
| Client.RemoveAbsent | components/chat-interface.tsx:239-241 | filtering by an id no message carries changes nothing |
| Client.FlowHistory | components/chat-interface.tsx:105-236 | a submission's fold starts from the history with the optimistic message appended, and only appends the assistant's replies |
| Client.SubmitSettles | components/chat-interface.tsx:237-251 | after the guard, a throw withdraws the optimistic message and shows the error block. Otherwise the fold's state stands |
| Client.SubmitHistory | components/chat-interface.tsx:96-241 | after the fold the optimistic message follows the old history. Removing it by id leaves the old history and the later replies, in order |
| Client.Rollback | components/chat-interface.tsx:239-241 | removing the optimistic message by its id leaves every other message in order |
| Client.ServerErrorShown | components/chat-interface.tsx:134-248 | an error status restores the history and shows the status text in the error block |
| Client.TokenBatch | components/chat-interface.tsx:157-164 | a chunk that starts with a string token continues with the response and the shown text both extended by that token |
| Client.TokensAccumulate | components/chat-interface.tsx:157-164 | a chunk of string tokens appends them in order to the response and to what is shown |
| Client.ServerMessagesOnClient | components/chat-interface.tsx:151-234 | gives the effect of every message the server can send. `connected`: nothing. String `token`: appended. `tool_start` with input: block appended and tool recorded. `tool_end` without output or captured tool: nothing. `error`: throws its text. `done`: returns unless storing fails |
| Client.ToolEndKeepsOldStartLine | components/chat-interface.tsx:183-197 | replacing a "Processing..." block keeps its START line before the new block's own, so two START lines end up adjacent |
| Client.ToolEndReplacesFromMarker | components/chat-interface.tsx:183-202 | with a captured tool, `tool_end` replaces everything from the last marker with the new block and clears the tool. Without a marker the text is unchanged |
| Client.StaleCaptureIgnoresToolEnd | components/chat-interface.tsx:166-202 | when no tool was open at submission, a `tool_end` after a `tool_start` in the same submission is ignored. The "Processing..." block and the recorded tool stay |
| Client.ChatInterface.constructor | components/chat-interface.tsx:18-29 | the page starts with the given messages, an empty input, not loading, nothing streamed, no tool |
| Client.ChatInterface.OnInputChange | components/chat-interface.tsx:293 | typing sets the input and nothing else |
| Client.ChatInterface.HandleFrame | components/chat-interface.tsx:151-234 | one message's handling updates the state exactly as `Step` specifies |
| Client.ChatInterface.HandleToken | components/chat-interface.tsx:157-164 | a string token is appended to the response and shown |
| Client.ChatInterface.HandleToolStart | components/chat-interface.tsx:166-181 | a "Processing..." block is appended and the tool recorded |
| Client.ChatInterface.HandleToolEnd | components/chat-interface.tsx:183-202 | the tail from the last marker is replaced and the tool cleared, as `ToolEndStep` specifies |
| Client.ChatInterface.HandleDone | components/chat-interface.tsx:212-233 | the response is stored and appended as one assistant message, the stream area cleared and the callback left. A store failure throws |
| Client.ChatInterface.OnChunk | components/chat-interface.tsx:145-236 | the callback handles a chunk's messages in order until one returns or throws, as `Batch` specifies |
| Client.ChatInterface.ProcessStream | components/chat-interface.tsx:62-84 | the loop handles every read in order, skips empty ones, and stops at the first throw, as `Drain` specifies |
| Client.ChatInterface.Exchanging | components/chat-interface.tsx:128-145 | a failed fetch, an error status or a missing body throws the matching error; otherwise the stream is processed |
| Client.ChatInterface.HandleSubmit | components/chat-interface.tsx:86-252 | the new page state and the request body are those `Submit` gives |
| Client.ChatInterface.Settling | components/chat-interface.tsx:237-251 | on a throw the optimistic message is filtered out and the error block shown; loading always ends |
| Client.ChatInterface.Submitting | components/chat-interface.tsx:91-236 | the `try` block leaves the fold's state of the submission, and the body holds the normalised history, the trimmed input and the chat id |
| Client.ChatInterface.Resetting | components/chat-interface.tsx:91-107 | input, stream area and tool are reset, loading starts, and the optimistic user message is appended |
| Chats.WithoutChat | convex/chats.ts:38-45 | exactly the messages of other chats remain, unchanged |
| Chats.CreateChatSpec | convex/chats.ts:4-21 | without an identity: the exact error, nothing written. Otherwise the new id is returned, and the chats table gains exactly the chat with the given title, the identity's subject as owner and the current time. All messages are unchanged |
| Chats.DeleteChatSpec | convex/chats.ts:23-51 | succeeds iff signed in and owner of an existing chat, with the exact error texts otherwise. A failure changes nothing. Success removes the chat and all its messages and nothing else |
| Chats.CreateThenDelete | convex/chats.ts:4-51 | deleting a chat just created by its owner restores the tables |
| Chats.OnlyOwnerDeletes | convex/chats.ts:33-36 | two different users cannot both be allowed to delete the same chat |
| Chats.ChatStore.CreateChat | convex/chats.ts:4-21 | the store changes exactly as `CreateChatSpec` says, under an id not in use |
| Chats.ChatStore.DeleteChat | convex/chats.ts:23-51 | the checks, the per-message deletion loop and the chat deletion leave the store exactly as `DeleteChatSpec` says |

## Left out

- `trimMessages` and the prompt template are library code with no visible logic. The system message that the template prepends, with its own `cache_control` annotation, is therefore not modelled either; the agent node's model call, the wxflows tool client and the tool node likewise. The graph is modelled only by its edges and its router.
- What the agent run does is a parameter (`EventSource`): its events, and whether iterating it then throws. `submitQuestion` passes the annotated history to it (`Route.PreparePrompt`).
- The message store's `send` and `store` mutations are not part of this model. Their outcomes are parameters: `stored` on the server, `storeFailure` on the client. `Chats.ChatStore.DeleteChat` is therefore stated for any valid store, whatever messages it already holds.
- Storing the user message is given one outcome, `stored`, because the route stores only that one message per run.
- `Client.ChatInterface.HandleDone`: every `done` of one submission meets the same store outcome (`storeFailure`); a store that fails on only some calls is not modelled.
- `createSSEParser` is not part of this model: each read arrives already parsed into its messages. Chunk-boundary buffering and `TextDecoder` are therefore not modelled.
- `JSON.stringify` is an abstract function. The server's compact form is a parameter of the writer; the page's two-space form is `Render.pretty`. The SSE data prefix and line delimiter are abstract writer constants. `Route.SseWriter.Send` states the record layout for any of them.
- The block markup is a parameter (`Markup`); the page builds it with `PAGE_MARKUP`. `Client.FormatTerminalOutput` states the block layout for any markup.
- The `type` strings of the stream messages (`connected`, `token`, `tool_start`, `tool_end`, `error`, `done`) come from a type declaration that is not part of this model.
- Authentication (`auth()`, `getUserIdentity`) is an input: the user id, or the identity.
- Ids and timestamps from `Date.now()` are inputs: `tempId`, `assistantId`, `now`. The store's document ids are a natural-number counter.
- `Client.DoneStep`: every assistant reply of one submission gets the same id, `assistantId`. The page reads the clock afresh for each `done` message, so two `done` messages in different milliseconds get different ids; that distinction is not modelled.
- `Route.ConvertRequest`: the LangChain message constructors are taken to throw a `TypeError` on an `undefined` content and to accept any other content. How they treat a content that is neither a string nor an array is library behaviour and is not modelled.
- `Route.PostedBodyConverts`: `JSON.stringify` on the page followed by `request.json()` on the route is taken to give back the same object.
- `Route.StreamEvent`: whether `new ToolMessage(output)` throws, and the `name` it carries, are library behaviour; both are inputs of the event.
- `Route.SseWriter.Close`: a `close()` that rejects is not modelled; the route's `catch` around it only logs, so the frames written stay the same either way.
- The engine's `TypeError` message text is a fixed placeholder.
- Numbers are integers; floating-point JSON values are not modelled.
- Concurrency is not modelled. `startStream()` runs without being awaited, and the stream has a high-water mark. The model writes the whole run before the response is considered, and a write never fails.
- React rendering, scrolling, `console` logging and the page's markup other than the tool blocks are not modelled. So is `reader.releaseLock`, which does not affect the state.
- `Agent.AddCachingHeaders`: requires the array's message objects to be pairwise distinct, which the route does not check. With one object at two positions it would be wrapped twice. The route always passes fresh distinct objects (`Route.BuildHistory`).
- `Agent.ShouldContinue`: on a state with no messages the model reports a crash (`TYPE_ERROR`). What the graph runtime does with an unknown target such as `"tools"` is library behaviour and is not modelled.
- `Client.SubmitHistory`: stated for an optimistic id that no earlier message and no assistant reply carries. `Client.ServerErrorShown` likewise assumes no earlier message carries it. The page relies on distinct `Date.now()` ids but does not check them.
- `Client.ChatInterface.HandleToolEnd`: the tool checked is the one captured when the submission began. This reading of React's closure semantics means a `tool_start` in the same submission is not seen (`Client.StaleCaptureIgnoresToolEnd`).
