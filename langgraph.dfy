/** The agent graph: message objects, the cache-hint annotation applied to the
    history before a run, the router evaluated after the agent node, and the
    edges of the workflow. The model call, the tool node and the history
    trimmer are library code and are not modelled. */
module Agent {
  import opened Values

  /** The LangChain message classes the core distinguishes. */
  datatype Kind = Human | AI | Tool | System

  /** A LangChain message object. Its class and tool calls are fixed at
      construction; its `content` is a plain property that code overwrites. */
  class Message {
    const kind: Kind
    var content: Json
    const toolCalls: seq<Json>

    constructor (kind: Kind, content: Json, toolCalls: seq<Json>)
      ensures this.kind == kind && this.content == content && this.toolCalls == toolCalls
    {
      this.kind := kind;
      this.content := content;
      this.toolCalls := toolCalls;
    }
  }

  // ---------------------------------------------------------------------------
  // Cache hints
  // ---------------------------------------------------------------------------

  /** The `cache_control` value attached to annotated content. */
  const EPHEMERAL: Json := JObj(map["type" := JStr("ephemeral")])

  /** The content `addCache` stores: one text part holding the previous content
      (whatever it was; the `as string` cast converts nothing) and the cache directive. */
  function CacheWrap(content: Json): (r: Json)
    ensures r.JArr? && |r.items| == 1
    ensures Field(r.items[0], "type") == Some(JStr("text")) && Field(r.items[0], "text") == Some(content)
    ensures Field(r.items[0], "cache_control") == Some(EPHEMERAL)
  {
    JArr([JObj(map["type" := JStr("text"), "text" := content, "cache_control" := EPHEMERAL])])
  }

  /** The class of every message, in order. */
  function KindsOf(messages: seq<Message>): (kinds: seq<Kind>)
    ensures |kinds| == |messages|
    ensures forall i :: 0 <= i < |messages| ==> kinds[i] == messages[i].kind
  {
    seq(|messages|, i requires 0 <= i < |messages| => messages[i].kind)
  }

  /** Number of human messages in `kinds`. */
  function HumanCount(kinds: seq<Kind>): nat {
    if kinds == [] then 0 else (if kinds[0] == Human then 1 else 0) + HumanCount(kinds[1..])
  }

  /** Position `i` is the second human message met when scanning backward from
      the end (the last message itself counts). */
  predicate SecondHumanFromEnd(kinds: seq<Kind>, i: int) {
    0 <= i < |kinds| && kinds[i] == Human && HumanCount(kinds[i..]) == 2
  }

  /** Whether `addCachingHeaders` wraps position `i` of a history of these classes. */
  predicate CacheSelected(kinds: seq<Kind>, i: int) {
    0 <= i < |kinds| && (i == |kinds| - 1 || SecondHumanFromEnd(kinds, i))
  }

  lemma {:induction false} HumanCountAppend(a: seq<Kind>, b: seq<Kind>)
    ensures HumanCount(a + b) == HumanCount(a) + HumanCount(b)
  {
    if a == [] {
      assert a + b == b;
    } else {
      assert (a + b)[1..] == a[1..] + b;
      HumanCountAppend(a[1..], b);
    }
  }

  /** Counting humans over a suffix: a later suffix never holds more, and a
      suffix that starts on a human holds strictly more than any later one. */
  lemma HumanCountSuffix(kinds: seq<Kind>, i: nat, j: nat)
    requires i <= j <= |kinds|
    ensures HumanCount(kinds[j..]) <= HumanCount(kinds[i..])
    ensures i < j && kinds[i] == Human ==> HumanCount(kinds[j..]) < HumanCount(kinds[i..])
  {
    assert kinds[i..] == kinds[i..j] + kinds[j..];
    HumanCountAppend(kinds[i..j], kinds[j..]);
    if i < j {
      assert kinds[i..j][0] == kinds[i];
    }
  }

  /** At most one position is the second human from the end. */
  lemma SecondHumanUnique(kinds: seq<Kind>, i: int, j: int)
    requires SecondHumanFromEnd(kinds, i) && SecondHumanFromEnd(kinds, j)
    ensures i == j
  {
    if i < j {
      HumanCountSuffix(kinds, i, j);
    } else if j < i {
      HumanCountSuffix(kinds, j, i);
    }
  }

  /** A second human from the end exists exactly when the history holds at least two. */
  lemma {:induction false} SecondHumanExists(kinds: seq<Kind>)
    ensures (exists i :: SecondHumanFromEnd(kinds, i)) <==> HumanCount(kinds) >= 2
  {
    if exists i :: SecondHumanFromEnd(kinds, i) {
      var i :| SecondHumanFromEnd(kinds, i);
      HumanCountSuffix(kinds, 0, i);
    }
    if HumanCount(kinds) >= 2 {
      var i := SecondHumanWitness(kinds);
    }
  }

  lemma {:induction false} SecondHumanWitness(kinds: seq<Kind>) returns (i: nat)
    requires HumanCount(kinds) >= 2
    ensures SecondHumanFromEnd(kinds, i)
  {
    var rest := kinds[1..];
    if HumanCount(rest) >= 2 {
      var k := SecondHumanWitness(rest);
      assert rest[k..] == kinds[k + 1..];
      i := k + 1;
    } else {
      assert kinds[0..] == kinds;
      i := 0;
    }
  }

  /** The last message is never the second human from the end, so the two
      annotations never fall on the same message. */
  lemma SecondHumanNotLast(kinds: seq<Kind>, i: int)
    requires SecondHumanFromEnd(kinds, i)
    ensures i < |kinds| - 1
  {
    assert kinds[i..][1..] == kinds[i + 1..];
    assert HumanCount(kinds[i + 1..]) == 1;
  }

  /** What `addCachingHeaders` selects: the last message, plus exactly one more
      message when at least two are human (a human, the second from the end),
      and nothing more; an empty history selects nothing. */
  lemma CacheSelection(kinds: seq<Kind>)
    ensures kinds == [] ==> forall i :: !CacheSelected(kinds, i)
    ensures kinds != [] ==> CacheSelected(kinds, |kinds| - 1)
    ensures HumanCount(kinds) < 2 ==> forall i :: CacheSelected(kinds, i) ==> i == |kinds| - 1
    ensures HumanCount(kinds) >= 2 ==>
      exists j :: 0 <= j < |kinds| - 1 && kinds[j] == Human && forall i :: CacheSelected(kinds, i) <==> i == j || i == |kinds| - 1
  {
    SecondHumanExists(kinds);
    if HumanCount(kinds) >= 2 {
      var j :| SecondHumanFromEnd(kinds, j);
      SecondHumanNotLast(kinds, j);
      forall i ensures CacheSelected(kinds, i) <==> i == j || i == |kinds| - 1 {
        if SecondHumanFromEnd(kinds, i) {
          SecondHumanUnique(kinds, i, j);
        }
      }
    }
  }

  /** Annotating content that is already annotated nests it one level deeper:
      the annotation is not idempotent. */
  lemma CacheWrapNests(c: Json)
    ensures CacheWrap(c) != c
    ensures CacheWrap(CacheWrap(c)) != CacheWrap(c)
    ensures Field(CacheWrap(CacheWrap(c)).items[0], "text") == Some(CacheWrap(c))
  {
    assert CacheWrap(c).items[0].fields["text"] == c;
    assert c < CacheWrap(c).items[0];
    assert CacheWrap(c).items[0] < CacheWrap(c);
  }

  /** `addCache`: overwrite the message's content with its annotated form. */
  method AddCache(m: Message)
    modifies m
    ensures m.content == CacheWrap(old(m.content))
  {
    m.content := CacheWrap(m.content);
  }

  /** `addCachingHeaders`: an empty history is returned as the same array;
      otherwise a fresh array holding the same message objects in the same
      order, after the last message and the second human from the end have
      had their content annotated in place. The objects are shared with the
      input, so the caller's messages change too. */
  method AddCachingHeaders(messages: array<Message>) returns (cached: array<Message>)
    requires forall i, j :: 0 <= i < j < messages.Length ==> messages[i] != messages[j]
    modifies set i | 0 <= i < messages.Length :: messages[i]
    ensures messages.Length == 0 ==> cached == messages
    ensures messages.Length > 0 ==> fresh(cached)
    ensures cached[..] == messages[..]
    ensures forall i :: 0 <= i < messages.Length ==>
      messages[i].content ==
        if CacheSelected(KindsOf(messages[..]), i) then CacheWrap(old(messages[i].content)) else old(messages[i].content)
  {
    if messages.Length == 0 {
      return messages;
    }
    var n := messages.Length;
    cached := new Message[n](k requires 0 <= k < n reads messages => messages[k]);
    ghost var kinds := KindsOf(messages[..]);
    AddCache(cached[n - 1]);

    var humanCount := 0;
    var i := n - 1;
    ghost var chosen: int := -1;
    while i >= 0
      invariant -1 <= i < n
      invariant cached[..] == messages[..]
      invariant humanCount == HumanCount(kinds[i + 1..]) && humanCount < 2 && chosen == -1
      invariant forall k :: 0 <= k < n ==>
        messages[k].content == if k == n - 1 then CacheWrap(old(messages[k].content)) else old(messages[k].content)
    {
      if cached[i].kind == Human {
        humanCount := humanCount + 1;
        if humanCount == 2 {
          assert kinds[i..][1..] == kinds[i + 1..];
          assert SecondHumanFromEnd(kinds, i);
          SecondHumanNotLast(kinds, i);
          AddCache(cached[i]);
          chosen := i;
          break;
        }
      }
      assert kinds[i..][1..] == kinds[i + 1..];
      i := i - 1;
    }

    assert chosen == -1 ==> HumanCount(kinds) < 2 by {
      if chosen == -1 {
        assert kinds[0..] == kinds;
      }
    }
    ScanSelection(kinds, chosen);
  }

  /** The backward scan's outcome is the selection: the last position and the
      human it stopped at, if it stopped at one. */
  lemma ScanSelection(kinds: seq<Kind>, chosen: int)
    requires kinds != []
    requires chosen == -1 ==> HumanCount(kinds) < 2
    requires chosen != -1 ==> SecondHumanFromEnd(kinds, chosen)
    ensures forall k :: CacheSelected(kinds, k) <==> 0 <= k < |kinds| && (k == |kinds| - 1 || k == chosen)
  {
    forall k ensures CacheSelected(kinds, k) <==> 0 <= k < |kinds| && (k == |kinds| - 1 || k == chosen) {
      if SecondHumanFromEnd(kinds, k) {
        if chosen != -1 {
          SecondHumanUnique(kinds, k, chosen);
        } else {
          assert kinds[0..] == kinds;
          HumanCountSuffix(kinds, 0, k);
        }
      }
    }
  }

  // ---------------------------------------------------------------------------
  // Routing and the workflow
  // ---------------------------------------------------------------------------

  /** LangGraph's reserved entry and exit node names. */
  const START: string := "__start__"
  const END: string := "__end__"

  /** Where the graph goes next: a node name (or END), or the error raised on the way. */
  datatype Route = Goto(target: string) | Crash(error: Thrown)

  /** `shouldContinue`. An empty state has no last message: reading its
      `tool_calls` throws. */
  function ShouldContinue(messages: seq<Message>): (r: Route)
    reads messages
    ensures r.Crash? <==> messages == []
    ensures r.Goto? ==> r.target in {"tools", "agent", END}
  {
    if messages == [] then Crash(JsError(TYPE_ERROR))
    else
      var last := messages[|messages| - 1];
      if |last.toolCalls| > 0 then Goto("tools")
      else if Truthy(last.content) && last.kind == Tool then Goto("agent")
      else Goto(END)
  }

  /** The router's three outcomes, each characterised by the last message;
      pending tool calls take precedence over everything else. */
  lemma ShouldContinueOutcomes(messages: seq<Message>)
    requires messages != []
    ensures var last := messages[|messages| - 1];
      && (ShouldContinue(messages) == Goto("tools") <==> |last.toolCalls| > 0)
      && (ShouldContinue(messages) == Goto("agent") <==>
            |last.toolCalls| == 0 && last.kind == Tool && Truthy(last.content))
      && (ShouldContinue(messages) == Goto(END) <==>
            |last.toolCalls| == 0 && !(last.kind == Tool && Truthy(last.content)))
  {
  }

  /** An edge added to the state graph: a fixed edge, or a conditional edge
      whose target is chosen by `shouldContinue`. */
  datatype Edge = Direct(from: string, to: string) | Conditional(from: string)

  datatype Workflow = Workflow(nodes: seq<string>, edges: seq<Edge>)

  /** The graph `createWorkflow` builds, nodes and edges in the order they are added. */
  function CreateWorkflow(): (w: Workflow)
    ensures "agent" in w.nodes && "tool" in w.nodes
    ensures forall e :: e in w.edges ==> e.from == START || e.from in w.nodes
    ensures forall e :: e in w.edges && e.Direct? ==> e.to in w.nodes
    ensures forall e :: e in w.edges && e.Conditional? ==> e.from == "agent"
  {
    Workflow(["agent", "tool"], [Direct(START, "agent"), Conditional("agent"), Direct("tool", "agent")])
  }

  /** The routes out of node `from`, one per edge leaving it, in edge order. */
  function NextSteps(edges: seq<Edge>, from: string, messages: seq<Message>): seq<Route>
    reads messages
  {
    if edges == [] then []
    else
      var e := edges[0];
      var here := if e.from != from then [] else if e.Direct? then [Goto(e.to)] else [ShouldContinue(messages)];
      here + NextSteps(edges[1..], from, messages)
  }

  /** Every run starts at the agent node; the tool node always returns to the
      agent; after the agent the router alone decides. */
  lemma WorkflowTopology(messages: seq<Message>)
    ensures NextSteps(CreateWorkflow().edges, START, messages) == [Goto("agent")]
    ensures NextSteps(CreateWorkflow().edges, "tool", messages) == [Goto("agent")]
    ensures NextSteps(CreateWorkflow().edges, "agent", messages) == [ShouldContinue(messages)]
  {
    UnfoldWorkflowEdges(START, messages);
    UnfoldWorkflowEdges("tool", messages);
    UnfoldWorkflowEdges("agent", messages);
  }

  /** The routes out of `from` in the workflow, edge by edge. */
  lemma UnfoldWorkflowEdges(from: string, messages: seq<Message>)
    ensures NextSteps(CreateWorkflow().edges, from, messages) ==
      (if from == START then [Goto("agent")] else [])
      + (if from == "agent" then [ShouldContinue(messages)] else [])
      + (if from == "tool" then [Goto("agent")] else [])
  {
    var es := CreateWorkflow().edges;
    assert es[1..][1..][1..] == [];
    assert NextSteps(es[1..][1..], from, messages) ==
      (if from == "tool" then [Goto("agent")] else []) + NextSteps(es[1..][1..][1..], from, messages);
    assert NextSteps(es[1..], from, messages) ==
      (if from == "agent" then [ShouldContinue(messages)] else []) + NextSteps(es[1..][1..], from, messages);
  }

  /** The router answers `"tools"` for a pending tool call, but the tool node
      is registered as `"tool"`: that target is neither a node nor END. */
  lemma ToolRouteIsUnregistered(messages: seq<Message>)
    requires messages != [] && |messages[|messages| - 1].toolCalls| > 0
    ensures NextSteps(CreateWorkflow().edges, "agent", messages) == [Goto("tools")]
    ensures "tools" !in CreateWorkflow().nodes && "tools" != END
  {
    WorkflowTopology(messages);
  }
}
