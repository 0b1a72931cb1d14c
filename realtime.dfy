/** The tool registry and function-call dispatch of
    src/lib/ai-bar/lib/elements/openai-realtime-node.ts.

    The WebRTC data channel is modelled by the flag `connected` (a data channel
    is present) and by `sent`, every message handed to `dc.send`, in order;
    `dc?.send` does nothing when no channel is present. JSON encoding, zod
    schemas and the handshake are left out. */
module Realtime {
  import opened Text

  /** A tool as handed to `addDraftTool`: `schema` tells whether a hand-written
      JSON schema is present. Its `run` callback is supplied at dispatch time. */
  datatype Tool = Tool(name: string, description: string, hasSchema: bool)

  /** How a committed tool's arguments are parsed: with the zod response
      format built from its parameters, or with plain `JSON.parse` when a
      hand-written schema made the format null. */
  datatype Parser = ZodFormat | PlainJson

  datatype SessionTool = SessionTool(tool: Tool, parser: Parser)

  /** Where the parameters sent for a tool come from. */
  datatype ParameterSource = HandWrittenSchema | ZodJsonSchema

  datatype ServerTool = ServerTool(name: string, description: string, parameters: ParameterSource)

  /** The messages the node sends over the data channel. */
  datatype Message =
    | SessionTools(tools: seq<ServerTool>, toolChoice: string)   // session.update with tools
    | SessionInstructions(instructions: string)                  // session.update with instructions
    | UserMessage(text: string)                                  // conversation.item.create, message
    | FunctionCallOutput(callId: string, output: string)         // conversation.item.create, function_call_output
    | ResponseCreate                                             // response.create

  /** One item of `response.output`. */
  datatype OutputItem = OutputItem(itemType: string, status: string, name: string, callId: string, arguments: string)

  /** A server event; a missing `response.output` is the empty sequence. */
  datatype ServerEvent = ServerEvent(eventType: string, output: seq<OutputItem>)

  /** Parsing the arguments and running the tool: its output, or the `name`
      and `message` of what it threw ("" for a missing or empty field). */
  datatype RunOutcome = Output(text: string) | Threw(name: string, message: string)

  /** `this.draftToos.map(...)`: the drafts in order, each with its parser. */
  function Committed(drafts: seq<Tool>): (tools: seq<SessionTool>)
    ensures |tools| == |drafts|
    ensures forall k :: 0 <= k < |drafts| ==>
      tools[k].tool == drafts[k] && (tools[k].parser == PlainJson <==> drafts[k].hasSchema)
  {
    seq(|drafts|, k requires 0 <= k < |drafts| =>
      SessionTool(drafts[k], if drafts[k].hasSchema then PlainJson else ZodFormat))
  }

  /** `serverTools`: what the session is told about each committed tool. */
  function ServerTools(tools: seq<SessionTool>): (server: seq<ServerTool>)
    ensures |server| == |tools|
    ensures forall k :: 0 <= k < |tools| ==>
      server[k].name == tools[k].tool.name && server[k].description == tools[k].tool.description
      && (server[k].parameters == HandWrittenSchema <==> tools[k].tool.hasSchema)
  {
    seq(|tools|, k requires 0 <= k < |tools| =>
      ServerTool(tools[k].tool.name, tools[k].tool.description,
        if tools[k].tool.hasSchema then HandWrittenSchema else ZodJsonSchema))
  }

  /** `sessionTools.find((tool) => tool.name === name)`, as an index. */
  function FindTool(tools: seq<SessionTool>, name: string): (r: Option<nat>)
    ensures r.Some? ==> r.value < |tools| && tools[r.value].tool.name == name
    ensures r.Some? ==> forall k :: 0 <= k < r.value ==> tools[k].tool.name != name
    ensures r.None? <==> forall k :: 0 <= k < |tools| ==> tools[k].tool.name != name
  {
    if tools == [] then None
    else if tools[0].tool.name == name then Some(0)
    else
      match FindTool(tools[1..], name)
      case None => None
      case Some(i) =>
        assert forall k :: 1 <= k < i + 1 ==> tools[k] == tools[1..][k - 1];
        Some(i + 1)
  }

  /** The call a `response.done` event asks for: its first output item when
      that is a completed `function_call`, with the first session tool of that
      name; None when the event is to be ignored. */
  function ToolCall(ev: ServerEvent, tools: seq<SessionTool>): (r: Option<(SessionTool, OutputItem)>)
    ensures r.Some? <==>
      ev.eventType == "response.done" && |ev.output| > 0
      && ev.output[0].itemType == "function_call" && ev.output[0].status == "completed"
      && exists k :: 0 <= k < |tools| && tools[k].tool.name == ev.output[0].name
    ensures r.Some? ==>
      r.value.1 == ev.output[0] && r.value.0 == tools[FindTool(tools, ev.output[0].name).value]
  {
    if ev.eventType == "response.done" && |ev.output| > 0 then
      var item := ev.output[0];
      if item.itemType == "function_call" && item.status == "completed" then
        match FindTool(tools, item.name)
        case None => None
        case Some(i) => Some((tools[i], item))
      else None
    else None
  }

  /** `[e.name, e.message].filter(Boolean).join(" ")` */
  function ErrorText(name: string, message: string): (text: string)
    ensures name != "" && message != "" ==> text == name + " " + message
    ensures name == "" ==> text == message
    ensures message == "" ==> text == name
  {
    assert [name, message][1..] == [message] && [message][1..] == [];
    var tail := if message == "" then [] else [message];
    assert NonEmptyParts([message]) == tail;
    assert NonEmptyParts([name, message]) == if name == "" then tail else [name] + tail;
    assert name != "" && message != "" ==> NonEmptyParts([name, message]) == [name, message];
    assert Join([name, message], " ") == name + " " + Join([message], " ");
    Join(NonEmptyParts([name, message]), " ")
  }

  /** `parts.filter(Boolean)` for strings. */
  function NonEmptyParts(parts: seq<string>): (r: seq<string>)
    ensures Subseq(r, parts)
    ensures forall k :: 0 <= k < |r| ==> r[k] != ""
    ensures forall k :: 0 <= k < |parts| && parts[k] != "" ==> parts[k] in r
    ensures forall v :: v != "" ==> multiset(r)[v] == multiset(parts)[v]
    decreases |parts|
  {
    if parts == [] then []
    else
      assert parts == [parts[0]] + parts[1..];
      var rest := NonEmptyParts(parts[1..]);
      if parts[0] == "" then
        forall k | 1 <= k < |parts| && parts[k] != "" ensures parts[k] in rest {
          assert parts[k] == parts[1..][k - 1];
        }
        rest
      else
        var r := [parts[0]] + rest;
        assert r[1..] == rest;
        forall k | 1 <= k < |parts| && parts[k] != "" ensures parts[k] in r {
          assert parts[k] == parts[1..][k - 1];
        }
        r
  }

  /** The output string replied for a run. */
  function ReplyText(outcome: RunOutcome): (reply: string)
    ensures outcome.Output? ==> reply == outcome.text
    ensures outcome.Threw? ==> reply == ErrorText(outcome.name, outcome.message)
    ensures outcome.Threw? && outcome.name != "" ==>
      |outcome.name| <= |reply| && reply[..|outcome.name|] == outcome.name
    ensures outcome.Threw? && outcome.name == "" ==> reply == outcome.message
  {
    match outcome
    case Output(text) => text
    case Threw(name, message) => ErrorText(name, message)
  }

  class RealtimeNode {
    var connected: bool                  // connection.dc is present
    var sessionTools: seq<SessionTool>
    var draftTools: seq<Tool>
    var sent: seq<Message>

    constructor ()
      ensures !connected && sessionTools == [] && draftTools == [] && sent == []
    {
      connected, sessionTools, draftTools, sent := false, [], [], [];
    }

    /** `start()` once the data channel is open. */
    method Connect()
      modifies this
      ensures connected
      ensures sessionTools == old(sessionTools) && draftTools == old(draftTools) && sent == old(sent)
    {
      connected := true;
    }

    /** `this.connection?.dc?.send(...)` */
    method Send(m: Message)
      modifies this
      ensures sent == if old(connected) then old(sent) + [m] else old(sent)
      ensures connected == old(connected) && sessionTools == old(sessionTools) && draftTools == old(draftTools)
    {
      if connected {
        sent := sent + [m];
      }
    }

    /** `addDraftTool`: appends to the drafts and returns the node for chaining. */
    method AddDraftTool(tool: Tool) returns (node: RealtimeNode)
      modifies this
      ensures node == this
      ensures draftTools == old(draftTools) + [tool]
      ensures connected == old(connected) && sessionTools == old(sessionTools) && sent == old(sent)
    {
      draftTools := draftTools + [tool];
      node := this;
    }

    /** `commitDraftTools(tool_choice = "auto")`: the drafts, in order, become
        the session tools, the session is told, and the drafts are emptied. */
    method CommitDraftTools(toolChoice: string) returns (node: RealtimeNode)
      modifies this
      ensures node == this
      ensures sessionTools == Committed(old(draftTools)) && draftTools == []
      ensures sent == if old(connected) then old(sent) + [SessionTools(ServerTools(sessionTools), toolChoice)] else old(sent)
      ensures connected == old(connected)
    {
      sessionTools := Committed(draftTools);
      Send(SessionTools(ServerTools(sessionTools), toolChoice));
      draftTools := [];
      node := this;
    }

    /** `updateSessionInstructions`: the instructions are sent trimmed. */
    method UpdateSessionInstructions(instructions: string) returns (node: RealtimeNode)
      modifies this
      ensures node == this
      ensures sent == if old(connected) then old(sent) + [SessionInstructions(Trim(instructions))] else old(sent)
      ensures connected == old(connected) && sessionTools == old(sessionTools) && draftTools == old(draftTools)
    {
      Send(SessionInstructions(Trim(instructions)));
      node := this;
    }

    method AppendUserMessage(text: string) returns (node: RealtimeNode)
      modifies this
      ensures node == this
      ensures sent == if old(connected) then old(sent) + [UserMessage(text)] else old(sent)
      ensures connected == old(connected) && sessionTools == old(sessionTools) && draftTools == old(draftTools)
    {
      Send(UserMessage(text));
      node := this;
    }

    method CreateResponse() returns (node: RealtimeNode)
      modifies this
      ensures node == this
      ensures sent == if old(connected) then old(sent) + [ResponseCreate] else old(sent)
      ensures connected == old(connected) && sessionTools == old(sessionTools) && draftTools == old(draftTools)
    {
      Send(ResponseCreate);
      node := this;
    }

    /** A message from the data channel. A completed function call to a known
        tool is run (`run` parses the arguments and calls the tool), and its
        output, or the text of what it threw, is replied for the same call id,
        followed by a request for a new response. Anything else is ignored. */
    method HandleEvent(ev: ServerEvent, run: (SessionTool, string) -> RunOutcome)
      modifies this
      ensures connected == old(connected) && sessionTools == old(sessionTools) && draftTools == old(draftTools)
      ensures match ToolCall(ev, sessionTools)
        case None => sent == old(sent)
        case Some((tool, item)) =>
          sent == if connected
            then old(sent) + [FunctionCallOutput(item.callId, ReplyText(run(tool, item.arguments))), ResponseCreate]
            else old(sent)
    {
      var call := ToolCall(ev, sessionTools);
      if call.None? {
        return;
      }
      var (tool, item) := call.value;
      var outcome := run(tool, item.arguments);
      if outcome.Output? {
        Send(FunctionCallOutput(item.callId, outcome.text));
      } else {
        Send(FunctionCallOutput(item.callId, ErrorText(outcome.name, outcome.message)));
      }
      var _ := CreateResponse();
    }

    /** `stop()`: the connection is dropped; the tools stay registered. */
    method Stop()
      modifies this
      ensures !connected
      ensures sessionTools == old(sessionTools) && draftTools == old(draftTools) && sent == old(sent)
    {
      connected := false;
    }
  }

  /** After `stop()` a dispatched call sends nothing. */
  method StoppedNodeSendsNothing(node: RealtimeNode, ev: ServerEvent, run: (SessionTool, string) -> RunOutcome)
    modifies node
    ensures node.sent == old(node.sent) && !node.connected
  {
    node.Stop();
    node.HandleEvent(ev, run);
  }

  /** Committing two drafts with the same name: dispatch always picks the
      first of them. */
  lemma FirstOfDuplicateNamesWins(drafts: seq<Tool>, i: nat, j: nat)
    requires i < j < |drafts| && drafts[i].name == drafts[j].name
    requires forall k :: 0 <= k < i ==> drafts[k].name != drafts[i].name
    ensures FindTool(Committed(drafts), drafts[j].name) == Some(i)
  {
    var tools := Committed(drafts);
    assert tools[i].tool.name == drafts[j].name;
  }
}
