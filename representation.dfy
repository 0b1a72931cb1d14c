/** The interview page of src/representation.ts. The world store and its
    tools are those of WorldStore (with `document` and `world` bound), forget
    is Memory.Forget and push-to-talk is TalkRouter.Router. This module adds
    the interview: starting it connects the realtime node, keeps the session
    instructions in step with the world, registers the two world tools and
    asks for an intro; stopping it disconnects the node. Rendering compares
    the world itself with the empty world. */
module Representation {
  import opened Text
  import opened WorldStore
  import opened Realtime
  import opened PaintOutput

  const START_ACTION: string := "start-interview"
  const STOP_ACTION: string := "stop-interview"

  const UPDATE_TOOL: Tool := Tool("update_by_script", "Update the world model XML by executing a DOM manipulation javascript", false)
  const REWRITE_TOOL: Tool := Tool("rewrite_xml", "Rewrite the entire world xml", false)

  /** The user message that opens the interview. */
  const INTRO_REQUEST: string := "Start the interview now by asking me for an intro"

  /** The interview toggle and the instruction subscription it owns. */
  class Interview {
    const node: RealtimeNode
    var subscribed: bool      // interviewInstructionSub is active
    var action: string        // data-action of the toggle button

    /** The button offers to stop exactly while the node is connected and
        the instructions follow the world. */
    ghost predicate Valid()
      reads this, node
    {
      (action == START_ACTION && !subscribed && !node.connected)
      || (action == STOP_ACTION && subscribed && node.connected)
    }

    constructor (node: RealtimeNode)
      requires !node.connected
      ensures Valid() && this.node == node && action == START_ACTION
    {
      this.node := node;
      subscribed := false;
      action := START_ACTION;
    }

    /** A click on the toggle, as the handler evidently intends it, with the
        node's `mute()` after connecting (muting only disables the audio
        track and sends nothing). Starting: connect, subscribe to the world
        (the store's current value is replayed at once as instructions), register the
        two tools, commit them with "auto", then ask for an intro. Stopping:
        unsubscribe and drop the connection. `instructions` is the template
        of `instructionUpdate$` as a function of the world text; `world` is
        the store `currentWorldXML`, which the click does not change. */
    method Toggle(world: Cell, instructions: string -> string)
      requires Valid()
      modifies this, node
      ensures Valid()
      ensures old(action) == START_ACTION ==>
        action == STOP_ACTION
        && node.sessionTools == Committed(old(node.draftTools) + [UPDATE_TOOL, REWRITE_TOOL])
        && node.draftTools == []
        && node.sent == old(node.sent) + [
             SessionInstructions(Trim(instructions(old(world.value)))),
             SessionTools(ServerTools(node.sessionTools), "auto"),
             UserMessage(INTRO_REQUEST),
             ResponseCreate]
      ensures old(action) != START_ACTION ==>
        action == START_ACTION
        && node.sessionTools == old(node.sessionTools) && node.draftTools == old(node.draftTools)
        && node.sent == old(node.sent)
    {
      if action == START_ACTION {
        Start(world, instructions);
      } else {
        subscribed := false;
        node.Stop();
        action := START_ACTION;
      }
    }

    /** The start branch of Toggle, from the idle interview. */
    method Start(world: Cell, instructions: string -> string)
      requires Valid() && action == START_ACTION
      modifies this, node
      ensures Valid() && action == STOP_ACTION
      ensures node.sessionTools == Committed(old(node.draftTools) + [UPDATE_TOOL, REWRITE_TOOL])
      ensures node.draftTools == []
      ensures node.sent == old(node.sent) + [
        SessionInstructions(Trim(instructions(old(world.value)))),
        SessionTools(ServerTools(node.sessionTools), "auto"),
        UserMessage(INTRO_REQUEST),
        ResponseCreate]
    {
      var text := world.value;
      node.Connect();
      subscribed := true;
      ghost var before := node.sent;
      var _ := node.UpdateSessionInstructions(instructions(text));
      var n := node.AddDraftTool(UPDATE_TOOL);
      n := node.AddDraftTool(REWRITE_TOOL);
      assert node.draftTools == old(node.draftTools) + [UPDATE_TOOL, REWRITE_TOOL];
      n := node.CommitDraftTools("auto");
      n := node.AppendUserMessage(INTRO_REQUEST);
      n := node.CreateResponse();
      assert node.sent == before + [
        SessionInstructions(Trim(instructions(text))),
        SessionTools(ServerTools(node.sessionTools), "auto"),
        UserMessage(INTRO_REQUEST),
        ResponseCreate];
      action := STOP_ACTION;
    }

    /** A click on the toggle as written: after connecting, the handler calls
        `muteMicrophone`, which the realtime node does not define, so a
        TypeError ends the handler there. The node stays connected, nothing is
        subscribed, registered or sent, and the button still offers to start.
        Stopping is as in Toggle. The result is the name of what escaped. */
    method ClickAsWritten() returns (escaped: Option<string>)
      modifies this, node
      ensures node.sessionTools == old(node.sessionTools) && node.draftTools == old(node.draftTools)
      ensures node.sent == old(node.sent)
      ensures old(action) == START_ACTION ==>
        escaped == Some("TypeError") && node.connected
        && action == START_ACTION && subscribed == old(subscribed)
      ensures old(action) != START_ACTION ==>
        escaped == None && !node.connected && action == START_ACTION && !subscribed
    {
      if action == START_ACTION {
        node.Connect();
        return Some("TypeError");
      }
      subscribed := false;
      node.Stop();
      action := START_ACTION;
      escaped := None;
    }

    /** The world store published `world`: while the interview runs, the
        session instructions are rebuilt from it; otherwise nothing is sent. */
    method WorldPublished(world: string, instructions: string -> string)
      requires Valid()
      modifies node
      ensures Valid()
      ensures node.sessionTools == old(node.sessionTools) && node.draftTools == old(node.draftTools)
      ensures subscribed ==> node.sent == old(node.sent) + [SessionInstructions(Trim(instructions(world)))]
      ensures !subscribed ==> node.sent == old(node.sent)
    {
      if subscribed {
        var _ := node.UpdateSessionInstructions(instructions(world));
      }
    }
  }

  /** As written, the first click on a fresh interview connects the node but
      leaves the button offering to start: the interview's invariant is broken
      and the session has neither instructions, tools nor an intro. */
  method WrittenStartLeavesInterviewUnstarted(node: RealtimeNode) returns (interview: Interview)
    requires !node.connected
    modifies node
    ensures fresh(interview) && interview.node == node
    ensures node.connected && interview.action == START_ACTION && !interview.subscribed
    ensures node.sent == old(node.sent) && node.sessionTools == old(node.sessionTools)
    ensures !interview.Valid()
  {
    interview := new Interview(node);
    var escaped := interview.ClickAsWritten();
  }

  /** A started interview dispatches a completed call by name: the two world
      tools are found, in the order they were registered, and any other name
      is ignored. */
  lemma InterviewDispatch(ev: ServerEvent)
    requires ev.eventType == "response.done" && |ev.output| > 0
    requires ev.output[0].itemType == "function_call" && ev.output[0].status == "completed"
    ensures var call := ToolCall(ev, Committed([UPDATE_TOOL, REWRITE_TOOL]));
      (call.Some? <==> ev.output[0].name == UPDATE_TOOL.name || ev.output[0].name == REWRITE_TOOL.name)
      && (ev.output[0].name == UPDATE_TOOL.name ==> call.value.0 == SessionTool(UPDATE_TOOL, ZodFormat))
      && (ev.output[0].name == REWRITE_TOOL.name ==> call.value.0 == SessionTool(REWRITE_TOOL, ZodFormat))
  {
    var tools := Committed([UPDATE_TOOL, REWRITE_TOOL]);
    assert tools[0].tool == UPDATE_TOOL && tools[1].tool == REWRITE_TOOL;
    assert UPDATE_TOOL.name[0] != REWRITE_TOOL.name[0];
  }

  /** `update_by_script` as the realtime dispatcher sees it: the text it
      returns, or the error that escaped it (the SyntaxError of `new Function`,
      or the TypeError of a catch that read `.message` of `null`/`undefined`). */
  function ScriptToolOutcome(engine: Engine, source: string, script: string): (o: RunOutcome)
    ensures o.Threw? <==> RunScript(engine, DocumentAndWorld, source, script).Uncaught?
    ensures o.Threw? && o.name == "SyntaxError" <==> engine.compile(Params(DocumentAndWorld), script).SyntaxError?
    ensures o.Threw? ==> o.name == "SyntaxError" || o.name == "TypeError"
    ensures o.Output? ==> o.text == "Done" || "Error: " <= o.text
  {
    match RunScript(engine, DocumentAndWorld, source, script)
    case Serialized(_) => Output("Done")
    case Caught(m) => Output("Error: " + m)
    case Uncaught(name, m) => Threw(name, m)
  }

  /** The tool as run by the dispatcher: the store changes as
      WorldStore.UpdateByScript says, and the outcome is ScriptToolOutcome of
      the world it started from. */
  method RunUpdateTool(cell: Cell, engine: Engine, script: string) returns (o: RunOutcome)
    requires cell.Valid()
    modifies cell
    ensures cell.Valid()
    ensures o == ScriptToolOutcome(engine, old(cell.value), script)
    ensures match RunScript(engine, DocumentAndWorld, old(cell.value), script)
      case Serialized(xml) => cell.value == xml && cell.emitted == old(cell.emitted) + [xml]
      case _ => cell.value == old(cell.value) && cell.emitted == old(cell.emitted)
  {
    var r := UpdateByScript(cell, engine, DocumentAndWorld, script);
    if r.Returned? {
      o := Output(r.text);
    } else {
      o := Threw(r.name, r.message);
    }
  }

  /** So in the interview every script call is answered: an error that
      escapes `update_by_script` (a compile failure, or the TypeError of a
      thrown `null`/`undefined`) comes back to the model as its name followed
      by its message. */
  lemma InterviewAnswersEveryScript(engine: Engine, source: string, script: string)
    ensures var reply := ReplyText(ScriptToolOutcome(engine, source, script));
      match RunScript(engine, DocumentAndWorld, source, script)
      case Serialized(_) => reply == "Done"
      case Caught(m) => reply == "Error: " + m
      case Uncaught(name, m) =>
        (name == "SyntaxError" || name == "TypeError") && reply == (if m == "" then name else name + " " + m)
  {
  }

  /** `imagePrompt$` then `generateImage$` for the world at the render click. */
  function WorldPicture(world: string, reply: Option<string>): Option<ImageSource> {
    Picture(RequestFor(world, EMPTY_XML, "Empty"), reply, "Empty")
  }

  /** The empty world always renders the placeholder; any other world does
      only when the model itself answers "Empty". */
  lemma WorldPlaceholderExactly(world: string, reply: Option<string>)
    ensures WorldPicture(world, reply) == Some(Placeholder(PLACEHOLDER_URL))
      <==> world == EMPTY_XML || reply == Some("Empty")
  {
    PlaceholderExactly(world, EMPTY_XML, "Empty", reply);
  }
}
