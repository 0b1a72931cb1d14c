/** Submission queues of the text/voice lanes.

    src/lib/sub-systems/default-input.ts pushes every new text onto
    `submissionQueue`, sends a copy of the whole queue, and when the request
    completes removes every entry whose value was sent, while keeping a chat
    transcript. dictate-input.ts, main.ts and representation.ts build
    `[...submissionQueue, text]` but never push, so their queue stays empty. */
module Submission {
  import opened Text
  import opened TalkRouter

  /** `queue.filter((v) => !consumed.includes(v))`: drops every entry whose
      value was consumed, duplicates included, and keeps the others with their
      multiplicities, in their original order. */
  function Reconcile(queue: seq<string>, consumed: seq<string>): (r: seq<string>)
    ensures forall k :: 0 <= k < |r| ==> r[k] !in consumed
    ensures forall v :: v !in consumed ==> multiset(r)[v] == multiset(queue)[v]
    ensures Subseq(r, queue)
    decreases |queue|
  {
    if queue == [] then []
    else
      assert queue == [queue[0]] + queue[1..];
      var rest := Reconcile(queue[1..], consumed);
      if queue[0] in consumed then rest
      else
        assert ([queue[0]] + rest)[1..] == rest;
        [queue[0]] + rest
  }

  /** What a trigger starts: the inputs of the new request and the queue it leaves. */
  datatype Submitted = Submitted(queue: seq<string>, inputs: seq<string>)

  /** default-input.ts: push, then send a copy of the whole queue. */
  function SubmitPushing(queue: seq<string>, text: string): (s: Submitted)
    ensures |s.queue| == |queue| + 1
    ensures s.inputs == s.queue && s.queue[..|queue|] == queue && s.queue[|queue|] == text
  {
    Submitted(queue + [text], queue + [text])
  }

  /** dictate-input.ts, main.ts, representation.ts: send the queue followed by
      the text, without pushing it. */
  function SubmitUnpushed(queue: seq<string>, text: string): (s: Submitted)
    ensures |s.inputs| == |queue| + 1
    ensures s.queue == queue && s.inputs[..|queue|] == queue && s.inputs[|queue|] == text
  {
    Submitted(queue, queue + [text])
  }

  /** Texts pushed after a request was sent survive its reconcile, in order. */
  lemma {:induction false} ReconcileKeepsUnconsumed(late: seq<string>, consumed: seq<string>)
    requires forall k :: 0 <= k < |late| ==> late[k] !in consumed
    ensures Reconcile(late, consumed) == late
    decreases |late|
  {
    if late != [] {
      ReconcileKeepsUnconsumed(late[1..], consumed);
      ReconcileCons(late[0], late[1..], consumed);
      assert [late[0]] + late[1..] == late;
    }
  }

  /** A prefix of sent texts followed by unsent ones: reconciling drops the
      prefix and keeps the rest. */
  lemma {:induction false} ReconcileDropsSentPrefix(sent: seq<string>, late: seq<string>, consumed: seq<string>)
    requires forall k :: 0 <= k < |sent| ==> sent[k] in consumed
    requires forall k :: 0 <= k < |late| ==> late[k] !in consumed
    ensures Reconcile(sent + late, consumed) == late
    decreases |sent|
  {
    if sent == [] {
      assert sent + late == late;
      ReconcileKeepsUnconsumed(late, consumed);
    } else {
      ReconcileDropsSentPrefix(sent[1..], late, consumed);
      assert sent + late == [sent[0]] + (sent[1..] + late);
      ReconcileCons(sent[0], sent[1..] + late, consumed);
    }
  }

  /** The pushing lane: texts pushed while a request is in flight, none equal
      to a sent one, are exactly what its completion leaves in the queue. */
  lemma ReconcileAfterLatePush(queue: seq<string>, text: string, late: seq<string>)
    requires forall k :: 0 <= k < |late| ==> late[k] != text && late[k] !in queue
    ensures var s := SubmitPushing(queue, text);
      Reconcile(s.queue + late, s.inputs) == late
  {
    var s := SubmitPushing(queue, text);
    forall k | 0 <= k < |s.queue| ensures s.queue[k] in s.inputs {
    }
    forall k | 0 <= k < |late| ensures late[k] !in s.inputs {
      assert late[k] !in queue + [text];
    }
    ReconcileDropsSentPrefix(s.queue, late, s.inputs);
  }

  lemma ReconcileCons(v: string, rest: seq<string>, consumed: seq<string>)
    ensures Reconcile([v] + rest, consumed) ==
      if v in consumed then Reconcile(rest, consumed) else [v] + Reconcile(rest, consumed)
  {
    assert ([v] + rest)[1..] == rest;
  }

  /** When a second text arrives before the first request finished (the first
      is cancelled), the pushing lane resends the first text with the second,
      and the second reply's reconcile clears both. */
  lemma {:induction false} PushingLaneCarriesSupersededText(queue: seq<string>, a: string, b: string)
    ensures var second := SubmitPushing(SubmitPushing(queue, a).queue, b);
      a in second.inputs && b in second.inputs && Reconcile(second.queue, second.inputs) == []
  {
    var second := SubmitPushing(SubmitPushing(queue, a).queue, b);
    assert second.inputs[|queue|] == a;
  }

  /** The lane that never pushes: when a second text supersedes the first,
      the second request carries only the second text. */
  lemma UnpushedLaneDropsSupersededText(a: string, b: string)
    requires a != b
    ensures var first := SubmitUnpushed([], a);
      SubmitUnpushed(first.queue, b).inputs == [b] && a !in SubmitUnpushed(first.queue, b).inputs
  {
  }

  /** The text that start-chat submits. */
  const START_TEXT: string := "Let's get started."

  /** default-input.ts, recognition$: text is forwarded only while the armed
      target is this lane's field, and only when it is present and non-empty.
      (dictate-input.ts applies the same two filters, in the other order, with
      `#tell-prompt` as its field.) */
  function ForwardRecognition(armed: Option<ElementId>, own: ElementId, recognized: Option<string>): (text: Option<string>)
    ensures text.Some? <==> armed == Some(own) && recognized.Some? && recognized.value != ""
    ensures text.Some? ==> text == recognized
  {
    if armed == Some(own) && recognized.Some? && |recognized.value| > 0 then recognized else None
  }

  /** main.ts, voiceSubmit$: any present, non-empty recognition is
      submitted; no target is consulted. */
  function VoiceSubmit(recognized: Option<string>): (text: Option<string>)
    ensures text.Some? <==> recognized.Some? && recognized.value != ""
    ensures text.Some? ==> text == recognized
  {
    if recognized.Some? && |recognized.value| > 0 then recognized else None
  }

  /** A keydown in the prompt field (main.ts and storybox.ts, submit$): Enter
      with a non-empty value submits that value and clears the field; any
      other key, or an empty field, leaves the field as it was. */
  function EnterSubmit(key: string, value: string): (r: (Option<string>, string))
    ensures r.0.Some? <==> key == "Enter" && value != ""
    ensures r.0.Some? ==> r.1 == ""
    ensures r.0.GetOr("") + r.1 == value
  {
    if key == "Enter" && |value| > 0 then (Some(value), "") else (None, value)
  }

  /** One "User: ..." transcript line per input, in order. */
  function UserLines(inputs: seq<string>): (lines: seq<string>)
    ensures |lines| == |inputs|
    ensures forall k :: 0 <= k < |inputs| ==> lines[k] == "User: " + inputs[k]
  {
    seq(|inputs|, k requires 0 <= k < |inputs| => "User: " + inputs[k])
  }

  /** The chat lane of default-input.ts. */
  class DefaultInput {
    var queue: seq<string>             // submissionQueue
    var transcript: seq<string>
    var transcriptDisplay: string      // #chat-transcript innerText
    var spoken: seq<string>            // texts handed to azureTtsNode.queue

    constructor ()
      ensures queue == [] && transcript == [] && transcriptDisplay == "" && spoken == []
    {
      queue, transcript, transcriptDisplay, spoken := [], [], "", [];
    }

    /** A start click or a forwarded recognition: push, snapshot the queue. */
    method Trigger(text: string) returns (inputs: seq<string>)
      modifies this
      ensures queue == SubmitPushing(old(queue), text).queue
      ensures inputs == SubmitPushing(old(queue), text).inputs
      ensures transcript == old(transcript) && transcriptDisplay == old(transcriptDisplay) && spoken == old(spoken)
    {
      queue := queue + [text];
      inputs := queue;
    }

    /** A click on #start-chat: clears the transcript, then submits START_TEXT. */
    method Start() returns (inputs: seq<string>)
      modifies this
      ensures transcript == []
      ensures queue == old(queue) + [START_TEXT] && inputs == queue
      ensures transcriptDisplay == old(transcriptDisplay) && spoken == old(spoken)
    {
      transcript := [];
      inputs := Trigger(START_TEXT);
    }

    /** The request for `inputs` produced its final content (null when absent). */
    method Complete(inputs: seq<string>, content: Option<string>) returns (reply: string)
      modifies this
      ensures queue == Reconcile(old(queue), inputs)
      ensures transcript == old(transcript) + UserLines(inputs) + ["You: " + content.GetOr("")]
      ensures transcriptDisplay == Join(transcript, "\n")
      ensures reply == content.GetOr("")
      ensures spoken == if reply != "" then old(spoken) + [reply] else old(spoken)
    {
      queue := Reconcile(queue, inputs);
      transcript := transcript + UserLines(inputs);
      transcript := transcript + ["You: " + content.GetOr("")];
      transcriptDisplay := Join(transcript, "\n");
      reply := content.GetOr("");
      if reply != "" {
        spoken := spoken + [reply];
      }
    }
  }

  /** The lane of dictate-input.ts (and of main.ts and representation.ts):
      nothing is ever pushed, so the queue is empty in every reachable state. */
  class ReplyLane {
    var queue: seq<string>             // submissionQueue
    var messageOutput: string          // #message-output textContent

    ghost predicate Valid()
      reads this
    {
      queue == []
    }

    constructor ()
      ensures Valid() && messageOutput == ""
    {
      queue, messageOutput := [], "";
    }

    /** `[...submissionQueue, text]`: every request's inputs are exactly [text]. */
    method Trigger(text: string) returns (inputs: seq<string>)
      requires Valid()
      ensures inputs == [text]
    {
      inputs := SubmitUnpushed(queue, text).inputs;
    }

    /** The request for `inputs` produced its final content: shown, then the
        queue is reconciled by value (a no-op on the empty queue). */
    method Complete(inputs: seq<string>, content: Option<string>)
      requires Valid()
      modifies this
      ensures Valid()
      ensures messageOutput == content.GetOr("")
    {
      messageOutput := content.GetOr("");
      queue := Reconcile(queue, inputs);
    }
  }
}
