# imgen world model, in Dafny

imgen is a set of browser pages that keep a *world model*: an XML document
held in one string store (an RxJS `BehaviorSubject`). A language model edits
this store through two tools, `update_by_script` and `rewrite_xml`. Text,
voice and camera input feed the store. A render button turns it into a
picture. This project models the sequential logic inside that glue and proves
what it does:

- **World store** (`WorldStore`, `Memory`). The store cell and its two tools
  are modelled for the three bindings the pages use: `document` plus `world`,
  `document` alone, and storybox's snapshot taken at submit time. The
  "forget" reset and the XML preview are modelled too. The DOM parser, the
  serializer and the script compiler are the fields of an `Engine` value, so
  every result holds for any behaviour they have.
- **Submission lanes** (`Submission`). These are the chat lane, whose queue
  is pushed, snapshotted and reconciled by value, and the lanes that never
  push. The transcript and the submit filters are modelled too.
- **Push-to-talk routing** (`TalkRouter`). A press arms a target field, a
  release keeps it, and recognition results are appended to the armed field.
- **Frame-change detector** (`Camera`). The detector has a pixel-counting
  loop, exact integer colour distances and real-valued ratios. The reference
  frame is replaced only on a large enough change.
- **Camera descriptions** (`ShowInput`, `MainPage`). Descriptions get scene
  and world tag extraction and re-indentation, a latest-wins accumulator, a
  repeat filter and an in-flight task counter.
- **Render pipeline** (`PaintOutput`). Render keys are composed as
  `prompt::xml::count` and repeated keys are dropped. Prompts map to the
  placeholder picture.
- **Realtime tool registry** (`Realtime`, `Representation`). Draft tools are
  committed as a batch. Completed calls are dispatched by name, and thrown
  errors are formatted into the reply. The interview page drives all of this.
- **Scene editor** (`Storybox`). Its tools work on the submit-time snapshot
  and echo the XML in a fenced reply.

`Text` holds the string functions the source takes from JavaScript: `trim`,
`split`, `join`, the first match of a tag pair, and decimal rendering. RxJS
pipelines are modelled as functions over the finite sequence of values that
reach them. Objects whose fields the source updates become classes with
`modifies` clauses. Messages sent over the realtime data channel are recorded
in order in `RealtimeNode.sent`.

## Model

| member | source | states |
|---|---|---|
| WorldStore.Cell.Next | src/lib/sub-systems/shared.ts:17 | `next(x)`: the value becomes x, and x is appended to the emissions, so the last emission is the current value. |
| WorldStore.NewScene | src/main.ts:44 | A scene store (main.ts:44, storybox.ts:19) starts as "<scene></scene>", emitted once. |
| WorldStore.TryBody | src/lib/sub-systems/shared.ts:12-17 | The body of the `try` succeeds only when the source parses and the script returns. A parse throw ends it with that throw. |
| WorldStore.RunScript | src/lib/sub-systems/shared.ts:10-21 | A syntax error from `new Function` escapes as "SyntaxError". Otherwise the outcome escapes exactly when the body throws null or undefined, as the TypeError from reading `.message`, and is caught exactly when the body throws an error with a message. Only "SyntaxError" and "TypeError" escape. A serialized result requires the source to have parsed. |
| WorldStore.NullishThrowEscapes | src/lib/sub-systems/shared.ts:19-20 | A script that runs `throw null` is not turned into "Error: …": reading `.message` of null raises a TypeError that escapes the tool. |
| WorldStore.ApplyScript | src/lib/sub-systems/shared.ts:10-21 | The store publishes the serialized result once exactly when the outcome is serialized. Otherwise value and emissions are unchanged. |
| WorldStore.UpdateByScript | src/lib/sub-systems/shared.ts:8-22 | The tool parses the current value and runs the script with the binding's arguments. On success it publishes the serialized result once and returns "Done". A parse, run or serialize throw of an error returns "Error: " + message and leaves value and emissions alone. A compile failure raises a SyntaxError, and a thrown null or undefined raises a TypeError, both with the store unchanged. |
| WorldStore.RewriteXml | src/lib/sub-systems/shared.ts:24-29 | The value becomes exactly `xml`, published once, and the tool returns "Done". |
| WorldStore.RewriteTwice | src/lib/sub-systems/shared.ts:27 | Rewriting twice with the same text leaves the value one rewrite leaves, and both calls return "Done". |
| WorldStore.CompileFailureEscapes | src/lib/sub-systems/shared.ts:10-11 | A script that does not compile is not turned into "Error: …". Its SyntaxError, with the compiler's message, escapes the tool. |
| WorldStore.RunScriptGuarded | src/lib/sub-systems/shared.ts:10-21 | With the compile inside the `try` and the catch reading `e?.message`, no outcome escapes. A compile failure becomes a caught error with its message, a thrown null or undefined becomes "Error: undefined", and otherwise nothing changes. |
| WorldStore.DocumentOnlyIgnoresWorldLookup | src/main.ts:96-100 | With `document` as the only binding, the outcome does not depend on the `<world>` lookup. |
| Memory.Preview | src/lib/sub-systems/memory.ts:8 | After each emitted value the preview shows the last one, or its initial text if nothing was emitted. |
| Memory.PreviewMirrorsStore | src/lib/sub-systems/memory.ts:8 | The preview always equals the store's current value. |
| Memory.Forget | src/lib/sub-systems/memory.ts:9 | The store becomes the empty world, whatever it held, and nothing else is written. |
| Memory.ForgetTwice | src/lib/sub-systems/memory.ts:9 | Forgetting twice leaves the empty world, as forgetting once does. |
| Memory.NewWorldStore | src/lib/sub-systems/shared.ts:3-5 | The store starts as exactly "<world></world>", and the preview shows it. |
| TalkRouter.Lookup | src/representation.ts:64 | The target is the field named by `data-talk` when one exists, and null otherwise. |
| TalkRouter.AppendAllJoins | src/representation.ts:82-86 | Routing non-empty results one by one gives the old text (if any) and the results, joined by single spaces. |
| TalkRouter.Router.Press | src/representation.ts:57-66 | Only a "talk" press starts the recognizer and re-arms the target (or clears it). Any other press changes nothing. |
| TalkRouter.Router.Release | src/representation.ts:67-74 | A "talk" release stops the recognizer and keeps the armed target. |
| TalkRouter.Router.Recognized | src/representation.ts:77-87 | An empty result, or a result with no target armed, is dropped. Otherwise only the armed field changes, to old + " " + text, or to text when it was empty. |
| Submission.Reconcile | src/lib/sub-systems/default-input.ts:137 | Every entry whose value was sent is removed, duplicates included. The others stay with their multiplicities, in order. |
| Submission.SubmitPushing | src/lib/sub-systems/default-input.ts:37-40 | The text goes to the tail of the queue, and the inputs are the whole queue after the push. |
| Submission.SubmitUnpushed | src/lib/sub-systems/dictate-input.ts:27 | The queue is unchanged, and the inputs are the queue followed by the text. |
| Submission.ReconcileKeepsUnconsumed | src/lib/sub-systems/default-input.ts:137 | Reconciling a queue none of whose entries was sent leaves it as it is. |
| Submission.ReconcileDropsSentPrefix | src/lib/sub-systems/default-input.ts:137 | Sent entries followed by unsent ones: reconciling leaves exactly the unsent ones. |
| Submission.ReconcileAfterLatePush | src/lib/sub-systems/default-input.ts:37-137 | Texts pushed while a request is in flight, none equal to a sent one, are exactly what its completion leaves queued. |
| Submission.PushingLaneCarriesSupersededText | src/lib/sub-systems/default-input.ts:36-40 | When a second text supersedes the first, the pushing lane sends both, and the reply clears both. |
| Submission.UnpushedLaneDropsSupersededText | src/lib/sub-systems/dictate-input.ts:26-27 | In the lane that never pushes, the second request carries only the second text, and the first is lost. |
| Submission.ForwardRecognition | src/lib/sub-systems/default-input.ts:28-34 | A result passes exactly when the armed target is the lane's own field and its text is present and non-empty. dictate-input.ts:16-24 is the same filter with `#tell-prompt`. |
| Submission.VoiceSubmit | src/main.ts:87-92 | Any present, non-empty recognition is submitted unchanged. |
| Submission.EnterSubmit | src/main.ts:80-85 | Only Enter with a non-empty field submits, and it submits the field and clears it. Otherwise the field is kept. Submitted text plus the new field always equals the old field. |
| Submission.UserLines | src/lib/sub-systems/default-input.ts:138 | There is one "User: v" line per input, in order. |
| Submission.DefaultInput.Trigger | src/lib/sub-systems/default-input.ts:36-40 | The queue and the inputs are those of SubmitPushing, and the transcript and speech are untouched. |
| Submission.DefaultInput.Start | src/lib/sub-systems/default-input.ts:21-26 | The transcript is emptied, and "Let's get started." is pushed and sent. |
| Submission.DefaultInput.Complete | src/lib/sub-systems/default-input.ts:134-158 | The queue is reconciled with the inputs. The transcript gains the user lines and then "You: " + content. The display is the transcript joined by newlines. Only a non-empty reply is queued for speech. |
| Submission.ReplyLane.Trigger | src/lib/sub-systems/dictate-input.ts:26-27 | With the queue empty in every reachable state, every request's inputs are exactly [text]. |
| Submission.ReplyLane.Complete | src/lib/sub-systems/dictate-input.ts:113-116 | The output shows the content, and the queue stays empty. |
| Camera.PixelChanged | src/lib/ai-bar/lib/elements/camera-node.ts:135-147 | A pixel counts as changed only when both frames have its three colour bytes and, for a non-negative threshold, those bytes differ. |
| Camera.DiffRatio | src/lib/ai-bar/lib/elements/camera-node.ts:134-149 | The ratio is NaN exactly for an empty frame, and otherwise a non-negative number. |
| Camera.CompareFrames | src/lib/ai-bar/lib/elements/camera-node.ts:129-150 | The loop returns the ratio of changed pixels (one step per four bytes) to `length / 4`. |
| Camera.ChangedAtMostPixels | src/lib/ai-bar/lib/elements/camera-node.ts:134-147 | At most one changed pixel is counted per four bytes. |
| Camera.DiffRatioInUnitInterval | src/lib/ai-bar/lib/elements/camera-node.ts:149 | For a non-empty frame of whole pixels, the ratio is a number in [0, 1]. |
| Camera.IdenticalFramesUnchanged | src/lib/ai-bar/lib/elements/camera-node.ts:142-147 | With a non-negative threshold, no pixel of a frame differs from itself. |
| Camera.IdenticalFramesRatioZero | src/lib/ai-bar/lib/elements/camera-node.ts:142-149 | Comparing a non-empty frame with itself yields exactly 0. |
| Camera.AlphaIgnored | src/lib/ai-bar/lib/elements/camera-node.ts:134-141 | Frames that agree on every red, green and blue byte give the same count, whatever their alpha bytes. |
| Camera.DefaultChangeTest | src/lib/ai-bar/lib/elements/camera-node.ts:115-120 | With the default threshold 0.02, a frame of n pixels passes exactly when 50 × changed > n. |
| Camera.CameraNode.constructor | src/lib/ai-bar/lib/elements/camera-node.ts:11-14 | There is no reference frame, and the defaults are 30, 0.02 and 200. |
| Camera.CameraNode.UpdateSettings | src/lib/ai-bar/lib/elements/camera-node.ts:103-106 | Exactly the two thresholds are overwritten. |
| Camera.CameraNode.ProcessFrame | src/lib/ai-bar/lib/elements/camera-node.ts:108-127 | A paused or ended video changes nothing. The first frame becomes the reference silently. Later frames replace it, and their ratio is emitted, only when the ratio exceeds `changeThreshold`. |
| Camera.CameraNode.Capture | src/lib/ai-bar/lib/elements/camera-node.ts:95-101 | The result is "" when the video width or height is 0, and the canvas JPEG otherwise. |
| ShowInput.SceneOpenTag | src/lib/sub-systems/show-input.ts:121 | The tag is `<scene>`, or `<scene timestamp="…">` in temporal mode. |
| ShowInput.SceneInner | src/lib/sub-systems/show-input.ts:117-119 | The inner text lies between the leftmost `<scene>` and the first `</scene>` after it. It is absent when there is no such pair. |
| ShowInput.Indent | src/lib/sub-systems/show-input.ts:125 | Each line is prefixed with two spaces. |
| ShowInput.SceneXmlShape | src/lib/sub-systems/show-input.ts:117-129 | The description is "" exactly when there is no scene pair. Otherwise it is the open tag, the indented trimmed body and `</scene>` on lines of their own. |
| ShowInput.TrimTemplate | src/lib/sub-systems/show-input.ts:120-128 | Trimming the template removes only its leading newline and trailing indentation. |
| ShowInput.SceneBodyLines | src/lib/sub-systems/show-input.ts:122-126 | The body's lines are exactly the trimmed inner lines, each indented, with none lost, merged or reordered. |
| ShowInput.SceneXml | src/lib/sub-systems/show-input.ts:117-129 | A reply without a scene pair gives "", and a description never starts or ends with whitespace, as the trim makes it. |
| ShowInput.Latest | src/lib/sub-systems/show-input.ts:139-144 | The reducer keeps the strictly newer of the two, or the held one on a tie. |
| ShowInput.ScanLatest | src/lib/sub-systems/show-input.ts:138-146 | One emission per arrival, and each emission is the seed or one of the descriptions that have arrived so far. |
| ShowInput.ScanSteps | src/lib/sub-systems/show-input.ts:138-146 | Each emission is no older than the one before it (the first no older than the seed) and no older than the description that arrived with it. |
| ShowInput.ScanNeverGoesBack | src/lib/sub-systems/show-input.ts:138-146 | Emitted `startedAt` never decreases, and it is at least that of every description that has arrived. |
| ShowInput.ScanEmitsOnlyDescriptions | src/lib/sub-systems/show-input.ts:136-146 | When descriptions are non-empty with positive start times, the empty seed is never emitted. |
| ShowInput.DistinctFrom | src/lib/sub-systems/show-input.ts:147 | The output is a subsequence of the input, and no two consecutive outputs share text. |
| ShowInput.DistinctKeepsLatestText | src/lib/sub-systems/show-input.ts:147-150 | The text shown last is that of the last value to arrive, unless that text was already shown before the first arrival. |
| ShowInput.DistinctSnoc | src/lib/sub-systems/show-input.ts:147 | One more arrival is emitted exactly when its text differs from that of the arrival before it (or from the last emitted text, for the first). |
| ShowInput.DistinctIsKeepChanged | src/lib/sub-systems/show-input.ts:147 | The filter equals KeepChanged: an arrival is dropped exactly when it repeats the text of the arrival before it, so every value whose text changed is emitted. |
| ShowInput.NonEmpty | src/lib/sub-systems/show-input.ts:136 | Exactly the descriptions with non-empty text are kept, in order, each as often as it occurs in the input. |
| ShowInput.SubseqStaysInOrder | src/lib/sub-systems/show-input.ts:147 | Dropping elements keeps a non-decreasing start order, and the first kept element is no older than the first of all. |
| ShowInput.Displayed | src/lib/sub-systems/show-input.ts:136-150 | The texts `#cam-description` shows after filter, scan and distinct never repeat consecutively. |
| ShowInput.DisplayedNonEmptyAndChanging | src/lib/sub-systems/show-input.ts:136-150 | `#cam-description` never shows an empty text, and never shows the same text twice in a row. |
| ShowInput.TaskCounter.Begin | src/lib/sub-systems/show-input.ts:73 | The count goes up by one, and the display shows it. |
| ShowInput.TaskCounter.End | src/lib/sub-systems/show-input.ts:109-115 | The count goes down by one, whatever the outcome of the request, and the display shows it. |
| ShowInput.DescribeReply | src/lib/sub-systems/show-input.ts:109-135 | A failed request gives "". The description is non-empty exactly when the reply holds a `<scene>…</scene>` pair, and it is the re-indented scene whose shape SceneXmlShape gives. |
| ShowInput.DescriptionTask | src/lib/sub-systems/show-input.ts:70-135 | A finished task leaves the counter where it was. |
| ShowInput.WorldXml | src/lib/sub-systems/show-input.ts:205-207 | The result is the reply from the leftmost `<world>` through the first `</world>` after it, or "" exactly when there is no such pair. |
| ShowInput.PublishWorld | src/lib/sub-systems/show-input.ts:205-213 | The extracted world is published and passed on. A reply without one publishes nothing. |
| PaintOutput.RenderKey | src/lib/sub-systems/paint-output.ts:45 | The key is the prompt, "::", the world, "::" and the decimal count: it starts with the prompt and "::" and ends with the count. |
| PaintOutput.RenderKeyCount | src/lib/sub-systems/paint-output.ts:45 | The click count can be read back from the key. |
| PaintOutput.KeysOfDifferentClicksDiffer | src/lib/sub-systems/paint-output.ts:42-46 | Keys made at different click counts differ, whatever the prompt and the world. |
| PaintOutput.StaleKeyDiffers | src/lib/sub-systems/paint-output.ts:45-46 | A key made before a click differs from every key made after it. |
| PaintOutput.KeyIsNeverEmptyWorld | src/lib/sub-systems/paint-output.ts:45-48 | A key always contains "::", so it is never equal to "<world></world>". |
| PaintOutput.RequestFor | src/lib/sub-systems/paint-output.ts:47-48 | The subject short-circuits to the sentinel exactly when it equals the empty value. Otherwise it is described. |
| PaintOutput.EmptyWorldIsStillDescribed | src/lib/sub-systems/paint-output.ts:45-48 | As written, an empty world's key is sent to be described. |
| PaintOutput.IntendedRequestFor | src/lib/sub-systems/paint-output.ts:48 | As intended, the prompt is "Empty" exactly when the world is empty. |
| PaintOutput.ImageFor | src/lib/sub-systems/paint-output.ts:86-91 | The placeholder URL is used exactly for the sentinel prompt. Any other prompt is generated. |
| PaintOutput.PromptFromReply | src/lib/sub-systems/paint-output.ts:72-77 | Only a present, non-empty reply becomes a prompt. |
| PaintOutput.Picture | src/lib/sub-systems/paint-output.ts:47-91 | No picture exactly when the request went to the describer and the reply gave no prompt; a placeholder always uses the placeholder URL. |
| PaintOutput.PlaceholderExactly | src/lib/sub-systems/paint-output.ts:47-91 | The placeholder is shown exactly when the subject is the empty value or the model answered the sentinel. |
| PaintOutput.WrittenEmptyWorldPicture | src/lib/sub-systems/paint-output.ts:45-91 | As written, an empty world shows the placeholder only if the model answers "Empty". |
| PaintOutput.IntendedEmptyWorldShowsPlaceholder | src/lib/sub-systems/paint-output.ts:48-88 | As intended, an empty world always shows the placeholder. |
| PaintOutput.Painter.Trigger | src/lib/sub-systems/paint-output.ts:40-46 | The key is composed from the prompt, the world and the count. It is dropped exactly when it repeats the last key. |
| PaintOutput.Painter.Click | src/lib/sub-systems/paint-output.ts:42-46 | The count goes up by exactly 1, and the click's key always passes the repeat filter. |
| PaintOutput.Painter.SetContinuous | src/lib/sub-systems/paint-output.ts:30-38 | Switching on replays the world as one trigger. Switching off yields no trigger. |
| PaintOutput.Painter.WorldEmitted | src/lib/sub-systems/paint-output.ts:32-37 | A world update triggers only in continuous mode. |
| Realtime.Committed | src/lib/ai-bar/lib/elements/openai-realtime-node.ts:163-169 | The session tools are the drafts in order. Each uses plain JSON parsing exactly when it has a schema. |
| Realtime.ServerTools | src/lib/ai-bar/lib/elements/openai-realtime-node.ts:171-176 | The server is told each tool's name and description, with its own schema when present. |
| Realtime.FindTool | src/lib/ai-bar/lib/elements/openai-realtime-node.ts:54 | The result is the first tool with the name, or none exactly when no tool has it. |
| Realtime.ToolCall | src/lib/ai-bar/lib/elements/openai-realtime-node.ts:49-55 | A call happens exactly for `response.done` whose first output is a completed `function_call` naming a session tool. The call uses the first tool of that name. |
| Realtime.ErrorText | src/lib/ai-bar/lib/elements/openai-realtime-node.ts:66 | The text is name + " " + message, with an empty part dropped. |
| Realtime.NonEmptyParts | src/lib/ai-bar/lib/elements/openai-realtime-node.ts:66 | Exactly the non-empty parts are kept, in order, each as often as it occurs. |
| Realtime.ReplyText | src/lib/ai-bar/lib/elements/openai-realtime-node.ts:60-67 | A tool's output is sent exactly as it is. A throw is sent as exactly its error text: it starts with the error name, or is the message alone when the name is empty. |
| Realtime.RealtimeNode.Connect | src/lib/ai-bar/lib/elements/openai-realtime-node.ts:41-43 | `start()` opens the data channel and keeps the tools and the messages sent so far. |
| Realtime.RealtimeNode.Send | src/lib/ai-bar/lib/elements/openai-realtime-node.ts:140 | A message is recorded only while a data channel is present. |
| Realtime.RealtimeNode.AddDraftTool | src/lib/ai-bar/lib/elements/openai-realtime-node.ts:157-160 | The tool is appended to the drafts, and the node is returned. |
| Realtime.RealtimeNode.CommitDraftTools | src/lib/ai-bar/lib/elements/openai-realtime-node.ts:162-191 | The session tools become the committed drafts, and the session is told. Then the drafts are emptied. |
| Realtime.RealtimeNode.UpdateSessionInstructions | src/lib/ai-bar/lib/elements/openai-realtime-node.ts:112-124 | The instructions are sent trimmed. |
| Realtime.RealtimeNode.AppendUserMessage | src/lib/ai-bar/lib/elements/openai-realtime-node.ts:126-142 | A user message with the text is sent. |
| Realtime.RealtimeNode.CreateResponse | src/lib/ai-bar/lib/elements/openai-realtime-node.ts:193-202 | A response request is sent. |
| Realtime.RealtimeNode.HandleEvent | src/lib/ai-bar/lib/elements/openai-realtime-node.ts:46-72 | For a dispatched call, the output (or the error text) for its call id is sent, then a response request. Anything else sends nothing. |
| Realtime.RealtimeNode.Stop | src/lib/ai-bar/lib/elements/openai-realtime-node.ts:92-96 | The connection is dropped, and the tools stay. |
| Realtime.StoppedNodeSendsNothing | src/lib/ai-bar/lib/elements/openai-realtime-node.ts:92-96 | After `stop()`, a dispatched call sends nothing. |
| Realtime.FirstOfDuplicateNamesWins | src/lib/ai-bar/lib/elements/openai-realtime-node.ts:54 | Of two committed drafts with one name, dispatch picks the first. |
| Representation.Interview.Toggle | src/representation.ts:118-160 | The click as intended, with the node's `mute()` after connecting. Starting connects and sends trimmed instructions for the world store's current value, which the click leaves unchanged, two committed tools with "auto", the intro request and a response request, in that order. Stopping sends nothing and disconnects. |
| Representation.Interview.Start | src/representation.ts:120-158 | The start branch of Toggle, from the idle interview: it ends connected and subscribed with the button offering to stop, the two tools committed, and the four messages sent in order, the instructions built from the world store's value. |
| Representation.Interview.ClickAsWritten | src/representation.ts:118-160 | The click as written. Starting connects, then the call to the undefined `muteMicrophone` throws a TypeError: nothing is subscribed, registered or sent, and the button still offers to start. Stopping is as in Toggle. |
| Representation.WrittenStartLeavesInterviewUnstarted | src/representation.ts:121-124 | The first click on a fresh interview leaves the node connected, the button on "start-interview" and the session empty, so the interview's invariant fails. |
| Representation.Interview.WorldPublished | src/representation.ts:92-116 | While the interview runs, each world update sends fresh instructions. Otherwise nothing is sent. |
| Representation.InterviewDispatch | src/representation.ts:126-147 | A completed call is dispatched exactly to `update_by_script` or `rewrite_xml`, by name. |
| Representation.ScriptToolOutcome | src/representation.ts:226-240 | The dispatcher sees a throw exactly when the tool's outcome escapes. It is a "SyntaxError" exactly when the script does not compile, and otherwise a "TypeError" from a thrown null or undefined. Any output is "Done" or starts with "Error: ". |
| Representation.RunUpdateTool | src/representation.ts:226-240 | On success the store holds the serialized result, published once; on any failure value and emissions are unchanged. A compile failure surfaces as a thrown SyntaxError. |
| Representation.InterviewAnswersEveryScript | src/representation.ts:226-240 | Every script call is answered: "Done", "Error: …", "SyntaxError …" for a compile failure, or "TypeError …" for a thrown null or undefined. |
| Representation.WorldPlaceholderExactly | src/representation.ts:254-298 | The placeholder is shown exactly for the empty world, or when the model answers "Empty". |
| MainPage.CamToggle.Click | src/main.ts:122-133 | "Start camera" starts the camera and resets the scene to "<scene></scene>". Any other caption stops it and leaves the scene alone. |
| MainPage.RawDescription | src/main.ts:172-183 | The description is the raw reply, or "" when the request failed or returned no content. |
| MainPage.DescribeFrame | src/main.ts:142-184 | A frame task leaves the counter where it was. |
| MainPage.FrameDescriptions | src/main.ts:142-184 | There is one description per finished task, in order. |
| MainPage.ShownFramesNonEmptyAndChanging | src/main.ts:185-199 | With one shared subscription of the frame pipeline, `#cam-description` never shows an empty text, never shows the same text twice in a row, and never goes back to an older frame. |
| MainPage.Interleave | src/main.ts:452-454 | Two subscriptions writing one element: what the element receives is drawn from the two copies' writes, each at most as often as that copy wrote it. |
| MainPage.DoubledShown | src/main.ts:142-202 | As written, `#cam-description` receives the writes of two independent copies of the pipeline, one per subscription, and nothing else. |
| MainPage.OneFrameShown | src/main.ts:185-199 | A copy that has finished one frame with a non-empty reply shows exactly that frame. |
| MainPage.LateOlderFrameHidden | src/main.ts:185-199 | A copy that finishes a newer frame before an older one shows only the newer one. |
| MainPage.DoubledPipelineGoesBack | src/main.ts:452-454 | As written, the element can show frame 2 and then frame 1. |
| MainPage.DoubledPipelineRepeats | src/main.ts:452-454 | As written, the element can show the same text twice in a row. |
| MainPage.ScenePlaceholderExactly | src/main.ts:391-434 | The placeholder is shown exactly for the empty scene, or when the model answers "Empty scene". |
| MainPage.StartCamera | src/main.ts:124-126 | Starting the camera empties the scene and so shows the placeholder. |
| Storybox.UpdatedText | src/storybox.ts:74-77 | The reply is "Updated to " and the XML in an xml fence. The trim removes nothing. |
| Storybox.RewrittenText | src/storybox.ts:102-106 | The reply is "Scene XML updated to" and the XML in an xml fence. The trim removes only the trailing indentation. |
| Storybox.EchoRoundTrip | src/storybox.ts:74-106 | The XML can be read back from either reply. |
| Storybox.Submit | src/storybox.ts:23-30 | Only Enter with a non-empty prompt submits. It clears the field and pairs the prompt with the store's value at that moment. |
| Storybox.UpdateByScript | src/storybox.ts:66-81 | The script transforms the submit-time snapshot. On success it publishes and echoes the result. A throw of an error returns "Error: …" and publishes nothing. A compile failure raises a SyntaxError, and a thrown null or undefined raises a TypeError, with nothing published. |
| Storybox.RewriteXml | src/storybox.ts:98-107 | Publishes `xml` as it is and echoes it. |
| Storybox.TwoScriptsOfOneRequest | src/storybox.ts:66-81 | A second script of one request still works on the snapshot. When it succeeds, the store holds its result on the snapshot alone. |

## Left out

- Network, speech, image and realtime transport are left out. This covers chat completions, `runTools`, TTS/STT services, WebRTC, the ephemeral key and JSON encoding of messages. Replies and recognitions are parameters, and data-channel sends are the `sent` sequence.
- RxJS scheduling is left out: `switchMap`/`mergeMap` cancellation, `debounceTime` and `AbortController`. Pipelines are functions over the values that reach them in arrival order. No claim is made that cancelled work leaves the store alone, because the tool callbacks call `next` directly.
- The DOM/JS engine (`DOMParser`, `XMLSerializer`, `querySelector`, `new Function`) is an uninterpreted `Engine` value.
- Camera and canvas (`getUserMedia`, drawing, `requestAnimationFrame`, `toDataURL`) are left out. Frames and the JPEG URL are parameters. `start`/`stop` of the camera are a flag.
- Camera.CompareFrames: the ratio and thresholds are exact reals. Floating-point rounding of `Math.sqrt` and of the division is not modelled.
- The `Date` timestamps (`Date.now()`, `toTimeString`) are parameters.
- Prompt texts and the interview's instruction template are left out. The template is a parameter function of the world text.
- Text.Trim strips ASCII whitespace only. JavaScript's `trim` also strips Unicode whitespace.
- TalkRouter.Lookup: an empty `data-talk` is taken to find no field. The `$` helper of src/lib/dom is not part of this model.
- `sttTargetElement` is imported from shared.ts by default-input.ts and dictate-input.ts, but shared.ts does not export it. The armed target is a parameter of Submission.ForwardRecognition.
- zod schemas and `$parseRaw` are left out. Argument parsing and running a tool are one `run` parameter of Realtime.RealtimeNode.HandleEvent.
- The microphone is left out: `startMicrophone`, hold-to-talk on the talk button, `enableTranscription`/`disableTranscription` and `updateSession`. They only start and stop the recognizer or send session flags. The realtime node's `mute()`/`unmute()` only enable or disable the audio track and send nothing on the data channel.
- The interview push-to-talk button (src/representation.ts:162-175) calls `unmuteMicrophone`/`muteMicrophone`, which the realtime node does not define. Its first press throws inside a synchronous `tap`, which ends that subscription. This button is not modelled; the same missing method in the start click is Representation.Interview.ClickAsWritten.
- `parseActionEvent` (in src/lib/dom) is not part of this model. The action is a parameter.
- In src/representation.ts, `updateWorldModel$`, `submit$` and `voiceSubmit$` are never subscribed, because the subscribe at line 409 is commented out. Their queue is modelled only as Submission.ReplyLane.
- The `mergeImage$` tool loop of src/main.ts is LLM wiring. Its tools are the WorldStore tools with `DocumentOnly`. Subscribing it (line 454) also subscribes `frameChanges$` a second time; that doubling is MainPage.DoubledShown. The task counter then goes up by two per frame; the counter's display is not modelled.
- MainPage.DoubledShown: the order in which the two copies write is a schedule parameter; which schedules RxJS and the network can produce is not modelled.
- WorldStore.NullishReadMessage uses V8's wording of the TypeError; other engines word it differently.
- show-input.ts's camera toggle, auto-capture switch and `#cam-description` reset on stop are UI wiring and are left out.
- ShowInput.TaskCounter: the in-flight count is a ghost field tied to the counter by `Valid`. Interleaving of concurrent tasks is not modelled.
- Files outside this core are left out: writing, discussion and interview outputs, the code editor, azure-connection, advanced.ts and the build config.

## Findings

| source | as written | input that shows it | evidently intended | confidence | as-written member | corrected member |
|---|---|---|---|---|---|---|
| src/lib/sub-systems/paint-output.ts:45-48 | `worldXML === EMPTY_XML` compares the composed key `prompt::xml::count` with the empty world | visual prompt "", world "<world></world>", click 1: the key "::<world></world>::1" is not EMPTY_XML, so the empty world is sent to the describing model | compare the world itself, so an empty world renders the placeholder | high; not executed | PaintOutput.EmptyWorldIsStillDescribed | PaintOutput.IntendedRequestFor |
| src/lib/sub-systems/dictate-input.ts:27 | inputs are `[...submissionQueue, text]` with no push, so the queue is always empty | "a" then "b" before the reply to "a": the request for "b" has inputs ["b"], and "a" is lost when switchMap cancels its request | push as default-input.ts:38 does, so a superseded text is resent and later cleared | medium; not executed | Submission.UnpushedLaneDropsSupersededText | Submission.PushingLaneCarriesSupersededText |
| src/representation.ts:122-123 | after `await realtimeNode.start()` the handler calls `realtimeNode.muteMicrophone()`, but the realtime node defines only `mute()` and `unmute()` | the first click on "start-interview": the node connects, then a TypeError ends the handler, so no instructions, tools or intro are sent and the button still reads "start-interview" | call `mute()` and carry on with the subscription, tools and intro | high; not executed | Representation.WrittenStartLeavesInterviewUnstarted | Representation.Interview.Toggle |
| src/lib/sub-systems/shared.ts:10-11 | `new Function` is called before the `try` | script "}": the SyntaxError escapes `update_by_script` instead of returning "Error: …" | build the function inside the `try` | medium; not executed | WorldStore.CompileFailureEscapes | WorldStore.RunScriptGuarded |
| src/main.ts:452-454 | `frameChanges$` is subscribed directly and again through `mergeImage$` (line 202) with no `share()`, so two copies of capture, description, filter, scan and distinct write `#cam-description` | frames start at 1 and 2; one copy finishes frame 2 ("b") then frame 1, the other has finished only frame 1 ("a"): the element shows "b" and then "a" | one shared subscription, so the element never goes back to an older frame or repeats a text | high; not executed | MainPage.DoubledPipelineGoesBack | MainPage.ShownFramesNonEmptyAndChanging |
| src/lib/sub-systems/shared.ts:19-20 | the catch reads `(e as any).message` of whatever was thrown | script `throw null`: reading `.message` of null raises a TypeError that escapes `update_by_script` instead of returning "Error: …" | read `e?.message`, so the tool returns "Error: undefined" | high; not executed | WorldStore.NullishThrowEscapes | WorldStore.RunScriptGuarded |
