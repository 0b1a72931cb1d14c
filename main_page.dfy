/** The camera-driven scene page of src/main.ts. The scene store starts as
    the empty scene and is reset to it when the camera starts; every changed
    frame is described and the description is written to `#cam-description`,
    and the scene picture is the placeholder exactly for the empty scene (or a
    model that answers "Empty scene"). The frame pipeline is subscribed twice,
    so each frame is described by two independent copies of it, which both
    write the element. Its tools bind `document` alone
    (WorldStore.UpdateByScript with DocumentOnly) and its text and voice
    lanes never push (Submission.ReplyLane). */
module MainPage {
  import opened Text
  import opened WorldStore
  import opened ShowInput
  import opened PaintOutput

  const START_LABEL: string := "Start camera"
  const STOP_LABEL: string := "Stop camera"

  /** The #cam-toggle button: its caption tells what a click will do. */
  class CamToggle {
    var caption: string
    var running: bool       // between cameraNode.start() and cameraNode.stop()

    /** The caption offers to stop exactly while the camera runs. */
    ghost predicate Valid()
      reads this
    {
      (caption == START_LABEL && !running) || (caption == STOP_LABEL && running)
    }

    constructor ()
      ensures Valid() && caption == START_LABEL && !running
    {
      caption, running := START_LABEL, false;
    }

    /** A click: "Start camera" starts the camera and empties the scene;
        any other caption stops the camera and leaves the scene alone. */
    method Click(scene: Cell)
      requires Valid() && scene.Valid()
      modifies this, scene
      ensures Valid() && scene.Valid()
      ensures old(caption) == START_LABEL ==>
        running && caption == STOP_LABEL
        && scene.value == EMPTY_SCENE && scene.emitted == old(scene.emitted) + [EMPTY_SCENE]
      ensures old(caption) != START_LABEL ==>
        !running && caption == START_LABEL
        && scene.value == old(scene.value) && scene.emitted == old(scene.emitted)
    {
      if caption == START_LABEL {
        running := true;
        scene.Next(EMPTY_SCENE);
        caption := STOP_LABEL;
      } else {
        running := false;
        caption := START_LABEL;
      }
    }
  }

  /** The description of one frame: the model's raw reply, "" when the request
      failed or returned no content. */
  function RawDescription(startedAt: int, reply: Option<string>): (d: Described)
    ensures d.startedAt == startedAt
    ensures d.xml == "" <==> reply.None? || reply.value == ""
    ensures reply.Some? ==> d.xml == reply.value
  {
    Described(startedAt, reply.GetOr(""))
  }

  /** One frame task: counted while in flight, whatever its outcome. */
  method DescribeFrame(counter: TaskCounter, startedAt: int, reply: Option<string>) returns (d: Described)
    requires counter.Valid()
    modifies counter
    ensures counter.Valid() && counter.inFlight == old(counter.inFlight) && counter.count == old(counter.count)
    ensures d == RawDescription(startedAt, reply)
  {
    counter.Begin();
    d := RawDescription(startedAt, reply);
    counter.End();
  }

  /** The descriptions of frame tasks, in the order they finished. */
  function FrameDescriptions(tasks: seq<(int, Option<string>)>): (ds: seq<Described>)
    ensures |ds| == |tasks|
    ensures forall k :: 0 <= k < |tasks| ==> ds[k] == RawDescription(tasks[k].0, tasks[k].1)
  {
    seq(|tasks|, k requires 0 <= k < |tasks| => RawDescription(tasks[k].0, tasks[k].1))
  }

  /** With one shared subscription of the frame pipeline, as evidently
      intended, #cam-description only ever shows a non-empty reply, never the
      same text twice in a row, and never a frame older than the one it shows,
      when every task started at a positive time. */
  lemma ShownFramesNonEmptyAndChanging(tasks: seq<(int, Option<string>)>)
    requires forall k :: 0 <= k < |tasks| ==> tasks[k].0 > 0
    ensures var shown := Displayed(FrameDescriptions(tasks));
      (forall k :: 0 <= k < |shown| ==> shown[k].xml != "") &&
      (forall i :: 0 <= i < |shown| - 1 ==> shown[i].xml != shown[i + 1].xml) &&
      (forall i :: 0 <= i < |shown| - 1 ==> shown[i].startedAt <= shown[i + 1].startedAt)
  {
    var finished := FrameDescriptions(tasks);
    DisplayedNonEmptyAndChanging(finished);
    var scanned := ScanLatest(SEED, NonEmpty(finished));
    ScanNeverGoesBack(SEED, NonEmpty(finished));
    assert forall i :: 0 <= i < |scanned| - 1 ==> scanned[i].startedAt <= scanned[i + 1].startedAt;
    SubseqStaysInOrder(DistinctFrom(None, scanned), scanned);
  }

  /** The writes of two subscriptions to one element, in the order `schedule`
      gives: `true` takes the next write of `a`, `false` the next of `b`; a
      step whose copy has nothing left writes nothing. Every write comes from
      one of the two copies. */
  function Interleave(a: seq<Described>, b: seq<Described>, schedule: seq<bool>): (r: seq<Described>)
    ensures multiset(r) <= multiset(a) + multiset(b)
    decreases |schedule|
  {
    if schedule == [] then []
    else if schedule[0] && a != [] then
      assert a == [a[0]] + a[1..];
      [a[0]] + Interleave(a[1..], b, schedule[1..])
    else if !schedule[0] && b != [] then
      assert b == [b[0]] + b[1..];
      [b[0]] + Interleave(a, b[1..], schedule[1..])
    else Interleave(a, b, schedule[1..])
  }

  /** What #cam-description receives as written: main.ts subscribes
      `frameChanges$` directly and again through `mergeImage$`, with no
      `share()`, so each subscription runs its own capture, description,
      filter, scan and distinct. `tasksA` and `tasksB` are the tasks of each
      copy in the order they finished. */
  function DoubledShown(tasksA: seq<(int, Option<string>)>, tasksB: seq<(int, Option<string>)>, schedule: seq<bool>): (shown: seq<Described>)
    ensures multiset(shown) <= multiset(Displayed(FrameDescriptions(tasksA))) + multiset(Displayed(FrameDescriptions(tasksB)))
  {
    Interleave(Displayed(FrameDescriptions(tasksA)), Displayed(FrameDescriptions(tasksB)), schedule)
  }

  /** A copy of the pipeline that has finished one frame shows it. */
  lemma OneFrameShown(t: int, text: string)
    requires t > 0 && text != ""
    ensures Displayed(FrameDescriptions([(t, Some(text))])) == [Described(t, text)]
  {
    var d := Described(t, text);
    assert FrameDescriptions([(t, Some(text))]) == [d];
    assert NonEmpty([d]) == [d];
    assert ScanLatest(SEED, [d]) == [d];
    assert DistinctFrom(None, [d]) == [d];
  }

  /** The filter keeps two non-empty replies. */
  lemma TwoRepliesKept(d2: Described, d1: Described)
    requires d2.xml != "" && d1.xml != ""
    ensures NonEmpty([d2, d1]) == [d2, d1]
  {
    assert [d2, d1][1..] == [d1];
    assert NonEmpty([d1]) == [d1];
  }

  /** The scan holds on to a newer frame when an older one arrives after it. */
  lemma ScanHoldsNewer(d2: Described, d1: Described)
    requires 0 < d1.startedAt < d2.startedAt
    ensures ScanLatest(SEED, [d2, d1]) == [d2, d2]
  {
    assert [d2, d1][1..] == [d1];
    assert ScanLatest(d2, [d1]) == [d2];
  }

  /** The repeat filter lets the held frame through once. */
  lemma RepeatDropped(d: Described)
    ensures DistinctFrom(None, [d, d]) == [d]
  {
    assert [d, d][1..] == [d];
    assert DistinctFrom(Some(d.xml), [d]) == [];
  }

  /** A copy that finishes a newer frame before an older one shows only the
      newer one: the scan keeps it and the repeat filter drops the rest. */
  lemma LateOlderFrameHidden(t1: int, text1: string, t2: int, text2: string)
    requires 0 < t1 < t2 && text1 != "" && text2 != ""
    ensures Displayed(FrameDescriptions([(t2, Some(text2)), (t1, Some(text1))])) == [Described(t2, text2)]
  {
    var d1, d2 := Described(t1, text1), Described(t2, text2);
    var finished := FrameDescriptions([(t2, Some(text2)), (t1, Some(text1))]);
    assert finished == [d2, d1];
    TwoRepliesKept(d2, d1);
    ScanHoldsNewer(d2, d1);
    RepeatDropped(d2);
  }

  /** One write from each copy, A's first. */
  lemma InterleaveInTurn(x: Described, y: Described)
    ensures Interleave([x], [y], [true, false]) == [x, y]
  {
    assert [x][1..] == [] && [true, false][1..] == [false];
    assert Interleave([], [y], [false]) == [y] by {
      assert Interleave([], [], []) == [];
    }
  }

  /** As written, the element can go back to an older frame: frames start at
      1 and 2; copy A finishes frame 2 ("b") and then frame 1, copy B has
      finished only frame 1 ("a"). A writes "b"; B's accumulator still holds
      the seed, so B then writes "a". */
  lemma DoubledPipelineGoesBack()
    ensures var shown := DoubledShown([(2, Some("b")), (1, Some("a"))], [(1, Some("a"))], [true, false]);
      shown == [Described(2, "b"), Described(1, "a")] && shown[1].startedAt < shown[0].startedAt
  {
    LateOlderFrameHidden(1, "a", 2, "b");
    OneFrameShown(1, "a");
    InterleaveInTurn(Described(2, "b"), Described(1, "a"));
  }

  /** As written, the element can show the same text twice in a row: both
      copies describe one frame alike, and each writes it. */
  lemma DoubledPipelineRepeats()
    ensures DoubledShown([(1, Some("a"))], [(1, Some("a"))], [true, false]) == [Described(1, "a"), Described(1, "a")]
  {
    OneFrameShown(1, "a");
    InterleaveInTurn(Described(1, "a"), Described(1, "a"));
  }

  /** `imagePrompt$` then `generateImage$` for a scene value. */
  function ScenePicture(sceneXml: string, reply: Option<string>): Option<ImageSource> {
    Picture(RequestFor(sceneXml, EMPTY_SCENE, "Empty scene"), reply, "Empty scene")
  }

  /** The placeholder is shown exactly for the empty scene, or when the model
      describes a scene with the text "Empty scene". */
  lemma ScenePlaceholderExactly(sceneXml: string, reply: Option<string>)
    ensures ScenePicture(sceneXml, reply) == Some(Placeholder(PLACEHOLDER_URL))
      <==> sceneXml == EMPTY_SCENE || reply == Some("Empty scene")
  {
    PlaceholderExactly(sceneXml, EMPTY_SCENE, "Empty scene", reply);
  }

  /** Starting the camera empties the scene, and so shows the placeholder. */
  method StartCamera(toggle: CamToggle, scene: Cell, reply: Option<string>) returns (picture: Option<ImageSource>)
    requires toggle.Valid() && scene.Valid() && toggle.caption == START_LABEL
    modifies toggle, scene
    ensures toggle.Valid() && scene.Valid() && toggle.running
    ensures scene.value == EMPTY_SCENE
    ensures picture == Some(Placeholder(PLACEHOLDER_URL))
  {
    toggle.Click(scene);
    picture := ScenePicture(scene.value, reply);
  }
}
