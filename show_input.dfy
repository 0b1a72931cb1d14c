/** Post-processing of camera descriptions in src/lib/sub-systems/show-input.ts:
    extracting and re-indenting the first `<scene>` element of a reply, the
    latest-wins accumulator over finished descriptions, the suppression of
    repeated descriptions, the in-flight task counter, and extracting the
    first `<world>` element of a world-model reply.

    The RxJS operators are modelled as functions over the finite sequence of
    values that reach them, in the order they arrive. */
module ShowInput {
  import opened Text
  import opened WorldStore

  /** The opening tag: with a `timestamp` attribute in temporal mode. */
  function SceneOpenTag(timestamp: Option<string>): (tag: string)
    ensures timestamp.None? ==> tag == "<scene>"
    ensures timestamp.Some? ==> tag == "<scene timestamp=\"" + timestamp.value + "\">"
  {
    match timestamp
    case None => "<scene>"
    case Some(t) => "<scene timestamp=\"" + t + "\">"
  }

  /** The inner text of the first `<scene>...</scene>` pair, if any. */
  function SceneInner(response: string): (inner: Option<string>)
    ensures inner.None? <==> TagPair(response, "<scene>", "</scene>").None?
    ensures inner.Some? ==>
      var (o, c) := TagPair(response, "<scene>", "</scene>").value;
      inner.value == response[o + 7..c]
  {
    match TagPair(response, "<scene>", "</scene>")
    case None => None
    case Some((o, c)) => Some(response[o + 7..c])
  }

  /** `lines.map((line) => "  " + line)` */
  function Indent(lines: seq<string>): (r: seq<string>)
    ensures |r| == |lines|
    ensures forall k :: 0 <= k < |lines| ==> r[k] == "  " + lines[k]
  {
    seq(|lines|, k requires 0 <= k < |lines| => "  " + lines[k])
  }

  /** The trimmed inner text with every line indented by two spaces. */
  function SceneBody(inner: string): string {
    Join(Indent(Split(Trim(inner), '\n')), "\n")
  }

  /** The template's closing tag, and the newline plus indentation of the
      line that closes the template literal. */
  const SCENE_CLOSE: string := "\n</scene>"
  const TEMPLATE_TAIL: string := "\n      "

  /** The lines of the template: the opening tag, the body and the closing tag. */
  function SceneLines(open: string, body: string): string {
    open + "\n" + body + SCENE_CLOSE
  }

  /** The description built from a reply, as the code writes it: the
      template's lines behind a leading newline and followed by a newline
      plus indentation, trimmed; "" when the reply holds no scene. */
  function SceneXml(response: string, timestamp: Option<string>): (xml: string)
    ensures SceneInner(response).None? ==> xml == ""
    ensures xml == "" || (!IsSpace(xml[0]) && !IsSpace(xml[|xml| - 1]))
  {
    match SceneInner(response)
    case None => ""
    case Some(inner) => Trim("\n" + SceneLines(SceneOpenTag(timestamp), SceneBody(inner)) + TEMPLATE_TAIL)
  }

  /** The description is the opening tag, the indented body and the closing
      tag on lines of their own, and it is empty exactly when the reply has no
      `<scene>` followed by a `</scene>`. */
  lemma SceneXmlShape(response: string, timestamp: Option<string>)
    ensures SceneXml(response, timestamp) == "" <==> SceneInner(response).None?
    ensures SceneInner(response).Some? ==>
      SceneXml(response, timestamp) == SceneOpenTag(timestamp) + "\n" + SceneBody(SceneInner(response).value) + SCENE_CLOSE
  {
    if SceneInner(response).Some? {
      TrimTemplate(SceneOpenTag(timestamp), SceneBody(SceneInner(response).value));
    }
  }

  lemma TrimTemplate(open: string, body: string)
    requires open != [] && open[0] == '<'
    ensures Trim("\n" + SceneLines(open, body) + TEMPLATE_TAIL) == SceneLines(open, body)
  {
    var x := SceneLines(open, body);
    assert x[0] == open[0];
    assert x[|x| - 1] == SCENE_CLOSE[|SCENE_CLOSE| - 1];
    assert forall i :: 0 <= i < |TEMPLATE_TAIL| ==> IsSpace(TEMPLATE_TAIL[i]);
    TrimPadded("\n", x, TEMPLATE_TAIL);
  }

  /** The body's lines are exactly the lines of the trimmed inner text, each
      behind two spaces: nothing is lost, merged or reordered. */
  lemma SceneBodyLines(inner: string)
    ensures Split(SceneBody(inner), '\n') == Indent(Split(Trim(inner), '\n'))
  {
    var lines := Split(Trim(inner), '\n');
    var indented := Indent(lines);
    forall k | 0 <= k < |indented|
      ensures '\n' !in indented[k]
    {
      assert indented[k] == "  " + lines[k];
    }
    SplitJoin(indented, '\n');
  }

  /** One finished description: when its request started, and its text. */
  datatype Described = Described(startedAt: int, xml: string)

  /** The seed of the accumulator. */
  const SEED: Described := Described(0, "")

  /** The `scan` reducer: the newer of the two; on a tie the one already held. */
  function Latest(acc: Described, curr: Described): (r: Described)
    ensures r == acc || r == curr
    ensures r.startedAt >= acc.startedAt && r.startedAt >= curr.startedAt
    ensures curr.startedAt <= acc.startedAt ==> r == acc
  {
    if curr.startedAt > acc.startedAt then curr else acc
  }

  /** Every value `scan` emits, one per arriving description. */
  function ScanLatest(acc: Described, arrivals: seq<Described>): (out: seq<Described>)
    ensures |out| == |arrivals|
    ensures forall k :: 0 <= k < |out| ==> out[k] == acc || out[k] in arrivals[..k + 1]
    decreases |arrivals|
  {
    if arrivals == [] then []
    else
      var next := Latest(acc, arrivals[0]);
      var rest := ScanLatest(next, arrivals[1..]);
      assert forall k :: 1 <= k < |arrivals| ==> arrivals[1..][..k] == arrivals[1..k + 1];
      [next] + rest
  }

  /** One step of the scan: the first emission is no older than the seed,
      each later one no older than the one before, and each no older than the
      description that arrived with it. */
  lemma {:induction false} ScanSteps(acc: Described, arrivals: seq<Described>)
    ensures arrivals != [] ==> acc.startedAt <= ScanLatest(acc, arrivals)[0].startedAt
    ensures forall i :: 0 < i < |arrivals| ==>
      ScanLatest(acc, arrivals)[i - 1].startedAt <= ScanLatest(acc, arrivals)[i].startedAt
    ensures forall i :: 0 <= i < |arrivals| ==> arrivals[i].startedAt <= ScanLatest(acc, arrivals)[i].startedAt
    decreases |arrivals|
  {
    if arrivals != [] {
      var next := Latest(acc, arrivals[0]);
      var out := ScanLatest(acc, arrivals);
      var rest := ScanLatest(next, arrivals[1..]);
      ScanSteps(next, arrivals[1..]);
      assert out == [next] + rest;
      forall i | 0 < i < |arrivals|
        ensures out[i - 1].startedAt <= out[i].startedAt && arrivals[i].startedAt <= out[i].startedAt
      {
        assert out[i] == rest[i - 1] && arrivals[i] == arrivals[1..][i - 1];
        if i > 1 {
          assert out[i - 1] == rest[i - 2];
        }
      }
    }
  }

  /** Start times that never decrease from one element to the next never
      decrease between any two. */
  lemma {:induction false} StartsChain(out: seq<Described>, j: nat)
    requires j < |out|
    requires forall i :: 0 < i < |out| ==> out[i - 1].startedAt <= out[i].startedAt
    ensures forall i :: 0 <= i <= j ==> out[i].startedAt <= out[j].startedAt
    decreases j
  {
    if j > 0 {
      StartsChain(out, j - 1);
    }
  }

  /** Each emitted accumulator is at least as new as the seed, as every
      earlier emission and as every description that has arrived so far. */
  lemma ScanNeverGoesBack(acc: Described, arrivals: seq<Described>)
    ensures forall i, j :: 0 <= i <= j < |arrivals| ==>
      acc.startedAt <= ScanLatest(acc, arrivals)[i].startedAt <= ScanLatest(acc, arrivals)[j].startedAt
      && arrivals[i].startedAt <= ScanLatest(acc, arrivals)[j].startedAt
  {
    var out := ScanLatest(acc, arrivals);
    ScanSteps(acc, arrivals);
    forall i, j | 0 <= i <= j < |arrivals|
      ensures acc.startedAt <= out[i].startedAt <= out[j].startedAt && arrivals[i].startedAt <= out[j].startedAt
    {
      StartsChain(out, i);
      StartsChain(out, j);
    }
  }

  /** Once every description has a positive start time and non-empty text,
      the seed is never emitted: every emitted accumulator has text. */
  lemma {:induction false} ScanEmitsOnlyDescriptions(acc: Described, arrivals: seq<Described>)
    requires acc.xml != "" || acc.startedAt <= 0
    requires forall k :: 0 <= k < |arrivals| ==> arrivals[k].xml != "" && arrivals[k].startedAt > 0
    ensures forall k :: 0 <= k < |arrivals| ==> ScanLatest(acc, arrivals)[k].xml != ""
    decreases |arrivals|
  {
    if arrivals != [] {
      var next := Latest(acc, arrivals[0]);
      ScanEmitsOnlyDescriptions(next, arrivals[1..]);
      var out := ScanLatest(acc, arrivals);
      assert out == [next] + ScanLatest(next, arrivals[1..]);
      forall k | 0 <= k < |arrivals|
        ensures out[k].xml != ""
      {
        if k > 0 {
          assert out[k] == ScanLatest(next, arrivals[1..])[k - 1];
        }
      }
    }
  }

  /** `distinctUntilChanged((a, b) => a.xml === b.xml)`, continuing after the
      text `last` was emitted (None before the first emission). */
  function DistinctFrom(last: Option<string>, xs: seq<Described>): (out: seq<Described>)
    ensures Subseq(out, xs)
    ensures out != [] && last.Some? ==> out[0].xml != last.value
    ensures forall i :: 0 <= i < |out| - 1 ==> out[i].xml != out[i + 1].xml
    decreases |xs|
  {
    if xs == [] then []
    else if last == Some(xs[0].xml) then
      var out := DistinctFrom(last, xs[1..]);
      assert out == [] || out[0] != xs[0];
      out
    else
      var rest := DistinctFrom(Some(xs[0].xml), xs[1..]);
      var out := [xs[0]] + rest;
      assert out[1..] == rest;
      out
  }

  /** The description shown last has the text of the last value that
      arrived, unless that text had already been shown before the first
      arrival. */
  lemma {:induction false} DistinctKeepsLatestText(last: Option<string>, xs: seq<Described>)
    requires xs != []
    ensures var out := DistinctFrom(last, xs);
      (out == [] && last == Some(xs[|xs| - 1].xml)) || (out != [] && out[|out| - 1].xml == xs[|xs| - 1].xml)
    decreases |xs|
  {
    var out := DistinctFrom(last, xs);
    var tail := xs[1..];
    if last == Some(xs[0].xml) {
      assert out == DistinctFrom(last, tail);
      if tail != [] {
        assert tail[|tail| - 1] == xs[|xs| - 1];
        DistinctKeepsLatestText(last, tail);
      }
    } else {
      var rest := DistinctFrom(Some(xs[0].xml), tail);
      assert out == [xs[0]] + rest;
      if tail != [] {
        assert tail[|tail| - 1] == xs[|xs| - 1];
        DistinctKeepsLatestText(Some(xs[0].xml), tail);
      }
    }
  }

  /** The text an arrival is compared with: the one before it, or `last` for
      the first arrival. */
  function PrevText(last: Option<string>, xs: seq<Described>): Option<string> {
    if xs == [] then last else Some(xs[|xs| - 1].xml)
  }

  /** The arrivals whose text differs from the text of the arrival just
      before them (or from `last`, for the first), whether that one was
      kept or not. */
  function KeepChanged(last: Option<string>, xs: seq<Described>): seq<Described>
    decreases |xs|
  {
    if xs == [] then []
    else
      var init := xs[..|xs| - 1];
      KeepChanged(last, init) + (if PrevText(last, init) == Some(xs[|xs| - 1].xml) then [] else [xs[|xs| - 1]])
  }

  /** One more arrival is emitted exactly when its text differs from the
      arrival before it: a dropped arrival repeats the last emitted text, so
      the last emitted text is always that of the last arrival. */
  lemma {:induction false} DistinctSnoc(last: Option<string>, xs: seq<Described>, x: Described)
    ensures DistinctFrom(last, xs + [x])
      == DistinctFrom(last, xs) + (if PrevText(last, xs) == Some(x.xml) then [] else [x])
    decreases |xs|
  {
    if xs != [] {
      assert (xs + [x])[0] == xs[0] && (xs + [x])[1..] == xs[1..] + [x];
      var next := if last == Some(xs[0].xml) then last else Some(xs[0].xml);
      DistinctSnoc(next, xs[1..], x);
      assert PrevText(next, xs[1..]) == PrevText(last, xs);
    }
  }

  /** `distinctUntilChanged` drops exactly the arrivals that repeat the text
      of the arrival before them: every value whose text changed is emitted. */
  lemma {:induction false} DistinctIsKeepChanged(last: Option<string>, xs: seq<Described>)
    ensures DistinctFrom(last, xs) == KeepChanged(last, xs)
    decreases |xs|
  {
    if xs != [] {
      var init := xs[..|xs| - 1];
      assert xs == init + [xs[|xs| - 1]];
      DistinctIsKeepChanged(last, init);
      DistinctSnoc(last, init, xs[|xs| - 1]);
    }
  }

  /** A subsequence of descriptions whose start times never decrease keeps
      them in order, and starts no earlier than the sequence it came from. */
  lemma {:induction false} SubseqStaysInOrder(a: seq<Described>, b: seq<Described>)
    requires Subseq(a, b)
    requires forall i :: 0 <= i < |b| - 1 ==> b[i].startedAt <= b[i + 1].startedAt
    ensures forall i :: 0 <= i < |a| - 1 ==> a[i].startedAt <= a[i + 1].startedAt
    ensures a != [] ==> b != [] && b[0].startedAt <= a[0].startedAt
    decreases |b|
  {
    if a != [] {
      var tail := b[1..];
      if a[0] == b[0] {
        SubseqStaysInOrder(a[1..], tail);
        assert forall i :: 1 <= i < |a| ==> a[i] == a[1..][i - 1];
      } else {
        SubseqStaysInOrder(a, tail);
      }
    }
  }

  /** The texts `#cam-description` shows, one per emission: descriptions with
      empty text are dropped, the rest go through the accumulator and the
      repeat filter. `finished` lists the descriptions in the order their
      requests completed. */
  function Displayed(finished: seq<Described>): (shown: seq<Described>)
    ensures forall i :: 0 <= i < |shown| - 1 ==> shown[i].xml != shown[i + 1].xml
  {
    DistinctFrom(None, ScanLatest(SEED, NonEmpty(finished)))
  }

  /** `filter((output) => !!output.xml?.length)` */
  function NonEmpty(xs: seq<Described>): (r: seq<Described>)
    ensures Subseq(r, xs)
    ensures forall k :: 0 <= k < |r| ==> r[k].xml != ""
    ensures forall k :: 0 <= k < |xs| && xs[k].xml != "" ==> xs[k] in r
    ensures forall v: Described :: v.xml != "" ==> multiset(r)[v] == multiset(xs)[v]
    decreases |xs|
  {
    if xs == [] then []
    else
      assert xs == [xs[0]] + xs[1..];
      var rest := NonEmpty(xs[1..]);
      if xs[0].xml == "" then rest
      else
        var r := [xs[0]] + rest;
        assert r[1..] == rest;
        forall k | 1 <= k < |xs| && xs[k].xml != ""
          ensures xs[k] in r
        {
          assert xs[k] == xs[1..][k - 1];
        }
        r
  }

  /** When every request started at a positive time, no shown description is
      empty and no two shown in a row have the same text. */
  lemma DisplayedNonEmptyAndChanging(finished: seq<Described>)
    requires forall k :: 0 <= k < |finished| ==> finished[k].startedAt > 0
    ensures var shown := Displayed(finished);
      (forall k :: 0 <= k < |shown| ==> shown[k].xml != "") &&
      (forall i :: 0 <= i < |shown| - 1 ==> shown[i].xml != shown[i + 1].xml)
  {
    var kept := NonEmpty(finished);
    forall k | 0 <= k < |kept|
      ensures kept[k].xml != "" && kept[k].startedAt > 0
    {
      SubseqMember(kept, finished, kept[k]);
    }
    ScanEmitsOnlyDescriptions(SEED, kept);
    var scanned := ScanLatest(SEED, kept);
    var shown := Displayed(finished);
    forall k | 0 <= k < |shown|
      ensures shown[k].xml != ""
    {
      SubseqMember(shown, scanned, shown[k]);
    }
  }

  lemma {:induction false} SubseqMember<T>(a: seq<T>, b: seq<T>, x: T)
    requires Subseq(a, b) && x in a
    ensures x in b
    decreases |b|
  {
    if a[0] == b[0] {
      if x != a[0] {
        assert x in a[1..];
        SubseqMember(a[1..], b[1..], x);
      }
    } else {
      SubseqMember(a, b[1..], x);
    }
  }

  /** `camTaskCount`: a BehaviorSubject<number> holding the number of
      description requests in flight, shown as decimal text. */
  class TaskCounter {
    var count: int
    var display: string            // #cam-task-count textContent
    ghost var inFlight: nat

    ghost predicate Valid()
      reads this
    {
      count == inFlight && display == Decimal(inFlight)
    }

    constructor ()
      ensures Valid() && inFlight == 0 && display == "0"
    {
      count, inFlight := 0, 0;
      display := Decimal(0);
    }

    /** Before the description request is sent. */
    method Begin()
      requires Valid()
      modifies this
      ensures Valid() && inFlight == old(inFlight) + 1
    {
      count := count + 1;
      inFlight := inFlight + 1;
      display := Decimal(count);
    }

    /** After the request settled, successfully or not (the `.catch` turns an
        error into the reply ""). */
    method End()
      requires Valid() && inFlight > 0
      modifies this
      ensures Valid() && inFlight == old(inFlight) - 1
    {
      count := count - 1;
      inFlight := inFlight - 1;
      display := Decimal(count);
    }
  }

  /** One finished description request: the reply (None when the request
      failed or had no content) becomes the re-indented scene. */
  function DescribeReply(startedAt: int, reply: Option<string>, timestamp: Option<string>): (d: Described)
    ensures d.startedAt == startedAt
    ensures reply.None? ==> d.xml == ""
    ensures d.xml != "" <==> SceneInner(reply.GetOr("")).Some?
    ensures d.xml == SceneXml(reply.GetOr(""), timestamp)
  {
    SceneXmlShape(reply.GetOr(""), timestamp);
    Described(startedAt, SceneXml(reply.GetOr(""), timestamp))
  }

  /** A task begun and ended leaves the counter where it was. */
  method DescriptionTask(counter: TaskCounter, startedAt: int, reply: Option<string>, timestamp: Option<string>)
    returns (d: Described)
    requires counter.Valid()
    modifies counter
    ensures counter.Valid() && counter.inFlight == old(counter.inFlight) && counter.count == old(counter.count)
    ensures d == DescribeReply(startedAt, reply, timestamp)
  {
    counter.Begin();
    d := DescribeReply(startedAt, reply, timestamp);
    counter.End();
  }

  /** The whole first `<world>...</world>` of a world-model reply, or "". */
  function WorldXml(content: string): (xml: string)
    ensures xml == "" <==> TagPair(content, "<world>", "</world>").None?
    ensures xml != "" ==> |xml| >= 15 && xml[..7] == "<world>" && xml[|xml| - 8..] == "</world>"
    ensures xml != "" ==> OccursAt(content, xml, TagPair(content, "<world>", "</world>").value.0)
    ensures xml != "" ==>
      xml == content[TagPair(content, "<world>", "</world>").value.0 .. TagPair(content, "<world>", "</world>").value.1 + 8]
  {
    match TagPair(content, "<world>", "</world>")
    case None => ""
    case Some((o, c)) =>
      assert OccursAt(content, "<world>", o) && OccursAt(content, "</world>", c);
      var xml := content[o..c + 8];
      assert xml[..7] == content[o..o + 7] == "<world>";
      assert xml[|xml| - 8..] == content[c..c + 8] == "</world>";
      assert content[o..o + |xml|] == xml;
      xml
  }

  /** A world-model reply: the extracted element is published to the store
      and passed on; a reply without one publishes nothing. */
  method PublishWorld(cell: Cell, content: string) returns (published: Option<string>)
    requires cell.Valid()
    modifies cell
    ensures cell.Valid()
    ensures WorldXml(content) == "" ==> published == None && cell.value == old(cell.value) && cell.emitted == old(cell.emitted)
    ensures WorldXml(content) != "" ==>
      published == Some(WorldXml(content)) && cell.value == WorldXml(content) && cell.emitted == old(cell.emitted) + [WorldXml(content)]
  {
    var newXmlContent := WorldXml(content);
    if newXmlContent == "" {
      return None;
    }
    cell.Next(newXmlContent);
    published := Some(newXmlContent);
  }
}
