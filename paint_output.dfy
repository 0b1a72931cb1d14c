/** The render pipeline of src/lib/sub-systems/paint-output.ts: render clicks
    and (in continuous mode) world updates become request keys
    `visualPrompt::worldXML::clickCount`; a key equal to the previous one is
    dropped; each key then becomes an image prompt, and the prompt "Empty"
    becomes the placeholder picture. */
module PaintOutput {
  import opened Text
  import opened WorldStore

  /** The URL shown for an empty world. */
  const PLACEHOLDER_URL: string := "https://placehold.co/400"

  /** `${visualPrompt.value}::${worldXML}::${clickCount.value}` */
  function RenderKey(visualPrompt: string, worldXml: string, clickCount: nat): (key: string)
    ensures |key| == |visualPrompt| + 2 + |worldXml| + 2 + |Decimal(clickCount)|
    ensures key[..|visualPrompt|] == visualPrompt && key[|visualPrompt|..|visualPrompt| + 2] == "::"
    ensures key[|key| - |Decimal(clickCount)|..] == Decimal(clickCount)
  {
    visualPrompt + "::" + worldXml + "::" + Decimal(clickCount)
  }

  /** The text after the last ':' of `s` (all of `s` when it has none). */
  function AfterLastColon(s: string): (t: string)
    ensures ':' !in t
    decreases |s|
  {
    if s == [] then []
    else if s[|s| - 1] == ':' then []
    else AfterLastColon(s[..|s| - 1]) + [s[|s| - 1]]
  }

  lemma {:induction false} AfterLastColonOf(u: string, t: string)
    requires ':' !in t
    ensures AfterLastColon(u + ":" + t) == t
    decreases |t|
  {
    var s := u + ":" + t;
    if t == [] {
      assert s[|s| - 1] == ':';
    } else {
      var t' := t[..|t| - 1];
      assert s[..|s| - 1] == u + ":" + t';
      assert ':' !in t' by { assert forall k :: 0 <= k < |t'| ==> t'[k] == t[k]; }
      AfterLastColonOf(u, t');
      assert t == t' + [t[|t| - 1]];
    }
  }

  /** The click count can be read back from a key. */
  lemma RenderKeyCount(visualPrompt: string, worldXml: string, clickCount: nat)
    ensures AfterLastColon(RenderKey(visualPrompt, worldXml, clickCount)) == Decimal(clickCount)
  {
    var d := Decimal(clickCount);
    assert ':' !in d by {
      forall k | 0 <= k < |d| ensures d[k] != ':' { assert '0' <= d[k] <= '9'; }
    }
    assert RenderKey(visualPrompt, worldXml, clickCount) == (visualPrompt + "::" + worldXml + ":") + ":" + d;
    AfterLastColonOf(visualPrompt + "::" + worldXml + ":", d);
  }

  /** Keys made at different click counts differ, whatever the prompt and the
      world: every click yields a key the repeat filter lets through. */
  lemma KeysOfDifferentClicksDiffer(p1: string, x1: string, c1: nat, p2: string, x2: string, c2: nat)
    requires c1 != c2
    ensures RenderKey(p1, x1, c1) != RenderKey(p2, x2, c2)
  {
    if RenderKey(p1, x1, c1) == RenderKey(p2, x2, c2) {
      RenderKeyCount(p1, x1, c1);
      RenderKeyCount(p2, x2, c2);
      DecimalInjective(c1, c2);
    }
  }

  /** A key made before a click differs from every key made after it. */
  lemma StaleKeyDiffers(last: string, visualPrompt: string, worldXml: string, clickCount: nat)
    requires AfterLastColon(last) == Decimal(clickCount)
    ensures last != RenderKey(visualPrompt, worldXml, clickCount + 1)
  {
    if last == RenderKey(visualPrompt, worldXml, clickCount + 1) {
      RenderKeyCount(visualPrompt, worldXml, clickCount + 1);
      DecimalInjective(clickCount, clickCount + 1);
    }
  }

  /** A key always holds "::", which the empty world does not: the key is never
      the empty world. */
  lemma KeyIsNeverEmptyWorld(visualPrompt: string, worldXml: string, clickCount: nat)
    ensures RenderKey(visualPrompt, worldXml, clickCount) != EMPTY_XML
  {
    var key := RenderKey(visualPrompt, worldXml, clickCount);
    assert key[|visualPrompt|] == ':';
    assert ':' !in EMPTY_XML;
  }

  /** What a render subject leads to: the sentinel prompt at once, or a
      request to the describing model. */
  datatype Request = Immediate(prompt: string) | Describe(subject: string)

  /** `subject === empty ? of(sentinel) : <describe subject>`. The pages pass
      the key and "<world></world>" with "Empty" (paint-output.ts), the world
      and "<world></world>" with "Empty" (representation.ts), or the scene and
      "<scene></scene>" with "Empty scene" (main.ts). */
  function RequestFor(subject: string, empty: string, sentinel: string): (r: Request)
    ensures r.Immediate? <==> subject == empty
    ensures r.Immediate? ==> r.prompt == sentinel
    ensures r.Describe? ==> r.subject == subject
  {
    if subject == empty then Immediate(sentinel) else Describe(subject)
  }

  /** As written, the composed key is what is compared with the empty world,
      so an empty world is never short-circuited: it is sent to be described. */
  lemma EmptyWorldIsStillDescribed(visualPrompt: string, clickCount: nat)
    ensures RequestFor(RenderKey(visualPrompt, EMPTY_XML, clickCount), EMPTY_XML, "Empty").Describe?
  {
    KeyIsNeverEmptyWorld(visualPrompt, EMPTY_XML, clickCount);
  }

  /** The request as the comparison evidently intends: the world of the key,
      not the whole key, is compared with the empty world. */
  function IntendedRequestFor(visualPrompt: string, worldXml: string, clickCount: nat): (r: Request)
    ensures r.Immediate? <==> worldXml == EMPTY_XML
    ensures r.Immediate? ==> r.prompt == "Empty"
    ensures r.Describe? ==> r.subject == RenderKey(visualPrompt, worldXml, clickCount)
  {
    if worldXml == EMPTY_XML then Immediate("Empty") else Describe(RenderKey(visualPrompt, worldXml, clickCount))
  }

  /** Where a picture comes from: the placeholder, or an image generated from a prompt. */
  datatype ImageSource = Placeholder(url: string) | Generated(prompt: string)

  /** `generateImage$`: the sentinel prompt maps to the placeholder URL, any
      other prompt is sent to the image model. */
  function ImageFor(prompt: string, sentinel: string): (src: ImageSource)
    ensures src.Placeholder? <==> prompt == sentinel
    ensures src.Placeholder? ==> src.url == PLACEHOLDER_URL
    ensures src.Generated? ==> src.prompt == prompt
  {
    if prompt == sentinel then Placeholder(PLACEHOLDER_URL) else Generated(prompt)
  }

  /** `if (result) subscriber.next(result)`: a missing or empty reply of the
      describing model emits no prompt at all. */
  function PromptFromReply(result: Option<string>): (prompt: Option<string>)
    ensures prompt.Some? <==> result.Some? && result.value != ""
    ensures prompt.Some? ==> prompt == result
  {
    if result.Some? && result.value != "" then result else None
  }

  /** The picture a request ends in, given what the describing model replied
      (ignored for an immediate prompt); None when no picture is produced and
      the previous one stays. */
  function Picture(request: Request, reply: Option<string>, sentinel: string): (src: Option<ImageSource>)
    ensures src.None? <==> request.Describe? && PromptFromReply(reply).None?
    ensures src.Some? && src.value.Placeholder? ==> src.value.url == PLACEHOLDER_URL
  {
    match request
    case Immediate(prompt) => Some(ImageFor(prompt, sentinel))
    case Describe(_) =>
      match PromptFromReply(reply)
      case None => None
      case Some(prompt) => Some(ImageFor(prompt, sentinel))
  }

  /** The placeholder is shown exactly when the subject is the empty one or
      the describing model itself answered with the sentinel text. */
  lemma PlaceholderExactly(subject: string, empty: string, sentinel: string, reply: Option<string>)
    requires sentinel != ""
    ensures Picture(RequestFor(subject, empty, sentinel), reply, sentinel) == Some(Placeholder(PLACEHOLDER_URL))
      <==> subject == empty || reply == Some(sentinel)
  {
  }

  /** As written, an empty world shows the placeholder only if the describing
      model happens to answer "Empty". */
  lemma WrittenEmptyWorldPicture(visualPrompt: string, clickCount: nat, reply: Option<string>)
    ensures var request := RequestFor(RenderKey(visualPrompt, EMPTY_XML, clickCount), EMPTY_XML, "Empty");
      Picture(request, reply, "Empty") == Some(Placeholder(PLACEHOLDER_URL)) <==> reply == Some("Empty")
  {
    KeyIsNeverEmptyWorld(visualPrompt, EMPTY_XML, clickCount);
  }

  /** With the intended comparison an empty world always renders the placeholder. */
  lemma IntendedEmptyWorldShowsPlaceholder(visualPrompt: string, clickCount: nat, reply: Option<string>)
    ensures Picture(IntendedRequestFor(visualPrompt, EMPTY_XML, clickCount), reply, "Empty") == Some(Placeholder(PLACEHOLDER_URL))
  {
  }

  /** The click counter, the continuous-render switch and the repeat filter. */
  class Painter {
    var clickCount: nat              // BehaviorSubject(0)
    var continuous: bool             // the switchMap follows the world store
    var lastKey: Option<string>      // last key distinctUntilChanged let through

    /** The last key passed was made at the current click count. */
    ghost predicate Valid()
      reads this
    {
      lastKey.Some? ==> AfterLastColon(lastKey.value) == Decimal(clickCount)
    }

    constructor ()
      ensures Valid()
      ensures clickCount == 0 && !continuous && lastKey == None
    {
      clickCount, continuous, lastKey := 0, false, None;
    }

    /** One trigger: compose the key from the prompt, the store's current
        value and the click count; drop it when it repeats the last key. */
    method Trigger(visualPrompt: string, worldXml: string) returns (key: Option<string>)
      modifies this
      ensures clickCount == old(clickCount) && continuous == old(continuous)
      ensures var k := RenderKey(visualPrompt, worldXml, clickCount);
        if old(lastKey) == Some(k) then key == None && lastKey == old(lastKey)
        else key == Some(k) && lastKey == key
    {
      var k := RenderKey(visualPrompt, worldXml, clickCount);
      if lastKey == Some(k) {
        return None;
      }
      lastKey := Some(k);
      key := lastKey;
    }

    /** A click on #render: the count goes up by exactly one, and the key it
        yields always passes the repeat filter. */
    method Click(visualPrompt: string, worldXml: string) returns (key: Option<string>)
      requires Valid()
      modifies this
      ensures Valid()
      ensures clickCount == old(clickCount) + 1 && continuous == old(continuous)
      ensures key == Some(RenderKey(visualPrompt, worldXml, clickCount)) && lastKey == key
    {
      ghost var nextKey := RenderKey(visualPrompt, worldXml, clickCount + 1);
      if lastKey.Some? {
        StaleKeyDiffers(lastKey.value, visualPrompt, worldXml, clickCount);
      }
      assert lastKey != Some(nextKey);
      clickCount := clickCount + 1;
      key := Trigger(visualPrompt, worldXml);
      assert key == Some(nextKey);
      RenderKeyCount(visualPrompt, worldXml, clickCount);
    }

    /** The #continuous-render checkbox changed: switching on subscribes to
        the store, which replays its current value as one trigger. */
    method SetContinuous(checked: bool, visualPrompt: string, worldXml: string) returns (key: Option<string>)
      requires Valid()
      modifies this
      ensures Valid()
      ensures continuous == checked && clickCount == old(clickCount)
      ensures !checked ==> key == None && lastKey == old(lastKey)
      ensures checked ==> var k := RenderKey(visualPrompt, worldXml, clickCount);
        if old(lastKey) == Some(k) then key == None && lastKey == old(lastKey)
        else key == Some(k) && lastKey == key
    {
      continuous := checked;
      if checked {
        key := Trigger(visualPrompt, worldXml);
        RenderKeyCount(visualPrompt, worldXml, clickCount);
      } else {
        key := None;
      }
    }

    /** The store published `worldXml`: a trigger only in continuous mode. */
    method WorldEmitted(visualPrompt: string, worldXml: string) returns (key: Option<string>)
      requires Valid()
      modifies this
      ensures Valid()
      ensures continuous == old(continuous) && clickCount == old(clickCount)
      ensures !continuous ==> key == None && lastKey == old(lastKey)
      ensures continuous ==> var k := RenderKey(visualPrompt, worldXml, clickCount);
        if old(lastKey) == Some(k) then key == None && lastKey == old(lastKey)
        else key == Some(k) && lastKey == key
    {
      if continuous {
        key := Trigger(visualPrompt, worldXml);
        RenderKeyCount(visualPrompt, worldXml, clickCount);
      } else {
        key := None;
      }
    }
  }
}
