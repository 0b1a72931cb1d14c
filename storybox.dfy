/** The scene editor of src/storybox.ts. A prompt submitted with Enter is sent
    to the language model together with the scene as it was at that moment
    (`withLatestFrom`); the two tools of that request work on this snapshot,
    not on what the store holds when they run, and echo the new XML back in
    a fenced block. */
module Storybox {
  import opened Text
  import opened WorldStore
  import opened Submission

  const UPDATED_HEADER: string := "Updated to \n```xml\n"
  const REWRITTEN_HEADER: string := "Scene XML updated to\n```xml\n"
  const FENCE_END: string := "\n```"

  /** The template literal of `rewrite_xml` ends in a newline and the
      indentation of its closing line. */
  const REWRITTEN_TAIL: string := "\n                  "

  /** The reply of a successful script, after `.trim()`: trimming removes
      nothing, since the text begins with 'U' and ends with '`'. */
  function UpdatedText(xml: string): (text: string)
    ensures text == UPDATED_HEADER + xml + FENCE_END
  {
    var fenced := UPDATED_HEADER + xml + FENCE_END;
    assert fenced[0] == 'U' && fenced[|fenced| - 1] == '`';
    assert [] + fenced + [] == fenced;
    TrimPadded([], fenced, []);
    Trim(fenced)
  }

  /** The reply of `rewrite_xml`, after `.trim()`: the trailing newline and
      indentation are cut, and nothing else. */
  function RewrittenText(xml: string): (text: string)
    ensures text == REWRITTEN_HEADER + xml + FENCE_END
  {
    var fenced := REWRITTEN_HEADER + xml + FENCE_END;
    assert fenced[0] == 'S' && fenced[|fenced| - 1] == '`';
    assert [] + fenced + REWRITTEN_TAIL == fenced + REWRITTEN_TAIL;
    TrimPadded([], fenced, REWRITTEN_TAIL);
    Trim(fenced + REWRITTEN_TAIL)
  }

  /** The XML between a header and the closing fence, when `text` has that shape. */
  function Unfenced(text: string, header: string): (xml: Option<string>)
    ensures xml.Some? ==> text == header + xml.value + FENCE_END
  {
    if |text| >= |header| + |FENCE_END| && text[..|header|] == header && text[|text| - |FENCE_END|..] == FENCE_END
    then Some(text[|header|..|text| - |FENCE_END|])
    else None
  }

  /** The XML a tool echoes can be read back from its reply. */
  lemma EchoRoundTrip(xml: string)
    ensures Unfenced(UpdatedText(xml), UPDATED_HEADER) == Some(xml)
    ensures Unfenced(RewrittenText(xml), REWRITTEN_HEADER) == Some(xml)
  {
    var u := UpdatedText(xml);
    assert u[..|UPDATED_HEADER|] == UPDATED_HEADER;
    assert u[|u| - |FENCE_END|..] == FENCE_END;
    assert u[|UPDATED_HEADER|..|u| - |FENCE_END|] == xml;
    var w := RewrittenText(xml);
    assert w[..|REWRITTEN_HEADER|] == REWRITTEN_HEADER;
    assert w[|w| - |FENCE_END|..] == FENCE_END;
    assert w[|REWRITTEN_HEADER|..|w| - |FENCE_END|] == xml;
  }

  /** A keydown in #prompt: a submitted prompt is paired with the store's
      value at that moment, the snapshot its tools will work on. */
  method Submit(cell: Cell, key: string, field: string) returns (request: Option<(string, string)>, newField: string)
    ensures request.Some? <==> key == "Enter" && field != ""
    ensures request.Some? ==> request.value == (field, cell.value) && newField == ""
    ensures request.None? ==> newField == field
  {
    var (prompt, cleared) := EnterSubmit(key, field);
    newField := cleared;
    if prompt.Some? {
      request := Some((prompt.value, cell.value));
    } else {
      request := None;
    }
  }

  /** `update_by_script` of a request whose snapshot is `snapshot`: the script
      transforms the snapshot, and on success the result is published and
      echoed. */
  method UpdateByScript(cell: Cell, engine: Engine, snapshot: string, script: string) returns (r: ToolReturn)
    requires cell.Valid()
    modifies cell
    ensures cell.Valid()
    ensures match RunScript(engine, DocumentOnly, snapshot, script)
      case Serialized(xml) =>
        r == Returned(UpdatedText(xml)) && cell.value == xml && cell.emitted == old(cell.emitted) + [xml]
      case Caught(m) =>
        r == Returned("Error: " + m) && cell.value == old(cell.value) && cell.emitted == old(cell.emitted)
      case Uncaught(name, m) =>
        r == Raised(name, m) && cell.value == old(cell.value) && cell.emitted == old(cell.emitted)
  {
    var o := ApplyScript(cell, engine, DocumentOnly, snapshot, script);
    match o
    case Serialized(xml) => r := Returned(UpdatedText(xml));
    case Caught(m) => r := Returned("Error: " + m);
    case Uncaught(name, m) => r := Raised(name, m);
  }

  /** `rewrite_xml`: publishes `xml` as it is and echoes it. */
  method RewriteXml(cell: Cell, xml: string) returns (r: ToolReturn)
    requires cell.Valid()
    modifies cell
    ensures cell.Valid()
    ensures cell.value == xml && cell.emitted == old(cell.emitted) + [xml]
    ensures r == Returned(RewrittenText(xml))
  {
    cell.Next(xml);
    r := Returned(RewrittenText(xml));
  }

  /** Two scripts run by one request: the second still transforms the
      snapshot, so when it succeeds the store holds its result on the snapshot
      alone, whatever the first script did. */
  method TwoScriptsOfOneRequest(cell: Cell, engine: Engine, snapshot: string, first: string, second: string)
    returns (r1: ToolReturn, r2: ToolReturn)
    requires cell.Valid()
    modifies cell
    ensures cell.Valid()
    ensures RunScript(engine, DocumentOnly, snapshot, second).Serialized? ==>
      cell.value == RunScript(engine, DocumentOnly, snapshot, second).xml
  {
    r1 := UpdateByScript(cell, engine, snapshot, first);
    r2 := UpdateByScript(cell, engine, snapshot, second);
  }
}
