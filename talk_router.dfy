/** Delegated push-to-talk of src/representation.ts: any element whose action
    is "talk" can borrow the one speech recognizer; pressing it arms the text
    field its `data-talk` attribute names, and every recognition result is then
    appended to that field. */
module TalkRouter {
  import opened Text

  /** An element of the page, identified by its id. */
  type ElementId = string

  /** `$("#" + id)`: the field with that id, or null. */
  function Lookup(fields: map<ElementId, string>, id: ElementId): (r: Option<ElementId>)
    ensures r.Some? <==> id != "" && id in fields
    ensures r.Some? ==> r.value == id
  {
    if id != "" && id in fields then Some(id) else None
  }

  /** The field's value after one result is routed to it: appended after a
      space when the field already holds text, assigned when it is empty. */
  function Appended(current: string, text: string): string {
    if current != "" then current + " " + text else text
  }

  /** The field's value after a run of results is routed to it, one after another. */
  function AppendAll(current: string, texts: seq<string>): string
    decreases |texts|
  {
    if texts == [] then current else AppendAll(Appended(current, texts[0]), texts[1..])
  }

  lemma JoinCons(a: string, rest: seq<string>, sep: string)
    ensures Join([a] + rest, sep) == if rest == [] then a else a + sep + Join(rest, sep)
  {
    assert ([a] + rest)[1..] == rest;
  }

  /** Routing non-empty results into a field one by one gives the field's old
      text (if any) and the results, separated by single spaces. */
  lemma {:induction false} AppendAllJoins(current: string, texts: seq<string>)
    requires forall k :: 0 <= k < |texts| ==> texts[k] != ""
    ensures AppendAll(current, texts) == if current == "" then Join(texts, " ") else Join([current] + texts, " ")
    decreases |texts|
  {
    if texts == [] {
      JoinCons(current, [], " ");
    } else {
      var next := Appended(current, texts[0]);
      var rest := texts[1..];
      AppendAllJoins(next, rest);
      assert texts == [texts[0]] + rest;
      JoinCons(next, rest, " ");
      JoinCons(texts[0], rest, " ");
      if current != "" {
        JoinCons(current, texts, " ");
      }
    }
  }

  /** The module-level routing state and the fields it writes into. */
  class Router {
    var target: Option<ElementId>       // sttTargetElement
    var fields: map<ElementId, string>  // `.value` of each input element, by id
    var listening: bool                 // azureSttNode between start() and stop()

    ghost predicate Valid()
      reads this
    {
      target.Some? ==> target.value in fields
    }

    constructor (fields: map<ElementId, string>)
      ensures Valid()
      ensures target == None && !listening && this.fields == fields
    {
      target := None;
      this.fields := fields;
      listening := false;
    }

    /** `mousedown` anywhere: only a "talk" action starts the recognizer and
        re-arms the target, to the field named by `data-talk` or to null. */
    method Press(action: string, dataTalk: Option<string>)
      requires Valid()
      modifies this
      ensures Valid()
      ensures fields == old(fields)
      ensures action == "talk" ==> listening && target == Lookup(fields, dataTalk.GetOr(""))
      ensures action != "talk" ==> listening == old(listening) && target == old(target)
    {
      if action == "talk" {
        listening := true;
        target := Lookup(fields, dataTalk.GetOr(""));
      }
    }

    /** `mouseup` anywhere: a "talk" action stops the recognizer; the armed
        target stays, so late results still reach it. */
    method Release(action: string)
      requires Valid()
      modifies this
      ensures Valid()
      ensures fields == old(fields) && target == old(target)
      ensures action == "talk" ==> !listening
      ensures action != "talk" ==> listening == old(listening)
    {
      if action == "talk" {
        listening := false;
      }
    }

    /** A recognition event: dropped when its text is missing or empty or when
        no target is armed; otherwise appended to the armed field. */
    method Recognized(recognized: Option<string>)
      requires Valid()
      modifies this
      ensures Valid()
      ensures target == old(target) && listening == old(listening)
      ensures fields ==
        if recognized.Some? && recognized.value != "" && target.Some?
        then old(fields)[target.value := Appended(old(fields)[target.value], recognized.value)]
        else old(fields)
    {
      if recognized.Some? && recognized.value != "" {
        if target.Some? {
          var id := target.value;
          fields := fields[id := Appended(fields[id], recognized.value)];
        }
      }
    }
  }
}
