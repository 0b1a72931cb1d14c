/** The shared world-model store of src/lib/sub-systems/shared.ts: one string
    cell (an RxJS BehaviorSubject) and the two tool operations that the
    language-model driver calls to change it, `update_by_script` and
    `rewrite_xml`.

    The browser's DOMParser, XMLSerializer, `querySelector` and the
    `new Function` script compiler are foreign code; they appear here as the
    fields of an `Engine` value, so every statement below holds for any
    behaviour those collaborators may have. */
module WorldStore {
  import opened Text

  /** The empty world: the store's initial value and the value "forget" restores. */
  const EMPTY_XML: string := "<world></world>"

  /** The empty scene: the initial value of the scene store of main.ts and storybox.ts. */
  const EMPTY_SCENE: string := "<scene></scene>"

  /** A BehaviorSubject<string>. `value` is what `.value` reads; `emitted` is
      every value delivered to a subscriber that has listened since creation
      (the initial value first, then one entry per `next`). */
  class Cell {
    var value: string
    var emitted: seq<string>

    ghost predicate Valid()
      reads this
    {
      |emitted| > 0 && emitted[|emitted| - 1] == value
    }

    constructor (initial: string)
      ensures Valid()
      ensures value == initial && emitted == [initial]
    {
      value := initial;
      emitted := [initial];
    }

    /** `next(x)`: the new value is `x` and every subscriber receives it. */
    method Next(x: string)
      requires Valid()
      modifies this
      ensures Valid()
      ensures value == x && emitted == old(emitted) + [x]
    {
      value := x;
      emitted := emitted + [x];
    }
  }

  /** The scene store of a page that edits a scene (`currentSceneXML` of the
      main page, the store of the storybox page): it starts as the empty scene. */
  method NewScene() returns (cell: Cell)
    ensures fresh(cell) && cell.Valid()
    ensures cell.value == EMPTY_SCENE && cell.emitted == [EMPTY_SCENE]
  {
    cell := new Cell(EMPTY_SCENE);
  }

  /** Handle of a parsed document inside the DOM engine. */
  datatype Doc = Doc(handle: nat)

  /** Handle of an element inside a parsed document. */
  datatype Node = Node(handle: nat)

  /** A foreign call returns a value, throws a value whose `message` is read
      as a text, or throws `null` (`isNull`) or `undefined`, which have no
      properties to read. */
  datatype Step<T> = Ok(value: T) | Throw(message: string) | ThrowNullish(isNull: bool)

  /** The TypeError that reading `.message` of a thrown `null` or `undefined`
      raises (in the wording of V8). */
  function NullishReadMessage(isNull: bool): string {
    "Cannot read properties of " + (if isNull then "null" else "undefined") + " (reading 'message')"
  }

  /** An argument handed to the compiled script. */
  datatype Arg = DocumentArg(doc: Doc) | ElementArg(element: Option<Node>)

  /** `new Function(params..., body)` either throws a SyntaxError at once or
      yields a function; calling it mutates the document and returns it, or throws. */
  datatype Compiled = SyntaxError(message: string) | Callable(call: seq<Arg> -> Step<Doc>)

  datatype Engine = Engine(
    compile: (seq<string>, string) -> Compiled,  // new Function(...params, script)
    parse: string -> Step<Doc>,                   // new DOMParser().parseFromString(_, "application/xml")
    select: (Doc, string) -> Option<Node>,        // doc.querySelector(tag)
    serialize: Doc -> Step<string>)               // new XMLSerializer().serializeToString(doc)

  /** Which names the script sees: `document` and `world` (shared.ts,
      representation.ts) or `document` alone (main.ts, storybox.ts). */
  datatype Binding = DocumentAndWorld | DocumentOnly

  function Params(b: Binding): seq<string> {
    match b
    case DocumentAndWorld => ["document", "world"]
    case DocumentOnly => ["document"]
  }

  function Args(engine: Engine, b: Binding, doc: Doc): seq<Arg> {
    match b
    case DocumentAndWorld => [DocumentArg(doc), ElementArg(engine.select(doc, "world"))]
    case DocumentOnly => [DocumentArg(doc)]
  }

  /** What running a script against the text `source` comes to: the serialized
      new document, an error caught by the `try` with its message, or an
      error (its name and message) that escapes the tool. */
  datatype ScriptOutcome = Serialized(xml: string) | Caught(message: string) | Uncaught(name: string, message: string)

  /** The body of the `try`: parse `source`, call the compiled script on the
      document (and the `<world>` element), serialize the document. The first
      step that throws ends it. */
  function TryBody(engine: Engine, binding: Binding, fn: seq<Arg> -> Step<Doc>, source: string): (r: Step<string>)
    ensures r.Ok? ==> engine.parse(source).Ok? && fn(Args(engine, binding, engine.parse(source).value)).Ok?
    ensures engine.parse(source).Throw? ==> r == Throw(engine.parse(source).message)
  {
    match engine.parse(source)
    case Throw(m) => Throw(m)
    case ThrowNullish(n) => ThrowNullish(n)
    case Ok(doc) =>
      match fn(Args(engine, binding, doc))
      case Throw(m) => Throw(m)
      case ThrowNullish(n) => ThrowNullish(n)
      case Ok(after) => engine.serialize(after)
  }

  /** compile; then the `try` body, whose throw the `catch` turns into
      "Error: " + message. Reading `.message` of a thrown `null` or
      `undefined` throws a TypeError inside the `catch`, which escapes too. */
  function RunScript(engine: Engine, binding: Binding, source: string, script: string): (o: ScriptOutcome)
    ensures engine.compile(Params(binding), script).SyntaxError? ==>
      o == Uncaught("SyntaxError", engine.compile(Params(binding), script).message)
    ensures engine.compile(Params(binding), script).Callable? ==>
      (o.Uncaught? <==> TryBody(engine, binding, engine.compile(Params(binding), script).call, source).ThrowNullish?)
      && (o.Caught? <==> TryBody(engine, binding, engine.compile(Params(binding), script).call, source).Throw?)
    ensures o.Uncaught? ==> o.name == "SyntaxError" || o.name == "TypeError"
    ensures o.Serialized? ==> exists d: Doc :: engine.parse(source).Ok? && engine.serialize(d) == Ok(o.xml)
  {
    match engine.compile(Params(binding), script)
    case SyntaxError(m) => Uncaught("SyntaxError", m)
    case Callable(fn) =>
      match TryBody(engine, binding, fn, source)
      case Ok(xml) => Serialized(xml)
      case Throw(m) => Caught(m)
      case ThrowNullish(n) => Uncaught("TypeError", NullishReadMessage(n))
  }

  /** A script that compiles and throws `null` is not turned into
      "Error: ...": the catch's own TypeError escapes the tool. */
  lemma NullishThrowEscapes(engine: Engine, binding: Binding, source: string, script: string)
    requires engine.compile(Params(binding), script).Callable?
    requires engine.parse(source).Ok?
    requires engine.compile(Params(binding), script).call(Args(engine, binding, engine.parse(source).value)) == ThrowNullish(true)
    ensures RunScript(engine, binding, source, script)
      == Uncaught("TypeError", "Cannot read properties of null (reading 'message')")
  {
    var fn := engine.compile(Params(binding), script).call;
    assert TryBody(engine, binding, fn, source) == ThrowNullish(true);
    assert NullishReadMessage(true) == "Cannot read properties of null (reading 'message')";
  }

  /** The value a tool callback hands back to the driver, or the error (its
      name and message) it throws. */
  datatype ToolReturn = Returned(text: string) | Raised(name: string, message: string)

  /** The script part of `update_by_script` run against `source`: compile,
      then the `try` body, and on success `next` with the serialized document.
      The cell changes exactly when the outcome is a serialized document. */
  method ApplyScript(cell: Cell, engine: Engine, binding: Binding, source: string, script: string) returns (o: ScriptOutcome)
    requires cell.Valid()
    modifies cell
    ensures cell.Valid()
    ensures o == RunScript(engine, binding, source, script)
    ensures o.Serialized? ==> cell.value == o.xml && cell.emitted == old(cell.emitted) + [o.xml]
    ensures !o.Serialized? ==> cell.value == old(cell.value) && cell.emitted == old(cell.emitted)
  {
    var compiled := engine.compile(Params(binding), script);
    if compiled.SyntaxError? {
      return Uncaught("SyntaxError", compiled.message);
    }
    var outcome := TryBody(engine, binding, compiled.call, source);
    match outcome
    case Ok(xml) =>
      cell.Next(xml);
      o := Serialized(xml);
    case Throw(m) =>
      o := Caught(m);
    case ThrowNullish(n) =>
      o := Uncaught("TypeError", NullishReadMessage(n));
  }

  /** `update_by_script(scene$, {script})`: transforms the cell's current value.
      Publishes at most once, and only on success; any failure leaves the cell as it was. */
  method UpdateByScript(cell: Cell, engine: Engine, binding: Binding, script: string) returns (r: ToolReturn)
    requires cell.Valid()
    modifies cell
    ensures cell.Valid()
    ensures |cell.emitted| <= |old(cell.emitted)| + 1
    ensures match RunScript(engine, binding, old(cell.value), script)
      case Serialized(xml) =>
        r == Returned("Done") && cell.value == xml && cell.emitted == old(cell.emitted) + [xml]
      case Caught(m) =>
        r == Returned("Error: " + m) && cell.value == old(cell.value) && cell.emitted == old(cell.emitted)
      case Uncaught(name, m) =>
        r == Raised(name, m) && cell.value == old(cell.value) && cell.emitted == old(cell.emitted)
  {
    var o := ApplyScript(cell, engine, binding, cell.value, script);
    match o
    case Serialized(_) => r := Returned("Done");
    case Caught(m) => r := Returned("Error: " + m);
    case Uncaught(name, m) => r := Raised(name, m);
  }

  /** `rewrite_xml(scene$, {xml})`: publishes `xml` as it is, without any check,
      so a second call with the same text leaves the same value. */
  method RewriteXml(cell: Cell, xml: string) returns (r: ToolReturn)
    requires cell.Valid()
    modifies cell
    ensures cell.Valid()
    ensures cell.value == xml && cell.emitted == old(cell.emitted) + [xml]
    ensures r == Returned("Done")
  {
    cell.Next(xml);
    r := Returned("Done");
  }

  /** `rewrite_xml` twice with the same text leaves the value a single call leaves. */
  method RewriteTwice(cell: Cell, xml: string) returns (first: ToolReturn, second: ToolReturn)
    requires cell.Valid()
    modifies cell
    ensures cell.Valid()
    ensures first == second == Returned("Done")
    ensures cell.value == xml && cell.emitted == old(cell.emitted) + [xml, xml]
  {
    first := RewriteXml(cell, xml);
    ghost var once := cell.value;
    second := RewriteXml(cell, xml);
    assert cell.value == once;
  }

  /** A compile failure is not turned into "Error: ...": it escapes the tool. */
  lemma CompileFailureEscapes(engine: Engine, binding: Binding, source: string, script: string)
    requires engine.compile(Params(binding), script).SyntaxError?
    ensures RunScript(engine, binding, source, script) == Uncaught("SyntaxError", engine.compile(Params(binding), script).message)
  {
  }

  /** `update_by_script` as its try/catch evidently intends: `new Function`
      inside the `try`, and a catch that reads `e?.message`, so that a script
      that does not compile comes back as "Error: ..." and a thrown `null` or
      `undefined` as "Error: undefined". Nothing escapes. */
  function RunScriptGuarded(engine: Engine, binding: Binding, source: string, script: string): (o: ScriptOutcome)
    ensures !o.Uncaught?
    ensures engine.compile(Params(binding), script).SyntaxError? ==> o == Caught(engine.compile(Params(binding), script).message)
    ensures engine.compile(Params(binding), script).Callable? ==>
      if TryBody(engine, binding, engine.compile(Params(binding), script).call, source).ThrowNullish?
      then o == Caught("undefined")
      else o == RunScript(engine, binding, source, script)
  {
    match engine.compile(Params(binding), script)
    case SyntaxError(m) => Caught(m)
    case Callable(fn) =>
      match TryBody(engine, binding, fn, source)
      case Ok(xml) => Serialized(xml)
      case Throw(m) => Caught(m)
      case ThrowNullish(_) => Caught("undefined")
  }

  /** With `document` as the only binding, the outcome does not depend on how
      the engine would have looked up the `<world>` element. */
  lemma DocumentOnlyIgnoresWorldLookup(engine: Engine, lookup: (Doc, string) -> Option<Node>, source: string, script: string)
    ensures RunScript(engine.(select := lookup), DocumentOnly, source, script) == RunScript(engine, DocumentOnly, source, script)
  {
  }
}
