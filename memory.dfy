/** The memory panel of src/lib/sub-systems/memory.ts: a preview that shows
    the world model and a "forget" button that resets it. */
module Memory {
  import opened WorldStore

  /** Text of `#xml-preview` after the subscriber's `tap` has run once for
      each emitted value, in order, starting from the text `initial`. */
  function Preview(initial: string, emitted: seq<string>): (text: string)
    ensures emitted == [] ==> text == initial
    ensures emitted != [] ==> text == emitted[|emitted| - 1]
    decreases |emitted|
  {
    if emitted == [] then initial else Preview(emitted[0], emitted[1..])
  }

  /** Whatever was shown before, the preview equals the store's current value. */
  lemma PreviewMirrorsStore(cell: Cell, initial: string)
    requires cell.Valid()
    ensures Preview(initial, cell.emitted) == cell.value
  {
  }

  /** A click on `#forget`: the store becomes the empty world whatever it held,
      so a second click leaves it the same; nothing but the store is written. */
  method Forget(cell: Cell)
    requires cell.Valid()
    modifies cell
    ensures cell.Valid()
    ensures cell.value == EMPTY_XML && cell.emitted == old(cell.emitted) + [EMPTY_XML]
  {
    cell.Next(EMPTY_XML);
  }

  /** Forgetting twice leaves the store as forgetting once does. */
  method ForgetTwice(cell: Cell)
    requires cell.Valid()
    modifies cell
    ensures cell.Valid()
    ensures cell.value == EMPTY_XML && cell.emitted == old(cell.emitted) + [EMPTY_XML, EMPTY_XML]
  {
    Forget(cell);
    Forget(cell);
  }

  /** The store of shared.ts starts as the empty world and its preview shows it. */
  method NewWorldStore() returns (cell: Cell)
    ensures fresh(cell) && cell.Valid()
    ensures cell.value == EMPTY_XML && cell.emitted == [EMPTY_XML]
    ensures Preview("", cell.emitted) == EMPTY_XML
  {
    cell := new Cell(EMPTY_XML);
  }
}
