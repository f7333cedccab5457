/**
 * The text input with a parent-facing handle: focus, clear and getValue act
 * on the <input> element, which may not be mounted, and an Enter keypress
 * hands the input's value to the optional onEnter callback.
 */
module CustomInput {
  import opened Wrappers
  import Dom

  /** The native <input> element. */
  class InputElement {
    const id: Dom.ElementId
    var value: string

    constructor (id: Dom.ElementId)
      ensures this.id == id && value == ""
    {
      this.id := id;
      value := "";
    }
  }

  /** handleKeyPress: Enter calls onEnter once with the input's value; other keys, or no onEnter, call nothing. */
  function HandleKeyPress(key: string, value: string, onEnter: Option<Dom.CallbackId>): (call: Option<(Dom.CallbackId, string)>)
    ensures call.Some? <==> key == "Enter" && onEnter.Some?
    ensures call.Some? ==> call.value.0 == onEnter.value && call.value.1 == value
  {
    if key == "Enter" && onEnter.Some? then Some((onEnter.value, value)) else None
  }

  /** The handle the parent holds. */
  class InputHandle {
    const input: InputElement?
    const doc: Dom.Document

    constructor (input: InputElement?, doc: Dom.Document)
      ensures this.input == input && this.doc == doc
    {
      this.input := input;
      this.doc := doc;
    }

    /** focus(): focuses the input when it is mounted. */
    method Focus()
      modifies doc
      ensures input != null ==> doc.State() == Dom.Focused(old(doc.State()), input.id)
      ensures input == null ==> doc.State() == old(doc.State())
    {
      if input != null {
        doc.Focus(input.id);
      }
    }

    /** clear(): empties the input when it is mounted. */
    method Clear()
      modifies input
      ensures input != null ==> input.value == ""
    {
      if input != null {
        input.value := "";
      }
    }

    /** getValue(): the input's text, or the empty string when it is not mounted. */
    method GetValue() returns (v: string)
      ensures input != null ==> v == input.value
      ensures input == null ==> v == ""
    {
      if input != null && input.value != "" {
        v := input.value;
      } else {
        v := "";
      }
    }

    /** clear() then getValue() reads the empty string, mounted or not. */
    method ClearThenGetValue() returns (v: string)
      modifies input
      ensures v == ""
    {
      Clear();
      v := GetValue();
    }
  }
}
