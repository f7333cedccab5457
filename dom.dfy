/**
 * The small part of the browser document the widgets touch: element
 * identities, measured boxes, which element has focus, which elements are
 * attached, and the document-level keydown listeners.
 */
module Dom {

  /** Identity of a DOM element. */
  type ElementId = nat

  /** The document body, which holds focus when no other element does. */
  const Body: ElementId := 0

  /** Identity of a callback prop (a closure handed down by a parent). */
  type CallbackId = nat

  /** A bounding box as getBoundingClientRect reports it, in viewport pixels. */
  datatype Rect = Rect(left: real, top: real, width: real, height: real)

  /**
   * A keydown listener registered on the document, identified by the widget
   * instance that registered it and by which run of its effect created the
   * closure (every run creates a new function object).
   */
  datatype Listener = Listener(owner: nat, generation: nat)

  /** The document as a value: focused element, attached elements, listeners. */
  datatype DocState = DocState(active: ElementId, attached: set<ElementId>, listeners: multiset<Listener>)

  /** element.focus(): moves focus to an attached element; on a detached one it does nothing. */
  function Focused(d: DocState, e: ElementId): (r: DocState)
    ensures e in d.attached ==> r == d.(active := e)
    ensures e !in d.attached ==> r == d
  {
    if e in d.attached then d.(active := e) else d
  }

  /** Inserting an element into the document; focus stays where it was. */
  function Attached(d: DocState, e: ElementId): (r: DocState)
    ensures e in r.attached && r.active == d.active && r.listeners == d.listeners
    ensures forall x :: x != e ==> (x in r.attached <==> x in d.attached)
  {
    d.(attached := d.attached + {e})
  }

  /** Removing an element; if it had focus, focus falls back to the body. */
  function Detached(d: DocState, e: ElementId): (r: DocState)
    ensures e !in r.attached && r.listeners == d.listeners
    ensures forall x :: x != e ==> (x in r.attached <==> x in d.attached)
    ensures r.active == if d.active == e then Body else d.active
  {
    d.(attached := d.attached - {e}, active := if d.active == e then Body else d.active)
  }

  /**
   * document.addEventListener: adding a listener that is already registered
   * has no effect, so no listener is ever present twice.
   */
  function ListenerAdded(d: DocState, l: Listener): (r: DocState)
    ensures l in r.listeners
    ensures d.listeners[l] <= 1 ==> r.listeners[l] == 1
    ensures forall m :: m != l ==> r.listeners[m] == d.listeners[m]
    ensures r.active == d.active && r.attached == d.attached
  {
    if l in d.listeners then d else d.(listeners := d.listeners + multiset{l})
  }

  /** document.removeEventListener: removes that same listener, if present. */
  function ListenerRemoved(d: DocState, l: Listener): (r: DocState)
    requires d.listeners[l] <= 1
    ensures r.listeners[l] == 0
    ensures forall m :: m != l ==> r.listeners[m] == d.listeners[m]
    ensures r.active == d.active && r.attached == d.attached
  {
    d.(listeners := d.listeners - multiset{l})
  }

  /** The live document, updated in place by the widgets' effects. */
  class Document {
    var activeElement: ElementId
    var attached: set<ElementId>
    var listeners: multiset<Listener>

    function State(): DocState
      reads this
    {
      DocState(activeElement, attached, listeners)
    }

    constructor (elements: set<ElementId>)
      ensures State() == DocState(Body, elements + {Body}, multiset{})
    {
      activeElement := Body;
      attached := elements + {Body};
      listeners := multiset{};
    }

    method Focus(e: ElementId)
      modifies this
      ensures State() == Focused(old(State()), e)
    {
      if e in attached {
        activeElement := e;
      }
    }

    method Attach(e: ElementId)
      modifies this
      ensures State() == Attached(old(State()), e)
    {
      attached := attached + {e};
    }

    method Detach(e: ElementId)
      modifies this
      ensures State() == Detached(old(State()), e)
    {
      attached := attached - {e};
      if activeElement == e {
        activeElement := Body;
      }
    }

    method AddEventListener(l: Listener)
      modifies this
      ensures State() == ListenerAdded(old(State()), l)
    {
      if l !in listeners {
        listeners := listeners + multiset{l};
      }
    }

    method RemoveEventListener(l: Listener)
      requires listeners[l] <= 1
      modifies this
      ensures State() == ListenerRemoved(old(State()), l)
    {
      listeners := listeners - multiset{l};
    }
  }
}
