/**
 * The modal dialog. Its parent controls it through two props, isOpen and
 * onClose. On every commit the portal content is inserted into or removed
 * from the document, and two effects run when their dependencies change:
 *   - the focus effect, on a change of isOpen: opening saves the focused
 *     element in previousFocus and focuses the dialog; closing focuses the
 *     saved element again;
 *   - the Escape effect, on a change of isOpen or onClose: its cleanup
 *     removes the keydown listener of the previous run, then it adds a new
 *     one whose closure captures the current isOpen and onClose.
 *
 * ModalState and the transition functions are the dialog as a value; the
 * class Dialog performs the same transitions on a live Document.
 */
module Modal {
  import opened Wrappers
  import Dom

  /** The keydown listener one run of the Escape effect added, with the props its closure captured. */
  datatype Registration = Registration(listener: Dom.Listener, isOpen: bool, onClose: Dom.CallbackId)

  /**
   * One mounted dialog: its instance id, the element its portal renders, its
   * props, the previousFocus ref, the listener its last Escape effect added,
   * how many times that effect has run, and the document.
   */
  datatype ModalState = ModalState(
    id: nat, dialog: Dom.ElementId,
    isOpen: bool, onClose: Dom.CallbackId,
    previousFocus: Option<Dom.ElementId>,
    escape: Option<Registration>, runs: nat,
    doc: Dom.DocState)

  /**
   * What holds between transitions of a mounted dialog: the portal content
   * is in the document exactly while open, one listener of this instance is
   * registered, it is the one the last effect run added, and it captured the
   * current props.
   */
  ghost predicate Valid(s: ModalState)
  {
    s.dialog != Dom.Body &&
    (s.dialog in s.doc.attached <==> s.isOpen) &&
    s.escape.Some? &&
    s.escape.value.listener.owner == s.id &&
    s.escape.value.listener.generation < s.runs &&
    s.escape.value.isOpen == s.isOpen &&
    s.escape.value.onClose == s.onClose &&
    forall l: Dom.Listener :: l.owner == s.id ==>
      s.doc.listeners[l] == if l == s.escape.value.listener then 1 else 0
  }

  /** No listener of instance id is registered. */
  ghost predicate NoListenersOf(d: Dom.DocState, id: nat)
  {
    forall l: Dom.Listener :: l.owner == id ==> d.listeners[l] == 0
  }

  /** The listeners that belong to other widgets are the same in both documents. */
  ghost predicate OthersUnchanged(d: Dom.DocState, d': Dom.DocState, id: nat)
  {
    forall l: Dom.Listener :: l.owner != id ==> d'.listeners[l] == d.listeners[l]
  }

  /**
   * The render: the portal content is in the document exactly while open,
   * and no other element comes or goes. Closing while the dialog holds focus
   * drops focus to the body.
   */
  function Committed(s: ModalState): (r: ModalState)
    ensures r.dialog in r.doc.attached <==> r.isOpen
    ensures forall x :: x != s.dialog ==> (x in r.doc.attached <==> x in s.doc.attached)
    ensures r.doc.active == if !s.isOpen && s.doc.active == s.dialog then Dom.Body else s.doc.active
    ensures r.doc.listeners == s.doc.listeners
    ensures r.(doc := s.doc) == s
  {
    if s.isOpen then s.(doc := Dom.Attached(s.doc, s.dialog))
    else s.(doc := Dom.Detached(s.doc, s.dialog))
  }

  /**
   * The focus effect. Opening overwrites previousFocus with the focused
   * element and focuses the dialog; closing focuses previousFocus if one was
   * saved, which does nothing when that element has left the document.
   */
  function FocusEffect(s: ModalState): (r: ModalState)
    ensures s.isOpen ==> r.previousFocus == Some(s.doc.active) && r.doc == Dom.Focused(s.doc, s.dialog)
    ensures !s.isOpen && s.previousFocus.Some? ==> r.doc == Dom.Focused(s.doc, s.previousFocus.value)
    ensures !s.isOpen && s.previousFocus.None? ==> r.doc == s.doc
    ensures !s.isOpen ==> r.previousFocus == s.previousFocus
    ensures r.doc.attached == s.doc.attached && r.doc.listeners == s.doc.listeners
    ensures r.(doc := s.doc, previousFocus := s.previousFocus) == s
  {
    if s.isOpen then
      s.(previousFocus := Some(s.doc.active), doc := Dom.Focused(s.doc, s.dialog))
    else if s.previousFocus.Some? then
      s.(doc := Dom.Focused(s.doc, s.previousFocus.value))
    else s
  }

  /** The Escape effect's cleanup: removes the listener the previous run added. */
  function Unsubscribed(s: ModalState): (r: ModalState)
    requires s.escape.Some? ==> s.doc.listeners[s.escape.value.listener] <= 1
    ensures r.escape.None?
    ensures s.escape.Some? ==> r.doc.listeners[s.escape.value.listener] == 0
    ensures forall l :: (s.escape.None? || l != s.escape.value.listener) ==> r.doc.listeners[l] == s.doc.listeners[l]
    ensures r.doc.active == s.doc.active && r.doc.attached == s.doc.attached
    ensures r.(doc := s.doc, escape := s.escape) == s
  {
    match s.escape
    case None => s
    case Some(reg) => s.(doc := Dom.ListenerRemoved(s.doc, reg.listener), escape := None)
  }

  /** The Escape effect's setup: adds a new listener closing over the current props. */
  function Subscribed(s: ModalState): (r: ModalState)
    ensures r.escape == Some(Registration(Dom.Listener(s.id, s.runs), s.isOpen, s.onClose))
    ensures r.runs == s.runs + 1
    ensures r.doc == Dom.ListenerAdded(s.doc, Dom.Listener(s.id, s.runs))
    ensures r.(doc := s.doc, escape := s.escape, runs := s.runs) == s
  {
    var l := Dom.Listener(s.id, s.runs);
    s.(doc := Dom.ListenerAdded(s.doc, l),
       escape := Some(Registration(l, s.isOpen, s.onClose)),
       runs := s.runs + 1)
  }

  /** The first render and both effects' first runs. */
  function Mount(id: nat, dialog: Dom.ElementId, doc: Dom.DocState, isOpen: bool, onClose: Dom.CallbackId): ModalState
  {
    Subscribed(FocusEffect(Committed(ModalState(id, dialog, isOpen, onClose, None, None, 0, doc))))
  }

  /**
   * A re-render with new props: commit, then the cleanup of the Escape effect
   * if its dependencies changed, the focus effect if isOpen changed, and the
   * Escape effect's new run if its dependencies changed.
   */
  function Rerendered(s: ModalState, isOpen: bool, onClose: Dom.CallbackId): ModalState
    requires Valid(s)
  {
    var escapeDepsChanged := isOpen != s.isOpen || onClose != s.onClose;
    var s1 := Committed(s.(isOpen := isOpen, onClose := onClose));
    var s2 := if escapeDepsChanged then Unsubscribed(s1) else s1;
    var s3 := if isOpen != s.isOpen then FocusEffect(s2) else s2;
    if escapeDepsChanged then Subscribed(s3) else s3
  }

  /** Unmounting: the Escape cleanup runs and the portal content leaves the document; focus is not restored. */
  function Unmounted(s: ModalState): ModalState
    requires Valid(s)
  {
    var s1 := Unsubscribed(s);
    s1.(doc := Dom.Detached(s1.doc, s1.dialog))
  }

  /** What rendering returns: the portal's dialog while open, null while closed. */
  function Portal(s: ModalState): (content: Option<Dom.ElementId>)
    ensures content.Some? <==> s.isOpen
    ensures content.Some? ==> content.value == s.dialog
  {
    if s.isOpen then Some(s.dialog) else None
  }

  /** The Escape listener's closure: it calls the captured onClose on Escape, and only while it captured an open dialog. */
  function HandleEscape(reg: Registration, key: string): (call: Option<Dom.CallbackId>)
    ensures call.Some? <==> key == "Escape" && reg.isOpen
    ensures call.Some? ==> call.value == reg.onClose
  {
    if key == "Escape" && reg.isOpen then Some(reg.onClose) else None
  }

  /** handleBackdropClick: onClose only when the click landed on the backdrop itself, not on content inside it. */
  function HandleBackdropClick(target: Dom.ElementId, backdrop: Dom.ElementId, onClose: Dom.CallbackId): (call: Option<Dom.CallbackId>)
    ensures call.Some? <==> target == backdrop
    ensures call.Some? ==> call.value == onClose
  {
    if target == backdrop then Some(onClose) else None
  }

  /**
   * A keydown on the document reaches this dialog's one live listener,
   * which calls the current onClose exactly when the key is Escape and the
   * dialog is open.
   */
  lemma EscapeClosesOnlyWhileOpen(s: ModalState, key: string)
    requires Valid(s)
    ensures s.escape.value.listener in s.doc.listeners
    ensures var call := HandleEscape(s.escape.value, key);
      (call.Some? <==> key == "Escape" && s.isOpen) && (call.Some? ==> call.value == s.onClose)
  {
  }

  /** Mounting a new instance leaves one listener of it registered and the others untouched. */
  lemma MountValid(id: nat, dialog: Dom.ElementId, doc: Dom.DocState, isOpen: bool, onClose: Dom.CallbackId)
    requires dialog != Dom.Body && dialog !in doc.attached
    requires NoListenersOf(doc, id)
    ensures Valid(Mount(id, dialog, doc, isOpen, onClose))
    ensures OthersUnchanged(doc, Mount(id, dialog, doc, isOpen, onClose).doc, id)
  {
  }

  /** A mounted dialog that starts closed does not move focus: previousFocus is still null. */
  lemma MountClosedKeepsFocus(id: nat, dialog: Dom.ElementId, doc: Dom.DocState, onClose: Dom.CallbackId)
    requires dialog != Dom.Body && dialog !in doc.attached && doc.active in doc.attached
    ensures Mount(id, dialog, doc, false, onClose).doc.active == doc.active
    ensures Mount(id, dialog, doc, false, onClose).previousFocus.None?
  {
  }

  /** Each re-render keeps the dialog valid and touches no other widget's listener. */
  lemma RerenderValid(s: ModalState, isOpen: bool, onClose: Dom.CallbackId)
    requires Valid(s)
    ensures Valid(Rerendered(s, isOpen, onClose))
    ensures OthersUnchanged(s.doc, Rerendered(s, isOpen, onClose).doc, s.id)
  {
  }

  /** A sequence of re-renders, each with the props the parent passes. */
  datatype Props = Props(isOpen: bool, onClose: Dom.CallbackId)

  function RerenderAll(s: ModalState, ps: seq<Props>): ModalState
    requires Valid(s)
    decreases |ps|
  {
    if ps == [] then s
    else
      RerenderValid(s, ps[0].isOpen, ps[0].onClose);
      RerenderAll(Rerendered(s, ps[0].isOpen, ps[0].onClose), ps[1..])
  }

  /**
   * However many times the dialog opens, closes or gets a new onClose, it
   * holds exactly one document listener, never one per render, and the
   * listeners of other widgets stay as they were.
   */
  lemma {:induction false} RerenderAllValid(s: ModalState, ps: seq<Props>)
    requires Valid(s)
    ensures Valid(RerenderAll(s, ps))
    ensures OthersUnchanged(s.doc, RerenderAll(s, ps).doc, s.id)
    decreases |ps|
  {
    if ps != [] {
      var next := Rerendered(s, ps[0].isOpen, ps[0].onClose);
      RerenderValid(s, ps[0].isOpen, ps[0].onClose);
      RerenderAllValid(next, ps[1..]);
    }
  }

  /** After unmounting, no listener of this dialog is left, and the other widgets' listeners are untouched. */
  lemma UnmountRemovesListener(s: ModalState)
    requires Valid(s)
    ensures NoListenersOf(Unmounted(s).doc, s.id)
    ensures OthersUnchanged(s.doc, Unmounted(s).doc, s.id)
    ensures Portal(Unmounted(s).(isOpen := false)).None? && s.dialog !in Unmounted(s).doc.attached
  {
  }

  /**
   * Opening saves the focused element, overwriting whatever was saved
   * before, and moves focus to the dialog.
   */
  lemma OpenSavesFocus(s: ModalState, onClose: Dom.CallbackId)
    requires Valid(s) && !s.isOpen
    ensures Rerendered(s, true, onClose).previousFocus == Some(s.doc.active)
    ensures Rerendered(s, true, onClose).doc.active == s.dialog
  {
  }

  /**
   * Closing focuses the saved element when it is still in the document;
   * otherwise focus stays where it is, which is the body once the dialog
   * holding it has been removed.
   */
  lemma CloseRestoresFocus(s: ModalState, onClose: Dom.CallbackId)
    requires Valid(s) && s.isOpen
    ensures var r := Rerendered(s, false, onClose);
      if s.previousFocus.Some? && s.previousFocus.value in s.doc.attached && s.previousFocus.value != s.dialog
      then r.doc.active == s.previousFocus.value
      else r.doc.active == (if s.doc.active == s.dialog then Dom.Body else s.doc.active)
  {
  }

  /** Open then close, from any props: focus returns to the element that had it before opening. */
  lemma OpenCloseRoundTrip(s: ModalState, onOpen: Dom.CallbackId, onClose: Dom.CallbackId)
    requires Valid(s) && !s.isOpen && s.doc.active in s.doc.attached
    ensures var shown := Rerendered(s, true, onOpen);
      Valid(shown) && Rerendered(shown, false, onClose).doc.active == s.doc.active
  {
  }

  /** A mounted dialog updated in place on the live document. */
  class Dialog {
    const id: nat
    const dialog: Dom.ElementId
    const doc: Dom.Document
    // props
    var isOpen: bool
    var onClose: Dom.CallbackId
    // the previousFocus ref, and the Escape effect's last listener
    var previousFocus: Option<Dom.ElementId>
    var escape: Option<Registration>
    var runs: nat

    function Model(): ModalState
      reads this, doc
    {
      ModalState(id, dialog, isOpen, onClose, previousFocus, escape, runs, doc.State())
    }

    constructor (id: nat, dialog: Dom.ElementId, doc: Dom.Document, isOpen: bool, onClose: Dom.CallbackId)
      requires dialog != Dom.Body && dialog !in doc.attached
      requires NoListenersOf(doc.State(), id)
      modifies doc
      ensures this.doc == doc
      ensures Model() == Mount(id, dialog, old(doc.State()), isOpen, onClose)
      ensures Valid(Model())
    {
      this.id := id;
      this.dialog := dialog;
      this.doc := doc;
      this.isOpen := isOpen;
      this.onClose := onClose;
      previousFocus := None;
      escape := None;
      runs := 0;
      new;
      MountValid(id, dialog, doc.State(), isOpen, onClose);
      Commit();
      RunFocusEffect();
      Subscribe();
    }

    method Commit()
      modifies doc
      ensures Model() == Committed(old(Model()))
    {
      if isOpen {
        doc.Attach(dialog);
      } else {
        doc.Detach(dialog);
      }
    }

    method RunFocusEffect()
      modifies this`previousFocus, doc
      ensures Model() == FocusEffect(old(Model()))
    {
      if isOpen {
        previousFocus := Some(doc.activeElement);
        doc.Focus(dialog);
      } else if previousFocus.Some? {
        doc.Focus(previousFocus.value);
      }
    }

    method Unsubscribe()
      requires escape.Some? ==> doc.listeners[escape.value.listener] <= 1
      modifies this`escape, doc
      ensures Model() == Unsubscribed(old(Model()))
    {
      if escape.Some? {
        doc.RemoveEventListener(escape.value.listener);
        escape := None;
      }
    }

    method Subscribe()
      modifies this`escape, this`runs, doc
      ensures Model() == Subscribed(old(Model()))
    {
      var l := Dom.Listener(id, runs);
      doc.AddEventListener(l);
      escape := Some(Registration(l, isOpen, onClose));
      runs := runs + 1;
    }

    /** A re-render of the parent that passes these props. */
    method Rerender(newIsOpen: bool, newOnClose: Dom.CallbackId)
      requires Valid(Model())
      modifies this, doc
      ensures Model() == Rerendered(old(Model()), newIsOpen, newOnClose)
      ensures Valid(Model())
    {
      RerenderValid(Model(), newIsOpen, newOnClose);
      var escapeDepsChanged := newIsOpen != isOpen || newOnClose != onClose;
      var openChanged := newIsOpen != isOpen;
      isOpen, onClose := newIsOpen, newOnClose;
      Commit();
      if escapeDepsChanged {
        Unsubscribe();
      }
      if openChanged {
        RunFocusEffect();
      }
      if escapeDepsChanged {
        Subscribe();
      }
    }

    method Unmount()
      requires Valid(Model())
      modifies this, doc
      ensures Model() == Unmounted(old(Model()))
      ensures NoListenersOf(doc.State(), id)
    {
      UnmountRemovesListener(Model());
      Unsubscribe();
      doc.Detach(dialog);
    }

    /** A keydown on the document, as this dialog's live listener handles it. */
    method OnKeyDown(key: string) returns (call: Option<Dom.CallbackId>)
      requires Valid(Model())
      ensures call.Some? <==> key == "Escape" && isOpen
      ensures call.Some? ==> call.value == onClose
    {
      call := HandleEscape(escape.value, key);
    }
  }
}
