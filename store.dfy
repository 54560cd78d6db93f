/**
 Model of src/store/useMapStore.js: the shared store holding the modal state and
 the nav/landmark hover state. Each action merges a fixed set of new field values
 into the store and leaves the other fields alone.
 */
module MapStore {
  import opened Wrappers
  import opened ProjectData

  /** The DOM element the modal was opened from (kept for focus restoration);
      only its identity matters. */
  datatype Element = Element(handle: nat)

  /** The five data fields of the store, as one value. */
  datatype StoreState = StoreState(
    isModalOpen: bool,
    activeProject: Option<Project>,
    triggerElement: Option<Element>,
    hoveredNavTarget: Option<string>,
    highlightAllLandmarks: bool)

  /** The store's actions. `None` stands for a JavaScript null or undefined argument. */
  datatype Action =
    | Open(project: Option<Project>, triggerEl: Option<Element>)
    | Close
    | Hover(navTarget: Option<string>)
    | Highlight(highlight: bool)

  /** The state the store is created with. */
  const Initial: StoreState := StoreState(false, None, None, None, false)

  /** The effect of one action on the store's fields. */
  function Apply(s: StoreState, a: Action): StoreState
  {
    match a
    case Open(p, t) => s.(isModalOpen := true, activeProject := p, triggerElement := t)
    case Close => s.(isModalOpen := false, activeProject := None, triggerElement := None)
    case Hover(x) => s.(hoveredNavTarget := x)
    case Highlight(b) => s.(highlightAllLandmarks := b)
  }

  /** The effect of a sequence of actions, applied in order. */
  function Run(s: StoreState, acts: seq<Action>): StoreState
    decreases |acts|
  {
    if acts == [] then s else Run(Apply(s, acts[0]), acts[1..])
  }

  /** The modal is open exactly when there is a project to show. */
  predicate ModalConsistent(s: StoreState) {
    s.isModalOpen <==> s.activeProject.Some?
  }

  /** Every openModal call in `acts` passes a project. */
  predicate OpensWithProject(acts: seq<Action>) {
    forall i :: 0 <= i < |acts| && acts[i].Open? ==> acts[i].project.Some?
  }

  /** Only openModal and closeModal calls. */
  predicate OnlyModalActions(acts: seq<Action>) {
    forall i :: 0 <= i < |acts| ==> acts[i].Open? || acts[i].Close?
  }

  /** Only setHoveredNavTarget and setHighlightAllLandmarks calls. */
  predicate OnlyHoverActions(acts: seq<Action>) {
    forall i :: 0 <= i < |acts| ==> acts[i].Hover? || acts[i].Highlight?
  }

  /** closeModal undoes openModal entirely, whatever the state before. */
  lemma CloseUndoesOpen(s: StoreState, p: Option<Project>, t: Option<Element>)
    ensures Apply(Apply(s, Open(p, t)), Close) == Apply(s, Close)
    ensures !Apply(s, Close).isModalOpen
  {
  }

  /** From the initial state, openModal followed by closeModal restores every field. */
  lemma OpenThenCloseRestoresInitial(p: Option<Project>, t: Option<Element>)
    ensures Run(Initial, [Open(p, t), Close]) == Initial
  {
    var acts := [Open(p, t), Close];
    var afterOpen := Apply(Initial, acts[0]);
    assert acts[1..] == [Close] && acts[1..][1..] == [];
    assert Run(afterOpen, acts[1..]) == Apply(afterOpen, Close);
    CloseUndoesOpen(Initial, p, t);
  }

  /** If openModal is only ever called with a project, "open" and "has a project"
      stay equivalent across any sequence of actions. */
  lemma {:induction false} RunKeepsModalConsistent(s: StoreState, acts: seq<Action>)
    requires ModalConsistent(s)
    requires OpensWithProject(acts)
    ensures ModalConsistent(Run(s, acts))
    decreases |acts|
  {
    if acts != [] {
      assert OpensWithProject(acts[1..]) by {
        forall i | 0 <= i < |acts[1..]| && acts[1..][i].Open?
          ensures acts[1..][i].project.Some?
        {
          assert acts[1..][i] == acts[i + 1];
        }
      }
      RunKeepsModalConsistent(Apply(s, acts[0]), acts[1..]);
    }
  }

  /** The modal actions never touch the hover and highlight fields. */
  lemma {:induction false} ModalActionsKeepHover(s: StoreState, acts: seq<Action>)
    requires OnlyModalActions(acts)
    ensures Run(s, acts).hoveredNavTarget == s.hoveredNavTarget
    ensures Run(s, acts).highlightAllLandmarks == s.highlightAllLandmarks
    decreases |acts|
  {
    if acts != [] {
      assert OnlyModalActions(acts[1..]) by {
        forall i | 0 <= i < |acts[1..]| ensures acts[1..][i].Open? || acts[1..][i].Close? {
          assert acts[1..][i] == acts[i + 1];
        }
      }
      ModalActionsKeepHover(Apply(s, acts[0]), acts[1..]);
    }
  }

  /** The hover actions never touch the modal fields. */
  lemma {:induction false} HoverActionsKeepModal(s: StoreState, acts: seq<Action>)
    requires OnlyHoverActions(acts)
    ensures Run(s, acts).isModalOpen == s.isModalOpen
    ensures Run(s, acts).activeProject == s.activeProject
    ensures Run(s, acts).triggerElement == s.triggerElement
    decreases |acts|
  {
    if acts != [] {
      assert OnlyHoverActions(acts[1..]) by {
        forall i | 0 <= i < |acts[1..]| ensures acts[1..][i].Hover? || acts[1..][i].Highlight? {
          assert acts[1..][i] == acts[i + 1];
        }
      }
      HoverActionsKeepModal(Apply(s, acts[0]), acts[1..]);
    }
  }

  /** A burst of interleaved actions ends in the state of the last writes to each field. */
  lemma RapidChangesStayConsistent(p1: Project, p2: Project)
    ensures Run(Initial, [Open(Some(p1), None), Hover(Some("about")), Highlight(true),
                          Close, Open(Some(p2), None), Hover(Some("contact"))])
         == StoreState(true, Some(p2), None, Some("contact"), true)
  {
    var acts := [Open(Some(p1), None), Hover(Some("about")), Highlight(true),
                 Close, Open(Some(p2), None), Hover(Some("contact"))];
    var s1 := Apply(Initial, acts[0]);
    var s2 := Apply(s1, acts[1]);
    var s3 := Apply(s2, acts[2]);
    var s4 := Apply(s3, acts[3]);
    var s5 := Apply(s4, acts[4]);
    var s6 := Apply(s5, acts[5]);
    assert Run(s6, acts[6..]) == s6;
    assert Run(s5, acts[5..]) == Run(s6, acts[6..]);
    assert Run(s4, acts[4..]) == Run(s5, acts[5..]);
    assert Run(s3, acts[3..]) == Run(s4, acts[4..]);
    assert Run(s2, acts[2..]) == Run(s3, acts[3..]);
    assert Run(s1, acts[1..]) == Run(s2, acts[2..]);
    assert Run(Initial, acts) == Run(s1, acts[1..]);
  }

  /** The groups of fields an action writes: each action writes exactly one group. */
  datatype FieldGroup = ModalFields | HoverField | HighlightField

  predicate Writes(a: Action, g: FieldGroup) {
    match g
    case ModalFields => a.Open? || a.Close?
    case HoverField => a.Hover?
    case HighlightField => a.Highlight?
  }

  /** The last action of `acts` that writes the group `g`, found scanning from the end. */
  function LastWrite(acts: seq<Action>, g: FieldGroup): (r: Option<Action>)
    ensures r.Some? ==> Writes(r.value, g) && r.value in acts
    ensures r.None? ==> forall i :: 0 <= i < |acts| ==> !Writes(acts[i], g)
    decreases |acts|
  {
    if acts == [] then None
    else if Writes(acts[|acts| - 1], g) then Some(acts[|acts| - 1])
    else LastWrite(acts[..|acts| - 1], g)
  }

  /** `LastWrite` finds the last writer: a writer at `i` that no later action
      overrides is what it returns. */
  lemma {:induction false} LastWriteIsLast(acts: seq<Action>, g: FieldGroup, i: int)
    requires 0 <= i < |acts| && Writes(acts[i], g)
    requires forall j :: i < j < |acts| ==> !Writes(acts[j], g)
    ensures LastWrite(acts, g) == Some(acts[i])
    decreases |acts|
  {
    if i < |acts| - 1 {
      var init := acts[..|acts| - 1];
      assert init[i] == acts[i];
      LastWriteIsLast(init, g, i);
    }
  }

  /** The modal part of a state: open flag, active project and trigger element. */
  function ModalPart(s: StoreState): (bool, Option<Project>, Option<Element>) {
    (s.isModalOpen, s.activeProject, s.triggerElement)
  }

  /** Running one more action is applying it to the result of the run. */
  lemma {:induction false} RunAppend(s: StoreState, acts: seq<Action>, a: Action)
    ensures Run(s, acts + [a]) == Apply(Run(s, acts), a)
    decreases |acts|
  {
    if acts == [] {
      assert acts + [a] == [a];
      assert [a][1..] == [];
    } else {
      assert (acts + [a])[0] == acts[0];
      assert (acts + [a])[1..] == acts[1..] + [a];
      RunAppend(Apply(s, acts[0]), acts[1..], a);
    }
  }

  /** After any sequence of actions, each field holds the value of the last action that
      wrote it, or its starting value if none did. */
  lemma {:induction false} LastWriteWins(s: StoreState, acts: seq<Action>)
    ensures Run(s, acts).hoveredNavTarget
         == (match LastWrite(acts, HoverField)
             case None => s.hoveredNavTarget
             case Some(a) => a.navTarget)
    ensures Run(s, acts).highlightAllLandmarks
         == (match LastWrite(acts, HighlightField)
             case None => s.highlightAllLandmarks
             case Some(a) => a.highlight)
    ensures ModalPart(Run(s, acts))
         == (match LastWrite(acts, ModalFields)
             case None => ModalPart(s)
             case Some(a) => ModalPart(Apply(s, a)))
    decreases |acts|
  {
    if acts != [] {
      var init, a := acts[..|acts| - 1], acts[|acts| - 1];
      assert acts == init + [a];
      RunAppend(s, init, a);
      LastWriteWins(s, init);
    }
  }

  /** The store object. Its fields are updated in place by the actions. */
  class Store {
    var isModalOpen: bool
    var activeProject: Option<Project>
    var triggerElement: Option<Element>
    var hoveredNavTarget: Option<string>
    var highlightAllLandmarks: bool

    /** The store's fields as one value. */
    function State(): StoreState
      reads this
    {
      StoreState(isModalOpen, activeProject, triggerElement, hoveredNavTarget, highlightAllLandmarks)
    }

    constructor ()
      ensures State() == Initial
      ensures !isModalOpen && activeProject == None && triggerElement == None
      ensures hoveredNavTarget == None && !highlightAllLandmarks
    {
      isModalOpen := false;
      activeProject := None;
      triggerElement := None;
      hoveredNavTarget := None;
      highlightAllLandmarks := false;
    }

    /** openModal(project, triggerEl): an absent trigger element is stored as null. */
    method OpenModal(project: Option<Project>, triggerEl: Option<Element>)
      modifies this
      ensures isModalOpen && activeProject == project && triggerElement == triggerEl
      ensures hoveredNavTarget == old(hoveredNavTarget)
      ensures highlightAllLandmarks == old(highlightAllLandmarks)
      ensures State() == Apply(old(State()), Open(project, triggerEl))
    {
      isModalOpen := true;
      activeProject := project;
      triggerElement := triggerEl;
    }

    method CloseModal()
      modifies this
      ensures !isModalOpen && activeProject == None && triggerElement == None
      ensures hoveredNavTarget == old(hoveredNavTarget)
      ensures highlightAllLandmarks == old(highlightAllLandmarks)
      ensures State() == Apply(old(State()), Close)
    {
      isModalOpen := false;
      activeProject := None;
      triggerElement := None;
    }

    /** setHoveredNavTarget(navTarget); null clears the hover. */
    method SetHoveredNavTarget(navTarget: Option<string>)
      modifies this
      ensures hoveredNavTarget == navTarget
      ensures isModalOpen == old(isModalOpen) && activeProject == old(activeProject)
      ensures triggerElement == old(triggerElement)
      ensures highlightAllLandmarks == old(highlightAllLandmarks)
      ensures State() == Apply(old(State()), Hover(navTarget))
    {
      hoveredNavTarget := navTarget;
    }

    method SetHighlightAllLandmarks(highlight: bool)
      modifies this
      ensures highlightAllLandmarks == highlight
      ensures isModalOpen == old(isModalOpen) && activeProject == old(activeProject)
      ensures triggerElement == old(triggerElement)
      ensures hoveredNavTarget == old(hoveredNavTarget)
      ensures State() == Apply(old(State()), Highlight(highlight))
    {
      highlightAllLandmarks := highlight;
    }
  }
}
