/**
 Model of src/components/Map/Landmark.jsx: one clickable landmark button on the
 map. Its box is the landmark's design-space box scaled by the map scale; it keeps
 a local hover flag and opens the modal for its own landmark when clicked.
 */
module LandmarkView {
  import opened Wrappers
  import opened ProjectData
  import opened MapStore

  /** An on-screen or design-space box: left, top, width and height in pixels. */
  datatype Box = Box(left: real, top: real, width: real, height: real)

  function DesignBox(l: Project): Box {
    Box(l.left, l.top, l.width, l.height)
  }

  function ScaleBox(b: Box, s: real): Box {
    Box(b.left * s, b.top * s, b.width * s, b.height * s)
  }

  /** The inline style of the button: every coordinate multiplied by the scale. */
  function ScaledStyle(l: Project, scale: real): Box {
    ScaleBox(DesignBox(l), scale)
  }

  /** At the default scale of 1 the button covers the design box itself. */
  lemma ScaledStyleAtUnitScale(l: Project)
    ensures ScaledStyle(l, 1.0) == DesignBox(l)
  {
  }

  /** Scaling is invertible: dividing the rendered box by the scale gives the design box back. */
  lemma ScaledStyleRoundTrip(l: Project, scale: real)
    requires scale != 0.0
    ensures ScaleBox(ScaledStyle(l, scale), 1.0 / scale) == DesignBox(l)
  {
  }

  /** Rescaling a rendered box by t is the same as rendering at the product scale. */
  lemma ScaledStyleComposes(l: Project, s: real, t: real)
    ensures ScaleBox(ScaledStyle(l, s), t) == ScaledStyle(l, s * t)
  {
  }

  /** A positive scale keeps a landmark with a positive size visible, and keeps its aspect ratio. */
  lemma ScaledStylePositive(l: Project, scale: real)
    requires scale > 0.0 && l.width > 0.0 && l.height > 0.0
    ensures ScaledStyle(l, scale).width > 0.0 && ScaledStyle(l, scale).height > 0.0
    ensures ScaledStyle(l, scale).width * l.height == ScaledStyle(l, scale).height * l.width
  {
  }

  /** The accessible name of the button. */
  function AriaLabel(l: Project): string {
    "View " + l.title
  }

  /** The accessible name identifies the landmark: two buttons share a name exactly
      when their landmarks share a title. */
  lemma {:induction false} AriaLabelIdentifies(l: Project, m: Project)
    ensures AriaLabel(l) == AriaLabel(m) <==> l.title == m.title
  {
    if AriaLabel(l) == AriaLabel(m) {
      assert AriaLabel(l)[5..] == l.title;
      assert AriaLabel(m)[5..] == m.title;
    }
  }

  /** Every landmark button of the map has its own accessible name. */
  lemma LandmarkLabelsDistinct()
    ensures forall i, j :: 0 <= i < j < |Landmarks| ==> AriaLabel(Landmarks[i]) != AriaLabel(Landmarks[j])
  {
    forall i, j | 0 <= i < j < |Landmarks|
      ensures AriaLabel(Landmarks[i]) != AriaLabel(Landmarks[j])
    {
      AriaLabelIdentifies(Landmarks[i], Landmarks[j]);
    }
  }

  /** The button's class attribute. */
  function ClassName(isHovered: bool): string {
    "landmark " + (if isHovered then "hovered" else "")
  }

  /** `word` stands in `s` starting at index `i`. */
  predicate OccursAt(word: string, s: string, i: int) {
    0 <= i <= |s| - |word| && s[i..i + |word|] == word
  }

  /** `word` occurs in `s` as a contiguous piece. */
  predicate Occurs(word: string, s: string) {
    exists i :: 0 <= i <= |s| && OccursAt(word, s, i)
  }

  /** The `hovered` class is present exactly when the hover flag is set. */
  lemma HoveredClassIffHovered(isHovered: bool)
    ensures Occurs("hovered", ClassName(isHovered)) <==> isHovered
  {
    var s := ClassName(isHovered);
    if isHovered {
      assert s[9..16] == "hovered";
      assert OccursAt("hovered", s, 9);
    } else {
      assert s == "landmark ";
      forall i | 0 <= i <= |s| ensures !OccursAt("hovered", s, i) {
        if 0 <= i <= |s| - 7 {
          assert s[i] != 'h';
          assert s[i..i + 7][0] == s[i];
        }
      }
    }
  }

  /** One rendered landmark button. */
  class LandmarkButton {
    const landmark: Project
    const scale: real
    var isHovered: bool

    constructor (landmark: Project, scale: real := 1.0)
      ensures this.landmark == landmark && this.scale == scale && !isHovered
      ensures !Occurs("hovered", Classes())
      ensures Style() == ScaleBox(DesignBox(landmark), scale)
      ensures scale == 1.0 ==> Style() == DesignBox(landmark)
    {
      this.landmark := landmark;
      this.scale := scale;
      isHovered := false;
      HoveredClassIffHovered(false);
    }

    /** The rendered inline style. */
    function Style(): Box
      reads this
    {
      ScaledStyle(landmark, scale)
    }

    /** The rendered class attribute. */
    function Classes(): string
      reads this
    {
      ClassName(isHovered)
    }

    method OnMouseEnter()
      modifies this
      ensures isHovered && Occurs("hovered", Classes())
    {
      isHovered := true;
      HoveredClassIffHovered(true);
    }

    method OnMouseLeave()
      modifies this
      ensures !isHovered && !Occurs("hovered", Classes())
    {
      isHovered := false;
      HoveredClassIffHovered(false);
    }

    /** A click is kept from the map underneath and opens the modal on this landmark,
        with no trigger element. */
    method HandleClick(store: Store) returns (propagates: bool)
      modifies store
      ensures !propagates
      ensures store.isModalOpen && store.activeProject == Some(landmark) && store.triggerElement == None
      ensures store.hoveredNavTarget == old(store.hoveredNavTarget)
      ensures store.highlightAllLandmarks == old(store.highlightAllLandmarks)
      ensures store.State() == Apply(old(store.State()), Open(Some(landmark), None))
    {
      propagates := false;
      store.OpenModal(Some(landmark), None);
    }
  }
}
