# Manhattan portfolio map — verified model

A Dafny model of the stateful core of a single-page portfolio site: a map of
Manhattan with clickable landmark buttons that open a content modal.

- `wrappers.dfy` — `Option`, standing for JavaScript's `null`/`undefined`.
- `projects.dfy` (module `ProjectData`) — the constant table of five landmarks in
  the map image's own pixel coordinates (the design space), and its `projects` alias.
- `store.dfy` (module `MapStore`) — the shared store: modal open flag, active
  project, trigger element, hovered nav target and the highlight-all flag. The
  class `Store` has one method per action; each method states its new fields and
  ties them to the value-level `Apply`. The lemmas about `Apply`/`Run` cover
  whole sequences of actions.
- `map_view.dfy` (module `MapView`) — the mouse drag / wheel zoom controller:
  class `MapController` with `position`, `scale`, `isDragging` and `dragStart`,
  with the value-level `Step`/`Run` it is proved against.
- `landmark_view.dfy` (module `LandmarkView`) — a landmark button: its scaled
  box, its class name and accessible label, its hover flag and its click.
- `modal_view.dfy` (module `ModalView`) — content selection for the modal, the
  dialog's render guard, and the Escape, overlay and close handlers.

Coordinates and scale are `real`. The event handlers are methods called
directly with the event's data. "The target is inside a hotspot" and "the
click target is the overlay itself" are boolean inputs.

## Model

| member | source | states |
|---|---|---|
| `ProjectData.LandmarkCount` | src/data/projects.js:1-53 | the table holds exactly five landmarks |
| `ProjectData.LandmarkIdsDistinct` | src/data/projects.js:1-53 | the `id` values are pairwise distinct |
| `ProjectData.LandmarkNavTargetsDistinct` | src/data/projects.js:1-53 | every landmark has a `navTarget`, and they are pairwise distinct |
| `ProjectData.LandmarkBoxesPositive` | src/data/projects.js:8-51 | every `left`, `top`, `width` and `height` is strictly positive |
| `ProjectData.LandmarkImagesUnderMapImages` | src/data/projects.js:6-47 | every image path starts with `/map_images/` |
| `ProjectData.ProjectsIsLandmarks` | src/data/projects.js:56 | `projects` is the same sequence as `landmarks` |
| `MapStore.Store.constructor` | src/store/useMapStore.js:3-26 | the store starts closed, with no project, no trigger element, no hovered target and highlight off |
| `MapStore.Store.OpenModal` | src/store/useMapStore.js:8-12 | opens the modal on the given project and trigger element (null when absent); hover and highlight are unchanged |
| `MapStore.Store.CloseModal` | src/store/useMapStore.js:13-17 | closes the modal and clears project and trigger element; hover and highlight are unchanged |
| `MapStore.Store.SetHoveredNavTarget` | src/store/useMapStore.js:21 | sets only the hovered target (null clears it); every other field is unchanged |
| `MapStore.Store.SetHighlightAllLandmarks` | src/store/useMapStore.js:25 | sets only the highlight flag; every other field is unchanged |
| `MapStore.CloseUndoesOpen` | src/store/useMapStore.js:8-17 | from any state, openModal then closeModal ends where closeModal alone would, with the modal closed |
| `MapStore.OpenThenCloseRestoresInitial` | src/store/useMapStore.js:5-17 | from the initial state, openModal then closeModal returns every field to its initial value |
| `MapStore.RunKeepsModalConsistent` | src/store/useMapStore.js:8-17 | if openModal is only called with a project, "open" and "has a project" stay equivalent across any sequence of actions |
| `MapStore.ModalActionsKeepHover` | src/store/useMapStore.js:8-17 | any sequence of openModal/closeModal calls leaves the hovered target and the highlight flag as they were |
| `MapStore.HoverActionsKeepModal` | src/store/useMapStore.js:19-25 | any sequence of hover/highlight calls leaves the open flag, project and trigger element as they were |
| `MapStore.LastWriteWins` | src/store/useMapStore.js:8-25 | after any sequence of actions, the hovered target, the highlight flag and the modal fields each hold what the last action writing them set, or their starting value if none did |
| `MapStore.LastWriteIsLast` | src/store/useMapStore.js:8-25 | the writer that the end-to-front scan finds is the last action writing that field group: any writer with no later writer is the one returned |
| `MapStore.RapidChangesStayConsistent` | src/__tests__/store/useMapStore.test.js:98-114 | an interleaved burst of six actions ends with each field holding its last written value |
| `MapView.ClampScale` | src/components/Map/Map.jsx:34 | the result lies in [0.5, 3]; a value in range is kept, one below becomes 0.5, one above becomes 3 |
| `MapView.WheelScale` | src/components/Map/Map.jsx:31-35 | the new scale is the old one times 0.9 (deltaY > 0) or 1.1 (otherwise), clamped to [0.5, 3]; scrolling down never increases an in-range scale and scrolling up never decreases it |
| `MapView.RunKeepsScaleInRange` | src/components/Map/Map.jsx:31-35 | a scale in [0.5, 3] stays in range across any sequence of events |
| `MapView.PointerEventsKeepScale` | src/components/Map/Map.jsx:13-29 | press, move and release events never change the scale |
| `MapView.WheelEventsKeepPan` | src/components/Map/Map.jsx:31-35 | wheel events never change position, drag offset or drag state |
| `MapView.MovesFollowLastPointer` | src/components/Map/Map.jsx:19-25 | while dragging, the position after any run of moves is the last pointer minus the drag offset: nothing accumulates |
| `MapView.DragDisplacesByPointerDelta` | src/components/Map/Map.jsx:13-25 | after a press off the hotspots and moves, the map has moved by exactly the pointer's displacement since the press; returning to the press point restores the position |
| `MapView.MapController.constructor` | src/components/Map/Map.jsx:8-10 | the controller starts idle with drag offset (0, 0) and the given position and scale |
| `MapView.MapController.HandleMouseDown` | src/components/Map/Map.jsx:13-17 | a press on a hotspot changes nothing; elsewhere it starts a drag with offset pointer minus position, leaving position and scale |
| `MapView.MapController.HandleMouseMove` | src/components/Map/Map.jsx:19-25 | a move while idle changes nothing; while dragging the position becomes pointer minus drag offset |
| `MapView.MapController.HandleMouseUp` | src/components/Map/Map.jsx:27-29 | ends the drag, leaving position, scale and offset |
| `MapView.MapController.HandleWheel` | src/components/Map/Map.jsx:31-35 | the scale lands in [0.5, 3] and moves in the wheel's direction; position and drag state are unchanged |
| `LandmarkView.ScaledStyleAtUnitScale` | src/components/Map/Landmark.jsx:5-20 | at the default scale 1 the rendered box is the design box |
| `LandmarkView.ScaledStyleRoundTrip` | src/components/Map/Landmark.jsx:15-20 | dividing the rendered box by a non-zero scale gives back the design box |
| `LandmarkView.ScaledStyleComposes` | src/components/Map/Landmark.jsx:15-20 | rescaling a rendered box by t equals rendering at the product scale |
| `LandmarkView.ScaledStylePositive` | src/components/Map/Landmark.jsx:18-19 | with a positive scale and positive design size, the rendered size is positive and keeps the aspect ratio |
| `LandmarkView.AriaLabelIdentifies` | src/components/Map/Landmark.jsx:29 | two buttons get the same accessible name "View <title>" exactly when their landmarks have the same title |
| `LandmarkView.LandmarkLabelsDistinct` | src/components/Map/Landmark.jsx:29 | the five landmark buttons of the table have pairwise distinct accessible names |
| `LandmarkView.HoveredClassIffHovered` | src/components/Map/Landmark.jsx:24 | the class name contains `hovered` exactly when the hover flag is set |
| `LandmarkView.LandmarkButton.constructor` | src/components/Map/Landmark.jsx:5-6 | a button starts not hovered and without the `hovered` class, with scale 1 unless one is given; its style is its design box scaled by its scale, the design box itself at scale 1 |
| `LandmarkView.LandmarkButton.OnMouseEnter` | src/components/Map/Landmark.jsx:26 | mouseenter sets the hover flag, so the `hovered` class is present |
| `LandmarkView.LandmarkButton.OnMouseLeave` | src/components/Map/Landmark.jsx:27 | mouseleave clears the hover flag, so the `hovered` class is absent |
| `LandmarkView.LandmarkButton.HandleClick` | src/components/Map/Landmark.jsx:9-12 | a click does not propagate and opens the modal on exactly this landmark, with no trigger element |
| `ModalView.GetContent` | src/components/Modal/Modal.jsx:73-89 | no content without a project; the section entry for a known navTarget; otherwise a "Project" record with the project's title, description, "View Project" and its link |
| `ModalView.SectionContentKeys` | src/components/Modal/Modal.jsx:7-43 | the section table's keys are about, projects, contact, misc and xg |
| `ModalView.FallbackIffUnknownTarget` | src/components/Modal/Modal.jsx:76-88 | the content's label is "Project" exactly when the project's navTarget is not a section key |
| `ModalView.LandmarksNeverFallBack` | src/components/Modal/Modal.jsx:76-79 | every landmark's navTarget is a section key, so each landmark shows its section's entry |
| `ModalView.DialogShownIffOpenWithProject` | src/components/Modal/Modal.jsx:91-95 | the dialog is rendered exactly when the modal is open with a project |
| `ModalView.DialogShownIffOpen` | src/components/Modal/Modal.jsx:95 | for a consistent store the dialog is rendered exactly when the modal is open |
| `ModalView.HandleEscape` | src/components/Modal/Modal.jsx:49-57 | Escape while open closes the modal; any other key, or Escape while closed, changes nothing |
| `ModalView.HandleOverlayClick` | src/components/Modal/Modal.jsx:66-70 | a click closes the modal only when its target is the overlay itself |
| `ModalView.HandleCloseControl` | src/components/Modal/Modal.jsx:114-128 | the close button and the content link close the modal |

## Left out

- Markup, CSS, framer-motion animation and SVG icons; `Nav`, `LeftPanel`, `ChevronIcon` and the markup of `ErrorBoundary` are rendering only.
- `Hotspot` (src/components/Map/Hotspot.jsx): its click (stop propagation, `openModal(project)`) and hover flag repeat what `LandmarkView.LandmarkButton` models. It differs in its accessible name (`View <title> project`), its class (`hotspot`) and its placement (left and top in percent, width and height in unscaled pixels, no scale), so `AriaLabelIdentifies`, `LandmarkLabelsDistinct`, `HoveredClassIffHovered` and `ScaledStyle` do not describe hotspots.
- `RightPanel` (src/components/RightPanel/RightPanel.jsx): the star click closes the menu only when `window.innerWidth <= 768`, a live window measurement outside this model.
- `ZoomControls` (src/components/ZoomControls/ZoomControls.jsx): it calls `zoomIn`/`zoomOut`, which the store does not define; its disabled rules (`scale >= 3`, `scale <= 0.5`) are the bounds `MapView.ClampScale` already states.
- `App` (src/App.jsx): toggling and closing the mobile `menuOpen` flag is a one-field UI toggle that no modelled component reads.
- Listener registration and cleanup, `document.body.style.overflow` and `preventDefault`: the handlers are methods called directly. The keydown listener exists only while the modal is open; `HandleEscape` models that as a guard on the open flag.
- Map.jsx takes `position`, `setPosition`, `scale` and `setScale` from the store, but src/store/useMapStore.js defines none of them, and src/App.jsx does not render the map. The model keeps them as fields of `MapController`, with the initial values as constructor parameters.
- The touch-drag gesture, the clamping of the position to the map's edges, the mobile breakpoint and deriving the scale from the image's measured height are not in this source's code and are not modelled.
- IEEE double rounding: coordinates and scale are exact reals, so `scale * 0.9` and `left * scale` are exact.
- `ModalView.GetContent`: a JavaScript property lookup also finds keys inherited from `Object.prototype` (`toString`, `constructor`, ...). The model looks up own keys only.
- The richer section content of src/data/modalContent.js is not part of this model; `ModalView` uses the table defined in Modal.jsx itself.
- Some test files describe a later version than the code under src/: a `wikiUrl` field, tooltip labels, and hover driven by the store's `hoveredNavTarget` and `highlightAllLandmarks`. The model follows the code, where the `hovered` class depends only on the button's own flag.
- `e.stopPropagation()` is modelled as the returned flag `propagates` being false.
