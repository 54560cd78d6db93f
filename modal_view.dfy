/**
 Model of src/components/Modal/Modal.jsx: which content the modal shows for the
 active project, when the dialog is shown, and the ways of closing it.
 */
module ModalView {
  import opened Wrappers
  import opened ProjectData
  import opened MapStore

  /** What the dialog displays. The fallback content copies the project's
      description and link, which a project may lack. */
  datatype Content = Content(
    labelText: string,
    title: string,
    description: Option<string>,
    linkText: string,
    linkHref: Option<string>)

  /** The per-section content, keyed by navTarget. */
  const SectionContent: map<string, Content> := map[
    "about" := Content("About", "About Me",
      Some("Welcome! I'm Adam, a passionate developer and designer based in New York City. I love creating beautiful, functional digital experiences that make a difference."),
      "Learn More", Some("#about")),
    "projects" := Content("Projects", "My Projects",
      Some("Explore my portfolio of work spanning web development, design, and creative technology. Each project represents a unique challenge and creative solution."),
      "View All Projects", Some("#projects")),
    "contact" := Content("Contact", "Get in Touch",
      Some("Have a project in mind or just want to say hello? I'd love to hear from you. Let's connect and create something amazing together."),
      "Contact Me", Some("#contact")),
    "misc" := Content("Misc", "Miscellaneous",
      Some("A collection of experiments, side projects, and other creative endeavors that don't fit neatly into other categories. Expect the unexpected!"),
      "Explore", Some("#misc")),
    "xg" := Content("xG", "xG Analytics",
      Some("Dive into expected goals (xG) analysis and football statistics. Data-driven insights into the beautiful game."),
      "View xG Stats", Some("#xg"))
  ]

  /** The project names a section of the table. */
  predicate KnownTarget(p: Project) {
    p.navTarget.Some? && p.navTarget.value in SectionContent
  }

  /** The content for the active project: none without a project, the section entry
      for a known navTarget, and otherwise a generic record built from the project. */
  function GetContent(activeProject: Option<Project>): (r: Option<Content>)
    ensures r.None? <==> activeProject.None?
    ensures activeProject.Some? && KnownTarget(activeProject.value)
            ==> r == Some(SectionContent[activeProject.value.navTarget.value])
    ensures activeProject.Some? && !KnownTarget(activeProject.value)
            ==> r == Some(Content("Project", activeProject.value.title, activeProject.value.description,
                                  "View Project", activeProject.value.link))
  {
    match activeProject
    case None => None
    case Some(p) =>
      if p.navTarget.Some? && p.navTarget.value in SectionContent then
        Some(SectionContent[p.navTarget.value])
      else
        Some(Content("Project", p.title, p.description, "View Project", p.link))
  }

  /** The render guard of the dialog. */
  predicate ShowsDialog(isModalOpen: bool, activeProject: Option<Project>, content: Option<Content>) {
    isModalOpen && activeProject.Some? && content.Some?
  }

  lemma SectionContentKeys()
    ensures SectionContent.Keys == {"about", "projects", "contact", "misc", "xg"}
  {
  }

  /** Content is always found for a project, so the dialog shows exactly when the
      modal is open with a project. */
  lemma DialogShownIffOpenWithProject(isModalOpen: bool, activeProject: Option<Project>)
    ensures ShowsDialog(isModalOpen, activeProject, GetContent(activeProject))
            <==> isModalOpen && activeProject.Some?
  {
  }

  /** For a store kept consistent (open exactly when it has a project), the dialog is
      shown exactly when the modal is open. */
  lemma DialogShownIffOpen(s: StoreState)
    requires ModalConsistent(s)
    ensures ShowsDialog(s.isModalOpen, s.activeProject, GetContent(s.activeProject)) <==> s.isModalOpen
  {
  }

  /** The label tells the two branches apart: "Project" marks the fallback and no
      section uses it. */
  lemma FallbackIffUnknownTarget(p: Project)
    ensures GetContent(Some(p)).value.labelText == "Project" <==> !KnownTarget(p)
  {
  }

  /** Every landmark of the table names a section, so the modal never falls back for a
      landmark: it shows that landmark's section. */
  lemma LandmarksNeverFallBack()
    ensures forall l :: l in Landmarks ==> KnownTarget(l)
    ensures forall l :: l in Landmarks ==> GetContent(Some(l)) == Some(SectionContent[l.navTarget.value])
  {
  }

  /** The keydown handler, which is only listening while the modal is open: Escape
      closes the modal, any other key does nothing. */
  method HandleEscape(store: Store, key: string)
    modifies store
    ensures if old(store.isModalOpen) && key == "Escape"
            then store.State() == Apply(old(store.State()), Close)
            else store.State() == old(store.State())
    ensures old(store.isModalOpen) && key == "Escape" ==> !store.isModalOpen && store.activeProject == None
  {
    if store.isModalOpen && key == "Escape" {
      store.CloseModal();
    }
  }

  /** A click on the overlay closes the modal only when the overlay itself was clicked,
      not the dialog inside it. */
  method HandleOverlayClick(store: Store, targetIsOverlay: bool)
    modifies store
    ensures targetIsOverlay ==> store.State() == Apply(old(store.State()), Close)
    ensures !targetIsOverlay ==> store.State() == old(store.State())
  {
    if targetIsOverlay {
      store.CloseModal();
    }
  }

  /** The close button and the content link both close the modal. */
  method HandleCloseControl(store: Store)
    modifies store
    ensures !store.isModalOpen && store.activeProject == None && store.triggerElement == None
    ensures store.State() == Apply(old(store.State()), Close)
  {
    store.CloseModal();
  }
}
