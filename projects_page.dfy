/** The "My OPM Projects" page: it loads the signed-in user's projects,
    shows them as a grid of cards (or an empty state), opens one in a
    detail modal, and deletes one after the user confirms. */
module ProjectsPage {
  import opened Remote
  import ProjectsRouter

  type Project = ProjectsRouter.Project

  /** The body `getUserProjects` resolved with: an array of projects, or any other JSON value. */
  datatype Fetched = ProjectList(items: seq<Project>) | OtherValue

  const Snake: string := "\U{1F40D}"
  const Coffee: string := "\U{2615}"
  const Keycap: string := "#\U{FE0F}\U{20E3}"
  const Bolt: string := "\U{26A1}"
  const Laptop: string := "\U{1F4BB}"

  /** The languages that have an icon of their own. */
  const IconLanguages: set<string> := {"python", "java", "csharp", "cpp"}

  /** `getLanguageIcon`: a fixed emoji per known language, the laptop otherwise. */
  function LanguageIcon(language: string): (icon: string)
    ensures language == "python" ==> icon == Snake
    ensures language == "java" ==> icon == Coffee
    ensures language == "csharp" ==> icon == Keycap
    ensures language == "cpp" ==> icon == Bolt
    ensures language !in IconLanguages ==> icon == Laptop
  {
    match language
    case "python" => Snake
    case "java" => Coffee
    case "csharp" => Keycap
    case "cpp" => Bolt
    case _ => Laptop
  }

  /** The default icon is shown exactly for the languages outside the table,
      and the four table icons are pairwise different. */
  lemma DefaultIconIffUnknown(language: string)
    ensures LanguageIcon(language) == Laptop <==> language !in IconLanguages
    ensures |{LanguageIcon("python"), LanguageIcon("java"), LanguageIcon("csharp"), LanguageIcon("cpp")}| == 4
  {
    assert Snake[0] != Laptop[0] && Coffee[0] != Laptop[0] && Keycap[0] != Laptop[0] && Bolt[0] != Laptop[0];
    assert Snake[0] != Coffee[0] && Snake[0] != Keycap[0] && Snake[0] != Bolt[0];
    assert Coffee[0] != Keycap[0] && Coffee[0] != Bolt[0] && Keycap[0] != Bolt[0];
  }

  /** What the page body shows. */
  datatype View = Spinner | EmptyState | Grid(cards: seq<Project>)

  /** Normalises a fetched body: an array is kept, anything else is the empty list. */
  function Normalise(body: Fetched): (ps: seq<Project>)
    ensures body.ProjectList? ==> ps == body.items
    ensures body.OtherValue? ==> ps == []
  {
    if body.ProjectList? then body.items else []
  }

  class Page {
    const userEmail: string
    var projects: seq<Project>
    var loading: bool
    var selectedProject: Option<Project>
    var showModal: bool

    /** The body of the page: the spinner while loading, else the empty
        state for an empty list and the grid of all projects otherwise. */
    function ViewOf(): (v: View)
      reads this
      ensures loading <==> v == Spinner
      ensures !loading && projects == [] <==> v == EmptyState
      ensures !loading && projects != [] <==> v.Grid?
      ensures v.Grid? ==> v.cards == projects
    {
      if loading then Spinner
      else if |projects| == 0 then EmptyState
      else Grid(projects)
    }

    /** The modal is rendered, and for which project. It sits in the
        loaded view only: while loading the page returns the spinner alone. */
    function Modal(): (m: Option<Project>)
      reads this
      ensures m.Some? <==> !loading && showModal && selectedProject.Some?
      ensures m.Some? ==> m == selectedProject
    {
      if !loading && showModal && selectedProject.Some? then selectedProject else None
    }

    /** `fetchProjects`, with the awaited `getUserProjects` as `outcome`:
        a returned body replaces the list (an array as is, anything else
        as the empty list), a throw keeps it; loading ends either way. */
    method FetchProjects(outcome: Outcome<Fetched>)
      modifies this
      ensures !loading
      ensures outcome.Returned? ==> projects == Normalise(outcome.value)
      ensures outcome.Threw? ==> projects == old(projects)
      ensures selectedProject == old(selectedProject) && showModal == old(showModal)
    {
      loading := true;
      match outcome {
        case Returned(body) =>
          projects := if body.ProjectList? then body.items else [];
        case Threw(_) =>
      }
      loading := false;
    }

    /** Mounting for a signed-in user: the initial state, then the effect,
        which fetches only when the user has an email. Without one, the
        page stays on the spinner. */
    constructor (email: string, outcome: Outcome<Fetched>)
      ensures userEmail == email && selectedProject == None && !showModal
      ensures email == "" ==> loading && projects == []
      ensures email != "" ==> !loading
      ensures email != "" && outcome.Returned? ==> projects == Normalise(outcome.value)
      ensures email != "" && outcome.Threw? ==> projects == []
    {
      userEmail := email;
      projects := [];
      loading := true;
      selectedProject := None;
      showModal := false;
      new;
      if email != "" {
        FetchProjects(outcome);
      }
    }

    /** `handleViewProject`. */
    method ViewProject(p: Project)
      modifies this
      ensures selectedProject == Some(p) && showModal
      ensures projects == old(projects) && loading == old(loading)
      ensures Modal() == if loading then None else Some(p)
    {
      selectedProject := Some(p);
      showModal := true;
    }

    /** The modal's close button and overlay: the selection is kept. */
    method CloseModal()
      modifies this
      ensures !showModal && Modal() == None
      ensures selectedProject == old(selectedProject) && projects == old(projects) && loading == old(loading)
    {
      showModal := false;
    }

    /** `handleDeleteProject`, with the user's answer to the confirmation as
        `confirmed`, the awaited `deleteProject` as `deleteOutcome` and the
        re-fetch it triggers as `refetchOutcome`. Returns the delete request
        sent (the id and the owner email) and whether a re-fetch followed. */
    method DeleteProject(id: string, confirmed: bool, deleteOutcome: Outcome<ProjectsRouter.Deleted>,
                         refetchOutcome: Outcome<Fetched>)
      returns (sent: Option<(string, string)>, refetched: bool)
      modifies this
      ensures !confirmed ==>
                sent == None && !refetched
                && projects == old(projects) && loading == old(loading)
                && selectedProject == old(selectedProject) && showModal == old(showModal)
      ensures confirmed ==> sent == Some((id, userEmail))
      ensures confirmed && deleteOutcome.Threw? ==>
                !refetched
                && projects == old(projects) && loading == old(loading)
                && selectedProject == old(selectedProject) && showModal == old(showModal)
      ensures confirmed && deleteOutcome.Returned? ==>
                refetched && !loading && selectedProject == old(selectedProject)
                && (refetchOutcome.Returned? ==> projects == Normalise(refetchOutcome.value))
                && (refetchOutcome.Threw? ==> projects == old(projects))
                && (old(selectedProject).Some? && old(selectedProject).value.generationId == id ==> !showModal)
                && (!(old(selectedProject).Some? && old(selectedProject).value.generationId == id) ==>
                      showModal == old(showModal))
    {
      if !confirmed {
        return None, false;
      }
      sent := Some((id, userEmail));
      refetched := false;
      match deleteOutcome {
        case Returned(_) =>
          FetchProjects(refetchOutcome);
          refetched := true;
          if selectedProject.Some? && selectedProject.value.generationId == id {
            showModal := false;
          }
        case Threw(_) =>
      }
    }
  }

  /** Deleting the project open in the modal closes it; deleting another
      one leaves it open. */
  method DeleteScenario(a: Project, b: Project)
    requires a.generationId != b.generationId
  {
    var page := new Page("ada@example.org", Returned(ProjectList([a, b])));
    assert page.ViewOf() == Grid([a, b]);
    page.ViewProject(a);
    var sent, refetched := page.DeleteProject(b.generationId, true,
      Returned(ProjectsRouter.Deleted("Project deleted successfully", b.generationId)), Returned(ProjectList([a])));
    assert refetched && page.Modal() == Some(a) && page.projects == [a];
    sent, refetched := page.DeleteProject(a.generationId, false, Threw(Thrown("", "")), Returned(OtherValue));
    assert sent == None && page.Modal() == Some(a);
    sent, refetched := page.DeleteProject(a.generationId, true,
      Returned(ProjectsRouter.Deleted("Project deleted successfully", a.generationId)), Returned(OtherValue));
    assert page.Modal() == None && page.ViewOf() == EmptyState;
  }
}
