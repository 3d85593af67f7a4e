/**
 * The page-level state machine of the frontend (frontend/app/page.tsx): the
 * `App` component's view, uploaded file, selected project and mode, the upload
 * guard of the landing view, the project-selection view that leads to the
 * dashboard or the chat, and the dashboard's analysis fetch.
 */
module Navigation {
  import opened Common

  /** The view names `App` switches on. */
  datatype View = Landing | Morpheus | ProjectSelect | Dashboard | VoiceInterview | Chat | Interview

  /** `selectedMode`: which pill the user took on the choice screen. */
  datatype Mode = Roast | Rewrite

  /** The views that show something about the selected project. */
  predicate ShowsProject(v: View)
  {
    v == Dashboard || v == VoiceInterview || v == Chat || v == Interview
  }

  /** The calls child views make through the raw view setter they receive:
      project selection goes back to the choice screen or on to its target,
      the dashboard disconnects or opens the chat or the voice interview, the
      voice interview returns to the dashboard, and the chat terminal goes to
      the dashboard or exits to the choice screen. */
  predicate ChildLink(from: View, to: View)
  {
    || (from == ProjectSelect && (to == Morpheus || to == Dashboard || to == Chat))
    || (from == Dashboard && (to == Landing || to == Chat || to == VoiceInterview))
    || (from == VoiceInterview && to == Dashboard)
    || ((from == Chat || from == Interview) && (to == Dashboard || to == Morpheus))
  }

  /** The view project selection leads to for each mode. */
  function TargetView(mode: Mode): (v: View)
    ensures ShowsProject(v) && v != Interview
    ensures v == Dashboard <==> mode == Roast
  {
    match mode
    case Roast => Dashboard
    case Rewrite => Chat
  }

  /** The project `handleContinue` builds from a typed URL. */
  function ManualProject(url: string): (p: Project)
    ensures p.name == "Manual Entry" && p.description == "User provided GitHub URL"
    ensures p.githubUrl == Some(url) && p.technologies == []
  {
    Project("Manual Entry", "User provided GitHub URL", Some(url), [])
  }

  class App {
    var currentView: View
    var uploadedFile: Option<Document>
    var selectedProject: Option<Project>
    var selectedMode: Mode

    /** Only the landing view can show without an uploaded file. */
    ghost predicate Valid()
      reads this
    {
      uploadedFile.None? ==> currentView == Landing
    }

    /** Every view that shows a project has one selected, and the 'interview'
        view, which no navigation call names, is never current. */
    ghost predicate Routed()
      reads this
    {
      currentView != Interview && (ShowsProject(currentView) ==> selectedProject.Some?)
    }

    constructor()
      ensures Valid() && Routed()
      ensures currentView == Landing && uploadedFile == None && selectedProject == None && selectedMode == Roast
    {
      currentView := Landing;
      uploadedFile := None;
      selectedProject := None;
      selectedMode := Roast;
    }

    /** `handleUploadComplete`: the file is stored and the choice screen shows. */
    method HandleUploadComplete(file: Document)
      modifies this
      ensures uploadedFile == Some(file) && currentView == Morpheus
      ensures selectedProject == old(selectedProject) && selectedMode == old(selectedMode)
      ensures Valid() && Routed()
    {
      uploadedFile := Some(file);
      currentView := Morpheus;
    }

    /** `UploadLanding.handleSubmit` (its delay collapsed): without a picked
        file nothing happens; with one, upload completes. */
    method HandleSubmit(picked: Option<Document>)
      requires currentView == Landing
      modifies this
      ensures picked.None? ==> unchanged(this)
      ensures picked.Some? ==> uploadedFile == picked && currentView == Morpheus
      ensures selectedProject == old(selectedProject) && selectedMode == old(selectedMode)
      ensures Valid() && Routed()
    {
      if picked.Some? {
        HandleUploadComplete(picked.value);
      }
    }

    /** `handleNavigate`, called by the choice screen: 'dashboard' picks roast
        and 'chat' picks rewrite, both through project selection; any other
        view is shown directly. */
    method HandleNavigate(view: View)
      requires currentView == Morpheus && Valid()
      modifies this
      ensures view == Dashboard ==> selectedMode == Roast && currentView == ProjectSelect
      ensures view == Chat ==> selectedMode == Rewrite && currentView == ProjectSelect
      ensures view != Dashboard && view != Chat ==> currentView == view && selectedMode == old(selectedMode)
      ensures uploadedFile == old(uploadedFile) && selectedProject == old(selectedProject)
      ensures Valid()
      ensures view == Dashboard || view == Chat ==> Routed()
    {
      if view == Dashboard {
        selectedMode := Roast;
        currentView := ProjectSelect;
      } else if view == Chat {
        selectedMode := Rewrite;
        currentView := ProjectSelect;
      } else {
        currentView := view;
      }
    }

    /** `handleProjectSelect`. */
    method HandleProjectSelect(project: Project)
      modifies this
      ensures selectedProject == Some(project)
      ensures currentView == old(currentView) && uploadedFile == old(uploadedFile) && selectedMode == old(selectedMode)
      ensures old(Valid()) ==> Valid()
      ensures old(Routed()) ==> Routed()
    {
      selectedProject := Some(project);
    }

    /** The raw `setCurrentView` as the child views call it: only the view
        changes, so disconnecting to the landing view keeps the file, the
        project and the mode. */
    method SetView(to: View)
      requires ChildLink(currentView, to) && Valid()
      modifies this
      ensures currentView == to
      ensures uploadedFile == old(uploadedFile) && selectedProject == old(selectedProject) && selectedMode == old(selectedMode)
      ensures Valid() && uploadedFile.Some?
      ensures old(Routed()) && !(old(currentView) == ProjectSelect && ShowsProject(to)) ==> Routed()
    {
      currentView := to;
    }
  }

  /** What `/extract_projects` answered: success with its `projects` field
      (absent or present), or another status. */
  datatype ExtractReply = ExtractSuccess(projects: Option<seq<Project>>) | ExtractRefused

  /** The project-selection view, mounted with the app's file and mode. */
  class ProjectSelection {
    const app: App
    const mode: Mode
    var projects: seq<Project>
    var loading: bool
    var selected: Option<Project>
    var manualUrl: string

    constructor(app: App)
      ensures this.app == app && mode == app.selectedMode
      ensures projects == [] && loading && selected == None && manualUrl == ""
    {
      this.app := app;
      mode := app.selectedMode;
      projects := [];
      loading := true;
      selected := None;
      manualUrl := "";
    }

    /** The load effect: without a file no request is made; otherwise the file
        is sent (`request`) and the list becomes the returned projects (none
        when the field is absent), stays as it was on another status, and
        becomes empty when the request fails. Loading ends either way. */
    method LoadProjects(uploaded: Option<Document>, reply: Reply<ExtractReply>) returns (request: Option<Document>)
      modifies this
      ensures !loading && selected == old(selected) && manualUrl == old(manualUrl)
      ensures request == uploaded
      ensures uploaded.None? ==> projects == old(projects)
      ensures uploaded.Some? && reply == Ok(ExtractSuccess(None)) ==> projects == []
      ensures uploaded.Some? && reply.Ok? && reply.value.ExtractSuccess? && reply.value.projects.Some? ==>
                projects == reply.value.projects.value
      ensures uploaded.Some? && reply == Ok(ExtractRefused) ==> projects == old(projects)
      ensures uploaded.Some? && reply.Failed? ==> projects == []
    {
      request := uploaded;
      if uploaded.Some? {
        match reply {
          case Ok(ExtractSuccess(found)) =>
            projects := if found.Some? then found.value else [];
          case Ok(ExtractRefused) =>
          case Failed(_) =>
            projects := [];
        }
      }
      loading := false;
    }

    /** A click on a listed project selects it. */
    method SelectProject(i: nat)
      requires i < |projects|
      modifies this
      ensures projects == old(projects) && manualUrl == old(manualUrl) && loading == old(loading)
      ensures selected == Some(projects[i])
    {
      selected := Some(projects[i]);
    }

    /** Typing a URL replaces the text and clears the selection. */
    method EditManualUrl(text: string)
      modifies this
      ensures manualUrl == text && selected == None
      ensures projects == old(projects) && loading == old(loading)
    {
      manualUrl := text;
      selected := None;
    }

    /** BACK: to the choice screen. */
    method Back()
      requires app.currentView == ProjectSelect && app.Valid()
      modifies app
      ensures app.currentView == Morpheus && app.Valid() && app.Routed()
      ensures app.uploadedFile == old(app.uploadedFile)
      ensures app.selectedProject == old(app.selectedProject) && app.selectedMode == old(app.selectedMode)
    {
      app.SetView(Morpheus);
    }

    /** `handleContinue`: a selected project wins over a typed URL; a typed URL
        becomes a manual-entry project; either way the app moves to the mode's
        target view. With neither, nothing changes. */
    method HandleContinue()
      requires app.currentView == ProjectSelect && app.Valid()
      modifies app
      ensures selected.Some? ==> app.selectedProject == selected && app.currentView == TargetView(mode)
      ensures selected.None? && manualUrl != "" ==>
                app.selectedProject == Some(ManualProject(manualUrl)) && app.currentView == TargetView(mode)
      ensures selected.None? && manualUrl == "" ==> unchanged(app)
      ensures app.uploadedFile == old(app.uploadedFile) && app.selectedMode == old(app.selectedMode)
      ensures app.Valid() && app.Routed()
    {
      var target := TargetView(mode);
      if selected.Some? {
        app.HandleProjectSelect(selected.value);
        app.SetView(target);
      } else if manualUrl != "" {
        app.HandleProjectSelect(ManualProject(manualUrl));
        app.SetView(target);
      }
    }
  }

  /** The form the dashboard posts to `/analyze`. */
  datatype AnalyzeRequest = AnalyzeRequest(file: Document, githubUrl: Option<string>)

  const NoResumeData: AnalysisLists :=
    AnalysisLists(["No resume uploaded"], ["Unable to verify"], ["Please upload a resume"])
  const AnalyzeErrorData: AnalysisLists :=
    AnalysisLists(["Error analyzing project"], ["Could not verify claims"], ["Try again with a different project"])

  /** The dashboard's `data` and `loading` state. */
  class RoastDashboard {
    var data: Option<AnalysisLists>
    var loading: bool

    constructor()
      ensures data == None && !loading
    {
      data := None;
      loading := false;
    }

    /** The loader shows while loading or while there is no data. */
    predicate ShowsLoader()
      reads this
    {
      loading || data.None?
    }

    /** The fetch effect. Without a file the placeholder lists show and no
        request is made. Otherwise the file goes out, with the project's URL
        only when it is non-empty; `reply` is the decoded `data` field of the
        answer (`None` when the answer has none) or the failure of the request
        or of decoding. A failure shows the error lists; an answer without
        data leaves the loader up. */
    method FetchData(uploaded: Option<Document>, project: Option<Project>, reply: Reply<Option<AnalysisLists>>)
      returns (request: Option<AnalyzeRequest>)
      modifies this
      ensures !loading
      ensures uploaded.None? ==> request == None && data == Some(NoResumeData)
      ensures uploaded.Some? ==> request.Some? && request.value.file == uploaded.value
      ensures uploaded.Some? ==>
                (request.value.githubUrl.Some? <==> project.Some? && Truthy(project.value.githubUrl))
      ensures uploaded.Some? && request.value.githubUrl.Some? ==> request.value.githubUrl == project.value.githubUrl
      ensures uploaded.Some? && reply.Ok? ==> data == reply.value
      ensures uploaded.Some? && reply.Failed? ==> data == Some(AnalyzeErrorData)
      ensures ShowsLoader() <==> uploaded.Some? && reply == Ok(None)
    {
      if uploaded.None? {
        data := Some(NoResumeData);
        loading := false;
        return None;
      }
      loading := true;
      var url := if project.Some? && Truthy(project.value.githubUrl) then project.value.githubUrl else None;
      request := Some(AnalyzeRequest(uploaded.value, url));
      match reply {
        case Ok(decoded) => data := decoded;
        case Failed(_) => data := Some(AnalyzeErrorData);
      }
      loading := false;
    }
  }
}
