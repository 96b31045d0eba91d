/** The owner's project list: its load, the new-project form and the status label. */
module ProjectList {
  import opened Base
  import opened Text
  import opened Records

  const UserLoadError := "Kunde inte hämta användare. Försök logga in igen."
  const LoadError := "Kunde inte hämta projekt."
  const NotSignedInError := "Ingen användare inloggad. Försök logga in igen."
  const NameRequiredError := "Projektet måste ha ett namn."
  const CreateError := "Kunde inte skapa projekt."
  const CreateTechError := "Tekniskt fel vid skapande av projekt."

  /** The row `handleCreateProject` inserts. */
  datatype ProjectInsert = ProjectInsert(
    ownerId: string, name: string, address: Option<string>, description: Option<string>,
    startDate: Option<string>, endDate: Option<string>, status: string)

  /** The five inputs of the new-project form. */
  datatype ProjectForm = ProjectForm(name: string, address: string, startDate: string, endDate: string, description: string)

  const EmptyForm := ProjectForm("", "", "", "", "")

  /** The form turned into the row `handleCreateProject` inserts. */
  function NewProjectRow(ownerId: string, f: ProjectForm): ProjectInsert {
    ProjectInsert(ownerId, Trim(f.name), NullIfEmpty(Trim(f.address)), NullIfEmpty(Trim(f.description)),
                  NullIfEmpty(f.startDate), NullIfEmpty(f.endDate), "planned")
  }

  /** The inserted row: name trimmed, address and description trimmed with nothing left
      becoming null, empty dates null (dates are not trimmed), a new project "planned" and
      owned by the signed-in user. */
  lemma NewProjectRowNormalises(ownerId: string, f: ProjectForm)
    ensures var r := NewProjectRow(ownerId, f);
      && r.ownerId == ownerId && r.status == "planned" && r.name == Trim(f.name)
      && (r.address.None? <==> AllSpace(f.address))
      && (r.address.Some? ==> r.address.value == Trim(f.address) && r.address.value != "")
      && (r.description.None? <==> AllSpace(f.description))
      && (r.description.Some? ==> r.description.value == Trim(f.description) && r.description.value != "")
      && (r.startDate.None? <==> f.startDate == "") && (r.startDate.Some? ==> r.startDate.value == f.startDate)
      && (r.endDate.None? <==> f.endDate == "") && (r.endDate.Some? ==> r.endDate.value == f.endDate)
  {
    TrimmedOrNull(f.address);
    TrimmedOrNull(f.description);
  }

  /** Normalising is idempotent: entering already-trimmed text yields the same row. */
  lemma NewProjectRowIdempotent(ownerId: string, f: ProjectForm)
    ensures NewProjectRow(ownerId, f.(name := Trim(f.name), address := Trim(f.address), description := Trim(f.description)))
         == NewProjectRow(ownerId, f)
  {
    TrimIdempotent(f.name);
    TrimIdempotent(f.address);
    TrimIdempotent(f.description);
  }

  /** The label on a project card: unknown statuses read as finished. */
  function ListStatusLabel(status: string): (r: string)
    ensures r == "Planerat" <==> status == "planned"
    ensures r == "Pågår" <==> status == "ongoing"
    ensures r == "Avslutat" <==> status != "planned" && status != "ongoing"
  {
    if status == "planned" then "Planerat"
    else if status == "ongoing" then "Pågår"
    else "Avslutat"
  }

  class ProjectsView {
    var projects: seq<Project>
    var loading: bool
    var errorMsg: Option<string>
    var showNewForm: bool
    var saving: bool

    /** The new-project form. */
    var form: ProjectForm

    /** `isMounted` of the load effect, which runs once. */
    var mounted: bool

    constructor ()
      ensures projects == [] && loading && errorMsg == None && !showNewForm && !saving
      ensures form == EmptyForm && !mounted
    {
      projects := [];
      loading := true;
      errorMsg := None;
      showNewForm := false;
      saving := false;
      form := EmptyForm;
      mounted := false;
    }
    /** The effect starts `loadProjects`. */
    method StartLoad()
      modifies this`mounted, this`loading, this`errorMsg
      ensures mounted && loading && errorMsg == None
    {
      mounted := true;
      loading := true;
      errorMsg := None;
    }

    /** The effect's cleanup. */
    method Teardown()
      modifies this`mounted
      ensures !mounted
    {
      mounted := false;
    }

    /** `loadProjects` after its first await, given the reply to "who is signed in" (None: no
        user) and the reply to the query. `ownerQuery` is the owner id the projects were
        queried for; the query is issued whether or not the view is still mounted. */
    method FinishLoad(user: Reply<Option<string>>, rows: Reply<Option<seq<Project>>>)
      returns (ownerQuery: Option<string>)
      modifies this`projects, this`loading, this`errorMsg
      ensures ownerQuery.Some? <==> user.Ok? && user.value.Some?
      ensures ownerQuery.Some? ==> ownerQuery == user.value
      ensures !old(mounted) || user.Threw? || (ownerQuery.Some? && rows.Threw?) ==> unchanged(this)
      ensures old(mounted) && (user.Failed? || user == Ok(None)) ==>
        projects == old(projects) && !loading && errorMsg == Some(UserLoadError)
      ensures old(mounted) && ownerQuery.Some? && rows.Failed? ==>
        projects == old(projects) && !loading && errorMsg == Some(LoadError)
      ensures old(mounted) && ownerQuery.Some? && rows.Ok? ==>
        projects == rows.value.GetOr(old(projects)) && !loading && errorMsg == old(errorMsg)
    {
      match user {
        case Threw =>
          return None;
        case Failed(_) =>
          if !mounted { return None; }
          errorMsg := Some(UserLoadError);
          loading := false;
          return None;
        case Ok(u) =>
          if u.None? {
            if !mounted { return None; }
            errorMsg := Some(UserLoadError);
            loading := false;
            return None;
          }
          ownerQuery := u;
      }
      if !mounted || rows.Threw? {
        return;
      }
      if rows.Failed? {
        errorMsg := Some(LoadError);
      } else if rows.value.Some? {
        projects := rows.value.value;
      }
      loading := false;
    }

    /** "Nytt projekt" / "Avbryt" in the header. */
    method ToggleForm()
      modifies this`showNewForm
      ensures showNewForm == !old(showNewForm)
    {
      showNewForm := !showNewForm;
    }

    /** "Avbryt" inside the form. */
    method HideForm()
      modifies this`showNewForm
      ensures !showNewForm
    {
      showNewForm := false;
    }

    /** The form's inputs change. */
    method EditForm(f: ProjectForm)
      modifies this`form
      ensures form == f
    {
      form := f;
    }

    /** `handleCreateProject`, submitted from the open form while no save is in flight,
        given the reply to "who is signed in" and the reply to the insert. `request` is the
        row inserted, if any. */
    method CreateProject(user: Reply<Option<string>>, insert: Reply<Project>)
      returns (request: Option<ProjectInsert>)
      requires showNewForm && !saving
      modifies this`projects, this`errorMsg, this`saving, this`showNewForm, this`form
      ensures !saving
      ensures request.Some? <==> user.Ok? && user.value.Some? && !AllSpace(old(form).name)
      ensures request.Some? ==> request.value == NewProjectRow(user.value.value, old(form))
      ensures request.Some? && insert.Ok? ==>
        projects == [insert.value] + old(projects) && !showNewForm && form == EmptyForm && errorMsg == None
      ensures request.None? || !insert.Ok? ==> projects == old(projects) && showNewForm && form == old(form)
      ensures user.Threw? ==> errorMsg == Some(CreateTechError)
      ensures user.Failed? || user == Ok(None) ==> errorMsg == Some(NotSignedInError)
      ensures user.Ok? && user.value.Some? && AllSpace(old(form).name) ==> errorMsg == Some(NameRequiredError)
      ensures request.Some? && insert.Failed? ==> errorMsg == Some(CreateError)
      ensures request.Some? && insert.Threw? ==> errorMsg == Some(CreateTechError)
    {
      saving := true;
      errorMsg := None;
      request := None;
      if user.Threw? {
        errorMsg := Some(CreateTechError);
        saving := false;
        return;
      }
      if user.Failed? || user.value.None? {
        errorMsg := Some(NotSignedInError);
        saving := false;
        return;
      }
      TrimEmptyIff(form.name);
      if Trim(form.name) == "" {
        errorMsg := Some(NameRequiredError);
        saving := false;
        return;
      }
      request := Some(NewProjectRow(user.value.value, form));
      match insert {
        case Failed(_) =>
          errorMsg := Some(CreateError);
        case Threw =>
          errorMsg := Some(CreateTechError);
        case Ok(row) =>
          projects := [row] + projects;
          form := EmptyForm;
          showNewForm := false;
      }
      saving := false;
    }
  }
}
