/** One project's page: its load, the status buttons, the inline edit of name, address and
    description, deletion, and the status badge. */
module ProjectPage {
  import opened Base
  import opened Text
  import opened Records
  import ProjectList

  const UserLoadError := "Kunde inte hämta användare. Försök logga in igen."
  const LoadError := "Kunde inte hämta projekt."
  const NotFoundError := "Projektet hittades inte."
  const StatusError := "Kunde inte uppdatera status."
  const StatusTechError := "Tekniskt fel vid uppdatering av status."
  const SaveError := "Kunde inte spara projektinfo."
  const SaveTechError := "Tekniskt fel vid sparande."
  const DeleteError := "Kunde inte ta bort projektet."
  const DeleteTechError := "Tekniskt fel vid borttagning."
  const AfterDeletePath := "/dashboard/projects"

  /** The three inputs of the edit form. */
  datatype EditFields = EditFields(name: string, address: string, description: string)

  /** The edit form as seeded from a project (on load and on cancel). */
  function FieldsOf(p: Project): EditFields {
    EditFields(p.name, p.address.GetOr(""), p.description.GetOr(""))
  }

  /** The update `handleSaveDetails` sends. */
  datatype DetailsUpdate = DetailsUpdate(name: string, address: Option<string>, description: Option<string>)

  function DetailsPatch(f: EditFields, currentName: string): DetailsUpdate {
    DetailsUpdate(if Trim(f.name) != "" then Trim(f.name) else currentName,
                  NullIfEmpty(Trim(f.address)), NullIfEmpty(Trim(f.description)))
  }

  /** A name of white space only keeps the current name; address and description are trimmed
      and become null when nothing is left. */
  lemma DetailsPatchNormalises(f: EditFields, currentName: string)
    ensures var u := DetailsPatch(f, currentName);
      && (AllSpace(f.name) ==> u.name == currentName)
      && (!AllSpace(f.name) ==> u.name == Trim(f.name) && u.name != "")
      && (u.address.None? <==> AllSpace(f.address))
      && (u.address.Some? ==> u.address.value == Trim(f.address))
      && (u.description.None? <==> AllSpace(f.description))
      && (u.description.Some? ==> u.description.value == Trim(f.description))
  {
    TrimEmptyIff(f.name);
    TrimmedOrNull(f.address);
    TrimmedOrNull(f.description);
  }

  /** A field as the backend holds it after normalisation: null, or trimmed and not empty. */
  predicate Normal(s: Option<string>) {
    s.None? || (s.value != "" && Trim(s.value) == s.value)
  }

  /** Saving the form right after it was seeded sends the project's own values back, as long
      as those were stored in normalised form. */
  lemma SaveUneditedIsIdentity(p: Project)
    requires Trim(p.name) == p.name && Normal(p.address) && Normal(p.description)
    ensures DetailsPatch(FieldsOf(p), p.name) == DetailsUpdate(p.name, p.address, p.description)
  {
    NormalRoundTrip(p.address);
    NormalRoundTrip(p.description);
  }

  /** A normalised field shown in the form and normalised again is unchanged. */
  lemma NormalRoundTrip(s: Option<string>)
    requires Normal(s)
    ensures NullIfEmpty(Trim(s.GetOr(""))) == s
  {
    if s.None? {
      assert |Trim("")| == 0;
    }
  }

  /** `renderStatusBadge`: unknown statuses read as planned. */
  function BadgeLabel(status: string): (r: string)
    ensures r == "Pågår" <==> status == "ongoing"
    ensures r == "Avslutat" <==> status == "completed"
    ensures r == "Planerat" <==> status != "ongoing" && status != "completed"
  {
    if status == "ongoing" then "Pågår"
    else if status == "completed" then "Avslutat"
    else "Planerat"
  }

  /** The badge and the list card agree exactly on the three known statuses. */
  lemma LabelsAgreeIffKnown(status: string)
    ensures ProjectList.ListStatusLabel(status) == BadgeLabel(status)
        <==> status == "planned" || status == "ongoing" || status == "completed"
  {
  }

  class ProjectView {
    /** The route's project id. */
    var projectId: string

    var project: Option<Project>
    var loading: bool
    var errorMsg: Option<string>
    var updatingStatus: bool
    var editMode: bool
    var name: string
    var address: string
    var description: string
    var savingDetails: bool

    /** `isMounted` of the current activation of the load effect, and that activation's
        number. */
    var mounted: bool
    var epoch: nat

    /** A status update in flight, and the status it sets. */
    var pendingStatus: string

    function Fields(): EditFields
      reads this
    {
      EditFields(name, address, description)
    }

    constructor (projectId: string)
      ensures this.projectId == projectId && project == None && loading && errorMsg == None
      ensures !updatingStatus && !editMode && Fields() == EditFields("", "", "") && !savingDetails
      ensures !mounted && epoch == 0
    {
      this.projectId := projectId;
      project := None;
      loading := true;
      errorMsg := None;
      updatingStatus := false;
      editMode := false;
      name, address, description := "", "", "";
      savingDetails := false;
      mounted := false;
      epoch := 0;
      pendingStatus := "";
    }

    /** The load effect runs for `pid`. The loaded project is not reset. */
    method Activate(pid: string) returns (token: nat)
      modifies this`projectId, this`mounted, this`epoch, this`loading, this`errorMsg
      ensures projectId == pid && mounted && epoch == old(epoch) + 1 && token == epoch
      ensures loading && errorMsg == None
    {
      projectId := pid;
      mounted := true;
      epoch := epoch + 1;
      token := epoch;
      loading := true;
      errorMsg := None;
    }

    /** The effect's cleanup. */
    method Teardown()
      modifies this`mounted
      ensures !mounted
    {
      mounted := false;
    }

    /** `loadProject` of activation `token` after its first await, given the reply to "who
        is signed in" and the reply to the single-row query (None: no such project of this
        owner). `ownerQuery` is the owner id the row was queried for. */
    method FinishLoad(token: nat, user: Reply<Option<string>>, row: Reply<Option<Project>>)
      returns (ownerQuery: Option<string>)
      modifies this`project, this`loading, this`errorMsg, this`name, this`address, this`description
      ensures ownerQuery.Some? <==> user.Ok? && user.value.Some?
      ensures ownerQuery.Some? ==> ownerQuery == user.value
      ensures !old(mounted && token == epoch) || user.Threw? || (ownerQuery.Some? && row.Threw?) ==> unchanged(this)
      ensures old(mounted && token == epoch) && (user.Failed? || user == Ok(None)) ==>
        project == old(project) && Fields() == old(Fields()) && !loading && errorMsg == Some(UserLoadError)
      ensures old(mounted && token == epoch) && ownerQuery.Some? && !row.Threw? ==>
        !loading
        && match row
           case Failed(_) => project == old(project) && Fields() == old(Fields()) && errorMsg == Some(LoadError)
           case Ok(None) => project == old(project) && Fields() == old(Fields()) && errorMsg == Some(NotFoundError)
           case Ok(Some(p)) => project == Some(p) && Fields() == FieldsOf(p) && errorMsg == old(errorMsg)
    {
      var current := mounted && token == epoch;
      match user {
        case Threw =>
          return None;
        case Failed(_) =>
          if !current { return None; }
          errorMsg := Some(UserLoadError);
          loading := false;
          return None;
        case Ok(u) =>
          if u.None? {
            if !current { return None; }
            errorMsg := Some(UserLoadError);
            loading := false;
            return None;
          }
          ownerQuery := u;
      }
      if !current || row.Threw? {
        return;
      }
      match row {
        case Failed(_) =>
          errorMsg := Some(LoadError);
        case Ok(None) =>
          errorMsg := Some(NotFoundError);
        case Ok(Some(p)) =>
          project := Some(p);
          name := p.name;
          address := p.address.GetOr("");
          description := p.description.GetOr("");
      }
      loading := false;
    }

    /** `handleStatusChange(newStatus)` up to its request: nothing happens without a project
        or while another status update is in flight. `target` is the id of the project
        updated, if a request is issued. */
    method BeginStatusChange(newStatus: string) returns (target: Option<string>)
      modifies this`updatingStatus, this`errorMsg, this`pendingStatus
      ensures target.Some? <==> old(project).Some? && !old(updatingStatus)
      ensures target.None? ==> unchanged(this)
      ensures target.Some? ==>
        target.value == project.value.id && updatingStatus && errorMsg == None && pendingStatus == newStatus
    {
      if project.None? || updatingStatus {
        return None;
      }
      updatingStatus := true;
      errorMsg := None;
      pendingStatus := newStatus;
      target := Some(project.value.id);
    }

    /** `handleStatusChange` after its request: on success only the status of the project
        shown now changes. */
    method FinishStatusChange(reply: Reply<()>)
      requires updatingStatus
      modifies this`project, this`errorMsg, this`updatingStatus
      ensures !updatingStatus
      ensures reply.Ok? ==>
        errorMsg == old(errorMsg)
        && project == (if old(project).Some? then Some(old(project).value.(status := pendingStatus)) else None)
      ensures reply.Failed? ==> project == old(project) && errorMsg == Some(StatusError)
      ensures reply.Threw? ==> project == old(project) && errorMsg == Some(StatusTechError)
    {
      match reply {
        case Ok(_) =>
          if project.Some? {
            project := Some(project.value.(status := pendingStatus));
          }
        case Failed(_) =>
          errorMsg := Some(StatusError);
        case Threw =>
          errorMsg := Some(StatusTechError);
      }
      updatingStatus := false;
    }

    /** "Redigera info" / "Avbryt redigering". */
    method ToggleEdit()
      modifies this`editMode
      ensures editMode == !old(editMode)
    {
      editMode := !editMode;
    }

    /** The edit form's inputs change. */
    method EditForm(f: EditFields)
      modifies this`name, this`address, this`description
      ensures Fields() == f
    {
      name, address, description := f.name, f.address, f.description;
    }

    /** "Avbryt" in the edit form, which is only shown with a project loaded. */
    method CancelEdit()
      requires project.Some?
      modifies this`editMode, this`name, this`address, this`description
      ensures !editMode && Fields() == FieldsOf(project.value)
    {
      editMode := false;
      name := project.value.name;
      address := project.value.address.GetOr("");
      description := project.value.description.GetOr("");
    }

    /** `handleSaveDetails`, submitted while no save is in flight, with the reply to the update
        (the saved row). `patch` is the update sent, if any. */
    method SaveDetails(reply: Reply<Project>) returns (patch: Option<DetailsUpdate>)
      requires !savingDetails
      modifies this`project, this`editMode, this`errorMsg, this`savingDetails
      ensures !savingDetails
      ensures patch.Some? <==> old(project).Some?
      ensures patch.None? ==> unchanged(this)
      ensures patch.Some? ==> patch.value == DetailsPatch(old(Fields()), old(project).value.name)
      ensures patch.Some? && reply.Ok? ==> project == Some(reply.value) && !editMode && errorMsg == None
      ensures patch.Some? && !reply.Ok? ==> project == old(project) && editMode == old(editMode)
      ensures patch.Some? && reply.Failed? ==> errorMsg == Some(SaveError)
      ensures patch.Some? && reply.Threw? ==> errorMsg == Some(SaveTechError)
    {
      if project.None? {
        return None;
      }
      savingDetails := true;
      errorMsg := None;
      patch := Some(DetailsPatch(Fields(), project.value.name));
      match reply {
        case Ok(row) =>
          project := Some(row);
          editMode := false;
        case Failed(_) =>
          errorMsg := Some(SaveError);
        case Threw =>
          errorMsg := Some(SaveTechError);
      }
      savingDetails := false;
    }

    /** `handleDeleteProject`, with the answer to the confirmation and the reply to the
        delete. `target` is the id deleted, if a request is issued; `navigate` the page the
        router is sent to. */
    method DeleteProject(confirmed: bool, reply: Reply<()>) returns (target: Option<string>, navigate: Option<string>)
      modifies this`errorMsg
      ensures target.Some? <==> project.Some? && confirmed
      ensures target.None? ==> navigate == None && errorMsg == old(errorMsg)
      ensures target.Some? ==> target.value == project.value.id
      ensures target.Some? ==> (navigate.Some? <==> reply.Ok?) && (navigate.Some? ==> navigate.value == AfterDeletePath)
      ensures target.Some? ==>
        errorMsg == match reply { case Ok(_) => None case Failed(_) => Some(DeleteError) case Threw => Some(DeleteTechError) }
    {
      target, navigate := None, None;
      if project.None? || !confirmed {
        return;
      }
      errorMsg := None;
      target := Some(project.value.id);
      match reply {
        case Ok(_) =>
          navigate := Some(AfterDeletePath);
        case Failed(_) =>
          errorMsg := Some(DeleteError);
        case Threw =>
          errorMsg := Some(DeleteTechError);
      }
    }
  }
}
