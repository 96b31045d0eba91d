/** The account settings form: loading the e-mail and the profile, and the two-step save
    (e-mail change, then profile upsert). */
module Settings {
  import opened Base
  import opened Records

  const UserLoadError := "Kunde inte hämta användare. Försök logga in igen."
  const ProfileLoadError := "Kunde inte hämta profil."
  const NotSignedInError := "Ingen användare inloggad. Försök logga in igen."
  const EmailError := "Kunde inte uppdatera e-post. Kontrollera adressen."
  const ProfileSaveError := "Kunde inte spara profil."
  const SaveTechError := "Tekniskt fel vid sparande."
  const SavedMessage := "Profil uppdaterad."

  /** The signed-in user as the auth service reports it. */
  datatype AuthUser = AuthUser(id: string, email: Option<string>)

  /** The four editable profile fields. */
  datatype ProfileFields = ProfileFields(fullName: Option<string>, phone: Option<string>,
                                         company: Option<string>, occupationType: Option<string>)

  const EmptyProfile := ProfileFields(Some(""), Some(""), Some(""), Some(""))

  function FieldsOfRow(p: Profile): ProfileFields {
    ProfileFields(p.fullName, p.phone, p.company, p.occupationType)
  }

  /** A backend call `handleSubmit` makes. */
  datatype SaveCall =
    | UpdateEmail(email: string)
    | UpsertProfile(id: string, fields: ProfileFields)

  /** What a save does: the calls in order, the two messages it leaves and the new
      `initialEmail`. */
  datatype SaveRun = SaveRun(calls: seq<SaveCall>, errorMsg: Option<string>, message: Option<string>, initialEmail: string)

  /** `emailError.message || "Kunde inte uppdatera e-post. …"`. */
  function EmailFailureText(msg: string): string {
    if msg != "" then msg else EmailError
  }

  /** The e-mail is sent to the auth service only when it is filled in and was edited. */
  predicate EmailChanged(email: string, initialEmail: string) {
    email != "" && email != initialEmail
  }

  /** `handleSubmit` as a step sequence, given the form's state and the reply of every call
      it may make. */
  function SavePlan(email: string, initialEmail: string, profile: ProfileFields,
                    user: Reply<Option<AuthUser>>, emailReply: Reply<()>, upsert: Reply<()>): (r: SaveRun)
    ensures r.message.Some? <==> r.errorMsg.None?
    ensures |r.calls| <= 2
  {
    if user.Threw? then SaveRun([], Some(SaveTechError), None, initialEmail)
    else if user.Failed? || user.value.None? then SaveRun([], Some(NotSignedInError), None, initialEmail)
    else
      var u := user.value.value;
      var first := if EmailChanged(email, initialEmail) then [UpdateEmail(email)] else [];
      if first != [] && emailReply.Failed? then
        SaveRun(first, Some(EmailFailureText(emailReply.message)), None, initialEmail)
      else if first != [] && emailReply.Threw? then
        SaveRun(first, Some(SaveTechError), None, initialEmail)
      else
        var initial' := if first != [] then email else initialEmail;
        var calls := first + [UpsertProfile(u.id, profile)];
        match upsert
        case Ok(_) => SaveRun(calls, None, Some(SavedMessage), initial')
        case Failed(_) => SaveRun(calls, Some(ProfileSaveError), None, initial')
        case Threw => SaveRun(calls, Some(SaveTechError), None, initial')
  }

  /** An e-mail update is requested exactly when a user is signed in and the e-mail was
      filled in and changed; it is always the first call. */
  lemma EmailUpdateOnlyWhenChanged(email: string, initialEmail: string, profile: ProfileFields,
                                   user: Reply<Option<AuthUser>>, emailReply: Reply<()>, upsert: Reply<()>)
    ensures var run := SavePlan(email, initialEmail, profile, user, emailReply, upsert);
      (exists i | 0 <= i < |run.calls| :: run.calls[i].UpdateEmail?)
        <==> user.Ok? && user.value.Some? && EmailChanged(email, initialEmail)
    ensures var run := SavePlan(email, initialEmail, profile, user, emailReply, upsert);
      forall i | 0 <= i < |run.calls| :: run.calls[i].UpdateEmail? ==> i == 0 && run.calls[i].email == email
  {
    var run := SavePlan(email, initialEmail, profile, user, emailReply, upsert);
    if user.Ok? && user.value.Some? && EmailChanged(email, initialEmail) {
      assert run.calls[0].UpdateEmail?;
    }
  }

  /** A failed e-mail update aborts the save before the profile upsert, and leaves
      `initialEmail` as it was. */
  lemma EmailFailureAborts(email: string, initialEmail: string, profile: ProfileFields,
                           u: AuthUser, emailReply: Reply<()>, upsert: Reply<()>)
    requires EmailChanged(email, initialEmail) && !emailReply.Ok?
    ensures var run := SavePlan(email, initialEmail, profile, Ok(Some(u)), emailReply, upsert);
      run.calls == [UpdateEmail(email)] && run.message == None && run.initialEmail == initialEmail
      && run.errorMsg == Some(if emailReply.Failed? then EmailFailureText(emailReply.message) else SaveTechError)
  {
  }

  /** "Profil uppdaterad." is shown exactly when the upsert, carrying the user's id and the
      four fields, was made and succeeded; then there is no error. */
  lemma SavedOnlyAfterUpsert(email: string, initialEmail: string, profile: ProfileFields,
                             user: Reply<Option<AuthUser>>, emailReply: Reply<()>, upsert: Reply<()>)
    ensures var run := SavePlan(email, initialEmail, profile, user, emailReply, upsert);
      (run.message.Some? <==> |run.calls| > 0 && run.calls[|run.calls| - 1].UpsertProfile? && upsert.Ok?)
      && (run.message.Some? ==> run.message.value == SavedMessage && run.errorMsg == None)
      && (run.message.None? ==> run.errorMsg.Some?)
    ensures var run := SavePlan(email, initialEmail, profile, user, emailReply, upsert);
      forall i | 0 <= i < |run.calls| :: run.calls[i].UpsertProfile? ==>
        i == |run.calls| - 1 && user == Ok(Some(AuthUser(run.calls[i].id, user.value.value.email)))
        && run.calls[i].fields == profile
  {
  }

  /** `initialEmail` follows the e-mail exactly when the auth service accepted the change. */
  lemma InitialEmailFollowsAcceptedChange(email: string, initialEmail: string, profile: ProfileFields,
                                          user: Reply<Option<AuthUser>>, emailReply: Reply<()>, upsert: Reply<()>)
    ensures var run := SavePlan(email, initialEmail, profile, user, emailReply, upsert);
      run.initialEmail == (if user.Ok? && user.value.Some? && EmailChanged(email, initialEmail) && emailReply.Ok?
                           then email else initialEmail)
  {
  }

  /** Saving twice without editing sends the e-mail at most once. */
  lemma SecondSaveSkipsEmail(email: string, initialEmail: string, profile: ProfileFields,
                             u: AuthUser, upsert: Reply<()>, user2: Reply<Option<AuthUser>>, emailReply2: Reply<()>, upsert2: Reply<()>)
    ensures var run := SavePlan(email, initialEmail, profile, Ok(Some(u)), Ok(()), upsert);
      var run2 := SavePlan(email, run.initialEmail, profile, user2, emailReply2, upsert2);
      forall i | 0 <= i < |run2.calls| :: !run2.calls[i].UpdateEmail?
  {
  }

  class SettingsView {
    var initialEmail: string
    var email: string
    var profile: ProfileFields
    var loading: bool
    var saving: bool
    var message: Option<string>
    var errorMsg: Option<string>

    /** `isMounted` of the load effect (which runs once), and whether its profile query is
        in flight. */
    var mounted: bool
    var awaitingProfile: bool

    constructor ()
      ensures initialEmail == "" && email == "" && profile == EmptyProfile && loading && !saving
      ensures message == None && errorMsg == None && !mounted && !awaitingProfile
    {
      initialEmail, email := "", "";
      profile := EmptyProfile;
      loading, saving := true, false;
      message, errorMsg := None, None;
      mounted, awaitingProfile := false, false;
    }

    /** The effect starts `loadProfile`. */
    method StartLoad()
      modifies this`mounted, this`loading, this`errorMsg
      ensures mounted && loading && errorMsg == None
    {
      mounted := true;
      loading := true;
      errorMsg := None;
    }

    method Teardown()
      modifies this`mounted
      ensures !mounted
    {
      mounted := false;
    }

    /** `loadProfile` once the auth service has answered. `profileQuery` is the id whose
        profile row is then queried (whether or not the form is still mounted). */
    method UserArrived(user: Reply<Option<AuthUser>>) returns (profileQuery: Option<string>)
      modifies this`initialEmail, this`email, this`loading, this`errorMsg, this`awaitingProfile
      ensures profileQuery.Some? <==> user.Ok? && user.value.Some?
      ensures profileQuery.Some? ==> profileQuery.value == user.value.value.id && awaitingProfile
      ensures profileQuery.None? ==> awaitingProfile == old(awaitingProfile)
      ensures !old(mounted) || user.Threw? ==>
        initialEmail == old(initialEmail) && email == old(email) && loading == old(loading) && errorMsg == old(errorMsg)
      ensures old(mounted) && (user.Failed? || user == Ok(None)) ==>
        initialEmail == old(initialEmail) && email == old(email) && !loading && errorMsg == Some(UserLoadError)
      ensures old(mounted) && profileQuery.Some? ==>
        initialEmail == email == user.value.value.email.GetOr("") && loading == old(loading) && errorMsg == old(errorMsg)
    {
      profileQuery := None;
      match user {
        case Threw =>
        case Failed(_) =>
          if mounted {
            errorMsg := Some(UserLoadError);
            loading := false;
          }
        case Ok(None) =>
          if mounted {
            errorMsg := Some(UserLoadError);
            loading := false;
          }
        case Ok(Some(u)) =>
          if mounted {
            initialEmail := u.email.GetOr("");
            email := u.email.GetOr("");
          }
          profileQuery := Some(u.id);
          awaitingProfile := true;
      }
    }

    /** `loadProfile` once the profile query has answered (None: no row yet). */
    method ProfileArrived(row: Reply<Option<Profile>>)
      requires awaitingProfile
      modifies this`profile, this`loading, this`errorMsg, this`awaitingProfile
      ensures !awaitingProfile
      ensures !old(mounted) || row.Threw? ==>
        profile == old(profile) && loading == old(loading) && errorMsg == old(errorMsg)
      ensures old(mounted) && !row.Threw? ==>
        !loading
        && match row
           case Failed(_) => profile == old(profile) && errorMsg == Some(ProfileLoadError)
           case Ok(None) => profile == old(profile) && errorMsg == old(errorMsg)
           case Ok(Some(p)) => profile == FieldsOfRow(p) && errorMsg == old(errorMsg)
    {
      awaitingProfile := false;
      if !mounted || row.Threw? {
        return;
      }
      match row {
        case Failed(_) =>
          errorMsg := Some(ProfileLoadError);
        case Ok(None) =>
        case Ok(Some(p)) =>
          profile := FieldsOfRow(p);
      }
      loading := false;
    }

    method EditEmail(e: string)
      modifies this`email
      ensures email == e
    {
      email := e;
    }

    /** One of the profile inputs changes (an input always yields a string). */
    method EditProfile(f: ProfileFields)
      modifies this`profile
      ensures profile == f
    {
      profile := f;
    }

    /** `handleSubmit`, while no save is in flight, given the reply of every call it may
        make; `calls` are the calls it made. */
    method Submit(user: Reply<Option<AuthUser>>, emailReply: Reply<()>, upsert: Reply<()>)
      returns (calls: seq<SaveCall>)
      requires !saving
      modifies this`initialEmail, this`saving, this`message, this`errorMsg
      ensures !saving
      ensures var run := SavePlan(old(email), old(initialEmail), old(profile), user, emailReply, upsert);
        calls == run.calls && errorMsg == run.errorMsg && message == run.message && initialEmail == run.initialEmail
    {
      saving := true;
      message := None;
      errorMsg := None;
      calls := [];
      if user.Threw? {
        errorMsg := Some(SaveTechError);
        saving := false;
        return;
      }
      if user.Failed? || user.value.None? {
        errorMsg := Some(NotSignedInError);
        saving := false;
        return;
      }
      var u := user.value.value;
      if email != "" && email != initialEmail {
        calls := calls + [UpdateEmail(email)];
        if emailReply.Failed? {
          errorMsg := Some(if emailReply.message != "" then emailReply.message else EmailError);
          saving := false;
          return;
        } else if emailReply.Threw? {
          errorMsg := Some(SaveTechError);
          saving := false;
          return;
        }
        initialEmail := email;
      }
      calls := calls + [UpsertProfile(u.id, profile)];
      match upsert {
        case Ok(_) =>
          message := Some(SavedMessage);
        case Failed(_) =>
          errorMsg := Some(ProfileSaveError);
        case Threw =>
          errorMsg := Some(SaveTechError);
      }
      saving := false;
    }
  }
}
