/** The project members section: the member list, the owner's profile search and the
    per-profile role inputs. */
module ProjectMembers {
  import opened Base
  import opened Text
  import opened Records
  import Lists

  /** A `project_members` row joined with its profile. */
  datatype Member = Member(id: string, role: Option<string>, profile: Option<Profile>)

  /** The row an add inserts. */
  datatype MemberInsert = MemberInsert(projectId: string, userId: string, role: Option<string>)

  function MemberKey(m: Member): string { m.id }

  const LoadError := "Kunde inte hämta deltagare."
  const SearchError := "Kunde inte söka användare."
  const SearchTechError := "Tekniskt fel vid sökning."
  const AddError := "Kunde inte lägga till användaren i projektet."
  const AddTechError := "Tekniskt fel vid tillägg."
  const RemoveError := "Kunde inte ta bort deltagare."
  const RemoveTechError := "Tekniskt fel vid borttagning."

  /** The member search looks in name, company and e-mail. */
  const SearchColumns: seq<string> := ["full_name", "company", "email"]

  /** `m.profiles?.id`, with a missing profile read as "" (both are dropped by `filter(Boolean)`). */
  function ProfileId(m: Member): string {
    if m.profile.Some? then m.profile.value.id else ""
  }

  /** `new Set(members.map((m) => m.profiles?.id).filter(Boolean))`. */
  function MemberUserIds(members: seq<Member>): (ids: set<string>)
    ensures forall x :: x in ids <==> x != "" && exists i | 0 <= i < |members| :: ProfileId(members[i]) == x
  {
    if members == [] then {}
    else (if ProfileId(members[0]) != "" then {ProfileId(members[0])} else {}) + MemberUserIds(members[1..])
  }

  /** `roleByUser[id] || null`: the role typed for that profile, null when none or empty. */
  function RoleToSend(roleByUser: map<string, string>, id: string): (r: Option<string>)
    ensures r.Some? <==> id in roleByUser && roleByUser[id] != ""
    ensures r.Some? ==> r.value == roleByUser[id]
  {
    if id in roleByUser then NullIfEmpty(roleByUser[id]) else None
  }

  /** `m.role || m.profiles?.occupation_type`, shown only when truthy. */
  function RoleLine(m: Member): (r: Option<string>)
    ensures r.Some? ==> r.value != ""
    ensures Truthy(m.role) ==> r == m.role
    ensures !Truthy(m.role) ==> r == (if m.profile.Some? && Truthy(m.profile.value.occupationType) then m.profile.value.occupationType else None)
  {
    var shown := Or(m.role, if m.profile.Some? then m.profile.value.occupationType else None);
    if Truthy(shown) then shown else None
  }

  /** An added member counts as a member afterwards, so the same profile cannot be added
      a second time through this view. */
  lemma {:induction false} AddedProfileIsMember(members: seq<Member>, row: Member)
    requires ProfileId(row) != ""
    ensures ProfileId(row) in MemberUserIds(members + [row])
  {
    var s := members + [row];
    assert ProfileId(s[|members|]) == ProfileId(row);
  }

  class MembersView {
    /** The `projectId` prop; a new value re-runs the load effect. */
    var projectId: string
    const isOwner: bool

    var members: seq<Member>
    var loadingMembers: bool
    var membersError: Option<string>
    var search: string
    var searchResults: seq<Profile>
    var searching: bool
    var searchError: Option<string>
    var addingUserId: Option<string>
    var roleByUser: map<string, string>

    /** `isMounted` of the current load, and the number of that load. */
    var mounted: bool
    var epoch: nat

    constructor (projectId: string, isOwner: bool)
      ensures this.projectId == projectId && this.isOwner == isOwner
      ensures members == [] && loadingMembers && membersError == None
      ensures search == "" && searchResults == [] && !searching && searchError == None
      ensures addingUserId == None && roleByUser == map[] && !mounted && epoch == 0
    {
      this.projectId := projectId;
      this.isOwner := isOwner;
      members := [];
      loadingMembers := true;
      membersError := None;
      search := "";
      searchResults := [];
      searching := false;
      searchError := None;
      addingUserId := None;
      roleByUser := map[];
      mounted := false;
      epoch := 0;
    }

    /** The load effect starts, on mount or for a new `projectId`. */
    method StartLoad(pid: string) returns (token: nat)
      modifies this`projectId, this`mounted, this`epoch, this`loadingMembers, this`membersError
      ensures projectId == pid && mounted && epoch == old(epoch) + 1 && token == epoch
      ensures loadingMembers && membersError == None
    {
      projectId := pid;
      mounted := true;
      epoch := epoch + 1;
      token := epoch;
      loadingMembers := true;
      membersError := None;
    }

    /** The load effect's cleanup. */
    method Teardown()
      modifies this`mounted
      ensures !mounted
    {
      mounted := false;
    }

    /** The member query of load `token` completes. */
    method FinishLoad(token: nat, reply: Reply<Option<seq<Member>>>)
      modifies this`members, this`loadingMembers, this`membersError
      ensures !old(mounted && token == epoch) ==> unchanged(this)
      ensures old(mounted && token == epoch) ==>
        match reply
        case Ok(rows) => members == rows.GetOr([]) && !loadingMembers && membersError == old(membersError)
        case Failed(_) => members == old(members) && !loadingMembers && membersError == Some(LoadError)
        case Threw => unchanged(this)
    {
      if !(mounted && token == epoch) {
        return;
      }
      match reply {
        case Ok(rows) =>
          members := rows.GetOr([]);
          loadingMembers := false;
        case Failed(_) =>
          membersError := Some(LoadError);
          loadingMembers := false;
        case Threw =>
      }
    }

    method EditSearch(text: string)
      modifies this`search
      ensures search == text
    {
      search := text;
    }

    /** The role input of one search result. */
    method EditRole(id: string, text: string)
      modifies this`roleByUser
      ensures roleByUser == old(roleByUser)[id := text]
    {
      roleByUser := roleByUser[id := text];
    }

    /** `handleSearch`, with the reply of the profile query; returns the query it issues. */
    method Search(reply: Reply<Option<seq<Profile>>>) returns (query: Option<ProfileQuery>)
      modifies this`searchResults, this`searching, this`searchError
      ensures Trim(old(search)) == "" ==>
        query == None && searchResults == [] && searchError == None && searching == old(searching)
      ensures Trim(old(search)) != "" ==>
        query == Some(ProfileQuery(Trim(old(search)), SearchColumns, "full_name", true)) && !searching
        && match reply
           case Ok(rows) => searchResults == rows.GetOr([]) && searchError == None
           case Failed(_) => searchResults == [] && searchError == Some(SearchError)
           case Threw => searchResults == [] && searchError == Some(SearchTechError)
    {
      searchError := None;
      var trimmed := Trim(search);
      if trimmed == "" {
        searchResults := [];
        return None;
      }
      searching := true;
      query := Some(ProfileQuery(trimmed, SearchColumns, "full_name", true));
      match reply {
        case Ok(rows) =>
          searchResults := rows.GetOr([]);
        case Failed(_) =>
          searchError := Some(SearchError);
          searchResults := [];
        case Threw =>
          searchError := Some(SearchTechError);
          searchResults := [];
      }
      searching := false;
    }

    /** `handleAddToProject`, with the reply of the insert; returns the row it inserts. */
    method AddToProject(profile: Profile, reply: Reply<Member>) returns (request: Option<MemberInsert>)
      modifies this`members, this`roleByUser, this`searchError, this`addingUserId
      ensures !isOwner || profile.id == "" || profile.id in MemberUserIds(old(members)) ==>
        request == None && unchanged(this)
      ensures isOwner && profile.id != "" && profile.id !in MemberUserIds(old(members)) ==>
        request == Some(MemberInsert(projectId, profile.id, RoleToSend(old(roleByUser), profile.id)))
        && addingUserId == None
        && match reply
           case Ok(row) =>
             members == old(members) + [row] && roleByUser == old(roleByUser) - {profile.id}
             && searchError == None
           case Failed(_) =>
             members == old(members) && roleByUser == old(roleByUser) && searchError == Some(AddError)
           case Threw =>
             members == old(members) && roleByUser == old(roleByUser) && searchError == Some(AddTechError)
    {
      if !isOwner || profile.id == "" || profile.id in MemberUserIds(members) {
        return None;
      }
      searchError := None;
      addingUserId := Some(profile.id);
      request := Some(MemberInsert(projectId, profile.id, RoleToSend(roleByUser, profile.id)));
      match reply {
        case Ok(row) =>
          members := members + [row];
          roleByUser := roleByUser - {profile.id};
        case Failed(_) =>
          searchError := Some(AddError);
        case Threw =>
          searchError := Some(AddTechError);
      }
      addingUserId := None;
    }

    /** `handleRemoveMember`, with the answer to the confirmation and the reply of the delete;
        returns whether the delete was issued. */
    method RemoveMember(memberId: string, confirmed: bool, reply: Reply<()>) returns (issued: bool)
      modifies this`members, this`membersError
      ensures issued == (isOwner && confirmed)
      ensures !issued ==> unchanged(this)
      ensures issued ==>
        match reply
        case Ok(_) => members == Lists.DropKey(old(members), MemberKey, memberId) && membersError == None
        case Failed(_) => members == old(members) && membersError == Some(RemoveError)
        case Threw => members == old(members) && membersError == Some(RemoveTechError)
    {
      if !isOwner || !confirmed {
        return false;
      }
      issued := true;
      membersError := None;
      match reply {
        case Ok(_) =>
          members := Lists.DropKey(members, MemberKey, memberId);
        case Failed(_) =>
          membersError := Some(RemoveError);
        case Threw =>
          membersError := Some(RemoveTechError);
      }
    }
  }
}
