/** The user directory search: a query on name or company and its result states. */
module UserSearch {
  import opened Base
  import opened Text
  import opened Records

  const SearchError := "Kunde inte söka användare."
  const SearchTechError := "Tekniskt fel vid sökning."

  /** Name and company are searched, not the e-mail address. */
  const SearchColumns := ["full_name", "company"]

  class SearchView {
    var query: string
    var results: seq<Profile>
    var loading: bool
    var errorMsg: Option<string>
    var hasSearched: bool

    constructor ()
      ensures query == "" && results == [] && !loading && errorMsg == None && !hasSearched
    {
      query := "";
      results := [];
      loading := false;
      errorMsg := None;
      hasSearched := false;
    }

    /** "Inga användare hittades" is shown. */
    predicate NoResultsShown()
      reads this
    {
      !loading && hasSearched && results == [] && errorMsg == None
    }

    method EditQuery(q: string)
      modifies this`query
      ensures query == q
    {
      query := q;
    }

    /** `handleSearch`, with the reply to the query (None: no data). `issued` is the query
        sent, if any. */
    method Search(reply: Reply<Option<seq<Profile>>>) returns (issued: Option<ProfileQuery>)
      modifies this`results, this`loading, this`errorMsg, this`hasSearched
      ensures hasSearched
      ensures Trim(query) == "" ==>
        issued == None && results == [] && errorMsg == None && loading == old(loading)
        && (NoResultsShown() <==> !old(loading))
      ensures Trim(query) != "" ==>
        issued == Some(ProfileQuery(Trim(query), SearchColumns, "full_name", true)) && !loading
        && (NoResultsShown() <==> reply.Ok? && reply.value.GetOr([]) == [])
        && match reply
           case Ok(rows) => results == rows.GetOr([]) && errorMsg == None
           case Failed(_) => results == [] && errorMsg == Some(SearchError)
           case Threw => results == [] && errorMsg == Some(SearchTechError)
    {
      errorMsg := None;
      hasSearched := true;
      var trimmed := Trim(query);
      if trimmed == "" {
        results := [];
        return None;
      }
      assert Trim(query) != "";
      loading := true;
      issued := Some(ProfileQuery(trimmed, SearchColumns, "full_name", true));
      match reply {
        case Ok(rows) =>
          results := rows.GetOr([]);
        case Failed(_) =>
          errorMsg := Some(SearchError);
          results := [];
        case Threw =>
          errorMsg := Some(SearchTechError);
          results := [];
      }
      loading := false;
    }
  }
}
