/** Rows of the backend tables as the components receive them, and the shape of the
    profile searches two of them issue. */
module Records {
  import opened Base

  /** A `projects` row. */
  datatype Project = Project(
    id: string, ownerId: string, name: string,
    description: Option<string>, address: Option<string>, status: string,
    startDate: Option<string>, endDate: Option<string>,
    createdAt: string, updatedAt: string)

  /** A `profiles` row as the searches select it. */
  datatype Profile = Profile(
    id: string, email: Option<string>, fullName: Option<string>, company: Option<string>,
    occupationType: Option<string>, phone: Option<string>)

  /** A profile search: case-insensitive substring match of `term` on any of `columns`,
      ordered by `orderBy`. Matching and ordering are the backend's. */
  datatype ProfileQuery = ProfileQuery(term: string, columns: seq<string>, orderBy: string, ascending: bool)
}
