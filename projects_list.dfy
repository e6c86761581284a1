/**
 * Keyword and budget filtering of the public project list
 * (src/pages/projects/page.tsx). `toLowerCase` is a parameter `lower`,
 * since case mapping of arbitrary text is not modelled.
 */
module ProjectsList {
  import opened Common
  import opened Strings
  import opened Lists

  datatype Project = Project(
    id: string, title: string, description: string, budget: real,
    deadline: Option<string>, status: string, createdAt: string)

  const LowLimit: real := 100000.0
  const HighLimit: real := 500000.0

  /** The lowercased title or description contains the lowercased query. */
  predicate MatchesSearch(p: Project, query: string, lower: string -> string) {
    Contains(lower(p.title), lower(query)) || Contains(lower(p.description), lower(query))
  }

  /** The budget select: `low`, `medium`, `high` restrict; `all` and anything else do not. */
  predicate MatchesBudget(budget: real, filter: string) {
    if filter == "low" then budget < LowLimit
    else if filter == "medium" then LowLimit <= budget < HighLimit
    else if filter == "high" then budget >= HighLimit
    else true
  }

  predicate Matches(p: Project, query: string, filter: string, lower: string -> string) {
    MatchesSearch(p, query, lower) && MatchesBudget(p.budget, filter)
  }

  /**
   * `filteredProjects`: exactly the projects that match both the keyword and
   * the budget bucket, in their original order.
   */
  function FilteredProjects(projects: seq<Project>, query: string, filter: string, lower: string -> string): (r: seq<Project>)
    ensures IsSubsequence(r, projects)
    ensures forall p :: p in r <==> p in projects && MatchesSearch(p, query, lower) && MatchesBudget(p.budget, filter)
    ensures forall p :: multiset(r)[p] == if Matches(p, query, filter, lower) then multiset(projects)[p] else 0
  {
    Filter(projects, (p: Project) => Matches(p, query, filter, lower))
  }

  /** Every budget falls in exactly one of the three buckets. */
  lemma BucketsPartition(budget: real)
    ensures MatchesBudget(budget, "low") || MatchesBudget(budget, "medium") || MatchesBudget(budget, "high")
    ensures !(MatchesBudget(budget, "low") && MatchesBudget(budget, "medium"))
    ensures !(MatchesBudget(budget, "low") && MatchesBudget(budget, "high"))
    ensures !(MatchesBudget(budget, "medium") && MatchesBudget(budget, "high"))
  {
  }

  /** With the initial filters (empty query, `all`) the whole list is shown. */
  lemma InitialFiltersShowAll(projects: seq<Project>, lower: string -> string)
    requires lower("") == ""
    ensures FilteredProjects(projects, "", "all", lower) == projects
  {
    forall p | p in projects ensures Matches(p, "", "all", lower) {
      ContainsEmpty(lower(p.title));
    }
    FilterKeepsAll(projects, (p: Project) => Matches(p, "", "all", lower));
  }

  /**
   * For a fixed query, the three budget buckets split the `all` result: their
   * sizes add up to its size.
   */
  lemma {:induction false} BucketsSplitResult(projects: seq<Project>, query: string, lower: string -> string)
    ensures |FilteredProjects(projects, query, "low", lower)| + |FilteredProjects(projects, query, "medium", lower)|
          + |FilteredProjects(projects, query, "high", lower)| == |FilteredProjects(projects, query, "all", lower)|
  {
    if projects != [] {
      BucketsSplitResult(projects[1..], query, lower);
      BucketsPartition(projects[0].budget);
    }
  }

  /** What the page renders; `RenderFails` is a render that throws (a ReferenceError). */
  datatype ListView = LoadingList | NoUser | Listing(shown: seq<Project>) | RenderFails

  /**
   * The intended page: loading first, nothing without a user, otherwise the
   * header, the filters and the filtered list.
   */
  function ListViewFor(authLoading: bool, loadingProjects: bool, signedIn: bool, projects: seq<Project>,
                       query: string, filter: string, lower: string -> string): (v: ListView)
    ensures v == LoadingList <==> authLoading || loadingProjects
    ensures v == NoUser <==> !authLoading && !loadingProjects && !signedIn
    ensures v.Listing? <==> !authLoading && !loadingProjects && signedIn
    ensures v.Listing? ==> v.shown == FilteredProjects(projects, query, filter, lower)
  {
    if authLoading || loadingProjects then LoadingList
    else if !signedIn then NoUser
    else Listing(FilteredProjects(projects, query, filter, lower))
  }

  /**
   * The page as written: its header renders a `Link` element that is never
   * imported into the page, so every render past the two early returns throws.
   */
  function ListViewAsWritten(authLoading: bool, loadingProjects: bool, signedIn: bool, projects: seq<Project>,
                             query: string, filter: string, lower: string -> string): (v: ListView)
    ensures !v.Listing?
    ensures v == RenderFails <==> ListViewFor(authLoading, loadingProjects, signedIn, projects, query, filter, lower).Listing?
    ensures v != RenderFails ==> v == ListViewFor(authLoading, loadingProjects, signedIn, projects, query, filter, lower)
  {
    var v := ListViewFor(authLoading, loadingProjects, signedIn, projects, query, filter, lower);
    if v.Listing? then RenderFails else v
  }

  /** A signed-in user whose projects have loaded should see the (empty) list; as written the render throws. */
  lemma ListingUnreachableAsWritten(lower: string -> string)
    ensures ListViewFor(false, false, true, [], "", "all", lower) == Listing([])
    ensures ListViewAsWritten(false, false, true, [], "", "all", lower) == RenderFails
  {
  }
}

