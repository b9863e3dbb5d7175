/**
 * The team directory page: fetching teams of one type, the name search,
 * the team-type colours, and the completion-rate and join badges.
 */
module TeamList {
  import opened Wrappers
  import opened Http
  import opened Text
  import opened Lists

  const TeamsPath: string := "/teams/teams/"
  const AllTypes: string := "all"
  const DefaultTypeColor: string := "bg-gray-100 text-gray-800"

  datatype Team = Team(id: int, name: string, team_type: string, description: Option<string>,
                       member_count: int, total_projects: int, completion_rate: int,
                       is_full: bool, allow_self_join: bool, is_active: bool)

  /**
   * The query of the fetch: `team_type` is undefined for `'all'` and axios
   * drops it; any other choice, even an empty one, is sent.
   */
  function TeamTypeParams(filterType: string): (ps: seq<(string, string)>)
    ensures filterType == AllTypes ==> ps == []
    ensures filterType != AllTypes ==> ps == [("team_type", filterType)]
  {
    if filterType != AllTypes then [("team_type", filterType)] else []
  }

  /** `filteredTeams`: the teams whose name mentions the search, in their order; the description is not searched. */
  function FilteredTeams(teams: seq<Team>, search: string): (r: seq<Team>)
    ensures |r| <= |teams|
    ensures forall i :: 0 <= i < |r| ==> Mentions(r[i].name, search) && r[i] in teams
    ensures forall i :: 0 <= i < |teams| && Mentions(teams[i].name, search) ==> teams[i] in r
  {
    Filter(teams, (t: Team) => Mentions(t.name, search))
  }

  /** An empty search shows every team. */
  lemma EmptySearchKeepsAll(teams: seq<Team>)
    ensures FilteredTeams(teams, "") == teams
  {
    forall i | 0 <= i < |teams| ensures Mentions(teams[i].name, "") {
      EmptyQueryMentioned(teams[i].name);
    }
    FilterKeepsAll(teams, (t: Team) => Mentions(t.name, ""));
  }

  /** Two teams with the same name are both kept or both dropped, whatever their descriptions. */
  lemma SearchIgnoresDescription(teams: seq<Team>, search: string, i: int, j: int)
    requires 0 <= i < |teams| && 0 <= j < |teams| && teams[i].name == teams[j].name
    ensures teams[i] in FilteredTeams(teams, search) <==> teams[j] in FilteredTeams(teams, search)
  {
  }

  const KnownTypes: set<string> := {"DEV", "DESIGN", "MARKETING", "SALES", "SUPPORT", "MGMT", "CROSS"}

  /** `getTeamTypeColor`: seven known types; the cross-functional one shares the default grey. */
  function TeamTypeColor(teamType: string): (c: string)
    ensures teamType !in KnownTypes ==> c == DefaultTypeColor
    ensures c == DefaultTypeColor <==> teamType !in KnownTypes - {"CROSS"}
    ensures teamType == "DEV" ==> c == "bg-blue-100 text-blue-800"
    ensures teamType == "DESIGN" ==> c == "bg-purple-100 text-purple-800"
    ensures teamType == "MARKETING" ==> c == "bg-pink-100 text-pink-800"
    ensures teamType == "SALES" ==> c == "bg-green-100 text-green-800"
    ensures teamType == "SUPPORT" ==> c == "bg-yellow-100 text-yellow-800"
    ensures teamType == "MGMT" ==> c == "bg-red-100 text-red-800"
  {
    if teamType == "DEV" then "bg-blue-100 text-blue-800"
    else if teamType == "DESIGN" then "bg-purple-100 text-purple-800"
    else if teamType == "MARKETING" then "bg-pink-100 text-pink-800"
    else if teamType == "SALES" then "bg-green-100 text-green-800"
    else if teamType == "SUPPORT" then "bg-yellow-100 text-yellow-800"
    else if teamType == "MGMT" then "bg-red-100 text-red-800"
    else if teamType == "CROSS" then "bg-gray-100 text-gray-800"
    else DefaultTypeColor
  }

  /** The completion-rate bar is shown only for a team with projects. */
  function ShowsCompletionRate(t: Team): (shown: bool)
    ensures shown <==> t.total_projects >= 1
  {
    t.total_projects > 0
  }

  datatype Badge = Full | OpenToJoin | InviteOnly

  /** The join badge: a full team is full even when self-join is allowed. */
  function JoinBadge(t: Team): (b: Badge)
    ensures b == Full <==> t.is_full
    ensures b == OpenToJoin <==> !t.is_full && t.allow_self_join
    ensures b == InviteOnly <==> !t.is_full && !t.allow_self_join
  {
    if t.is_full then Full else if t.allow_self_join then OpenToJoin else InviteOnly
  }

  /** The state of the team directory. */
  class TeamDirectory {
    const backend: Backend
    var teams: seq<Team>
    var loading: bool
    var searchTerm: string
    var filterType: string

    constructor (backend: Backend)
      ensures this.backend == backend
      ensures teams == [] && loading && searchTerm == "" && filterType == AllTypes
    {
      this.backend := backend;
      teams := [];
      loading := true;
      searchTerm := "";
      filterType := AllTypes;
    }

    /** The teams shown. */
    function Visible(): (r: seq<Team>)
      reads this
      ensures forall i :: 0 <= i < |r| ==> Mentions(r[i].name, searchTerm) && r[i] in teams
      ensures searchTerm == "" ==> r == teams
    {
      EmptySearchKeepsAll(teams);
      FilteredTeams(teams, searchTerm)
    }

    /** `fetchTeams()`: a failure keeps the teams shown; `loading` ends false either way. */
    method FetchTeams(reply: Result<ListResponse<Team>, Failure>)
      modifies this, backend
      ensures backend.calls == old(backend.calls) + [Call(GET, TeamsPath, TeamTypeParams(filterType), NoBody)]
      ensures reply.Success? ==> teams == Normalize(reply.value)
      ensures reply.Failure? ==> teams == old(teams)
      ensures !loading && searchTerm == old(searchTerm) && filterType == old(filterType)
    {
      backend.Issue(Call(GET, TeamsPath, TeamTypeParams(filterType), NoBody));
      if reply.Success? {
        teams := Normalize(reply.value);
      }
      loading := false;
    }

    /** Choosing a team type refetches with it. */
    method SelectType(teamType: string, reply: Result<ListResponse<Team>, Failure>)
      modifies this, backend
      ensures filterType == teamType && !loading && searchTerm == old(searchTerm)
      ensures backend.calls == old(backend.calls) + [Call(GET, TeamsPath, TeamTypeParams(teamType), NoBody)]
      ensures reply.Success? ==> teams == Normalize(reply.value)
      ensures reply.Failure? ==> teams == old(teams)
    {
      filterType := teamType;
      FetchTeams(reply);
    }

    /** The search box. */
    method SetSearchTerm(search: string)
      modifies this
      ensures searchTerm == search
      ensures teams == old(teams) && loading == old(loading) && filterType == old(filterType)
    {
      searchTerm := search;
    }
  }
}
