/** The teams page: loading the teams, the name-or-description search and the member label. */
module TeamsList {
  import opened Wrappers
  import opened Http
  import opened Text
  import opened Lists
  import opened Decimal

  const TeamsPath: string := "/teams/teams/"
  const LoadFallback: string := "Failed to load teams"

  /** A team as the page reads it; `member_count` may be missing. */
  datatype Team = Team(id: int, name: string, description: string, member_count: Option<int>)

  /** The search keeps a team whose name or description mentions the query. */
  predicate Matches(query: string, t: Team) {
    Mentions(t.name, query) || Mentions(t.description, query)
  }

  /** `filteredTeams`: the matching teams, in their order. */
  function FilteredTeams(teams: seq<Team>, query: string): (r: seq<Team>)
    ensures |r| <= |teams|
    ensures forall i :: 0 <= i < |r| ==> Matches(query, r[i]) && r[i] in teams
    ensures forall i :: 0 <= i < |teams| && Matches(query, teams[i]) ==> teams[i] in r
  {
    Filter(teams, t => Matches(query, t))
  }

  /** An empty search shows every team. */
  lemma EmptyQueryKeepsAll(teams: seq<Team>)
    ensures FilteredTeams(teams, "") == teams
  {
    forall i | 0 <= i < |teams| ensures Matches("", teams[i]) {
      EmptyQueryMentioned(teams[i].name);
    }
    FilterKeepsAll(teams, t => Matches("", t));
  }

  /** The member line of a card: any defined count is shown, zero included. */
  function MemberLabel(t: Team): (s: string)
    ensures t.member_count.None? ==> s == "View team"
    ensures t.member_count.Some? ==> s == IntToString(t.member_count.value) + " members"
  {
    match t.member_count
    case Some(n) => IntToString(n) + " members"
    case None => "View team"
  }

  /** The count shown is the one the team carries. */
  lemma MemberLabelNamesCount(t: Team)
    requires t.member_count.Some?
    ensures var s := MemberLabel(t);
      |s| > 8 && ParseInt(s[..|s| - 8]) == t.member_count
  {
    var s := MemberLabel(t);
    assert s[..|s| - 8] == IntToString(t.member_count.value);
    IntToStringRoundTrip(t.member_count.value);
  }

  /** The state of the teams page. */
  class TeamsView {
    const backend: Backend
    var teams: seq<Team>
    var loading: bool
    var error: Option<string>
    var filter: string

    constructor (backend: Backend)
      ensures this.backend == backend
      ensures teams == [] && loading && error.None? && filter == ""
    {
      this.backend := backend;
      teams := [];
      loading := true;
      error := None;
      filter := "";
    }

    /** The teams shown. */
    function Visible(): (r: seq<Team>)
      reads this
      ensures forall i :: 0 <= i < |r| ==> Matches(filter, r[i]) && r[i] in teams
      ensures filter == "" ==> r == teams
    {
      EmptyQueryKeepsAll(teams);
      FilteredTeams(teams, filter)
    }

    /** `loadTeams()`: a failure keeps the list and sets the error; `loading` ends false. */
    method LoadTeams(reply: Result<seq<Team>, Failure>)
      modifies this, backend
      ensures backend.calls == old(backend.calls) + [Call(GET, TeamsPath, [], NoBody)]
      ensures reply.Success? ==> teams == reply.value && error == old(error)
      ensures reply.Failure? ==> teams == old(teams) && error == Some(DetailOr(reply.error, LoadFallback))
      ensures !loading && filter == old(filter)
    {
      loading := true;
      backend.Issue(Call(GET, TeamsPath, [], NoBody));
      match reply {
        case Success(data) => teams := data;
        case Failure(e) => error := Some(DetailOr(e, LoadFallback));
      }
      loading := false;
    }

    /** The search box. */
    method SetFilter(query: string)
      modifies this
      ensures filter == query
      ensures teams == old(teams) && loading == old(loading) && error == old(error)
    {
      filter := query;
    }
  }
}
