/**
  The calendar side of generate_ics_bulk.py: `_build_ics` turns the rows of
  a fixture query into calendar events, naming each with the `event_namer`
  of `build_team_ics` or of `build_league_ics`. The SQL query that yields
  the rows, the time-zone conversion of `dt_utc` and the iCalendar text the
  `ics` library writes are parameters or left out.
 */
module Calendar {
  import opened Wrappers
  import opened VenueCache
  import opened Repository

  /** One row of the fixture query: ids and names of both sides, the kick-off, the result and the venue address. */
  datatype QueryRow = QueryRow(
    fixtureId: int,
    homeId: int, homeName: string,
    awayId: int, awayName: string,
    dtUtc: string, result: Option<string>, address: Option<string>)

  /** A calendar event: title, start, length in hours, location and optional description. */
  datatype Event<T> = Event(name: string, begin: T, hours: nat, location: string, description: Option<string>)

  /** Whom the events are named after: the league's own fixtures, or one team (its id and name). */
  datatype Namer = LeagueNamer | TeamNamer(teamId: int, teamName: string)

  /** A calendar file: its creator line and its events. */
  datatype Ics<T> = Ics(creator: string, events: seq<Event<T>>)

  const ResultPrefix: string := "Result: "

  /** Python truthiness of an optional string: present and not empty. */
  predicate Truthy(s: Option<string>)
  {
    s.Some? && s.value != ""
  }

  /** The description both namers give: the result, when there is one. */
  function ResultDescription(result: Option<string>): Option<string>
  {
    if Truthy(result) then Some(ResultPrefix + result.value) else None
  }

  /** The opponent of a team in a row: the away side when the team's id is the home id, the home side otherwise. */
  function Opponent(teamId: int, r: QueryRow): string
  {
    if r.homeId == teamId then r.awayName else r.homeName
  }

  /** The title and description an `event_namer` gives a row. */
  function EventName(namer: Namer, r: QueryRow): (string, Option<string>)
  {
    match namer
    case LeagueNamer => (r.homeName + " vs " + r.awayName, ResultDescription(r.result))
    case TeamNamer(teamId, teamName) => (teamName + " vs " + Opponent(teamId, r), ResultDescription(r.result))
  }

  /** The event's location: the row's address, or the default one when it has none. */
  function Location(address: Option<string>): string
  {
    if Truthy(address) then address.value else DefaultLocation
  }

  /** The event `_build_ics` makes of one row; `toLocal` converts the stored UTC text to local time. */
  function EventOf<T>(namer: Namer, toLocal: string -> T, r: QueryRow): Event<T>
  {
    var (name, desc) := EventName(namer, r);
    Event(name, toLocal(r.dtUtc), 1, Location(r.address), desc)
  }

  /** A description is set exactly when the result is non-empty, and it gives the result back after its prefix. */
  lemma ResultDescriptionIff(result: Option<string>)
    ensures ResultDescription(result).Some? <==> result.Some? && result.value != ""
    ensures ResultDescription(result).Some? ==>
      var d := ResultDescription(result).value;
      |d| >= |ResultPrefix| && d[..|ResultPrefix|] == ResultPrefix && d[|ResultPrefix|..] == result.value
  {
    if Truthy(result) {
      var d := ResultPrefix + result.value;
      assert d[..|ResultPrefix|] == ResultPrefix;
      assert d[|ResultPrefix|..] == result.value;
    }
  }

  /**
    A team event is titled "{team} vs {opponent}": the away side when the
    team plays at home, and the home side when only the away id is the
    team's. Team and opponent can be read back from the title.
   */
  lemma TeamTitle(teamId: int, teamName: string, r: QueryRow)
    ensures var name := EventName(TeamNamer(teamId, teamName), r).0;
      && |name| == |teamName| + 4 + |Opponent(teamId, r)|
      && name[..|teamName|] == teamName
      && name[|teamName|..|teamName| + 4] == " vs "
      && name[|teamName| + 4..] == Opponent(teamId, r)
    ensures r.homeId == teamId ==> Opponent(teamId, r) == r.awayName
    ensures r.homeId != teamId && r.awayId == teamId ==> Opponent(teamId, r) == r.homeName
  {
    var name := EventName(TeamNamer(teamId, teamName), r).0;
    assert name == teamName + " vs " + Opponent(teamId, r);
    assert name[..|teamName|] == teamName;
    assert name[|teamName|..|teamName| + 4] == " vs ";
    assert name[|teamName| + 4..] == Opponent(teamId, r);
  }

  /** A league event is titled "{home} vs {away}", whichever team it is about. */
  lemma LeagueTitle(r: QueryRow)
    ensures var name := EventName(LeagueNamer, r).0;
      && name[..|r.homeName|] == r.homeName
      && name[|r.homeName|..|r.homeName| + 4] == " vs "
      && name[|r.homeName| + 4..] == r.awayName
  {
    var name := EventName(LeagueNamer, r).0;
    assert name == r.homeName + " vs " + r.awayName;
    assert name[..|r.homeName|] == r.homeName;
    assert name[|r.homeName|..|r.homeName| + 4] == " vs ";
  }

  /**
    In one team's calendar two rows get the same title exactly when they
    have the same opponent, so the titles tell the opponents apart.
   */
  lemma TeamTitlesDistinct(teamId: int, teamName: string, r1: QueryRow, r2: QueryRow)
    ensures EventName(TeamNamer(teamId, teamName), r1).0 == EventName(TeamNamer(teamId, teamName), r2).0
        <==> Opponent(teamId, r1) == Opponent(teamId, r2)
  {
    TeamTitle(teamId, teamName, r1);
    TeamTitle(teamId, teamName, r2);
  }

  /**
    A league title cannot be split back into its two sides, because a team
    name may itself contain " vs ": two different pairings share a title.
   */
  lemma LeagueTitleAmbiguous()
    ensures exists r1: QueryRow, r2: QueryRow :: r1.homeName != r2.homeName && EventName(LeagueNamer, r1).0 == EventName(LeagueNamer, r2).0
  {
    var r1 := QueryRow(1, 1, "A vs B", 2, "C", "", None, None);
    var r2 := QueryRow(1, 1, "A", 2, "B vs C", "", None, None);
    assert EventName(LeagueNamer, r1).0 == "A vs B vs C" == EventName(LeagueNamer, r2).0;
  }

  /** Every event lasts one hour and has a non-empty location; its description follows the result. */
  lemma EventFields<T>(namer: Namer, toLocal: string -> T, r: QueryRow)
    ensures var e := EventOf(namer, toLocal, r);
      && e.hours == 1 && e.begin == toLocal(r.dtUtc) && e.location != ""
      && (e.description.Some? <==> Truthy(r.result))
      && (Truthy(r.address) ==> e.location == r.address.value)
  {
    AddressNeverEmpty(None);
  }

  /**
    The loop of `_build_ics`: no calendar when the query returned no row,
    otherwise one event per row, in the rows' order.
   */
  method BuildIcs<T>(rows: seq<QueryRow>, creator: string, namer: Namer, toLocal: string -> T) returns (ics: Option<Ics<T>>)
    ensures rows == [] <==> ics.None?
    ensures ics.Some? ==>
      && ics.value.creator == creator
      && |ics.value.events| == |rows|
      && forall i :: 0 <= i < |rows| ==> ics.value.events[i] == EventOf(namer, toLocal, rows[i])
  {
    if rows == [] {
      return None;
    }
    var events: seq<Event<T>> := [];
    var i := 0;
    while i < |rows|
      invariant 0 <= i <= |rows|
      invariant |events| == i
      invariant forall j :: 0 <= j < i ==> events[j] == EventOf(namer, toLocal, rows[j])
    {
      var (name, desc) := EventName(namer, rows[i]);
      var location := if Truthy(rows[i].address) then rows[i].address.value else DefaultLocation;
      events := events + [Event(name, toLocal(rows[i].dtUtc), 1, location, desc)];
      i := i + 1;
    }
    ics := Some(Ics(creator, events));
  }

  /** The creator line of a team's calendar. */
  function TeamCreator(teamName: string): string
  {
    "-//Fixtures for team " + teamName + "//EN"
  }

  /**
    `build_team_ics`: the team is looked up by slug (no calendar when no row
    has it), then the rows of its fixtures are named after it.
   */
  method BuildTeamIcs<T>(t: Tables, teamSlug: string, rows: seq<QueryRow>, toLocal: string -> T) returns (ics: Option<Ics<T>>)
    ensures teamSlug !in t.teams ==> ics.None?
    ensures teamSlug in t.teams ==>
      var team := t.teams[teamSlug];
      && (ics.None? <==> rows == [])
      && (ics.Some? ==>
            && ics.value.creator == TeamCreator(team.name)
            && |ics.value.events| == |rows|
            && forall i :: 0 <= i < |rows| ==> ics.value.events[i] == EventOf(TeamNamer(team.id, team.name), toLocal, rows[i]))
  {
    if teamSlug !in t.teams {
      return None;
    }
    var team := t.teams[teamSlug];
    ics := BuildIcs(rows, TeamCreator(team.name), TeamNamer(team.id, team.name), toLocal);
  }

  /** The creator line of a league's calendar, from its group's name and its slug. */
  function LeagueCreator(groupName: string, leagueSlug: string): string
  {
    "-//Fixtures for " + groupName + " → " + leagueSlug + "//EN"
  }

  /**
    `build_league_ics`: the league is looked up by slug and joined with its
    group (no calendar when either is missing), then its rows are named
    "{home} vs {away}".
   */
  method BuildLeagueIcs<T>(t: Tables, leagueSlug: string, rows: seq<QueryRow>, toLocal: string -> T) returns (ics: Option<Ics<T>>)
    ensures leagueSlug !in t.leagues || !HasGroupId(t.groups, t.leagues[leagueSlug].groupId) ==> ics.None?
    ensures leagueSlug in t.leagues && HasGroupId(t.groups, t.leagues[leagueSlug].groupId) ==>
      && (ics.None? <==> rows == [])
      && (ics.Some? ==>
            && (exists s :: s in t.groups && t.groups[s].id == t.leagues[leagueSlug].groupId
                  && ics.value.creator == LeagueCreator(t.groups[s].name, leagueSlug))
            && |ics.value.events| == |rows|
            && forall i :: 0 <= i < |rows| ==> ics.value.events[i] == EventOf(LeagueNamer, toLocal, rows[i]))
  {
    if leagueSlug !in t.leagues {
      return None;
    }
    var groupId := t.leagues[leagueSlug].groupId;
    if !HasGroupId(t.groups, groupId) {
      return None;
    }
    var s :| s in t.groups && t.groups[s].id == groupId;
    ics := BuildIcs(rows, LeagueCreator(t.groups[s].name, leagueSlug), LeagueNamer, toLocal);
  }
}
