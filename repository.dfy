/**
  The SQLite repository of generate_ics_bulk.py: the five tables of
  `init_db`, the get-or-create operations and `insert_fixture`.
  Each table is a map keyed by the column its lookups use (a slug or a
  URL, or the fixture's UNIQUE tuple); ids come from AUTOINCREMENT counters,
  which an ignored INSERT OR IGNORE advances too.
 */
module Repository {
  import opened Wrappers
  import opened Slug
  import opened Extract

  datatype GroupRow = GroupRow(id: int, name: string)
  datatype LeagueRow = LeagueRow(id: int, groupId: int, name: string, url: string)
  datatype VenueRow = VenueRow(id: int, name: string, address: string)
  datatype TeamRow = TeamRow(id: int, name: string)
  datatype FixtureKey = FixtureKey(leagueId: int, homeId: int, awayId: int, dtUtc: string)
  datatype FixtureRow = FixtureRow(id: int, venueId: Option<int>, result: Option<string>)

  /** The contents of the database file: five tables and their AUTOINCREMENT counters. */
  datatype Tables = Tables(
    groups: map<string, GroupRow>,         // league_group, by slug
    leagues: map<string, LeagueRow>,       // league, by slug
    venues: map<string, VenueRow>,         // venue, by url
    teams: map<string, TeamRow>,           // team, by slug
    fixtures: map<FixtureKey, FixtureRow>, // fixture, by UNIQUE(league_id, home_team_id, away_team_id, dt_utc)
    nextGroupId: int, nextLeagueId: int, nextVenueId: int, nextTeamId: int, nextFixtureId: int)

  predicate HasGroupId(groups: map<string, GroupRow>, id: int)
  {
    exists s :: s in groups && groups[s].id == id
  }

  predicate HasLeagueId(leagues: map<string, LeagueRow>, id: int)
  {
    exists s :: s in leagues && leagues[s].id == id
  }

  predicate HasVenueId(venues: map<string, VenueRow>, id: int)
  {
    exists u :: u in venues && venues[u].id == id
  }

  predicate HasTeamId(teams: map<string, TeamRow>, id: int)
  {
    exists s :: s in teams && teams[s].id == id
  }

  /** Whether some league row already uses `url` (the UNIQUE constraint on `league.url`). */
  predicate UrlTaken(leagues: map<string, LeagueRow>, url: string)
  {
    exists s :: s in leagues && leagues[s].url == url
  }

  /** Primary keys are below their counter and distinct. */
  ghost predicate KeysFresh(t: Tables)
  {
    && (forall s :: s in t.groups ==> t.groups[s].id < t.nextGroupId)
    && (forall s :: s in t.leagues ==> t.leagues[s].id < t.nextLeagueId)
    && (forall u :: u in t.venues ==> t.venues[u].id < t.nextVenueId)
    && (forall s :: s in t.teams ==> t.teams[s].id < t.nextTeamId)
    && (forall k :: k in t.fixtures ==> t.fixtures[k].id < t.nextFixtureId)
  }

  ghost predicate KeysDistinct(t: Tables)
  {
    && (forall s, s' :: s in t.groups && s' in t.groups && s != s' ==> t.groups[s].id != t.groups[s'].id)
    && (forall s, s' :: s in t.leagues && s' in t.leagues && s != s' ==> t.leagues[s].id != t.leagues[s'].id)
    && (forall u, u' :: u in t.venues && u' in t.venues && u != u' ==> t.venues[u].id != t.venues[u'].id)
    && (forall s, s' :: s in t.teams && s' in t.teams && s != s' ==> t.teams[s].id != t.teams[s'].id)
    && (forall k, k' :: k in t.fixtures && k' in t.fixtures && k != k' ==> t.fixtures[k].id != t.fixtures[k'].id)
  }

  /** Every row of a slug-keyed table is stored under the slug of its name. */
  ghost predicate SlugsMatch(t: Tables)
  {
    && (forall s {:trigger Slugify(t.groups[s].name)} :: s in t.groups ==> Slugify(t.groups[s].name) == s)
    && (forall s {:trigger Slugify(t.leagues[s].name)} :: s in t.leagues ==> Slugify(t.leagues[s].name) == s)
    && (forall s {:trigger Slugify(t.teams[s].name)} :: s in t.teams ==> Slugify(t.teams[s].name) == s)
  }

  /** No two leagues share a URL. */
  ghost predicate LeagueUrlsDistinct(leagues: map<string, LeagueRow>)
  {
    forall s, s' :: s in leagues && s' in leagues && s != s' ==> leagues[s].url != leagues[s'].url
  }

  /** The UNIQUE columns: a name determines its slug, and league URLs differ. */
  ghost predicate UniqueColumns(t: Tables)
  {
    SlugsMatch(t) && LeagueUrlsDistinct(t.leagues)
  }

  /** The REFERENCES clauses, enforced because `PRAGMA foreign_keys = ON`. */
  ghost predicate ForeignKeys(t: Tables)
  {
    && (forall s :: s in t.leagues ==> HasGroupId(t.groups, t.leagues[s].groupId))
    && (forall k :: k in t.fixtures ==>
          && HasLeagueId(t.leagues, k.leagueId) && HasTeamId(t.teams, k.homeId) && HasTeamId(t.teams, k.awayId)
          && (t.fixtures[k].venueId.Some? ==> HasVenueId(t.venues, t.fixtures[k].venueId.value)))
  }

  ghost predicate TablesValid(t: Tables)
  {
    KeysFresh(t) && KeysDistinct(t) && UniqueColumns(t) && ForeignKeys(t)
  }

  /** `b` is `a` with rows added and nothing existing changed (the crawler never updates or deletes). */
  ghost predicate Extends(a: Tables, b: Tables)
  {
    && (forall s :: s in a.groups ==> s in b.groups && b.groups[s] == a.groups[s])
    && (forall s :: s in a.leagues ==> s in b.leagues && b.leagues[s] == a.leagues[s])
    && (forall u :: u in a.venues ==> u in b.venues && b.venues[u] == a.venues[u])
    && (forall s :: s in a.teams ==> s in b.teams && b.teams[s] == a.teams[s])
    && (forall k :: k in a.fixtures ==> k in b.fixtures && b.fixtures[k] == a.fixtures[k])
  }

  lemma ExtendsTransitive(a: Tables, b: Tables, c: Tables)
    requires Extends(a, b) && Extends(b, c)
    ensures Extends(a, c)
  {
  }

  /** An id that exists keeps existing as the tables grow. */
  lemma ExtendsKeepsIds(a: Tables, b: Tables)
    requires Extends(a, b)
    ensures forall id :: HasGroupId(a.groups, id) ==> HasGroupId(b.groups, id)
    ensures forall id :: HasLeagueId(a.leagues, id) ==> HasLeagueId(b.leagues, id)
    ensures forall id :: HasVenueId(a.venues, id) ==> HasVenueId(b.venues, id)
    ensures forall id :: HasTeamId(a.teams, id) ==> HasTeamId(b.teams, id)
  {
    forall id | HasGroupId(a.groups, id) ensures HasGroupId(b.groups, id) {
      var s :| s in a.groups && a.groups[s].id == id;
      assert s in b.groups && b.groups[s].id == id;
    }
    forall id | HasLeagueId(a.leagues, id) ensures HasLeagueId(b.leagues, id) {
      var s :| s in a.leagues && a.leagues[s].id == id;
      assert s in b.leagues && b.leagues[s].id == id;
    }
    forall id | HasVenueId(a.venues, id) ensures HasVenueId(b.venues, id) {
      var u :| u in a.venues && a.venues[u].id == id;
      assert u in b.venues && b.venues[u].id == id;
    }
    forall id | HasTeamId(a.teams, id) ensures HasTeamId(b.teams, id) {
      var s :| s in a.teams && a.teams[s].id == id;
      assert s in b.teams && b.teams[s].id == id;
    }
  }

  /** The tables after one row is added to `league_group`. */
  function AddGroup(t: Tables, slug: string, name: string): (u: Tables)
    ensures slug in u.groups && u.groups[slug].name == name
  {
    t.(groups := t.groups[slug := GroupRow(t.nextGroupId, name)], nextGroupId := t.nextGroupId + 1)
  }

  function AddTeam(t: Tables, slug: string, name: string): (u: Tables)
    ensures slug in u.teams && u.teams[slug].name == name
  {
    t.(teams := t.teams[slug := TeamRow(t.nextTeamId, name)], nextTeamId := t.nextTeamId + 1)
  }

  function AddLeague(t: Tables, slug: string, groupId: int, name: string, url: string): (u: Tables)
    ensures slug in u.leagues && u.leagues[slug].url == url
  {
    t.(leagues := t.leagues[slug := LeagueRow(t.nextLeagueId, groupId, name, url)], nextLeagueId := t.nextLeagueId + 1)
  }

  function AddVenue(t: Tables, url: string, name: string, address: string): (u: Tables)
    ensures url in u.venues
  {
    t.(venues := t.venues[url := VenueRow(t.nextVenueId, name, address)], nextVenueId := t.nextVenueId + 1)
  }

  function AddFixture(t: Tables, key: FixtureKey, venueId: Option<int>, result: Option<string>): (u: Tables)
    ensures key in u.fixtures
  {
    t.(fixtures := t.fixtures[key := FixtureRow(t.nextFixtureId, venueId, result)], nextFixtureId := t.nextFixtureId + 1)
  }

  /** The same rows in all five tables; only the AUTOINCREMENT counters may differ. */
  predicate SameRows(a: Tables, b: Tables)
  {
    a.groups == b.groups && a.leagues == b.leagues && a.venues == b.venues && a.teams == b.teams && a.fixtures == b.fixtures
  }

  /*
    An INSERT OR IGNORE that was ignored writes no row, but AUTOINCREMENT
    drew the table's next id for it before the UNIQUE check, and the
    statement succeeded, so that id is used up and never handed out.
   */

  function SkipGroupId(t: Tables): (u: Tables)
    ensures SameRows(t, u) && u.nextGroupId > t.nextGroupId
  {
    t.(nextGroupId := t.nextGroupId + 1)
  }

  function SkipLeagueId(t: Tables): (u: Tables)
    ensures SameRows(t, u) && u.nextLeagueId > t.nextLeagueId
  {
    t.(nextLeagueId := t.nextLeagueId + 1)
  }

  function SkipVenueId(t: Tables): (u: Tables)
    ensures SameRows(t, u) && u.nextVenueId > t.nextVenueId
  {
    t.(nextVenueId := t.nextVenueId + 1)
  }

  function SkipTeamId(t: Tables): (u: Tables)
    ensures SameRows(t, u) && u.nextTeamId > t.nextTeamId
  {
    t.(nextTeamId := t.nextTeamId + 1)
  }

  /*
    Each way of adding a row keeps the tables valid and only grows them.
    The proof goes conjunct by conjunct, each step assuming only the part
    of the invariant it needs, so that the slug equations stay out of the
    way of the id reasoning.
   */

  lemma AddGroupKeys(t: Tables, slug: string, name: string)
    requires KeysFresh(t) && KeysDistinct(t) && slug !in t.groups
    ensures KeysFresh(AddGroup(t, slug, name)) && KeysDistinct(AddGroup(t, slug, name))
  {
  }

  lemma AddGroupSlugs(t: Tables, slug: string, name: string)
    requires SlugsMatch(t) && slug !in t.groups && slug == Slugify(name)
    ensures SlugsMatch(AddGroup(t, slug, name))
  {
    var u := AddGroup(t, slug, name);
    forall s | s in u.groups ensures Slugify(u.groups[s].name) == s {
      if s != slug { assert u.groups[s] == t.groups[s]; }
    }
  }

  lemma AddGroupGrows(t: Tables, slug: string, name: string)
    requires slug !in t.groups
    ensures Extends(t, AddGroup(t, slug, name))
  {
    var u := AddGroup(t, slug, name);
    assert Extends(t, u);
  }

  lemma AddGroupRefs(t: Tables, slug: string, name: string)
    requires ForeignKeys(t) && slug !in t.groups
    ensures ForeignKeys(AddGroup(t, slug, name))
  {
    AddGroupGrows(t, slug, name);
    ExtendsKeepsIds(t, AddGroup(t, slug, name));
  }

  /** A group with a fresh slug keeps the tables valid. */
  lemma AddGroupValid(t: Tables, slug: string, name: string)
    requires TablesValid(t) && slug !in t.groups && slug == Slugify(name)
    ensures TablesValid(AddGroup(t, slug, name)) && Extends(t, AddGroup(t, slug, name))
  {
    AddGroupKeys(t, slug, name);
    AddGroupSlugs(t, slug, name);
    AddGroupRefs(t, slug, name);
    AddGroupGrows(t, slug, name);
  }

  lemma AddTeamKeys(t: Tables, slug: string, name: string)
    requires KeysFresh(t) && KeysDistinct(t) && slug !in t.teams
    ensures KeysFresh(AddTeam(t, slug, name)) && KeysDistinct(AddTeam(t, slug, name))
  {
  }

  lemma AddTeamSlugs(t: Tables, slug: string, name: string)
    requires SlugsMatch(t) && slug !in t.teams && slug == Slugify(name)
    ensures SlugsMatch(AddTeam(t, slug, name))
  {
    var u := AddTeam(t, slug, name);
    forall s | s in u.teams ensures Slugify(u.teams[s].name) == s {
      if s != slug { assert u.teams[s] == t.teams[s]; }
    }
  }

  lemma AddTeamGrows(t: Tables, slug: string, name: string)
    requires slug !in t.teams
    ensures Extends(t, AddTeam(t, slug, name))
  {
    var u := AddTeam(t, slug, name);
    assert Extends(t, u);
  }

  lemma AddTeamRefs(t: Tables, slug: string, name: string)
    requires ForeignKeys(t) && slug !in t.teams
    ensures ForeignKeys(AddTeam(t, slug, name))
  {
    AddTeamGrows(t, slug, name);
    ExtendsKeepsIds(t, AddTeam(t, slug, name));
  }

  /** A team with a fresh slug keeps the tables valid. */
  lemma AddTeamValid(t: Tables, slug: string, name: string)
    requires TablesValid(t) && slug !in t.teams && slug == Slugify(name)
    ensures TablesValid(AddTeam(t, slug, name)) && Extends(t, AddTeam(t, slug, name))
  {
    AddTeamKeys(t, slug, name);
    AddTeamSlugs(t, slug, name);
    AddTeamRefs(t, slug, name);
    AddTeamGrows(t, slug, name);
  }

  lemma AddLeagueKeys(t: Tables, slug: string, groupId: int, name: string, url: string)
    requires KeysFresh(t) && KeysDistinct(t) && slug !in t.leagues
    ensures KeysFresh(AddLeague(t, slug, groupId, name, url)) && KeysDistinct(AddLeague(t, slug, groupId, name, url))
  {
  }

  lemma AddLeagueSlugs(t: Tables, slug: string, groupId: int, name: string, url: string)
    requires SlugsMatch(t) && slug !in t.leagues && slug == Slugify(name)
    ensures SlugsMatch(AddLeague(t, slug, groupId, name, url))
  {
    var u := AddLeague(t, slug, groupId, name, url);
    forall s | s in u.leagues ensures Slugify(u.leagues[s].name) == s {
      if s != slug { assert u.leagues[s] == t.leagues[s]; }
    }
  }

  lemma AddLeagueUrls(leagues: map<string, LeagueRow>, slug: string, row: LeagueRow)
    requires LeagueUrlsDistinct(leagues) && slug !in leagues && !UrlTaken(leagues, row.url)
    ensures LeagueUrlsDistinct(leagues[slug := row])
  {
  }

  lemma AddLeagueGrows(t: Tables, slug: string, groupId: int, name: string, url: string)
    requires slug !in t.leagues
    ensures Extends(t, AddLeague(t, slug, groupId, name, url))
  {
    var u := AddLeague(t, slug, groupId, name, url);
    assert Extends(t, u);
  }

  lemma AddLeagueRefs(t: Tables, slug: string, groupId: int, name: string, url: string)
    requires ForeignKeys(t) && slug !in t.leagues && HasGroupId(t.groups, groupId)
    ensures ForeignKeys(AddLeague(t, slug, groupId, name, url))
  {
    AddLeagueGrows(t, slug, groupId, name, url);
    ExtendsKeepsIds(t, AddLeague(t, slug, groupId, name, url));
  }

  /** A league with a fresh slug and url and an existing group keeps the tables valid. */
  lemma AddLeagueValid(t: Tables, slug: string, groupId: int, name: string, url: string)
    requires TablesValid(t) && slug !in t.leagues && !UrlTaken(t.leagues, url) && slug == Slugify(name) && HasGroupId(t.groups, groupId)
    ensures TablesValid(AddLeague(t, slug, groupId, name, url)) && Extends(t, AddLeague(t, slug, groupId, name, url))
  {
    AddLeagueKeys(t, slug, groupId, name, url);
    AddLeagueSlugs(t, slug, groupId, name, url);
    AddLeagueUrls(t.leagues, slug, LeagueRow(t.nextLeagueId, groupId, name, url));
    AddLeagueRefs(t, slug, groupId, name, url);
    AddLeagueGrows(t, slug, groupId, name, url);
  }

  lemma AddVenueKeys(t: Tables, url: string, name: string, address: string)
    requires KeysFresh(t) && KeysDistinct(t) && url !in t.venues
    ensures KeysFresh(AddVenue(t, url, name, address)) && KeysDistinct(AddVenue(t, url, name, address))
  {
  }

  lemma AddVenueGrows(t: Tables, url: string, name: string, address: string)
    requires url !in t.venues
    ensures Extends(t, AddVenue(t, url, name, address))
  {
    var u := AddVenue(t, url, name, address);
    assert Extends(t, u);
  }

  lemma AddVenueRefs(t: Tables, url: string, name: string, address: string)
    requires ForeignKeys(t) && url !in t.venues
    ensures ForeignKeys(AddVenue(t, url, name, address))
  {
    AddVenueGrows(t, url, name, address);
    ExtendsKeepsIds(t, AddVenue(t, url, name, address));
  }

  /** A venue with a fresh url keeps the tables valid. */
  lemma AddVenueValid(t: Tables, url: string, name: string, address: string)
    requires TablesValid(t) && url !in t.venues
    ensures TablesValid(AddVenue(t, url, name, address)) && Extends(t, AddVenue(t, url, name, address))
  {
    AddVenueKeys(t, url, name, address);
    AddVenueRefs(t, url, name, address);
    AddVenueGrows(t, url, name, address);
    var u := AddVenue(t, url, name, address);
    assert u.groups == t.groups && u.leagues == t.leagues && u.teams == t.teams;
  }

  lemma AddFixtureKeys(t: Tables, key: FixtureKey, venueId: Option<int>, result: Option<string>)
    requires KeysFresh(t) && KeysDistinct(t) && key !in t.fixtures
    ensures KeysFresh(AddFixture(t, key, venueId, result)) && KeysDistinct(AddFixture(t, key, venueId, result))
  {
  }

  lemma AddFixtureGrows(t: Tables, key: FixtureKey, venueId: Option<int>, result: Option<string>)
    requires key !in t.fixtures
    ensures Extends(t, AddFixture(t, key, venueId, result))
  {
    var u := AddFixture(t, key, venueId, result);
    assert u.groups == t.groups && u.leagues == t.leagues && u.teams == t.teams && u.venues == t.venues;
  }

  lemma AddFixtureRefs(t: Tables, key: FixtureKey, venueId: Option<int>, result: Option<string>)
    requires ForeignKeys(t) && key !in t.fixtures
    requires HasLeagueId(t.leagues, key.leagueId) && HasTeamId(t.teams, key.homeId) && HasTeamId(t.teams, key.awayId)
    requires venueId.Some? ==> HasVenueId(t.venues, venueId.value)
    ensures ForeignKeys(AddFixture(t, key, venueId, result))
  {
    var u := AddFixture(t, key, venueId, result);
    assert u.groups == t.groups && u.leagues == t.leagues && u.teams == t.teams && u.venues == t.venues;
  }

  /** A fixture whose key is new and whose references exist keeps the tables valid. */
  lemma AddFixtureValid(t: Tables, key: FixtureKey, venueId: Option<int>, result: Option<string>)
    requires TablesValid(t) && key !in t.fixtures
    requires HasLeagueId(t.leagues, key.leagueId) && HasTeamId(t.teams, key.homeId) && HasTeamId(t.teams, key.awayId)
    requires venueId.Some? ==> HasVenueId(t.venues, venueId.value)
    ensures TablesValid(AddFixture(t, key, venueId, result)) && Extends(t, AddFixture(t, key, venueId, result))
  {
    AddFixtureKeys(t, key, venueId, result);
    AddFixtureRefs(t, key, venueId, result);
    AddFixtureGrows(t, key, venueId, result);
    var u := AddFixture(t, key, venueId, result);
    assert u.groups == t.groups && u.leagues == t.leagues && u.teams == t.teams;
  }

  datatype LeagueError =
    | ForeignKeyViolation  // the INSERT raises IntegrityError: no league_group row has this id
    | NoRowForSlug         // the INSERT was ignored because of the url, and `fetchone()[0]` raises TypeError

  /** An open connection to the database file. */
  class Database {
    var tables: Tables

    /**
      The UNIQUE columns, which the SELECT after each INSERT OR IGNORE
      relies on. The rest of the schema's constraints, `TablesValid`, is
      kept by every write too (the last `ensures` of each method).
     */
    ghost predicate Valid()
      reads this
    {
      UniqueColumns(tables)
    }

    /** `init_db` on a fresh file: five empty tables. */
    constructor ()
      ensures Valid() && TablesValid(tables)
      ensures tables.groups == map[] && tables.leagues == map[] && tables.venues == map[]
      ensures tables.teams == map[] && tables.fixtures == map[]
    {
      tables := Tables(map[], map[], map[], map[], map[], 1, 1, 1, 1, 1);
    }

    /**
      `get_or_create_league_group`: INSERT OR IGNORE (name and slug are UNIQUE),
      then SELECT the id by slug. An ignored insert still uses up an id.
     */
    method GetOrCreateLeagueGroup(name: string) returns (id: int)
      requires Valid()
      modifies this
      ensures Valid() && Extends(old(tables), tables)
      ensures TablesValid(old(tables)) ==> TablesValid(tables)
      ensures Slugify(name) in tables.groups && id == tables.groups[Slugify(name)].id
      ensures Slugify(name) in old(tables.groups) ==> tables == SkipGroupId(old(tables))
      ensures Slugify(name) !in old(tables.groups) ==>
        tables == AddGroup(old(tables), Slugify(name), name) && id == old(tables.nextGroupId)
    {
      var slug := Slugify(name);
      var conflict := slug in tables.groups || exists s :: s in tables.groups && tables.groups[s].name == name;
      if conflict {
        tables := SkipGroupId(tables);
      } else {
        AddGroupSlugs(tables, slug, name);
        AddGroupGrows(tables, slug, name);
        if TablesValid(tables) {
          AddGroupValid(tables, slug, name);
        }
        tables := AddGroup(tables, slug, name);
      }
      id := tables.groups[slug].id;
    }

    /** `get_or_create_team`: the same as for groups, on the team table. */
    method GetOrCreateTeam(name: string) returns (id: int)
      requires Valid()
      modifies this
      ensures Valid() && Extends(old(tables), tables)
      ensures TablesValid(old(tables)) ==> TablesValid(tables)
      ensures Slugify(name) in tables.teams && id == tables.teams[Slugify(name)].id
      ensures Slugify(name) in old(tables.teams) ==> tables == SkipTeamId(old(tables))
      ensures Slugify(name) !in old(tables.teams) ==>
        tables == AddTeam(old(tables), Slugify(name), name) && id == old(tables.nextTeamId)
    {
      var slug := Slugify(name);
      var conflict := slug in tables.teams || exists s :: s in tables.teams && tables.teams[s].name == name;
      if conflict {
        tables := SkipTeamId(tables);
      } else {
        AddTeamSlugs(tables, slug, name);
        AddTeamGrows(tables, slug, name);
        if TablesValid(tables) {
          AddTeamValid(tables, slug, name);
        }
        tables := AddTeam(tables, slug, name);
      }
      id := tables.teams[slug].id;
    }

    /**
      `get_or_create_league`: INSERT OR IGNORE (url and slug are UNIQUE), then
      SELECT the id by slug. When the insert was ignored because another
      league has the url, no row has the slug and the source raises. An
      ignored insert uses up an id; one that breaks the foreign key does not,
      since the failing statement is rolled back.
     */
    method GetOrCreateLeague(groupId: int, name: string, url: string) returns (r: Result<int, LeagueError>)
      requires Valid()
      modifies this
      ensures Valid() && Extends(old(tables), tables)
      ensures TablesValid(old(tables)) ==> TablesValid(tables)
      ensures r.Ok? <==> Slugify(name) in tables.leagues
      ensures r.Ok? ==> r.value == tables.leagues[Slugify(name)].id
      ensures Slugify(name) in old(tables.leagues) ==> r.Ok? && tables == SkipLeagueId(old(tables))
      ensures Slugify(name) !in old(tables.leagues) && UrlTaken(old(tables.leagues), url) ==>
        r == Err(NoRowForSlug) && tables == SkipLeagueId(old(tables))
      ensures Slugify(name) !in old(tables.leagues) && !UrlTaken(old(tables.leagues), url) && !HasGroupId(old(tables.groups), groupId) ==>
        r == Err(ForeignKeyViolation) && tables == old(tables)
      ensures Slugify(name) !in old(tables.leagues) && !UrlTaken(old(tables.leagues), url) && HasGroupId(old(tables.groups), groupId) ==>
        r == Ok(old(tables.nextLeagueId)) && tables == AddLeague(old(tables), Slugify(name), groupId, name, url)
    {
      var slug := Slugify(name);
      var conflict := slug in tables.leagues || UrlTaken(tables.leagues, url);
      if conflict {
        tables := SkipLeagueId(tables);
      } else {
        if !HasGroupId(tables.groups, groupId) {
          return Err(ForeignKeyViolation);
        }
        AddLeagueSlugs(tables, slug, groupId, name, url);
        AddLeagueUrls(tables.leagues, slug, LeagueRow(tables.nextLeagueId, groupId, name, url));
        AddLeagueGrows(tables, slug, groupId, name, url);
        if TablesValid(tables) {
          AddLeagueValid(tables, slug, groupId, name, url);
        }
        tables := AddLeague(tables, slug, groupId, name, url);
      }
      if slug in tables.leagues {
        r := Ok(tables.leagues[slug].id);
      } else {
        r := Err(NoRowForSlug);
      }
    }

    /**
      `get_or_create_league` as evidently intended: the same INSERT OR IGNORE,
      then the id of the row holding the slug or, when there is none, of the
      row holding the URL. It raises only when the group id has no row.
     */
    method GetOrCreateLeagueByUrl(groupId: int, name: string, url: string) returns (r: Result<int, LeagueError>)
      requires Valid()
      modifies this
      ensures Valid() && Extends(old(tables), tables)
      ensures TablesValid(old(tables)) ==> TablesValid(tables)
      ensures r.Err? <==>
        Slugify(name) !in old(tables.leagues) && !UrlTaken(old(tables.leagues), url) && !HasGroupId(old(tables.groups), groupId)
      ensures r.Err? ==> r == Err(ForeignKeyViolation) && tables == old(tables)
      ensures Slugify(name) in old(tables.leagues) ==> r == Ok(old(tables.leagues)[Slugify(name)].id) && tables == SkipLeagueId(old(tables))
      ensures Slugify(name) !in old(tables.leagues) && UrlTaken(old(tables.leagues), url) ==>
        && tables == SkipLeagueId(old(tables))
        && exists s :: s in tables.leagues && tables.leagues[s].url == url && r == Ok(tables.leagues[s].id)
      ensures Slugify(name) !in old(tables.leagues) && !UrlTaken(old(tables.leagues), url) && HasGroupId(old(tables.groups), groupId) ==>
        r == Ok(old(tables.nextLeagueId)) && tables == AddLeague(old(tables), Slugify(name), groupId, name, url)
    {
      var slug := Slugify(name);
      var conflict := slug in tables.leagues || UrlTaken(tables.leagues, url);
      if conflict {
        tables := SkipLeagueId(tables);
      } else {
        if !HasGroupId(tables.groups, groupId) {
          return Err(ForeignKeyViolation);
        }
        AddLeagueSlugs(tables, slug, groupId, name, url);
        AddLeagueUrls(tables.leagues, slug, LeagueRow(tables.nextLeagueId, groupId, name, url));
        AddLeagueGrows(tables, slug, groupId, name, url);
        if TablesValid(tables) {
          AddLeagueValid(tables, slug, groupId, name, url);
        }
        tables := AddLeague(tables, slug, groupId, name, url);
      }
      if slug in tables.leagues {
        r := Ok(tables.leagues[slug].id);
      } else {
        var s :| s in tables.leagues && tables.leagues[s].url == url;
        r := Ok(tables.leagues[s].id);
      }
    }

    /**
      `get_or_create_venue`: no row and no id for a venue without a URL;
      otherwise INSERT OR IGNORE by url, then SELECT the id by url. An
      ignored insert still uses up an id.
     */
    method GetOrCreateVenue(venue: VenueRecord) returns (id: Option<int>)
      requires Valid()
      modifies this
      ensures Valid() && Extends(old(tables), tables)
      ensures TablesValid(old(tables)) ==> TablesValid(tables)
      ensures (venue.url.None? || venue.url.value == "") ==> id == None && tables == old(tables)
      ensures venue.url.Some? && venue.url.value != "" ==>
        && venue.url.value in tables.venues && id == Some(tables.venues[venue.url.value].id)
        && (venue.url.value in old(tables.venues) ==> tables == SkipVenueId(old(tables)))
        && (venue.url.value !in old(tables.venues) ==>
              tables == AddVenue(old(tables), venue.url.value, venue.name, venue.address))
    {
      if venue.url.None? || venue.url.value == "" {
        return None;
      }
      var url := venue.url.value;
      if url in tables.venues {
        tables := SkipVenueId(tables);
      } else {
        AddVenueGrows(tables, url, venue.name, venue.address);
        if TablesValid(tables) {
          AddVenueValid(tables, url, venue.name, venue.address);
        }
        tables := AddVenue(tables, url, venue.name, venue.address);
      }
      id := Some(tables.venues[url].id);
    }

    /**
      `insert_fixture`: a plain INSERT. Any IntegrityError, from the UNIQUE
      tuple or from a foreign key, is turned into `None`.
     */
    method InsertFixture(leagueId: int, venueId: Option<int>, homeId: int, awayId: int, dtUtc: string, result: Option<string>)
      returns (id: Option<int>)
      requires Valid()
      modifies this
      ensures Valid() && Extends(old(tables), tables)
      ensures TablesValid(old(tables)) ==> TablesValid(tables)
      ensures id.Some? <==>
        && FixtureKey(leagueId, homeId, awayId, dtUtc) !in old(tables.fixtures)
        && HasLeagueId(old(tables.leagues), leagueId)
        && HasTeamId(old(tables.teams), homeId) && HasTeamId(old(tables.teams), awayId)
        && (venueId.Some? ==> HasVenueId(old(tables.venues), venueId.value))
      ensures id.None? ==> tables == old(tables)
      ensures id.Some? ==>
        && id.value == old(tables.nextFixtureId)
        && tables == AddFixture(old(tables), FixtureKey(leagueId, homeId, awayId, dtUtc), venueId, result)
    {
      var key := FixtureKey(leagueId, homeId, awayId, dtUtc);
      if key in tables.fixtures
        || !HasLeagueId(tables.leagues, leagueId)
        || !HasTeamId(tables.teams, homeId) || !HasTeamId(tables.teams, awayId)
        || (venueId.Some? && !HasVenueId(tables.venues, venueId.value))
      {
        return None;
      }
      AddFixtureGrows(tables, key, venueId, result);
      if TablesValid(tables) {
        AddFixtureValid(tables, key, venueId, result);
      }
      id := Some(tables.nextFixtureId);
      tables := AddFixture(tables, key, venueId, result);
    }
  }

  /** Two names with the same slug resolve to one team, and the table gains at most one row. */
  method SameSlugSameTeam(db: Database, a: string, b: string) returns (idA: int, idB: int)
    requires db.Valid() && Slugify(a) == Slugify(b)
    modifies db
    ensures db.Valid()
    ensures idA == idB
    ensures Slugify(a) in db.tables.teams && |db.tables.teams| <= |old(db.tables.teams)| + 1
  {
    idA := db.GetOrCreateTeam(a);
    idB := db.GetOrCreateTeam(b);
  }

  /** A fixture inserted twice is stored once; the second insert changes nothing, its result included. */
  method FixtureStoredOnce(db: Database, leagueId: int, venueId: Option<int>, homeId: int, awayId: int, dtUtc: string,
                           first: Option<string>, second: Option<string>)
    returns (idFirst: Option<int>, idSecond: Option<int>)
    requires db.Valid()
    modifies db
    ensures db.Valid()
    ensures idSecond == None
    ensures |db.tables.fixtures| <= |old(db.tables.fixtures)| + 1
    ensures idFirst.Some? ==>
      var key := FixtureKey(leagueId, homeId, awayId, dtUtc);
      key in db.tables.fixtures && db.tables.fixtures[key].result == first
    ensures idFirst.None? ==> db.tables == old(db.tables)
  {
    idFirst := db.InsertFixture(leagueId, venueId, homeId, awayId, dtUtc, first);
    ghost var between := db.tables;
    idSecond := db.InsertFixture(leagueId, venueId, homeId, awayId, dtUtc, second);
    assert db.tables == between;
  }
}
