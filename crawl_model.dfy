/**
  `crawl_and_populate_db` of generate_ics_bulk.py, as functions: the
  tables and the venue cache after each step of the crawl, computed from
  the tables and the cache before it. The methods of module `Crawl` are
  proved to leave exactly these states; module `CrawlFacts` proves what
  the states contain.

  The site is a value: for every URL, the reply to each attempt.
 */
module CrawlModel {
  import opened Wrappers
  import opened Slug
  import opened Http
  import opened VenueCache
  import opened Extract
  import opened Repository

  /** The site during one crawl: each page's reply to each attempt, keyed by relative URL. */
  datatype Site = Site(
    finder: nat -> Outcome<FinderPage>,
    groupPage: string -> nat -> Outcome<seq<LeagueHeading>>,
    leaguePage: string -> nat -> Outcome<LeaguePage>,
    venuePage: string -> nat -> Outcome<VenuePage>)

  /** What `fetch_league_names_and_urls` returns for this site. */
  function GroupsOf(site: Site): seq<GroupLink>
  {
    var page := Fetch(site.finder);
    if page.Some? && page.value.Dropdown? then KeptOptions(page.value.options) else []
  }

  /** What `parse_league_group` returns for one group. */
  function LeaguesOf(site: Site, group: GroupLink): seq<LeagueLink>
  {
    match Fetch(site.groupPage(group.url))
    case None => []
    case Some(headings) => ParsedLeagues(headings)
  }

  /** The fixture list `extract_fixtures_from_league` returns for one league. */
  function FixturesOf(site: Site, league: LeagueLink): seq<FixtureRecord>
  {
    match Fetch(site.leaguePage(league.url))
    case None => []
    case Some(page) => PageFixtures(page)
  }

  /** The venue URL `extract_fixtures_from_league` finds for one league, if any. */
  function VenueUrlOf(site: Site, league: LeagueLink): Option<string>
  {
    match Fetch(site.leaguePage(league.url))
    case None => None
    case Some(page) =>
      match FirstVenueLink(page.links)
      case None => None
      case Some(link) => Some(link.href)
  }

  /** The groups a crawl visits: all of them, or a Python slice `[:limit]` when `limit` is truthy. */
  function ApplyLimit<T>(xs: seq<T>, limit: Option<int>): (r: seq<T>)
    ensures |r| <= |xs| && r == xs[..|r|]
    ensures limit.None? || limit.value == 0 ==> r == xs
    ensures limit.Some? && limit.value > 0 ==> |r| == (if limit.value < |xs| then limit.value else |xs|)
    ensures limit.Some? && limit.value < 0 ==> |r| == (if -limit.value < |xs| then |xs| + limit.value else 0)
  {
    if limit.None? || limit.value == 0 then xs
    else if limit.value > 0 then (if limit.value < |xs| then xs[..limit.value] else xs)
    else if -limit.value < |xs| then xs[..|xs| + limit.value]
    else []
  }

  /** What one run changes: the database tables and the process-wide venue cache. */
  datatype State = State(tables: Tables, cache: map<string, string>)

  // ---------------------------------------------------------------- one fixture

  /** The tables after `get_or_create_team(name)`. */
  function WithTeam(slug: string -> string, t: Tables, name: string): Tables
  {
    if slug(name) in t.teams then SkipTeamId(t) else AddTeam(t, slug(name), name)
  }

  /** The UNIQUE tuple of fixture `f` of league `leagueId`, once both its teams have rows. */
  function KeyOf(slug: string -> string, t: Tables, leagueId: int, f: FixtureRecord, toUtc: LocalDateTime -> string): FixtureKey
    requires slug(f.homeName) in t.teams && slug(f.awayName) in t.teams
  {
    FixtureKey(leagueId, t.teams[slug(f.homeName)].id, t.teams[slug(f.awayName)].id, toUtc(f.kickoff))
  }

  /** Whether `insert_fixture` adds a row: the tuple is new and every id it references exists. */
  predicate Insertable(t: Tables, key: FixtureKey, venueId: Option<int>)
  {
    && key !in t.fixtures
    && HasLeagueId(t.leagues, key.leagueId)
    && HasTeamId(t.teams, key.homeId) && HasTeamId(t.teams, key.awayId)
    && (venueId.Some? ==> HasVenueId(t.venues, venueId.value))
  }

  /** One pass of the fixture loop: both teams, then `insert_fixture`. */
  function AfterFixture(slug: string -> string, t: Tables, leagueId: int, venueId: Option<int>, f: FixtureRecord,
                        toUtc: LocalDateTime -> string): Tables
  {
    var u := WithTeam(slug, WithTeam(slug, t, f.homeName), f.awayName);
    var key := KeyOf(slug, u, leagueId, f, toUtc);
    if Insertable(u, key, venueId) then AddFixture(u, key, venueId, f.result) else u
  }

  /** The fixture loop of one league, in order. */
  function AfterFixtures(slug: string -> string, t: Tables, leagueId: int, venueId: Option<int>, fixtures: seq<FixtureRecord>,
                         toUtc: LocalDateTime -> string): Tables
    decreases |fixtures|
  {
    if fixtures == [] then t
    else AfterFixtures(slug, AfterFixture(slug, t, leagueId, venueId, fixtures[0], toUtc), leagueId, venueId, fixtures[1..], toUtc)
  }

  // ---------------------------------------------------------------- one league

  /** The venue of a league's page, with the cache after its address is looked up. */
  function PageVenue(site: Site, league: LeagueLink, cache: map<string, string>): (VenueRecord, map<string, string>)
  {
    match Fetch(site.leaguePage(league.url))
    case None => (UnknownVenue, cache)
    case Some(page) =>
      match FirstVenueLink(page.links)
      case None => (UnknownVenue, cache)
      case Some(link) =>
        var address := if link.href in cache then cache[link.href] else AddressOf(Fetch(site.venuePage(link.href)));
        (VenueRecord(link.text, Some(link.href), address), cache[link.href := address])
  }

  /** Whether `get_or_create_venue` looks the venue up at all: only when it has a non-empty URL. */
  predicate HasUrl(venue: VenueRecord)
  {
    venue.url.Some? && venue.url.value != ""
  }

  /** The tables after `get_or_create_venue(venue)`. */
  function WithVenue(t: Tables, venue: VenueRecord): Tables
  {
    if !HasUrl(venue) then t
    else if venue.url.value in t.venues then SkipVenueId(t)
    else AddVenue(t, venue.url.value, venue.name, venue.address)
  }

  /** The id `get_or_create_venue` returns, read from the tables after it. */
  function VenueIdOf(t: Tables, venue: VenueRecord): Option<int>
    requires HasUrl(venue) ==> venue.url.value in t.venues
  {
    if HasUrl(venue) then Some(t.venues[venue.url.value].id) else None
  }

  /** A league's page, once the league's row has id `leagueId`: its venue, then its fixtures. */
  function AfterLeaguePage(slug: string -> string, s: State, site: Site, leagueId: int, league: LeagueLink, toUtc: LocalDateTime -> string): State
  {
    var (venue, cache) := PageVenue(site, league, s.cache);
    var t := WithVenue(s.tables, venue);
    State(AfterFixtures(slug, t, leagueId, VenueIdOf(t, venue), FixturesOf(site, league), toUtc), cache)
  }

  /**
    One league of a group: `get_or_create_league`, then its page. `None`
    when `get_or_create_league` raises: another league holds the URL, or
    the group id has no row.
   */
  function AfterLeague(slug: string -> string, s: State, site: Site, groupId: int, league: LeagueLink, toUtc: LocalDateTime -> string): Option<State>
  {
    var ls := slug(league.name);
    if ls in s.tables.leagues then
      Some(AfterLeaguePage(slug, State(SkipLeagueId(s.tables), s.cache), site, s.tables.leagues[ls].id, league, toUtc))
    else if UrlTaken(s.tables.leagues, league.url) || !HasGroupId(s.tables.groups, groupId) then
      None
    else
      var t := AddLeague(s.tables, ls, groupId, league.name, league.url);
      Some(AfterLeaguePage(slug, State(t, s.cache), site, t.leagues[ls].id, league, toUtc))
  }

  /**
    The league step with the lookup `get_or_create_league` evidently
    intended: a league whose slug has no row but whose URL has one takes
    that row's id instead of raising.
   */
  ghost function AfterLeagueByUrl(slug: string -> string, s: State, site: Site, groupId: int, league: LeagueLink, toUtc: LocalDateTime -> string): Option<State>
  {
    var ls := slug(league.name);
    if ls in s.tables.leagues then
      Some(AfterLeaguePage(slug, State(SkipLeagueId(s.tables), s.cache), site, s.tables.leagues[ls].id, league, toUtc))
    else if UrlTaken(s.tables.leagues, league.url) then
      var k :| k in s.tables.leagues && s.tables.leagues[k].url == league.url;
      Some(AfterLeaguePage(slug, State(SkipLeagueId(s.tables), s.cache), site, s.tables.leagues[k].id, league, toUtc))
    else if !HasGroupId(s.tables.groups, groupId) then
      None
    else
      var t := AddLeague(s.tables, ls, groupId, league.name, league.url);
      Some(AfterLeaguePage(slug, State(t, s.cache), site, t.leagues[ls].id, league, toUtc))
  }

  /**
    What a league step that raises leaves behind. An insert ignored because
    another league holds the URL was committed before the lookup raised, and
    used up an id; an insert that broke the foreign key was rolled back.
   */
  function LeagueRaised(s: State, league: LeagueLink): State
  {
    if UrlTaken(s.tables.leagues, league.url) then State(SkipLeagueId(s.tables), s.cache) else s
  }

  /** The league loop of one group. The second component names the league whose insert raised, which ends the crawl. */
  function AfterLeagues(slug: string -> string, s: State, site: Site, groupId: int, leagues: seq<LeagueLink>, toUtc: LocalDateTime -> string)
    : (State, Option<LeagueLink>)
    decreases |leagues|
  {
    if leagues == [] then (s, None)
    else
      match AfterLeague(slug, s, site, groupId, leagues[0], toUtc)
      case None => (LeagueRaised(s, leagues[0]), Some(leagues[0]))
      case Some(next) => AfterLeagues(slug, next, site, groupId, leagues[1..], toUtc)
  }

  // ---------------------------------------------------------------- groups and the whole crawl

  /** The tables after `get_or_create_league_group(name)`. */
  function WithGroup(slug: string -> string, t: Tables, name: string): Tables
  {
    if slug(name) in t.groups then SkipGroupId(t) else AddGroup(t, slug(name), name)
  }

  /** One group: its row, then its leagues under its id. */
  function AfterGroup(slug: string -> string, s: State, site: Site, group: GroupLink, toUtc: LocalDateTime -> string): (State, Option<LeagueLink>)
  {
    var t := WithGroup(slug, s.tables, group.name);
    AfterLeagues(slug, State(t, s.cache), site, t.groups[slug(group.name)].id, LeaguesOf(site, group), toUtc)
  }

  /** The group loop, which stops at the first league that raised. */
  function AfterGroups(slug: string -> string, s: State, site: Site, groups: seq<GroupLink>, toUtc: LocalDateTime -> string)
    : (State, Option<LeagueLink>)
    decreases |groups|
  {
    if groups == [] then (s, None)
    else
      var (next, failed) := AfterGroup(slug, s, site, groups[0], toUtc);
      if failed.Some? then (next, failed) else AfterGroups(slug, next, site, groups[1..], toUtc)
  }

  /** `crawl_and_populate_db(limit)` from state `s`. */
  function Crawl(slug: string -> string, s: State, site: Site, limit: Option<int>, toUtc: LocalDateTime -> string): (State, Option<LeagueLink>)
  {
    AfterGroups(slug, s, site, ApplyLimit(GroupsOf(site), limit), toUtc)
  }
}
