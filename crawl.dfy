/**
  `crawl_and_populate_db` of generate_ics_bulk.py: three nested loops over
  the groups of the finder page, the leagues of each group page and the
  fixtures of each league page, writing through the repository and the
  venue cache. Each loop is proved to leave the state that module
  `CrawlModel` computes (with `Slugify` as the slug), so the facts of
  module `CrawlFacts` hold of what the methods do.
 */
module Crawl {
  import opened Wrappers
  import opened Slug
  import opened Http
  import opened VenueCache
  import opened Extract
  import opened Repository
  import opened CrawlModel
  import opened CrawlFacts

  /** How long the crawl pauses after each league, in milliseconds. */
  const ThrottleMillis: nat := 500

  /** The number of leagues on the pages of `groups`: one throttle pause each when nothing raises. */
  function LeagueCount(site: Site, groups: seq<GroupLink>): nat
  {
    if groups == [] then 0 else |LeaguesOf(site, groups[0])| + LeagueCount(site, groups[1..])
  }

  /** One pass of the fixture loop: `get_or_create_team` for both sides, then `insert_fixture`. */
  method StoreFixture(db: Database, leagueId: int, venueId: Option<int>, f: FixtureRecord, toUtc: LocalDateTime -> string)
    requires db.Valid()
    modifies db
    ensures db.Valid()
    ensures db.tables == AfterFixture(Slugify, old(db.tables), leagueId, venueId, f, toUtc)
  {
    var homeId := db.GetOrCreateTeam(f.homeName);
    ghost var home := db.tables;
    assert home == WithTeam(Slugify, old(db.tables), f.homeName);
    var awayId := db.GetOrCreateTeam(f.awayName);
    ghost var teams := db.tables;
    assert teams == WithTeam(Slugify, home, f.awayName);
    assert teams.teams[Slugify(f.homeName)] == home.teams[Slugify(f.homeName)];
    ghost var key := KeyOf(Slugify, teams, leagueId, f, toUtc);
    assert key == FixtureKey(leagueId, homeId, awayId, toUtc(f.kickoff));
    var _ := db.InsertFixture(leagueId, venueId, homeId, awayId, toUtc(f.kickoff), f.result);
    assert db.tables == if Insertable(teams, key, venueId) then AddFixture(teams, key, venueId, f.result) else teams;
  }

  /** The fixture loop of one league, in page order. */
  method StoreFixtures(db: Database, leagueId: int, venueId: Option<int>, fixtures: seq<FixtureRecord>,
                       toUtc: LocalDateTime -> string)
    requires db.Valid()
    modifies db
    ensures db.Valid()
    ensures db.tables == AfterFixtures(Slugify, old(db.tables), leagueId, venueId, fixtures, toUtc)
  {
    var i := 0;
    while i < |fixtures|
      invariant 0 <= i <= |fixtures|
      invariant db.Valid()
      invariant AfterFixtures(Slugify, db.tables, leagueId, venueId, fixtures[i..], toUtc)
             == AfterFixtures(Slugify, old(db.tables), leagueId, venueId, fixtures, toUtc)
    {
      assert fixtures[i..][0] == fixtures[i] && fixtures[i..][1..] == fixtures[i + 1..];
      StoreFixture(db, leagueId, venueId, fixtures[i], toUtc);
      i := i + 1;
    }
  }

  /**
    One league of a group: its row, its page (venue and fixtures), then its
    fixtures. `ok` is false when `get_or_create_league` raises, in which case
    no row was written.
   */
  method StoreLeague(db: Database, cache: Cache, site: Site, groupId: int, league: LeagueLink, toUtc: LocalDateTime -> string)
    returns (ok: bool)
    requires db.Valid() && cache.Valid()
    modifies db, cache
    ensures db.Valid() && cache.Valid()
    ensures var next := AfterLeague(Slugify, State(old(db.tables), old(cache.entries)), site, groupId, league, toUtc);
      && (ok <==> next.Some?)
      && (ok ==> State(db.tables, cache.entries) == next.value)
      && (!ok ==> State(db.tables, cache.entries) == LeagueRaised(State(old(db.tables), old(cache.entries)), league))
  {
    var r := db.GetOrCreateLeague(groupId, league.name, league.url);
    if r.Err? {
      return false;
    }
    ghost var t := db.tables;
    ghost var s := State(t, old(cache.entries));
    assert Slugify(league.name) in t.leagues && r.value == t.leagues[Slugify(league.name)].id;
    var fixtures, venue, _ := ExtractFixturesFromLeague(cache, site.leaguePage(league.url), site.venuePage);
    assert (venue, cache.entries) == PageVenue(site, league, old(cache.entries));
    assert fixtures == FixturesOf(site, league);
    var venueId := db.GetOrCreateVenue(venue);
    ghost var tv := db.tables;
    assert tv == WithVenue(t, venue) && venueId == VenueIdOf(tv, venue);
    StoreFixtures(db, r.value, venueId, fixtures, toUtc);
    assert State(db.tables, cache.entries) == AfterLeaguePage(Slugify, s, site, r.value, league, toUtc);
    ok := true;
  }

  /**
    The league loop of one group, pausing after each league. `failed` is the
    league whose `get_or_create_league` raised, which ends the crawl;
    `throttles` counts the pauses.
   */
  method StoreLeagues(db: Database, cache: Cache, site: Site, groupId: int, leagues: seq<LeagueLink>, toUtc: LocalDateTime -> string)
    returns (failed: Option<LeagueLink>, throttles: nat)
    requires db.Valid() && cache.Valid()
    modifies db, cache
    ensures db.Valid() && cache.Valid()
    ensures (State(db.tables, cache.entries), failed)
         == AfterLeagues(Slugify, State(old(db.tables), old(cache.entries)), site, groupId, leagues, toUtc)
    ensures failed.None? ==> throttles == |leagues|
    ensures failed.Some? ==> throttles < |leagues| && failed == Some(leagues[throttles])
  {
    ghost var whole := AfterLeagues(Slugify, State(old(db.tables), old(cache.entries)), site, groupId, leagues, toUtc);
    var i := 0;
    throttles := 0;
    while i < |leagues|
      invariant 0 <= i <= |leagues| && throttles == i
      invariant db.Valid() && cache.Valid()
      invariant AfterLeagues(Slugify, State(db.tables, cache.entries), site, groupId, leagues[i..], toUtc) == whole
    {
      assert leagues[i..][0] == leagues[i] && leagues[i..][1..] == leagues[i + 1..];
      var ok := StoreLeague(db, cache, site, groupId, leagues[i], toUtc);
      if !ok {
        return Some(leagues[i]), throttles;
      }
      throttles := throttles + 1;
      i := i + 1;
    }
    failed := None;
  }

  /** One group: its row, then the leagues its page lists. */
  method StoreGroup(db: Database, cache: Cache, site: Site, group: GroupLink, toUtc: LocalDateTime -> string)
    returns (failed: Option<LeagueLink>, throttles: nat)
    requires db.Valid() && cache.Valid()
    modifies db, cache
    ensures db.Valid() && cache.Valid()
    ensures (State(db.tables, cache.entries), failed) == AfterGroup(Slugify, State(old(db.tables), old(cache.entries)), site, group, toUtc)
    ensures failed.None? ==> throttles == |LeaguesOf(site, group)|
  {
    var groupId := db.GetOrCreateLeagueGroup(group.name);
    assert db.tables == WithGroup(Slugify, old(db.tables), group.name);
    var leagues, _ := ParseLeagueGroup(site.groupPage(group.url));
    assert leagues == LeaguesOf(site, group);
    failed, throttles := StoreLeagues(db, cache, site, groupId, leagues, toUtc);
  }

  /**
    `crawl_and_populate_db(limit)` over an open database and the run's venue
    cache. It stores every group the finder page lists (the first `limit`
    of them when `limit` is truthy), or stops at the league whose
    `get_or_create_league` raised. Rows are only added, each added row comes
    from the site, and when nothing raised everything visited is stored.
   */
  method CrawlAndPopulate(db: Database, cache: Cache, site: Site, limit: Option<int>, toUtc: LocalDateTime -> string)
    returns (failed: Option<LeagueLink>, throttles: nat)
    requires db.Valid() && cache.Valid()
    modifies db, cache
    ensures db.Valid() && cache.Valid()
    ensures (State(db.tables, cache.entries), failed) == Crawl(Slugify, State(old(db.tables), old(cache.entries)), site, limit, toUtc)
    ensures Extends(old(db.tables), db.tables)
    ensures GroupsAddOnly(Slugify, old(db.tables), db.tables, site, ApplyLimit(GroupsOf(site), limit), toUtc)
    ensures failed.None? ==> GroupsStored(Slugify, db.tables, site, ApplyLimit(GroupsOf(site), limit), toUtc)
    ensures failed.None? ==> throttles == LeagueCount(site, ApplyLimit(GroupsOf(site), limit))
    ensures failed.Some? ==> Slugify(failed.value.name) !in db.tables.leagues && UrlTaken(db.tables.leagues, failed.value.url)
  {
    var all, _ := FetchLeagueGroupLinks(site.finder);
    assert all == GroupsOf(site);
    var groups := ApplyLimit(all, limit);
    ghost var start := State(old(db.tables), old(cache.entries));
    ghost var whole := AfterGroups(Slugify, start, site, groups, toUtc);
    CrawlStores(Slugify, start, site, limit, toUtc);
    CrawlAdds(Slugify, start, site, limit, toUtc);
    var i := 0;
    throttles := 0;
    while i < |groups|
      invariant 0 <= i <= |groups|
      invariant db.Valid() && cache.Valid()
      invariant AfterGroups(Slugify, State(db.tables, cache.entries), site, groups[i..], toUtc) == whole
      invariant throttles + LeagueCount(site, groups[i..]) == LeagueCount(site, groups)
    {
      assert groups[i..][0] == groups[i] && groups[i..][1..] == groups[i + 1..];
      var n;
      failed, n := StoreGroup(db, cache, site, groups[i], toUtc);
      throttles := throttles + n;
      if failed.Some? {
        return;
      }
      i := i + 1;
    }
    failed := None;
  }

  /**
    The idempotent re-crawl: after a crawl that did not raise, crawling the
    same site again raises nothing and writes no row (`between` is the
    database after the first crawl); only the AUTOINCREMENT counters move.
   */
  method RecrawlWritesNothing(db: Database, cache: Cache, site: Site, limit: Option<int>, toUtc: LocalDateTime -> string)
    returns (first: Option<LeagueLink>, second: Option<LeagueLink>, ghost between: Tables)
    requires db.Valid() && cache.Valid()
    modifies db, cache
    ensures db.Valid()
    ensures Extends(old(db.tables), between)
    ensures first.None? ==> second.None? && SameRows(db.tables, between)
  {
    var pauses;
    first, pauses := CrawlAndPopulate(db, cache, site, limit, toUtc);
    between := db.tables;
    ghost var s := State(db.tables, cache.entries);
    second, pauses := CrawlAndPopulate(db, cache, site, limit, toUtc);
    if first.None? {
      CrawlIdle(Slugify, s, site, limit, toUtc);
    }
  }
}
