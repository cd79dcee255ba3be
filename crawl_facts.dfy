/**
  What the crawl of module `CrawlModel` leaves in the database: every
  fixture, league, venue and group the site shows is stored; a crawl over
  tables that already hold all of it writes no row; rows are only added,
  and each added row comes from the site.
 */
module CrawlFacts {
  import opened Wrappers
  import opened Slug
  import opened Extract
  import opened Repository
  import opened CrawlModel

  // ---------------------------------------------------------------- what a crawl stores

  /** Both teams have rows and the fixture's UNIQUE tuple is present. */
  ghost predicate FixtureStored(slug: string -> string, t: Tables, leagueId: int, f: FixtureRecord, toUtc: LocalDateTime -> string)
  {
    && slug(f.homeName) in t.teams && slug(f.awayName) in t.teams
    && KeyOf(slug, t, leagueId, f, toUtc) in t.fixtures
  }

  ghost predicate FixturesStored(slug: string -> string, t: Tables, leagueId: int, fixtures: seq<FixtureRecord>, toUtc: LocalDateTime -> string)
  {
    forall f :: f in fixtures ==> FixtureStored(slug, t, leagueId, f, toUtc)
  }

  /** The venue of the league's page, when it has a URL, has a row. */
  ghost predicate VenueStored(t: Tables, site: Site, league: LeagueLink)
  {
    VenueUrlOf(site, league).Some? ==> VenueUrlOf(site, league).value in t.venues
  }

  /** The league has a row, its venue has a row, and all its fixtures are stored under the league's id. */
  ghost predicate LeagueStored(slug: string -> string, t: Tables, site: Site, league: LeagueLink, toUtc: LocalDateTime -> string)
  {
    && slug(league.name) in t.leagues
    && VenueStored(t, site, league)
    && FixturesStored(slug, t, t.leagues[slug(league.name)].id, FixturesOf(site, league), toUtc)
  }

  ghost predicate LeaguesStored(slug: string -> string, t: Tables, site: Site, leagues: seq<LeagueLink>, toUtc: LocalDateTime -> string)
  {
    forall l :: l in leagues ==> LeagueStored(slug, t, site, l, toUtc)
  }

  ghost predicate GroupStored(slug: string -> string, t: Tables, site: Site, group: GroupLink, toUtc: LocalDateTime -> string)
  {
    slug(group.name) in t.groups && LeaguesStored(slug, t, site, LeaguesOf(site, group), toUtc)
  }

  ghost predicate GroupsStored(slug: string -> string, t: Tables, site: Site, groups: seq<GroupLink>, toUtc: LocalDateTime -> string)
  {
    forall g :: g in groups ==> GroupStored(slug, t, site, g, toUtc)
  }

  // ---------------------------------------------------------------- where added rows come from

  /** `s` is the slug of one of the fixture's teams. */
  ghost predicate TeamOf(slug: string -> string, f: FixtureRecord, s: string)
  {
    s == slug(f.homeName) || s == slug(f.awayName)
  }

  /** `k` is the UNIQUE tuple of fixture `f` of league `leagueId` in tables `t`. */
  ghost predicate Keyed(slug: string -> string, t: Tables, leagueId: int, f: FixtureRecord, k: FixtureKey, toUtc: LocalDateTime -> string)
  {
    slug(f.homeName) in t.teams && slug(f.awayName) in t.teams && k == KeyOf(slug, t, leagueId, f, toUtc)
  }

  ghost predicate TeamIn(slug: string -> string, fixtures: seq<FixtureRecord>, s: string)
  {
    exists f :: f in fixtures && TeamOf(slug, f, s)
  }

  ghost predicate KeyIn(slug: string -> string, t: Tables, leagueId: int, fixtures: seq<FixtureRecord>, k: FixtureKey, toUtc: LocalDateTime -> string)
  {
    exists f :: f in fixtures && Keyed(slug, t, leagueId, f, k, toUtc)
  }

  /** Going from `a` to `b`, the fixture loop of league `leagueId` adds only its fixtures' teams and tuples. */
  ghost predicate FixturesAddOnly(slug: string -> string, a: Tables, b: Tables, leagueId: int, fixtures: seq<FixtureRecord>,
                                  toUtc: LocalDateTime -> string)
  {
    && b.groups == a.groups && b.leagues == a.leagues && b.venues == a.venues
    && (forall s :: s in b.teams && s !in a.teams ==> TeamIn(slug, fixtures, s))
    && (forall k :: k in b.fixtures && k !in a.fixtures ==> KeyIn(slug, b, leagueId, fixtures, k, toUtc))
  }

  /** `k` is the tuple of a fixture on the page of `league`, under the league's row. */
  ghost predicate LeagueKey(slug: string -> string, t: Tables, site: Site, league: LeagueLink, k: FixtureKey, toUtc: LocalDateTime -> string)
  {
    slug(league.name) in t.leagues && KeyIn(slug, t, t.leagues[slug(league.name)].id, FixturesOf(site, league), k, toUtc)
  }

  ghost predicate LeagueIn(slug: string -> string, leagues: seq<LeagueLink>, s: string)
  {
    exists l :: l in leagues && s == slug(l.name)
  }

  ghost predicate VenueIn(site: Site, leagues: seq<LeagueLink>, u: string)
  {
    exists l :: l in leagues && VenueUrlOf(site, l) == Some(u)
  }

  ghost predicate TeamInLeagues(slug: string -> string, site: Site, leagues: seq<LeagueLink>, s: string)
  {
    exists l :: l in leagues && TeamIn(slug, FixturesOf(site, l), s)
  }

  ghost predicate KeyInLeagues(slug: string -> string, t: Tables, site: Site, leagues: seq<LeagueLink>, k: FixtureKey, toUtc: LocalDateTime -> string)
  {
    exists l :: l in leagues && LeagueKey(slug, t, site, l, k, toUtc)
  }

  /** Going from `a` to `b`, the league loop adds only the leagues, venues, teams and fixtures of `leagues`. */
  ghost predicate LeaguesAddOnly(slug: string -> string, a: Tables, b: Tables, site: Site, leagues: seq<LeagueLink>, toUtc: LocalDateTime -> string)
  {
    && b.groups == a.groups
    && (forall s :: s in b.leagues && s !in a.leagues ==> LeagueIn(slug, leagues, s))
    && (forall u :: u in b.venues && u !in a.venues ==> VenueIn(site, leagues, u))
    && (forall s :: s in b.teams && s !in a.teams ==> TeamInLeagues(slug, site, leagues, s))
    && (forall k :: k in b.fixtures && k !in a.fixtures ==> KeyInLeagues(slug, b, site, leagues, k, toUtc))
  }

  ghost predicate GroupIn(slug: string -> string, groups: seq<GroupLink>, s: string)
  {
    exists g :: g in groups && s == slug(g.name)
  }

  /** Going from `a` to `b`, the group loop adds only rows of `groups` and of what their pages list. */
  ghost predicate GroupsAddOnly(slug: string -> string, a: Tables, b: Tables, site: Site, groups: seq<GroupLink>, toUtc: LocalDateTime -> string)
  {
    && (forall s :: s in b.groups && s !in a.groups ==> GroupIn(slug, groups, s))
    && (forall s :: s in b.leagues && s !in a.leagues ==> exists g :: g in groups && LeagueIn(slug, LeaguesOf(site, g), s))
    && (forall u :: u in b.venues && u !in a.venues ==> exists g :: g in groups && VenueIn(site, LeaguesOf(site, g), u))
    && (forall s :: s in b.teams && s !in a.teams ==> exists g :: g in groups && TeamInLeagues(slug, site, LeaguesOf(site, g), s))
    && (forall k :: k in b.fixtures && k !in a.fixtures ==>
          exists g :: g in groups && KeyInLeagues(slug, b, site, LeaguesOf(site, g), k, toUtc))
  }

  // ---------------------------------------------------------------- stored stays stored

  lemma FixtureStoredGrows(slug: string -> string, a: Tables, b: Tables, leagueId: int, f: FixtureRecord, toUtc: LocalDateTime -> string)
    requires Extends(a, b) && FixtureStored(slug, a, leagueId, f, toUtc)
    ensures FixtureStored(slug, b, leagueId, f, toUtc)
  {
    assert b.teams[slug(f.homeName)] == a.teams[slug(f.homeName)];
    assert b.teams[slug(f.awayName)] == a.teams[slug(f.awayName)];
  }

  lemma FixturesStoredGrow(slug: string -> string, a: Tables, b: Tables, leagueId: int, fixtures: seq<FixtureRecord>, toUtc: LocalDateTime -> string)
    requires Extends(a, b) && FixturesStored(slug, a, leagueId, fixtures, toUtc)
    ensures FixturesStored(slug, b, leagueId, fixtures, toUtc)
  {
    forall f | f in fixtures
      ensures FixtureStored(slug, b, leagueId, f, toUtc)
    {
      FixtureStoredGrows(slug, a, b, leagueId, f, toUtc);
    }
  }

  lemma LeagueStoredGrows(slug: string -> string, a: Tables, b: Tables, site: Site, league: LeagueLink, toUtc: LocalDateTime -> string)
    requires Extends(a, b) && LeagueStored(slug, a, site, league, toUtc)
    ensures LeagueStored(slug, b, site, league, toUtc)
  {
    assert b.leagues[slug(league.name)] == a.leagues[slug(league.name)];
    FixturesStoredGrow(slug, a, b, a.leagues[slug(league.name)].id, FixturesOf(site, league), toUtc);
  }

  lemma LeaguesStoredGrow(slug: string -> string, a: Tables, b: Tables, site: Site, leagues: seq<LeagueLink>, toUtc: LocalDateTime -> string)
    requires Extends(a, b) && LeaguesStored(slug, a, site, leagues, toUtc)
    ensures LeaguesStored(slug, b, site, leagues, toUtc)
  {
    forall l | l in leagues
      ensures LeagueStored(slug, b, site, l, toUtc)
    {
      LeagueStoredGrows(slug, a, b, site, l, toUtc);
    }
  }

  lemma GroupStoredGrows(slug: string -> string, a: Tables, b: Tables, site: Site, group: GroupLink, toUtc: LocalDateTime -> string)
    requires Extends(a, b) && GroupStored(slug, a, site, group, toUtc)
    ensures GroupStored(slug, b, site, group, toUtc)
  {
    LeaguesStoredGrow(slug, a, b, site, LeaguesOf(site, group), toUtc);
  }

  /** Rows are never removed or changed, so whatever a crawl stored stays stored as the tables grow. */
  lemma GroupsStoredGrow(slug: string -> string, a: Tables, b: Tables, site: Site, groups: seq<GroupLink>, toUtc: LocalDateTime -> string)
    requires Extends(a, b) && GroupsStored(slug, a, site, groups, toUtc)
    ensures GroupsStored(slug, b, site, groups, toUtc)
  {
    forall g | g in groups
      ensures GroupStored(slug, b, site, g, toUtc)
    {
      GroupStoredGrows(slug, a, b, site, g, toUtc);
    }
  }

  lemma KeyedGrows(slug: string -> string, a: Tables, b: Tables, leagueId: int, f: FixtureRecord, k: FixtureKey, toUtc: LocalDateTime -> string)
    requires Extends(a, b) && Keyed(slug, a, leagueId, f, k, toUtc)
    ensures Keyed(slug, b, leagueId, f, k, toUtc)
  {
    assert b.teams[slug(f.homeName)] == a.teams[slug(f.homeName)];
    assert b.teams[slug(f.awayName)] == a.teams[slug(f.awayName)];
  }

  lemma KeyInGrows(slug: string -> string, a: Tables, b: Tables, leagueId: int, fixtures: seq<FixtureRecord>, k: FixtureKey, toUtc: LocalDateTime -> string)
    requires Extends(a, b) && KeyIn(slug, a, leagueId, fixtures, k, toUtc)
    ensures KeyIn(slug, b, leagueId, fixtures, k, toUtc)
  {
    var f :| f in fixtures && Keyed(slug, a, leagueId, f, k, toUtc);
    KeyedGrows(slug, a, b, leagueId, f, k, toUtc);
  }

  lemma KeyInLeaguesGrows(slug: string -> string, a: Tables, b: Tables, site: Site, leagues: seq<LeagueLink>, k: FixtureKey, toUtc: LocalDateTime -> string)
    requires Extends(a, b) && KeyInLeagues(slug, a, site, leagues, k, toUtc)
    ensures KeyInLeagues(slug, b, site, leagues, k, toUtc)
  {
    var l :| l in leagues && LeagueKey(slug, a, site, l, k, toUtc);
    assert b.leagues[slug(l.name)] == a.leagues[slug(l.name)];
    KeyInGrows(slug, a, b, a.leagues[slug(l.name)].id, FixturesOf(site, l), k, toUtc);
  }

  // ---------------------------------------------------------------- one fixture

  lemma WithTeamGrows(slug: string -> string, t: Tables, name: string)
    ensures Extends(t, WithTeam(slug, t, name)) && slug(name) in WithTeam(slug, t, name).teams
  {
    if slug(name) !in t.teams {
      AddTeamGrows(t, slug(name), name);
    }
  }

  lemma AfterFixtureGrows(slug: string -> string, t: Tables, leagueId: int, venueId: Option<int>, f: FixtureRecord, toUtc: LocalDateTime -> string)
    ensures Extends(t, AfterFixture(slug, t, leagueId, venueId, f, toUtc))
  {
    var h := WithTeam(slug, t, f.homeName);
    var u := WithTeam(slug, h, f.awayName);
    WithTeamGrows(slug, t, f.homeName);
    WithTeamGrows(slug, h, f.awayName);
    ExtendsTransitive(t, h, u);
    var key := KeyOf(slug, u, leagueId, f, toUtc);
    if Insertable(u, key, venueId) {
      AddFixtureGrows(u, key, venueId, f.result);
      ExtendsTransitive(t, u, AddFixture(u, key, venueId, f.result));
    }
  }

  /** One pass of the fixture loop stores the fixture, once the league and the venue have rows. */
  lemma AfterFixtureStores(slug: string -> string, t: Tables, leagueId: int, venueId: Option<int>, f: FixtureRecord, toUtc: LocalDateTime -> string)
    requires HasLeagueId(t.leagues, leagueId) && (venueId.Some? ==> HasVenueId(t.venues, venueId.value))
    ensures FixtureStored(slug, AfterFixture(slug, t, leagueId, venueId, f, toUtc), leagueId, f, toUtc)
  {
    var h := WithTeam(slug, t, f.homeName);
    var u := WithTeam(slug, h, f.awayName);
    WithTeamGrows(slug, t, f.homeName);
    WithTeamGrows(slug, h, f.awayName);
    var key := KeyOf(slug, u, leagueId, f, toUtc);
    assert HasTeamId(u.teams, key.homeId) by {
      assert u.teams[slug(f.homeName)].id == key.homeId;
    }
    assert HasTeamId(u.teams, key.awayId) by {
      assert u.teams[slug(f.awayName)].id == key.awayId;
    }
    assert u.leagues == t.leagues && u.venues == t.venues;
  }

  /** One pass of the fixture loop over a stored fixture writes no row. */
  lemma AfterFixtureIdle(slug: string -> string, t: Tables, leagueId: int, venueId: Option<int>, f: FixtureRecord, toUtc: LocalDateTime -> string)
    requires FixtureStored(slug, t, leagueId, f, toUtc)
    ensures SameRows(AfterFixture(slug, t, leagueId, venueId, f, toUtc), t)
  {
    var h := WithTeam(slug, t, f.homeName);
    var u := WithTeam(slug, h, f.awayName);
    assert SameRows(t, h) && SameRows(h, u);
    assert KeyOf(slug, u, leagueId, f, toUtc) == KeyOf(slug, t, leagueId, f, toUtc);
  }

  /** One pass of the fixture loop adds at most the fixture's two teams and its tuple. */
  lemma AfterFixtureAdds(slug: string -> string, t: Tables, leagueId: int, venueId: Option<int>, f: FixtureRecord, toUtc: LocalDateTime -> string)
    ensures var u := AfterFixture(slug, t, leagueId, venueId, f, toUtc);
      && u.groups == t.groups && u.leagues == t.leagues && u.venues == t.venues
      && (forall s :: s in u.teams && s !in t.teams ==> TeamOf(slug, f, s))
      && (forall k :: k in u.fixtures && k !in t.fixtures ==> Keyed(slug, u, leagueId, f, k, toUtc))
  {
    AfterFixtureTeams(slug, t, leagueId, venueId, f, toUtc);
    AfterFixtureKeys(slug, t, leagueId, venueId, f, toUtc);
  }

  lemma AfterFixtureTeams(slug: string -> string, t: Tables, leagueId: int, venueId: Option<int>, f: FixtureRecord, toUtc: LocalDateTime -> string)
    ensures var u := AfterFixture(slug, t, leagueId, venueId, f, toUtc);
      && u.groups == t.groups && u.leagues == t.leagues && u.venues == t.venues
      && (forall s :: s in u.teams && s !in t.teams ==> TeamOf(slug, f, s))
  {
    var h := WithTeam(slug, t, f.homeName);
    var w := WithTeam(slug, h, f.awayName);
    WithTeamAdds(slug, t, f.homeName);
    WithTeamAdds(slug, h, f.awayName);
    var u := AfterFixture(slug, t, leagueId, venueId, f, toUtc);
    assert u.teams == w.teams && u.groups == w.groups && u.leagues == w.leagues && u.venues == w.venues;
  }

  /** `get_or_create_team` adds at most the row of its name's slug, and touches no other table. */
  lemma WithTeamAdds(slug: string -> string, t: Tables, name: string)
    ensures var u := WithTeam(slug, t, name);
      && u.groups == t.groups && u.leagues == t.leagues && u.venues == t.venues && u.fixtures == t.fixtures
      && (forall s :: s in u.teams && s !in t.teams ==> s == slug(name))
  {
  }

  /**
    Ids follow AUTOINCREMENT: looking up a team that is already stored still
    uses up an id, so the next new team's id skips one ("A v B" then "A v C"
    gives C the id after the one A's second lookup used up).
   */
  lemma StoredTeamUsesUpId(slug: string -> string, t: Tables, known: string, newcomer: string)
    requires slug(known) in t.teams && slug(newcomer) !in t.teams
    ensures var u := WithTeam(slug, WithTeam(slug, t, known), newcomer);
      && slug(newcomer) in u.teams && u.teams[slug(newcomer)].id == t.nextTeamId + 1
      && u.teams[slug(known)] == t.teams[slug(known)]
  {
  }

  lemma AfterFixtureKeys(slug: string -> string, t: Tables, leagueId: int, venueId: Option<int>, f: FixtureRecord, toUtc: LocalDateTime -> string)
    ensures var u := AfterFixture(slug, t, leagueId, venueId, f, toUtc);
      forall k :: k in u.fixtures && k !in t.fixtures ==> Keyed(slug, u, leagueId, f, k, toUtc)
  {
    var w := WithTeam(slug, WithTeam(slug, t, f.homeName), f.awayName);
    assert w.fixtures == t.fixtures;
  }

  // ---------------------------------------------------------------- the fixture loop

  lemma {:induction false} AfterFixturesGrows(slug: string -> string, t: Tables, leagueId: int, venueId: Option<int>, fixtures: seq<FixtureRecord>,
                                              toUtc: LocalDateTime -> string)
    ensures Extends(t, AfterFixtures(slug, t, leagueId, venueId, fixtures, toUtc))
    decreases |fixtures|
  {
    if fixtures != [] {
      var m := AfterFixture(slug, t, leagueId, venueId, fixtures[0], toUtc);
      AfterFixtureGrows(slug, t, leagueId, venueId, fixtures[0], toUtc);
      AfterFixturesGrows(slug, m, leagueId, venueId, fixtures[1..], toUtc);
      ExtendsTransitive(t, m, AfterFixtures(slug, m, leagueId, venueId, fixtures[1..], toUtc));
    }
  }

  /** The fixture loop stores every fixture of the list, once the league and the venue have rows. */
  lemma {:induction false} AfterFixturesStores(slug: string -> string, t: Tables, leagueId: int, venueId: Option<int>, fixtures: seq<FixtureRecord>,
                                               toUtc: LocalDateTime -> string)
    requires HasLeagueId(t.leagues, leagueId) && (venueId.Some? ==> HasVenueId(t.venues, venueId.value))
    ensures FixturesStored(slug, AfterFixtures(slug, t, leagueId, venueId, fixtures, toUtc), leagueId, fixtures, toUtc)
    decreases |fixtures|
  {
    if fixtures != [] {
      var m := AfterFixture(slug, t, leagueId, venueId, fixtures[0], toUtc);
      var b := AfterFixtures(slug, m, leagueId, venueId, fixtures[1..], toUtc);
      AfterFixtureStores(slug, t, leagueId, venueId, fixtures[0], toUtc);
      AfterFixtureGrows(slug, t, leagueId, venueId, fixtures[0], toUtc);
      ExtendsKeepsIds(t, m);
      AfterFixturesStores(slug, m, leagueId, venueId, fixtures[1..], toUtc);
      AfterFixturesGrows(slug, m, leagueId, venueId, fixtures[1..], toUtc);
      FixtureStoredGrows(slug, m, b, leagueId, fixtures[0], toUtc);
      forall f | f in fixtures
        ensures FixtureStored(slug, b, leagueId, f, toUtc)
      {
        if f != fixtures[0] {
          assert f in fixtures[1..];
        }
      }
    }
  }

  /** Over tables that already store every fixture of the list, the fixture loop writes no row. */
  lemma {:induction false} AfterFixturesIdle(slug: string -> string, t: Tables, leagueId: int, venueId: Option<int>, fixtures: seq<FixtureRecord>,
                                             toUtc: LocalDateTime -> string)
    requires FixturesStored(slug, t, leagueId, fixtures, toUtc)
    ensures SameRows(AfterFixtures(slug, t, leagueId, venueId, fixtures, toUtc), t)
    decreases |fixtures|
  {
    if fixtures != [] {
      var m := AfterFixture(slug, t, leagueId, venueId, fixtures[0], toUtc);
      AfterFixtureIdle(slug, t, leagueId, venueId, fixtures[0], toUtc);
      forall f | f in fixtures[1..]
        ensures FixtureStored(slug, m, leagueId, f, toUtc)
      {
        assert f in fixtures;
        FixtureStoredGrows(slug, t, m, leagueId, f, toUtc);
      }
      AfterFixturesIdle(slug, m, leagueId, venueId, fixtures[1..], toUtc);
    }
  }

  /** The fixture loop adds only teams and tuples of the listed fixtures, and nothing to the other tables. */
  lemma {:induction false} AfterFixturesAdds(slug: string -> string, t: Tables, leagueId: int, venueId: Option<int>, fixtures: seq<FixtureRecord>,
                                             toUtc: LocalDateTime -> string)
    ensures FixturesAddOnly(slug, t, AfterFixtures(slug, t, leagueId, venueId, fixtures, toUtc), leagueId, fixtures, toUtc)
    decreases |fixtures|
  {
    if fixtures != [] {
      var m := AfterFixture(slug, t, leagueId, venueId, fixtures[0], toUtc);
      var b := AfterFixtures(slug, m, leagueId, venueId, fixtures[1..], toUtc);
      AfterFixtureAdds(slug, t, leagueId, venueId, fixtures[0], toUtc);
      AfterFixturesAdds(slug, m, leagueId, venueId, fixtures[1..], toUtc);
      AfterFixturesGrows(slug, m, leagueId, venueId, fixtures[1..], toUtc);
      forall s | s in b.teams && s !in t.teams
        ensures TeamIn(slug, fixtures, s)
      {
        if s in m.teams {
          assert fixtures[0] in fixtures && TeamOf(slug, fixtures[0], s);
        } else {
          var f :| f in fixtures[1..] && TeamOf(slug, f, s);
          assert f in fixtures;
        }
      }
      forall k | k in b.fixtures && k !in t.fixtures
        ensures KeyIn(slug, b, leagueId, fixtures, k, toUtc)
      {
        if k in m.fixtures {
          KeyedGrows(slug, m, b, leagueId, fixtures[0], k, toUtc);
          assert fixtures[0] in fixtures;
        } else {
          var f :| f in fixtures[1..] && Keyed(slug, b, leagueId, f, k, toUtc);
          assert f in fixtures;
        }
      }
    }
  }

  // ---------------------------------------------------------------- one league's page

  /** The venue `PageVenue` reads is the one `VenueUrlOf` names, and it has a URL exactly when that one does. */
  lemma PageVenueUrl(site: Site, league: LeagueLink, cache: map<string, string>)
    ensures PageVenue(site, league, cache).0.url == VenueUrlOf(site, league)
    ensures HasUrl(PageVenue(site, league, cache).0) <==> VenueUrlOf(site, league).Some?
  {
  }

  lemma WithVenueGrows(t: Tables, venue: VenueRecord)
    ensures Extends(t, WithVenue(t, venue))
    ensures HasUrl(venue) ==> venue.url.value in WithVenue(t, venue).venues
  {
    if HasUrl(venue) && venue.url.value !in t.venues {
      AddVenueGrows(t, venue.url.value, venue.name, venue.address);
    }
  }

  lemma AfterLeaguePageGrows(slug: string -> string, s: State, site: Site, leagueId: int, league: LeagueLink, toUtc: LocalDateTime -> string)
    ensures Extends(s.tables, AfterLeaguePage(slug, s, site, leagueId, league, toUtc).tables)
  {
    var venue := PageVenue(site, league, s.cache).0;
    var t := WithVenue(s.tables, venue);
    WithVenueGrows(s.tables, venue);
    AfterFixturesGrows(slug, t, leagueId, VenueIdOf(t, venue), FixturesOf(site, league), toUtc);
    ExtendsTransitive(s.tables, t, AfterLeaguePage(slug, s, site, leagueId, league, toUtc).tables);
  }

  /** A league's page stores its venue and every one of its fixtures under `leagueId`. */
  lemma AfterLeaguePageStores(slug: string -> string, s: State, site: Site, leagueId: int, league: LeagueLink, toUtc: LocalDateTime -> string)
    requires HasLeagueId(s.tables.leagues, leagueId)
    ensures var r := AfterLeaguePage(slug, s, site, leagueId, league, toUtc).tables;
      VenueStored(r, site, league) && FixturesStored(slug, r, leagueId, FixturesOf(site, league), toUtc)
  {
    var venue := PageVenue(site, league, s.cache).0;
    var t := WithVenue(s.tables, venue);
    WithVenueGrows(s.tables, venue);
    PageVenueUrl(site, league, s.cache);
    ExtendsKeepsIds(s.tables, t);
    var venueId := VenueIdOf(t, venue);
    if venueId.Some? {
      assert HasVenueId(t.venues, venueId.value) by {
        assert t.venues[venue.url.value].id == venueId.value;
      }
    }
    AfterFixturesStores(slug, t, leagueId, venueId, FixturesOf(site, league), toUtc);
    AfterFixturesGrows(slug, t, leagueId, venueId, FixturesOf(site, league), toUtc);
  }

  /** Over tables that already store the venue and the fixtures of a page, the page writes no row. */
  lemma AfterLeaguePageIdle(slug: string -> string, s: State, site: Site, leagueId: int, league: LeagueLink, toUtc: LocalDateTime -> string)
    requires VenueStored(s.tables, site, league) && FixturesStored(slug, s.tables, leagueId, FixturesOf(site, league), toUtc)
    ensures SameRows(AfterLeaguePage(slug, s, site, leagueId, league, toUtc).tables, s.tables)
  {
    var venue := PageVenue(site, league, s.cache).0;
    var t := WithVenue(s.tables, venue);
    PageVenueUrl(site, league, s.cache);
    assert SameRows(s.tables, t);
    FixturesStoredGrow(slug, s.tables, t, leagueId, FixturesOf(site, league), toUtc);
    AfterFixturesIdle(slug, t, leagueId, VenueIdOf(t, venue), FixturesOf(site, league), toUtc);
  }

  /** A league's page adds at most its venue, and its fixtures' teams and tuples under `leagueId`. */
  lemma AfterLeaguePageAdds(slug: string -> string, s: State, site: Site, leagueId: int, league: LeagueLink, toUtc: LocalDateTime -> string)
    ensures var r := AfterLeaguePage(slug, s, site, leagueId, league, toUtc).tables;
      && r.groups == s.tables.groups && r.leagues == s.tables.leagues
      && (forall u :: u in r.venues && u !in s.tables.venues ==> VenueUrlOf(site, league) == Some(u))
      && (forall n :: n in r.teams && n !in s.tables.teams ==> TeamIn(slug, FixturesOf(site, league), n))
      && (forall k :: k in r.fixtures && k !in s.tables.fixtures ==> KeyIn(slug, r, leagueId, FixturesOf(site, league), k, toUtc))
  {
    var venue := PageVenue(site, league, s.cache).0;
    var t := WithVenue(s.tables, venue);
    PageVenueUrl(site, league, s.cache);
    AfterFixturesAdds(slug, t, leagueId, VenueIdOf(t, venue), FixturesOf(site, league), toUtc);
    assert forall u :: u in t.venues && u !in s.tables.venues ==> VenueUrlOf(site, league) == Some(u);
  }

  // ---------------------------------------------------------------- one league

  lemma AfterLeagueGrows(slug: string -> string, s: State, site: Site, groupId: int, league: LeagueLink, toUtc: LocalDateTime -> string)
    requires AfterLeague(slug, s, site, groupId, league, toUtc).Some?
    ensures Extends(s.tables, AfterLeague(slug, s, site, groupId, league, toUtc).value.tables)
  {
    var ls := slug(league.name);
    if ls in s.tables.leagues {
      var t := SkipLeagueId(s.tables);
      AfterLeaguePageGrows(slug, State(t, s.cache), site, s.tables.leagues[ls].id, league, toUtc);
      ExtendsTransitive(s.tables, t, AfterLeague(slug, s, site, groupId, league, toUtc).value.tables);
    } else {
      var t := AddLeague(s.tables, ls, groupId, league.name, league.url);
      AddLeagueGrows(s.tables, ls, groupId, league.name, league.url);
      AfterLeaguePageGrows(slug, State(t, s.cache), site, t.leagues[ls].id, league, toUtc);
      ExtendsTransitive(s.tables, t, AfterLeague(slug, s, site, groupId, league, toUtc).value.tables);
    }
  }

  /** A league that does not raise is stored: its row, its venue and all its fixtures. */
  lemma AfterLeagueStores(slug: string -> string, s: State, site: Site, groupId: int, league: LeagueLink, toUtc: LocalDateTime -> string)
    requires AfterLeague(slug, s, site, groupId, league, toUtc).Some?
    ensures LeagueStored(slug, AfterLeague(slug, s, site, groupId, league, toUtc).value.tables, site, league, toUtc)
  {
    var ls := slug(league.name);
    var t := if ls in s.tables.leagues then SkipLeagueId(s.tables) else AddLeague(s.tables, ls, groupId, league.name, league.url);
    assert HasLeagueId(t.leagues, t.leagues[ls].id);
    AfterLeaguePageStores(slug, State(t, s.cache), site, t.leagues[ls].id, league, toUtc);
    AfterLeaguePageAdds(slug, State(t, s.cache), site, t.leagues[ls].id, league, toUtc);
  }

  /** Over tables that already store a league, its step does not raise and writes no row. */
  lemma AfterLeagueIdle(slug: string -> string, s: State, site: Site, groupId: int, league: LeagueLink, toUtc: LocalDateTime -> string)
    requires LeagueStored(slug, s.tables, site, league, toUtc)
    ensures AfterLeague(slug, s, site, groupId, league, toUtc).Some?
    ensures SameRows(AfterLeague(slug, s, site, groupId, league, toUtc).value.tables, s.tables)
  {
    var t := SkipLeagueId(s.tables);
    LeagueStoredGrows(slug, s.tables, t, site, league, toUtc);
    AfterLeaguePageIdle(slug, State(t, s.cache), site, s.tables.leagues[slug(league.name)].id, league, toUtc);
  }

  /** A league's step adds at most its own row, and what its page adds. */
  lemma AfterLeagueAdds(slug: string -> string, s: State, site: Site, groupId: int, league: LeagueLink, toUtc: LocalDateTime -> string)
    requires AfterLeague(slug, s, site, groupId, league, toUtc).Some?
    ensures LeaguesAddOnly(slug, s.tables, AfterLeague(slug, s, site, groupId, league, toUtc).value.tables, site, [league], toUtc)
  {
    var ls := slug(league.name);
    var t := if ls in s.tables.leagues then SkipLeagueId(s.tables) else AddLeague(s.tables, ls, groupId, league.name, league.url);
    var r := AfterLeague(slug, s, site, groupId, league, toUtc).value.tables;
    AfterLeaguePageAdds(slug, State(t, s.cache), site, t.leagues[ls].id, league, toUtc);
    assert league in [league];
    forall k | k in r.fixtures && k !in s.tables.fixtures
      ensures KeyInLeagues(slug, r, site, [league], k, toUtc)
    {
      assert LeagueKey(slug, r, site, league, k, toUtc);
    }
  }

  // ---------------------------------------------------------------- the league loop

  lemma {:induction false} AfterLeaguesGrows(slug: string -> string, s: State, site: Site, groupId: int, leagues: seq<LeagueLink>,
                                             toUtc: LocalDateTime -> string)
    ensures Extends(s.tables, AfterLeagues(slug, s, site, groupId, leagues, toUtc).0.tables)
    decreases |leagues|
  {
    if leagues != [] && AfterLeague(slug, s, site, groupId, leagues[0], toUtc).Some? {
      var next := AfterLeague(slug, s, site, groupId, leagues[0], toUtc).value;
      AfterLeagueGrows(slug, s, site, groupId, leagues[0], toUtc);
      AfterLeaguesGrows(slug, next, site, groupId, leagues[1..], toUtc);
      ExtendsTransitive(s.tables, next.tables, AfterLeagues(slug, next, site, groupId, leagues[1..], toUtc).0.tables);
    }
  }

  /** A step that does not raise keeps the group's id. */
  lemma AfterLeagueKeepsGroup(slug: string -> string, s: State, site: Site, groupId: int, league: LeagueLink, toUtc: LocalDateTime -> string)
    requires AfterLeague(slug, s, site, groupId, league, toUtc).Some?
    ensures AfterLeague(slug, s, site, groupId, league, toUtc).value.tables.groups == s.tables.groups
  {
    var ls := slug(league.name);
    var t := if ls in s.tables.leagues then SkipLeagueId(s.tables) else AddLeague(s.tables, ls, groupId, league.name, league.url);
    AfterLeaguePageAdds(slug, State(t, s.cache), site, t.leagues[ls].id, league, toUtc);
  }

  /**
    The league loop of a group that has a row either stores every league,
    or stops at a league whose slug has no row because another league
    already holds its URL.
   */
  lemma {:induction false} AfterLeaguesStores(slug: string -> string, s: State, site: Site, groupId: int, leagues: seq<LeagueLink>,
                                              toUtc: LocalDateTime -> string)
    requires HasGroupId(s.tables.groups, groupId)
    ensures var (r, failed) := AfterLeagues(slug, s, site, groupId, leagues, toUtc);
      && (failed.None? ==> LeaguesStored(slug, r.tables, site, leagues, toUtc))
      && (failed.Some? ==>
            && failed.value in leagues
            && slug(failed.value.name) !in r.tables.leagues && UrlTaken(r.tables.leagues, failed.value.url))
    decreases |leagues|
  {
    if leagues != [] {
      var first := AfterLeague(slug, s, site, groupId, leagues[0], toUtc);
      if first.Some? {
        var next := first.value;
        var (r, failed) := AfterLeagues(slug, next, site, groupId, leagues[1..], toUtc);
        AfterLeagueStores(slug, s, site, groupId, leagues[0], toUtc);
        AfterLeagueKeepsGroup(slug, s, site, groupId, leagues[0], toUtc);
        AfterLeaguesStores(slug, next, site, groupId, leagues[1..], toUtc);
        if failed.None? {
          AfterLeaguesGrows(slug, next, site, groupId, leagues[1..], toUtc);
          LeagueStoredGrows(slug, next.tables, r.tables, site, leagues[0], toUtc);
          forall l | l in leagues
            ensures LeagueStored(slug, r.tables, site, l, toUtc)
          {
            if l != leagues[0] {
              assert l in leagues[1..];
            }
          }
        } else {
          assert failed.value in leagues[1..];
        }
      }
    }
  }

  /** Over tables that already store every league of the list, the league loop does not stop and writes no row. */
  lemma {:induction false} AfterLeaguesIdle(slug: string -> string, s: State, site: Site, groupId: int, leagues: seq<LeagueLink>,
                                            toUtc: LocalDateTime -> string)
    requires LeaguesStored(slug, s.tables, site, leagues, toUtc)
    ensures AfterLeagues(slug, s, site, groupId, leagues, toUtc).1.None?
    ensures SameRows(AfterLeagues(slug, s, site, groupId, leagues, toUtc).0.tables, s.tables)
    decreases |leagues|
  {
    if leagues != [] {
      AfterLeagueIdle(slug, s, site, groupId, leagues[0], toUtc);
      var next := AfterLeague(slug, s, site, groupId, leagues[0], toUtc).value;
      forall l | l in leagues[1..]
        ensures LeagueStored(slug, next.tables, site, l, toUtc)
      {
        assert l in leagues;
        LeagueStoredGrows(slug, s.tables, next.tables, site, l, toUtc);
      }
      AfterLeaguesIdle(slug, next, site, groupId, leagues[1..], toUtc);
    }
  }

  /** The league loop adds only rows of the listed leagues: the leagues, their venues, teams and fixtures. */
  lemma {:induction false} AfterLeaguesAdds(slug: string -> string, s: State, site: Site, groupId: int, leagues: seq<LeagueLink>,
                                            toUtc: LocalDateTime -> string)
    ensures LeaguesAddOnly(slug, s.tables, AfterLeagues(slug, s, site, groupId, leagues, toUtc).0.tables, site, leagues, toUtc)
    decreases |leagues|
  {
    if leagues != [] && AfterLeague(slug, s, site, groupId, leagues[0], toUtc).Some? {
      var a := s.tables;
      var m := AfterLeague(slug, s, site, groupId, leagues[0], toUtc).value;
      var b := AfterLeagues(slug, m, site, groupId, leagues[1..], toUtc).0.tables;
      AfterLeagueAdds(slug, s, site, groupId, leagues[0], toUtc);
      AfterLeaguesAdds(slug, m, site, groupId, leagues[1..], toUtc);
      AfterLeaguesGrows(slug, m, site, groupId, leagues[1..], toUtc);
      assert leagues[0] in leagues;
      forall n | n in b.leagues && n !in a.leagues
        ensures LeagueIn(slug, leagues, n)
      {
        if n !in m.tables.leagues {
          var l :| l in leagues[1..] && n == slug(l.name);
          assert l in leagues;
        }
      }
      forall u | u in b.venues && u !in a.venues
        ensures VenueIn(site, leagues, u)
      {
        if u !in m.tables.venues {
          var l :| l in leagues[1..] && VenueUrlOf(site, l) == Some(u);
          assert l in leagues;
        }
      }
      forall n | n in b.teams && n !in a.teams
        ensures TeamInLeagues(slug, site, leagues, n)
      {
        if n !in m.tables.teams {
          var l :| l in leagues[1..] && TeamIn(slug, FixturesOf(site, l), n);
          assert l in leagues;
        }
      }
      forall k | k in b.fixtures && k !in a.fixtures
        ensures KeyInLeagues(slug, b, site, leagues, k, toUtc)
      {
        if k in m.tables.fixtures {
          KeyInLeaguesGrows(slug, m.tables, b, site, [leagues[0]], k, toUtc);
          var l :| l in [leagues[0]] && LeagueKey(slug, b, site, l, k, toUtc);
        } else {
          var l :| l in leagues[1..] && LeagueKey(slug, b, site, l, k, toUtc);
          assert l in leagues;
        }
      }
    }
  }

  /**
    As written, `get_or_create_league` reads the id back by slug only. Two
    leagues of one group with different slugs but the same URL: the first
    gets a row, the second's INSERT is ignored because of the URL, no row
    has its slug, and the crawl stops there.
   */
  lemma SharedUrlStopsLeagues(slug: string -> string, s: State, site: Site, groupId: int, a: LeagueLink, b: LeagueLink,
                              toUtc: LocalDateTime -> string)
    requires HasGroupId(s.tables.groups, groupId)
    requires slug(a.name) !in s.tables.leagues && !UrlTaken(s.tables.leagues, a.url)
    requires slug(b.name) !in s.tables.leagues && slug(b.name) != slug(a.name) && b.url == a.url
    ensures AfterLeagues(slug, s, site, groupId, [a, b], toUtc).1 == Some(b)
  {
    var t := AddLeague(s.tables, slug(a.name), groupId, a.name, a.url);
    var m := AfterLeague(slug, s, site, groupId, a, toUtc).value;
    AfterLeaguePageAdds(slug, State(t, s.cache), site, t.leagues[slug(a.name)].id, a, toUtc);
    assert m.tables.leagues == t.leagues;
    assert UrlTaken(m.tables.leagues, b.url) by {
      assert m.tables.leagues[slug(a.name)].url == b.url;
    }
    assert AfterLeague(slug, m, site, groupId, b, toUtc).None?;
    assert [a, b][1..] == [b];
  }

  /**
    With the corrected lookup the same two leagues do not stop the crawl:
    the second is stored under the first one's league row.
   */
  lemma SharedUrlReusesLeague(slug: string -> string, s: State, site: Site, groupId: int, a: LeagueLink, b: LeagueLink,
                              toUtc: LocalDateTime -> string)
    requires HasGroupId(s.tables.groups, groupId)
    requires slug(a.name) !in s.tables.leagues && !UrlTaken(s.tables.leagues, a.url)
    requires slug(b.name) !in s.tables.leagues && slug(b.name) != slug(a.name) && b.url == a.url
    ensures AfterLeague(slug, s, site, groupId, a, toUtc).Some?
    ensures var m := AfterLeague(slug, s, site, groupId, a, toUtc).value;
      && slug(a.name) in m.tables.leagues
      && AfterLeagueByUrl(slug, m, site, groupId, b, toUtc)
         == Some(AfterLeaguePage(slug, State(SkipLeagueId(m.tables), m.cache), site, m.tables.leagues[slug(a.name)].id, b, toUtc))
  {
    var t := AddLeague(s.tables, slug(a.name), groupId, a.name, a.url);
    var m := AfterLeague(slug, s, site, groupId, a, toUtc).value;
    AfterLeaguePageAdds(slug, State(t, s.cache), site, t.leagues[slug(a.name)].id, a, toUtc);
    assert m.tables.leagues == t.leagues;
    assert forall k :: k in m.tables.leagues && m.tables.leagues[k].url == b.url ==> k == slug(a.name);
    assert UrlTaken(m.tables.leagues, b.url) by {
      assert m.tables.leagues[slug(a.name)].url == b.url;
    }
  }

  /** The corrected step agrees with the code wherever the code does not raise, and raises only without the group's row. */
  lemma LeagueByUrlAgrees(slug: string -> string, s: State, site: Site, groupId: int, league: LeagueLink, toUtc: LocalDateTime -> string)
    ensures AfterLeague(slug, s, site, groupId, league, toUtc).Some? ==>
      AfterLeagueByUrl(slug, s, site, groupId, league, toUtc) == AfterLeague(slug, s, site, groupId, league, toUtc)
    ensures AfterLeagueByUrl(slug, s, site, groupId, league, toUtc).None? <==>
      slug(league.name) !in s.tables.leagues && !UrlTaken(s.tables.leagues, league.url) && !HasGroupId(s.tables.groups, groupId)
  {
  }

  // ---------------------------------------------------------------- one group

  lemma WithGroupGrows(slug: string -> string, t: Tables, name: string)
    ensures Extends(t, WithGroup(slug, t, name)) && slug(name) in WithGroup(slug, t, name).groups
  {
    if slug(name) !in t.groups {
      AddGroupGrows(t, slug(name), name);
    }
  }

  /** `get_or_create_league_group` adds at most the row of its name's slug, and touches no other table. */
  lemma WithGroupAdds(slug: string -> string, t: Tables, name: string)
    ensures var u := WithGroup(slug, t, name);
      && u.leagues == t.leagues && u.venues == t.venues && u.teams == t.teams && u.fixtures == t.fixtures
      && (forall g :: g in u.groups && g !in t.groups ==> g == slug(name))
  {
  }

  lemma AfterGroupGrows(slug: string -> string, s: State, site: Site, group: GroupLink, toUtc: LocalDateTime -> string)
    ensures Extends(s.tables, AfterGroup(slug, s, site, group, toUtc).0.tables)
  {
    var t := WithGroup(slug, s.tables, group.name);
    WithGroupGrows(slug, s.tables, group.name);
    AfterLeaguesGrows(slug, State(t, s.cache), site, t.groups[slug(group.name)].id, LeaguesOf(site, group), toUtc);
    ExtendsTransitive(s.tables, t, AfterGroup(slug, s, site, group, toUtc).0.tables);
  }

  /** A group is stored with all its leagues, or its league loop stopped at a league whose URL another league holds. */
  lemma AfterGroupStores(slug: string -> string, s: State, site: Site, group: GroupLink, toUtc: LocalDateTime -> string)
    ensures var (r, failed) := AfterGroup(slug, s, site, group, toUtc);
      && (failed.None? ==> GroupStored(slug, r.tables, site, group, toUtc))
      && (failed.Some? ==>
            && failed.value in LeaguesOf(site, group)
            && slug(failed.value.name) !in r.tables.leagues && UrlTaken(r.tables.leagues, failed.value.url))
  {
    var t := WithGroup(slug, s.tables, group.name);
    var groupId := t.groups[slug(group.name)].id;
    WithGroupGrows(slug, s.tables, group.name);
    assert HasGroupId(t.groups, groupId);
    AfterLeaguesStores(slug, State(t, s.cache), site, groupId, LeaguesOf(site, group), toUtc);
    AfterLeaguesGrows(slug, State(t, s.cache), site, groupId, LeaguesOf(site, group), toUtc);
  }

  /** Over tables that already store a group, its step does not stop and writes no row. */
  lemma AfterGroupIdle(slug: string -> string, s: State, site: Site, group: GroupLink, toUtc: LocalDateTime -> string)
    requires GroupStored(slug, s.tables, site, group, toUtc)
    ensures AfterGroup(slug, s, site, group, toUtc).1.None?
    ensures SameRows(AfterGroup(slug, s, site, group, toUtc).0.tables, s.tables)
  {
    var t := WithGroup(slug, s.tables, group.name);
    assert SameRows(s.tables, t);
    LeaguesStoredGrow(slug, s.tables, t, site, LeaguesOf(site, group), toUtc);
    AfterLeaguesIdle(slug, State(t, s.cache), site, t.groups[slug(group.name)].id, LeaguesOf(site, group), toUtc);
  }

  /** A group's step adds at most the group's row and what its league loop adds. */
  lemma AfterGroupAdds(slug: string -> string, s: State, site: Site, group: GroupLink, toUtc: LocalDateTime -> string)
    ensures GroupsAddOnly(slug, s.tables, AfterGroup(slug, s, site, group, toUtc).0.tables, site, [group], toUtc)
  {
    var a := s.tables;
    var t := WithGroup(slug, a, group.name);
    var leagues := LeaguesOf(site, group);
    var b := AfterGroup(slug, s, site, group, toUtc).0.tables;
    WithGroupAdds(slug, a, group.name);
    AfterLeaguesAdds(slug, State(t, s.cache), site, t.groups[slug(group.name)].id, leagues, toUtc);
    assert group in [group];
    forall n | n in b.leagues && n !in a.leagues
      ensures exists g :: g in [group] && LeagueIn(slug, LeaguesOf(site, g), n)
    {
      assert LeagueIn(slug, leagues, n);
    }
    forall u | u in b.venues && u !in a.venues
      ensures exists g :: g in [group] && VenueIn(site, LeaguesOf(site, g), u)
    {
      assert VenueIn(site, leagues, u);
    }
    forall n | n in b.teams && n !in a.teams
      ensures exists g :: g in [group] && TeamInLeagues(slug, site, LeaguesOf(site, g), n)
    {
      assert TeamInLeagues(slug, site, leagues, n);
    }
    forall k | k in b.fixtures && k !in a.fixtures
      ensures exists g :: g in [group] && KeyInLeagues(slug, b, site, LeaguesOf(site, g), k, toUtc)
    {
      assert KeyInLeagues(slug, b, site, leagues, k, toUtc);
    }
  }

  // ---------------------------------------------------------------- the group loop

  /** What two stretches of the crawl add, each from its own groups, comes from the groups of both. */
  lemma GroupsAddOnlyJoin(slug: string -> string, a: Tables, m: Tables, b: Tables, site: Site,
                          first: seq<GroupLink>, rest: seq<GroupLink>, groups: seq<GroupLink>, toUtc: LocalDateTime -> string)
    requires Extends(m, b)
    requires GroupsAddOnly(slug, a, m, site, first, toUtc) && GroupsAddOnly(slug, m, b, site, rest, toUtc)
    requires forall g :: g in first ==> g in groups
    requires forall g :: g in rest ==> g in groups
    ensures GroupsAddOnly(slug, a, b, site, groups, toUtc)
  {
    forall n | n in b.groups && n !in a.groups
      ensures GroupIn(slug, groups, n)
    {
      var g :| (g in first || g in rest) && n == slug(g.name);
    }
    forall n | n in b.leagues && n !in a.leagues
      ensures exists g :: g in groups && LeagueIn(slug, LeaguesOf(site, g), n)
    {
      var g :| (g in first || g in rest) && LeagueIn(slug, LeaguesOf(site, g), n);
    }
    forall u | u in b.venues && u !in a.venues
      ensures exists g :: g in groups && VenueIn(site, LeaguesOf(site, g), u)
    {
      var g :| (g in first || g in rest) && VenueIn(site, LeaguesOf(site, g), u);
    }
    forall n | n in b.teams && n !in a.teams
      ensures exists g :: g in groups && TeamInLeagues(slug, site, LeaguesOf(site, g), n)
    {
      var g :| (g in first || g in rest) && TeamInLeagues(slug, site, LeaguesOf(site, g), n);
    }
    forall k | k in b.fixtures && k !in a.fixtures
      ensures exists g :: g in groups && KeyInLeagues(slug, b, site, LeaguesOf(site, g), k, toUtc)
    {
      if k in m.fixtures {
        var g :| g in first && KeyInLeagues(slug, m, site, LeaguesOf(site, g), k, toUtc);
        KeyInLeaguesGrows(slug, m, b, site, LeaguesOf(site, g), k, toUtc);
      } else {
        var g :| g in rest && KeyInLeagues(slug, b, site, LeaguesOf(site, g), k, toUtc);
      }
    }
  }

  lemma {:induction false} AfterGroupsGrows(slug: string -> string, s: State, site: Site, groups: seq<GroupLink>,
                                            toUtc: LocalDateTime -> string)
    ensures Extends(s.tables, AfterGroups(slug, s, site, groups, toUtc).0.tables)
    decreases |groups|
  {
    if groups != [] {
      var (m, failed) := AfterGroup(slug, s, site, groups[0], toUtc);
      AfterGroupGrows(slug, s, site, groups[0], toUtc);
      if failed.None? {
        AfterGroupsGrows(slug, m, site, groups[1..], toUtc);
        ExtendsTransitive(s.tables, m.tables, AfterGroups(slug, m, site, groups[1..], toUtc).0.tables);
      }
    }
  }

  /** The group loop stores every group, or stops at a league whose URL another league holds. */
  lemma {:induction false} AfterGroupsStores(slug: string -> string, s: State, site: Site, groups: seq<GroupLink>,
                                             toUtc: LocalDateTime -> string)
    ensures var (r, failed) := AfterGroups(slug, s, site, groups, toUtc);
      && (failed.None? ==> GroupsStored(slug, r.tables, site, groups, toUtc))
      && (failed.Some? ==> slug(failed.value.name) !in r.tables.leagues && UrlTaken(r.tables.leagues, failed.value.url))
    decreases |groups|
  {
    if groups != [] {
      var (m, first) := AfterGroup(slug, s, site, groups[0], toUtc);
      AfterGroupStores(slug, s, site, groups[0], toUtc);
      if first.None? {
        var (r, failed) := AfterGroups(slug, m, site, groups[1..], toUtc);
        AfterGroupsStores(slug, m, site, groups[1..], toUtc);
        if failed.None? {
          AfterGroupsGrows(slug, m, site, groups[1..], toUtc);
          GroupStoredGrows(slug, m.tables, r.tables, site, groups[0], toUtc);
          forall g | g in groups
            ensures GroupStored(slug, r.tables, site, g, toUtc)
          {
            if g != groups[0] {
              assert g in groups[1..];
            }
          }
        }
      }
    }
  }

  /** Over tables that already store every group of the list, the group loop does not stop and writes no row. */
  lemma {:induction false} AfterGroupsIdle(slug: string -> string, s: State, site: Site, groups: seq<GroupLink>,
                                           toUtc: LocalDateTime -> string)
    requires GroupsStored(slug, s.tables, site, groups, toUtc)
    ensures AfterGroups(slug, s, site, groups, toUtc).1.None?
    ensures SameRows(AfterGroups(slug, s, site, groups, toUtc).0.tables, s.tables)
    decreases |groups|
  {
    if groups != [] {
      AfterGroupIdle(slug, s, site, groups[0], toUtc);
      var m := AfterGroup(slug, s, site, groups[0], toUtc).0;
      forall g | g in groups[1..]
        ensures GroupStored(slug, m.tables, site, g, toUtc)
      {
        assert g in groups;
        GroupStoredGrows(slug, s.tables, m.tables, site, g, toUtc);
      }
      AfterGroupsIdle(slug, m, site, groups[1..], toUtc);
    }
  }

  /** The group loop adds only rows of the listed groups and of the leagues, venues, teams and fixtures their pages show. */
  lemma {:induction false} AfterGroupsAdds(slug: string -> string, s: State, site: Site, groups: seq<GroupLink>,
                                           toUtc: LocalDateTime -> string)
    ensures GroupsAddOnly(slug, s.tables, AfterGroups(slug, s, site, groups, toUtc).0.tables, site, groups, toUtc)
    decreases |groups|
  {
    if groups != [] {
      var (m, first) := AfterGroup(slug, s, site, groups[0], toUtc);
      AfterGroupAdds(slug, s, site, groups[0], toUtc);
      var b := AfterGroups(slug, s, site, groups, toUtc).0;
      if first.None? {
        AfterGroupsAdds(slug, m, site, groups[1..], toUtc);
        AfterGroupsGrows(slug, m, site, groups[1..], toUtc);
        GroupsAddOnlyJoin(slug, s.tables, m.tables, b.tables, site, [groups[0]], groups[1..], groups, toUtc);
      } else {
        GroupsAddOnlyJoin(slug, s.tables, m.tables, m.tables, site, [groups[0]], [], groups, toUtc);
      }
    }
  }

  // ---------------------------------------------------------------- the whole crawl

  /**
    A crawl only adds rows. When it does not stop, every group it visits
    is stored with all its leagues, venues and fixtures; when it stops, it
    names a league that has no row because another league holds its URL.
   */
  lemma CrawlStores(slug: string -> string, s: State, site: Site, limit: Option<int>, toUtc: LocalDateTime -> string)
    ensures var (r, failed) := Crawl(slug, s, site, limit, toUtc);
      && Extends(s.tables, r.tables)
      && (failed.None? ==> GroupsStored(slug, r.tables, site, ApplyLimit(GroupsOf(site), limit), toUtc))
      && (failed.Some? ==> slug(failed.value.name) !in r.tables.leagues && UrlTaken(r.tables.leagues, failed.value.url))
  {
    AfterGroupsGrows(slug, s, site, ApplyLimit(GroupsOf(site), limit), toUtc);
    AfterGroupsStores(slug, s, site, ApplyLimit(GroupsOf(site), limit), toUtc);
  }

  /**
    A crawl over tables that already store everything it visits does not
    stop and writes no row; only the AUTOINCREMENT counters move.
   */
  lemma CrawlIdle(slug: string -> string, s: State, site: Site, limit: Option<int>, toUtc: LocalDateTime -> string)
    requires GroupsStored(slug, s.tables, site, ApplyLimit(GroupsOf(site), limit), toUtc)
    ensures Crawl(slug, s, site, limit, toUtc).1.None?
    ensures SameRows(Crawl(slug, s, site, limit, toUtc).0.tables, s.tables)
  {
    AfterGroupsIdle(slug, s, site, ApplyLimit(GroupsOf(site), limit), toUtc);
  }

  /** A second crawl of the same site after a complete one writes no row, whatever the venue cache holds. */
  lemma CrawlTwice(slug: string -> string, s: State, site: Site, limit: Option<int>, toUtc: LocalDateTime -> string)
    ensures var (r, failed) := Crawl(slug, s, site, limit, toUtc);
      failed.None? ==> Crawl(slug, r, site, limit, toUtc).1.None? && SameRows(Crawl(slug, r, site, limit, toUtc).0.tables, r.tables)
  {
    var (r, failed) := Crawl(slug, s, site, limit, toUtc);
    CrawlStores(slug, s, site, limit, toUtc);
    if failed.None? {
      CrawlIdle(slug, r, site, limit, toUtc);
    }
  }

  /**
    Every row a crawl adds comes from the site: a group of the finder page
    (up to `limit`), a league listed on such a group's page, the venue of
    such a league's page, or a team or fixture on such a page.
   */
  lemma CrawlAdds(slug: string -> string, s: State, site: Site, limit: Option<int>, toUtc: LocalDateTime -> string)
    ensures GroupsAddOnly(slug, s.tables, Crawl(slug, s, site, limit, toUtc).0.tables, site, ApplyLimit(GroupsOf(site), limit), toUtc)
  {
    AfterGroupsAdds(slug, s, site, ApplyLimit(GroupsOf(site), limit), toUtc);
  }
}
