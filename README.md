# Football fixtures to calendars, modelled in Dafny

This project models the two scripts that turn the fixture pages of a
football website into iCalendar files.

- **generate_ics_bulk.py** crawls the site. It reads the league groups
  listed in the finder page's dropdown, then the leagues of each group
  page, then the fixtures and the venue of each league page. It stores all
  of it in an SQLite database of five tables (league groups, leagues,
  venues, teams, fixtures). Every lookup goes through get-or-create by
  slug or by URL. Pages are fetched with up to three attempts and 1, 2, 4
  second back-off. Venue addresses are cached for the run. Afterwards one
  calendar per team (and, on request, per league) is built from the
  stored rows.
- **generate_ics.py** reads the fixtures table of a single team from one
  page and writes a one-hour event per match against that team's
  opponents.

The model keeps the scripts' own structure:

- `Text`: stripping, splitting and substring search.
- `Slug`: `slugify`.
- `Http`: `safe_get` over a network given as a function from attempt number
  to reply.
- `VenueCache`: `fetch_venue_address` on a class whose field is the cache.
- `Extract`: the three page parsers, each as a specification function plus
  the loop method that builds the same list.
- `Repository`: the tables and the get-or-create operations, as a
  `Database` class whose methods update its tables.
- `CrawlModel` and `CrawlFacts`: `crawl_and_populate_db` as functions from
  state to state, and what those states contain.
- `Crawl`: the crawl's three nested loops as methods, proved to leave the
  state `CrawlModel` computes.
- `Calendar`: `_build_ics` and the two `event_namer`s.
- `TeamSchedule`: generate_ics.py.

HTML is given as the values the parsers' document queries return (the
dropdown's options, the headings, the table cells), not as markup. The
conversion between local and UTC time, the date of a league page's panel
and `strptime` of the single-team page are parameters.

## Model

| member | source | states |
|---|---|---|
| Slug.SlugAlphabet | generate_ics_bulk.py:106-107 | a slug contains only lower-case letters, digits and underscores |
| Slug.SlugEnds | generate_ics_bulk.py:106-107 | a slug neither starts nor ends with an underscore (the final `strip("_")`) |
| Slug.SlugIdempotent | generate_ics_bulk.py:106-107 | slugifying a slug gives it back unchanged |
| Slug.CollapseKeepsWords | generate_ics_bulk.py:107 | collapsing runs of non-word characters leaves a text of word characters unchanged |
| Slug.LowerKeepsSlug | generate_ics_bulk.py:107 | lower-casing leaves a text of slug characters unchanged |
| Slug.CollapseAlphabet | generate_ics_bulk.py:107 | after the non-word runs become `_`, only slug characters remain when every word character was one |
| Slug.LowerAlphabet | generate_ics_bulk.py:107 | after lower-casing, every word character is a slug character |
| Repository.Database.constructor | generate_ics_bulk.py:43-103 | `init_db` on a fresh file gives five empty tables that satisfy every UNIQUE and REFERENCES constraint |
| Repository.Database.GetOrCreateLeagueGroup | generate_ics_bulk.py:110-119 | afterwards the name's slug has a row and the returned id is that row's; a new row, with the next AUTOINCREMENT id, is added exactly when the slug had none; otherwise no row is written but the ignored insert still uses up an id |
| Repository.Database.GetOrCreateTeam | generate_ics_bulk.py:152-160 | the same for teams |
| Repository.Database.GetOrCreateLeague | generate_ics_bulk.py:122-134 | the id of the slug's row; raises when another league already holds the URL and the slug has no row, or when the group id has no row (foreign key); otherwise adds the row under the next id. An insert ignored for its slug or URL uses up an id; the foreign-key failure changes nothing |
| Repository.Database.GetOrCreateLeagueByUrl | generate_ics_bulk.py:122-134 | the corrected lookup: raises only for a missing group; a URL already stored yields that row's id and writes no row |
| Repository.Database.GetOrCreateVenue | generate_ics_bulk.py:137-149 | no id and no write for a missing or empty URL; otherwise the URL's row, added only when absent; an ignored insert still uses up an id |
| Repository.Database.InsertFixture | generate_ics_bulk.py:163-184 | an id exactly when the UNIQUE tuple is new and every referenced league, team and venue exists; otherwise `None` and no write |
| Repository.SameSlugSameTeam | generate_ics_bulk.py:152-160 | two names with one slug resolve to one team id, and the table grows by at most one row |
| Repository.FixtureStoredOnce | generate_ics_bulk.py:163-184 | inserting the same fixture twice stores it once, and the first result is kept |
| Repository.AddLeagueValid | generate_ics_bulk.py:68-77 | a league row with a fresh slug and URL, under an existing group, keeps every schema constraint |
| Repository.AddFixtureValid | generate_ics_bulk.py:88-99 | a fixture row with a fresh tuple and existing references keeps every schema constraint |
| Http.FirstSuccess | generate_ics_bulk.py:195-199 | the first attempt whose reply is neither a connection error nor a 4xx/5xx status, if any of the three is |
| Http.FetchSucceedsIff | generate_ics_bulk.py:190-204 | `safe_get` returns a response exactly when one of the three attempts succeeds |
| Http.SafeGet | generate_ics_bulk.py:190-204 | returns the first successful reply, sleeping 1, 2, 4 seconds after the failed attempts before it; `None` exactly when it slept three times |
| VenueCache.NonEmpty | generate_ics_bulk.py:292-295 | the kept lines contain no empty string |
| VenueCache.AddressNeverEmpty | generate_ics_bulk.py:262-298 | an address is never empty, and it is the default location when the page failed or has no address block |
| VenueCache.AddressSingleLine | generate_ics_bulk.py:292-296 | with one non-empty line after the heading, the address is that line |
| VenueCache.CollectAddressLines | generate_ics_bulk.py:291-295 | the loop keeps the non-empty paragraphs after the first, in order |
| VenueCache.Cache.FetchVenueAddress | generate_ics_bulk.py:262-298 | an empty URL gives the default; a cached URL gives its address and no request; otherwise one `safe_get` whose address is cached, failures included |
| Extract.KeptOptionsAppend | generate_ics_bulk.py:229-235 | the option filter distributes over concatenation, so order is kept |
| Extract.KeptOptionsComplete | generate_ics_bulk.py:230-234 | every option with a non-empty value other than `/find_league` is listed |
| Extract.KeptOptionsSound | generate_ics_bulk.py:230-234 | every listed group comes from such an option |
| Extract.CollectGroupLinks | generate_ics_bulk.py:229-235 | the option loop yields the filtered list |
| Extract.FetchLeagueGroupLinks | generate_ics_bulk.py:210-235 | no groups when the page fails or has no dropdown, otherwise the filtered options |
| Extract.LeagueNameDropsMarker | generate_ics_bulk.py:255 | a league name never contains "View Fixtures" |
| Extract.LeagueNameWithoutMarker | generate_ics_bulk.py:255 | a heading without the marker gives its stripped text |
| Extract.ParsedLeaguesWellFormed | generate_ics_bulk.py:251-259 | every parsed league has a non-empty URL and a name without the marker |
| Extract.ParsedLeaguesComplete | generate_ics_bulk.py:251-259 | every heading with a link and a non-empty href gives a league |
| Extract.ParsedLeaguesAppend | generate_ics_bulk.py:251-259 | the heading loop keeps document order |
| Extract.CollectLeagueLinks | generate_ics_bulk.py:249-259 | the heading loop yields the parsed list |
| Extract.ParseLeagueGroup | generate_ics_bulk.py:238-259 | no leagues when the page fails, otherwise the parsed list |
| Extract.ClockRoundTrip | generate_ics_bulk.py:362-366 | every hour and minute written `HH:MM` parses back to itself |
| Extract.ClockInRange | generate_ics_bulk.py:362-366 | a parsed time has hour below 24 and minute below 60 |
| Extract.RowFixtureRule | generate_ics_bulk.py:358-390 | a row yields a fixture exactly when it has four cells, a valid time and links in cells 1 and 3; the fixture's kick-off, names and result are those cells' |
| Extract.SectionResults | generate_ics_bulk.py:377-379 | a fixture has a result exactly when it comes from the results section |
| Extract.CollectRowFixtures | generate_ics_bulk.py:358-390 | the row loop yields the fixtures of the valid rows, in order |
| Extract.CollectPanelFixtures | generate_ics_bulk.py:340-390 | the panel loop skips panels without a title, date, collapse or table |
| Extract.CollectFixtures | generate_ics_bulk.py:335-390 | the upcoming section's fixtures, then the results section's |
| Extract.FirstVenueLink | generate_ics_bulk.py:321 | a venue link is returned exactly when some link's href is `/info/venues/` followed by a digit |
| Extract.FirstVenueLinkIsFirst | generate_ics_bulk.py:321 | it is the first such link in document order |
| Extract.ExtractFixturesFromLeague | generate_ics_bulk.py:301-392 | no fixtures and the unknown venue when the page fails; otherwise the page's fixtures and its first venue link, whose address comes from the cache or one venue fetch |
| CrawlModel.ApplyLimit | generate_ics_bulk.py:404-406 | Python's `[:limit]` when the limit is truthy: a prefix of the groups, all of them for no limit or zero, negative limits counting from the end |
| CrawlFacts.CrawlStores | generate_ics_bulk.py:398-443 | a crawl only adds rows; when nothing raised, every group, league, venue, team and fixture the site lists is stored; when one league raised, its slug has no row and its URL is taken |
| CrawlFacts.CrawlIdle | generate_ics_bulk.py:398-443 | a crawl over tables that already hold the site writes no row and raises nothing; only the AUTOINCREMENT counters advance |
| CrawlFacts.CrawlTwice | generate_ics_bulk.py:398-443 | repeating a crawl that raised nothing writes no row |
| CrawlFacts.CrawlAdds | generate_ics_bulk.py:398-443 | each row a crawl adds is one of the site's groups, leagues, venues, teams or fixtures |
| CrawlFacts.AfterLeaguesStores | generate_ics_bulk.py:415-440 | the league loop stores every league of the group, or names the league whose insert raised |
| CrawlFacts.StoredTeamUsesUpId | generate_ics_bulk.py:152-160 | looking up a stored team uses up an id, so the next new team's id is one past the counter it found ("A v B" then "A v C" leaves a gap before C) |
| CrawlFacts.AfterFixturesAdds | generate_ics_bulk.py:425-437 | the fixture loop adds only the teams and fixtures of its own list |
| CrawlFacts.SharedUrlStopsLeagues | generate_ics_bulk.py:122-134 | two new leagues with different slugs and one URL: the second makes the crawl raise |
| CrawlFacts.SharedUrlReusesLeague | generate_ics_bulk.py:122-134 | with the corrected lookup, the second is stored under the first league's row |
| CrawlFacts.LeagueByUrlAgrees | generate_ics_bulk.py:122-134 | the corrected league step agrees with the code wherever the code does not raise, and fails only without the group's row |
| Crawl.StoreFixture | generate_ics_bulk.py:425-437 | one pass of the fixture loop leaves the state of the fixture step |
| Crawl.StoreFixtures | generate_ics_bulk.py:425-437 | the fixture loop leaves the state of the fixture list |
| Crawl.StoreLeague | generate_ics_bulk.py:416-437 | one league: no row written when its insert raised (the league counter advances when the URL was the reason), otherwise the state of the league step |
| Crawl.StoreLeagues | generate_ics_bulk.py:415-440 | the league loop, one 0.5 s throttle per league completed, stopping at the league that raised |
| Crawl.StoreGroup | generate_ics_bulk.py:410-440 | one group: its row, then its leagues |
| Crawl.CrawlAndPopulate | generate_ics_bulk.py:398-443 | the crawl leaves the modelled state; rows are only added and each comes from the site; when nothing raised everything listed is stored and one throttle ran per league |
| Crawl.RecrawlWritesNothing | generate_ics_bulk.py:398-443 | running the crawl twice: when the first raised nothing, the second raises nothing and writes no row |
| Calendar.ResultDescriptionIff | generate_ics_bulk.py:526-530 | a description exists exactly when the result is non-empty, and the result reads back after "Result: " |
| Calendar.TeamTitle | generate_ics_bulk.py:560-569 | a team event is titled "team vs opponent", the opponent being the away side when the team's id is the home id and the home side otherwise |
| Calendar.TeamTitlesDistinct | generate_ics_bulk.py:560-569 | in one team's calendar two events share a title exactly when they have the same opponent |
| Calendar.LeagueTitle | generate_ics_bulk.py:526-530 | the format of a league event's title: the home name, " vs ", the away name |
| Calendar.LeagueTitleAmbiguous | generate_ics_bulk.py:526-530 | a league title does not determine its sides: "A vs B" against "C" and "A" against "B vs C" share one |
| Calendar.EventFields | generate_ics_bulk.py:472-485 | each event lasts one hour, starts at the row's converted time, and is located at the row's address or the default |
| Calendar.BuildIcs | generate_ics_bulk.py:463-485 | no calendar for no rows; otherwise one event per row under the given creator (the model lists them in row order) |
| Calendar.BuildTeamIcs | generate_ics_bulk.py:535-571 | no calendar for an unknown team slug; otherwise the team's creator line and the team namer |
| Calendar.BuildLeagueIcs | generate_ics_bulk.py:493-532 | no calendar for an unknown league slug or a league without its group row; otherwise the "group → slug" creator line and the league namer |
| TeamSchedule.FirstFixturesHeading | generate_ics.py:30-34 | the first heading whose single text contains the team's "Fixtures" marker, or none when no heading has it |
| TeamSchedule.WordsBlankFree | generate_ics.py:42 | `split()` yields non-empty words free of blanks |
| TeamSchedule.RowRule | generate_ics.py:41-55 | a row raises exactly when it lacks four cells or a parsable date and time; a well-formed row is kept exactly when the team is home or away, with the other side as opponent |
| TeamSchedule.ScheduleAppend | generate_ics.py:40-57 | the list of a table is the list of its first rows followed by that of the rest, so row order is kept; the first error wins |
| TeamSchedule.MalformedRowFails | generate_ics.py:41-48 | one malformed row anywhere, even one the team does not play in, makes the whole fetch raise |
| TeamSchedule.ScheduleOkIff | generate_ics.py:40-59 | the fetch of a table succeeds exactly when every row is well-formed, and then yields the fixture of every kept row, in table order |
| TeamSchedule.ScheduleSound | generate_ics.py:50-57 | every listed fixture comes from a row that keeps it |
| TeamSchedule.CollectFixtures | generate_ics.py:39-59 | the row loop returns the modelled list or error |
| TeamSchedule.MissingHeadingRaises | generate_ics.py:33-34 | a page without the heading raises instead of giving an empty list |
| TeamSchedule.FetchTeamFixtures | generate_ics.py:22-59 | one request without retry; a connection error or 4xx/5xx status raises, then the heading, its container and the rows |
| TeamSchedule.MatchTitleRoundTrip | generate_ics.py:71 | the opponent reads back from the title after "Match Versus " |
| TeamSchedule.MatchTitlesDistinct | generate_ics.py:71 | two events share a title exactly when their fixtures have the same opponent |
| TeamSchedule.BuildCalendar | generate_ics.py:62-77 | one event per fixture (the model lists them in fixture order), titled after the opponent, one hour long at the default location, under the fixed creator line |

## Left out

- Slug.Slugify: word characters, lower-casing and stripping are ASCII only. Python's `\w`, `lower()` and `strip()` are Unicode-aware, so a name such as "Zé" slugifies to "z" here and to "zé" in Python.
- Text.Strip and TeamSchedule.Words: whitespace is the ASCII whitespace plus the separators `\x1c`–`\x1f`. Python's Unicode whitespace beyond that is not modelled.
- Extract.ParseClock: only ASCII digits are accepted. Python's `strptime` also accepts other Unicode decimal digits.
- Extract.Panel: a panel's date is an input, already parsed or absent. The clean-up of the title text (dropping "View:", stripping) and `strptime(..., "%d-%m-%Y")` with its calendar check are not modelled, and a given date is not range-checked.
- Extract.IsVenueHref: only an ASCII digit after `/info/venues/` is accepted. Python's `\d` also matches other Unicode decimal digits.
- CrawlModel.Site: within one crawl, each URL gives the same sequence of replies every time it is fetched. A page fetched twice with different answers (a venue shared by two leagues is fetched only once, through the cache) is not modelled.
- Crawl.CrawlAndPopulate: the back-off sleeps of the page fetches inside the crawl are not reported; only the 0.5 s throttle after each league is counted. `Http.SafeGet` and the extractors do report their sleeps.
- Crawl.CrawlAndPopulate: the crawl follows the code as written. A `get_or_create_league` that raises ends the whole crawl, and rows written before it stay. Every operation commits on its own, so the `with conn:` block has nothing left to roll back. The module doc string's "single transaction" does not describe the code, which commits per operation.
- Http: a failure is a connection error or a 4xx/5xx status (what `raise_for_status` rejects). Other non-2xx statuses count as success, as in the code.
- Repository: `home != away` is not enforced, because the code does not enforce it. `ON DELETE CASCADE` is not modelled, because the crawler never deletes.
- Calendar: the SQL queries behind `_build_ics` (the joins, `COALESCE` and `ORDER BY dt_utc`) are not modelled; the rows are an input. The ICS text that the `ics` library writes is modelled as the creator line and the events.
- Calendar.BuildIcs, Calendar.BuildTeamIcs, Calendar.BuildLeagueIcs and TeamSchedule.BuildCalendar: the `ics` library keeps a calendar's events in a set. The model keeps them in a list in row order, an order the source does not promise.
- Calendar and TeamSchedule: the time-zone conversions (`fromisoformat`/`astimezone`, `strptime`/`replace(tzinfo)`) are parameters. Writing files, creating directories, logging and `main()` are left out.
- email_reminder.py is not part of this model.
- Network access, HTML parsing with BeautifulSoup and real sleeping are replaced by the values they produce.

## Findings

| source | as written | input that shows it | evidently intended | confidence | as-written member | corrected member |
|---|---|---|---|---|---|---|
| generate_ics_bulk.py:122-134 | after `INSERT OR IGNORE`, the id is read back by slug only; when the insert was ignored because the URL is already stored under another slug, no row has the slug and `fetchone()[0]` raises TypeError, ending the crawl | a league renamed on the site but kept at the same URL (stored as "Sunday League", later listed as "Sunday League Div 1"), or two league headings with different names linking to one URL | return the id of the row already holding the URL, as the other get-or-create helpers return the existing row | not executed; high that it raises, medium on the intended fix | CrawlFacts.SharedUrlStopsLeagues | Repository.Database.GetOrCreateLeagueByUrl |

The crawl methods follow the code as written. The corrected lookup is
proved to agree with the code wherever the code does not raise
(`CrawlFacts.LeagueByUrlAgrees`). It is also proved to store the second
league of the example under the first one's row (`CrawlFacts.SharedUrlReusesLeague`).
