/**
  The page extractors of generate_ics_bulk.py: league-group options
  (`fetch_league_names_and_urls`), league headings (`parse_league_group`)
  and fixture rows plus venue (`extract_fixtures_from_league`).
  The HTML itself is abstracted: a page is given as the strings and cells
  the document queries select from it, in document order.
 */
module Extract {
  import opened Wrappers
  import opened Text
  import opened Http
  import opened VenueCache

  // ---------------------------------------------------------------- league groups

  /** One `<option>` of the group drop-down: its stripped text and its raw `value` ("" when absent). */
  datatype SelectOption = SelectOption(text: string, value: string)

  datatype GroupLink = GroupLink(name: string, url: string)

  /** The finder page: the drop-down is missing, or it lists its options. */
  datatype FinderPage = NoDropdown | Dropdown(options: seq<SelectOption>)

  const LeagueFinderPath: string := "/find_league"

  /** An option is kept when its stripped value is non-empty and is not the finder page itself. */
  predicate KeepsOption(o: SelectOption)
  {
    Strip(o.value) != "" && Strip(o.value) != LeagueFinderPath
  }

  function LinkOf(o: SelectOption): GroupLink
  {
    GroupLink(o.text, Strip(o.value))
  }

  /** The group links of the options, in source order. */
  function KeptOptions(opts: seq<SelectOption>): seq<GroupLink>
  {
    if opts == [] then []
    else
      var last := opts[|opts| - 1];
      KeptOptions(opts[..|opts| - 1]) + (if KeepsOption(last) then [LinkOf(last)] else [])
  }

  /** Filtering distributes over concatenation, so the kept links keep the options' order. */
  lemma {:induction false} KeptOptionsAppend(a: seq<SelectOption>, b: seq<SelectOption>)
    ensures KeptOptions(a + b) == KeptOptions(a) + KeptOptions(b)
    decreases |b|
  {
    if b == [] {
      assert a + b == a;
    } else {
      assert (a + b)[..|a + b| - 1] == a + b[..|b| - 1];
      KeptOptionsAppend(a, b[..|b| - 1]);
    }
  }

  /** Every option that passes the filter contributes its link. */
  lemma {:induction false} KeptOptionsComplete(opts: seq<SelectOption>, i: nat)
    requires i < |opts| && KeepsOption(opts[i])
    ensures LinkOf(opts[i]) in KeptOptions(opts)
  {
    if i < |opts| - 1 {
      var init := opts[..|opts| - 1];
      assert init[i] == opts[i];
      KeptOptionsComplete(init, i);
    }
  }

  /** Every kept link comes from an option that passes the filter; `i` is its position. */
  lemma {:induction false} KeptOptionsSound(opts: seq<SelectOption>, g: GroupLink) returns (i: nat)
    requires g in KeptOptions(opts)
    ensures i < |opts| && KeepsOption(opts[i]) && g == LinkOf(opts[i])
  {
    var init, last := opts[..|opts| - 1], opts[|opts| - 1];
    assert KeptOptions(opts) == KeptOptions(init) + (if KeepsOption(last) then [LinkOf(last)] else []);
    if g in KeptOptions(init) {
      i := KeptOptionsSound(init, g);
      assert init[i] == opts[i];
    } else {
      i := |opts| - 1;
    }
  }

  /** The loop over `select.find_all("option")`. */
  method CollectGroupLinks(opts: seq<SelectOption>) returns (groups: seq<GroupLink>)
    ensures groups == KeptOptions(opts)
  {
    groups := [];
    var i := 0;
    while i < |opts|
      invariant 0 <= i <= |opts|
      invariant groups == KeptOptions(opts[..i])
    {
      assert opts[..i + 1][..i] == opts[..i];
      var relative := Strip(opts[i].value);
      if relative != "" && relative != LeagueFinderPath {
        groups := groups + [GroupLink(opts[i].text, relative)];
      }
      i := i + 1;
    }
    assert opts[..i] == opts;
  }

  /** `fetch_league_names_and_urls`: an empty list when the fetch fails or the drop-down is missing. */
  method FetchLeagueGroupLinks(net: nat -> Outcome<FinderPage>) returns (groups: seq<GroupLink>, sleeps: seq<nat>)
    ensures sleeps == Backoff(net)
    ensures Fetch(net).None? ==> groups == []
    ensures Fetch(net) == Some(NoDropdown) ==> groups == []
    ensures Fetch(net).Some? && Fetch(net).value.Dropdown? ==> groups == KeptOptions(Fetch(net).value.options)
  {
    var page;
    page, sleeps := SafeGet(net);
    if page.None? {
      return [], sleeps;
    }
    match page.value
    case NoDropdown =>
      groups := [];
    case Dropdown(options) =>
      groups := CollectGroupLinks(options);
  }

  // ---------------------------------------------------------------- leagues of a group

  /** One `h4.panel-title`: its stripped text and the `href` of its first `<a href>`, if it has one. */
  datatype LeagueHeading = LeagueHeading(text: string, href: Option<string>)

  datatype LeagueLink = LeagueLink(name: string, url: string)

  const FixturesMarker: string := "View Fixtures"

  /** The heading text before the first "View Fixtures", without the blanks around it. */
  function LeagueName(text: string): string
  {
    Strip(PrefixBefore(text, FixturesMarker))
  }

  /** A league name never contains the marker. */
  lemma LeagueNameDropsMarker(text: string)
    ensures forall i :: !OccursAt(LeagueName(text), FixturesMarker, i)
  {
    forall i: nat
      ensures !OccursAt(LeagueName(text), FixturesMarker, i)
    {
      StripPrefixBeforeFree(text, FixturesMarker, i);
    }
  }

  /** A heading without the marker only loses its surrounding blanks. */
  lemma LeagueNameWithoutMarker(text: string)
    requires forall i :: !OccursAt(text, FixturesMarker, i)
    ensures LeagueName(text) == Strip(text)
  {
    var p := PrefixBefore(text, FixturesMarker);
    assert !OccursAt(text, FixturesMarker, |p|);
    assert p == text;
  }

  /** A heading yields a league when it has a link with a non-empty `href`. */
  predicate YieldsLeague(h: LeagueHeading)
  {
    h.href.Some? && h.href.value != ""
  }

  /** The league a heading yields. */
  function LeagueOf(h: LeagueHeading): LeagueLink
    requires YieldsLeague(h)
  {
    LeagueLink(LeagueName(h.text), h.href.value)
  }

  /** The league a heading contributes: none, or the one it yields. */
  function HeadingLeagues(h: LeagueHeading): seq<LeagueLink>
  {
    if YieldsLeague(h) then [LeagueOf(h)] else []
  }

  function ParsedLeagues(hs: seq<LeagueHeading>): seq<LeagueLink>
  {
    if hs == [] then []
    else ParsedLeagues(hs[..|hs| - 1]) + HeadingLeagues(hs[|hs| - 1])
  }

  /** Every parsed league has a non-empty URL and a name free of the marker. */
  lemma {:induction false} ParsedLeaguesWellFormed(hs: seq<LeagueHeading>)
    ensures forall l :: l in ParsedLeagues(hs) ==>
      l.url != "" && forall i :: !OccursAt(l.name, FixturesMarker, i)
  {
    if hs != [] {
      ParsedLeaguesWellFormed(hs[..|hs| - 1]);
      LeagueNameDropsMarker(hs[|hs| - 1].text);
    }
  }

  /** Every heading with a non-empty link contributes its league. */
  lemma {:induction false} ParsedLeaguesComplete(hs: seq<LeagueHeading>, i: nat)
    requires i < |hs| && YieldsLeague(hs[i])
    ensures LeagueOf(hs[i]) in ParsedLeagues(hs)
  {
    if i < |hs| - 1 {
      var init := hs[..|hs| - 1];
      assert init[i] == hs[i];
      ParsedLeaguesComplete(init, i);
    }
  }

  /** Parsing distributes over concatenation, so the leagues keep the headings' order. */
  lemma {:induction false} ParsedLeaguesAppend(a: seq<LeagueHeading>, b: seq<LeagueHeading>)
    ensures ParsedLeagues(a + b) == ParsedLeagues(a) + ParsedLeagues(b)
    decreases |b|
  {
    if b == [] {
      assert a + b == a;
    } else {
      var c, init, last := a + b, b[..|b| - 1], b[|b| - 1];
      assert c[..|c| - 1] == a + init && c[|c| - 1] == last;
      assert ParsedLeagues(c) == ParsedLeagues(a + init) + HeadingLeagues(last);
      ParsedLeaguesAppend(a, init);
      assert ParsedLeagues(b) == ParsedLeagues(init) + HeadingLeagues(last);
    }
  }

  /** The loop over the panel headings of a group page. */
  method CollectLeagueLinks(hs: seq<LeagueHeading>) returns (leagues: seq<LeagueLink>)
    ensures leagues == ParsedLeagues(hs)
  {
    leagues := [];
    var i := 0;
    while i < |hs|
      invariant 0 <= i <= |hs|
      invariant leagues == ParsedLeagues(hs[..i])
    {
      assert hs[..i + 1][..i] == hs[..i];
      if hs[i].href.Some? {
        var name := LeagueName(hs[i].text);
        var rel := hs[i].href.value;
        if rel != "" {
          leagues := leagues + [LeagueLink(name, rel)];
        }
      }
      i := i + 1;
    }
    assert hs[..i] == hs;
  }

  /** `parse_league_group`: no leagues when the group page cannot be fetched. */
  method ParseLeagueGroup(net: nat -> Outcome<seq<LeagueHeading>>) returns (leagues: seq<LeagueLink>, sleeps: seq<nat>)
    ensures sleeps == Backoff(net)
    ensures Fetch(net).None? ==> leagues == []
    ensures Fetch(net).Some? ==> leagues == ParsedLeagues(Fetch(net).value)
  {
    var page;
    page, sleeps := SafeGet(net);
    if page.None? {
      return [], sleeps;
    }
    leagues := CollectLeagueLinks(page.value);
  }

  // ---------------------------------------------------------------- fixture rows

  datatype Date = Date(year: int, month: int, day: int)

  /** A kick-off in the site's local time zone. */
  datatype LocalDateTime = LocalDateTime(date: Date, hour: nat, minute: nat)

  /** An `<a href>`: its stripped text and its `href`. */
  datatype Link = Link(text: string, href: string)

  /** A `<td>`: its stripped text and its first `<a href>`, if any. */
  datatype Cell = Cell(text: string, link: Option<Link>)

  /**
    A date panel. `date` is `None` when the panel has no title or the title is
    not a DD-MM-YYYY date; `rows` is `None` when there is no collapse div or
    no striped table under it.
   */
  datatype Panel = Panel(date: Option<Date>, rows: Option<seq<seq<Cell>>>)

  datatype Section = Upcoming | Results

  /**
    A league page: every link in document order, and the two accordions
    (`fixtures_accordion_fixtures`, `fixtures_accordion_results`), if present.
   */
  datatype LeaguePage = LeaguePage(links: seq<Link>, upcoming: Option<seq<Panel>>, results: Option<seq<Panel>>)

  datatype FixtureRecord = FixtureRecord(
    kickoff: LocalDateTime,
    homeName: string, homeUrl: string,
    awayName: string, awayUrl: string,
    result: Option<string>)

  function DigitValue(c: char): nat
    requires IsDigit(c)
  {
    c as int - '0' as int
  }

  /** `%H` of `strptime`: the whole string matches `2[0-3]|[0-1]\d|\d`. */
  function ParseHour(s: string): Option<nat>
  {
    if |s| == 1 && IsDigit(s[0]) then Some(DigitValue(s[0]))
    else if |s| == 2 && IsDigit(s[0]) && IsDigit(s[1]) && (s[0] <= '1' || (s[0] == '2' && s[1] <= '3'))
    then Some(10 * DigitValue(s[0]) + DigitValue(s[1]))
    else None
  }

  /** `%M` of `strptime`: the whole string matches `[0-5]\d|\d`. */
  function ParseMinute(s: string): Option<nat>
  {
    if |s| == 1 && IsDigit(s[0]) then Some(DigitValue(s[0]))
    else if |s| == 2 && IsDigit(s[0]) && IsDigit(s[1]) && s[0] <= '5'
    then Some(10 * DigitValue(s[0]) + DigitValue(s[1]))
    else None
  }

  /** `datetime.strptime(s, "%H:%M").time()`, or `None` where it raises `ValueError`. */
  function ParseClock(s: string): Option<(nat, nat)>
  {
    var colon := if |s| >= 2 && s[1] == ':' then 1 else if |s| >= 3 && s[2] == ':' then 2 else 0;
    if colon == 0 then None
    else match (ParseHour(s[..colon]), ParseMinute(s[colon + 1..]))
      case (Some(h), Some(m)) => Some((h, m))
      case _ => None
  }

  /** A parsed clock time is a valid time of day. */
  lemma ClockInRange(s: string)
    ensures ParseClock(s).Some? ==> ParseClock(s).value.0 < 24 && ParseClock(s).value.1 < 60
  {
  }

  function DigitChar(n: nat): char
    requires n < 10
  {
    (n + '0' as int) as char
  }

  /** The site's `HH:MM` rendering of a time of day. */
  function FormatClock(h: nat, m: nat): string
    requires h < 24 && m < 60
  {
    [DigitChar(h / 10), DigitChar(h % 10), ':', DigitChar(m / 10), DigitChar(m % 10)]
  }

  /** Every `HH:MM` time of day parses back to itself. */
  lemma ClockRoundTrip(h: nat, m: nat)
    requires h < 24 && m < 60
    ensures ParseClock(FormatClock(h, m)) == Some((h, m))
  {
    var s := FormatClock(h, m);
    assert s[..2] == [DigitChar(h / 10), DigitChar(h % 10)];
    assert s[3..] == [DigitChar(m / 10), DigitChar(m % 10)];
    assert DigitValue(DigitChar(h / 10)) == h / 10 && DigitValue(DigitChar(h % 10)) == h % 10;
    assert DigitValue(DigitChar(m / 10)) == m / 10 && DigitValue(DigitChar(m % 10)) == m % 10;
  }

  /** What one table row of a dated panel contributes, if anything. */
  function RowFixture(section: Section, date: Date, cells: seq<Cell>): Option<FixtureRecord>
  {
    if |cells| < 4 then None
    else match ParseClock(cells[0].text)
      case None => None
      case Some((h, m)) =>
        if cells[1].link.None? || cells[3].link.None? then None
        else
          var home, away := cells[1].link.value, cells[3].link.value;
          Some(FixtureRecord(LocalDateTime(date, h, m), home.text, home.href, away.text, away.href,
                             if section == Results then Some(cells[2].text) else None))
  }

  /**
    A row is recorded exactly when it has four cells, a clock time in the
    first and links in the second and fourth; its result is the third
    cell's text in the results section and absent in the upcoming one.
   */
  lemma RowFixtureRule(section: Section, date: Date, cells: seq<Cell>)
    ensures RowFixture(section, date, cells).Some? <==>
      |cells| >= 4 && ParseClock(cells[0].text).Some? && cells[1].link.Some? && cells[3].link.Some?
    ensures RowFixture(section, date, cells).Some? ==>
      var f := RowFixture(section, date, cells).value;
      && f.kickoff == LocalDateTime(date, ParseClock(cells[0].text).value.0, ParseClock(cells[0].text).value.1)
      && f.homeName == cells[1].link.value.text && f.awayName == cells[3].link.value.text
      && f.result == (if section == Results then Some(cells[2].text) else None)
  {
  }

  function RowFixtures(section: Section, date: Date, rows: seq<seq<Cell>>): seq<FixtureRecord>
  {
    if rows == [] then []
    else
      var last := RowFixture(section, date, rows[|rows| - 1]);
      RowFixtures(section, date, rows[..|rows| - 1]) + (if last.Some? then [last.value] else [])
  }

  function PanelFixtures(section: Section, panel: Panel): seq<FixtureRecord>
  {
    if panel.date.None? || panel.rows.None? then []
    else RowFixtures(section, panel.date.value, panel.rows.value)
  }

  function PanelsFixtures(section: Section, panels: seq<Panel>): seq<FixtureRecord>
  {
    if panels == [] then []
    else PanelsFixtures(section, panels[..|panels| - 1]) + PanelFixtures(section, panels[|panels| - 1])
  }

  function Accordion(page: LeaguePage, section: Section): Option<seq<Panel>>
  {
    if section == Upcoming then page.upcoming else page.results
  }

  function SectionFixtures(page: LeaguePage, section: Section): seq<FixtureRecord>
  {
    if Accordion(page, section).None? then [] else PanelsFixtures(section, Accordion(page, section).value)
  }

  /** Both accordions, upcoming first. */
  const Sections: seq<Section> := [Upcoming, Results]

  function PageFixtures(page: LeaguePage): seq<FixtureRecord>
  {
    SectionFixtures(page, Upcoming) + SectionFixtures(page, Results)
  }

  /** Records of one section carry a result exactly when the section is the results one. */
  lemma {:induction false} SectionResults(page: LeaguePage, section: Section)
    ensures forall f :: f in SectionFixtures(page, section) ==> (f.result.Some? <==> section == Results)
  {
    if Accordion(page, section).Some? {
      var panels := Accordion(page, section).value;
      PanelsResults(section, panels);
    }
  }

  lemma {:induction false} PanelsResults(section: Section, panels: seq<Panel>)
    ensures forall f :: f in PanelsFixtures(section, panels) ==> (f.result.Some? <==> section == Results)
  {
    if panels != [] {
      PanelsResults(section, panels[..|panels| - 1]);
      var p := panels[|panels| - 1];
      if p.date.Some? && p.rows.Some? {
        RowsResults(section, p.date.value, p.rows.value);
      }
    }
  }

  lemma {:induction false} RowsResults(section: Section, date: Date, rows: seq<seq<Cell>>)
    ensures forall f :: f in RowFixtures(section, date, rows) ==> (f.result.Some? <==> section == Results)
  {
    if rows != [] {
      RowsResults(section, date, rows[..|rows| - 1]);
    }
  }

  /** The loop over the rows of one panel's table. */
  method CollectRowFixtures(section: Section, date: Date, rows: seq<seq<Cell>>) returns (fixtures: seq<FixtureRecord>)
    ensures fixtures == RowFixtures(section, date, rows)
  {
    fixtures := [];
    var i := 0;
    while i < |rows|
      invariant 0 <= i <= |rows|
      invariant fixtures == RowFixtures(section, date, rows[..i])
    {
      assert rows[..i + 1][..i] == rows[..i];
      var f := RowFixture(section, date, rows[i]);
      if f.Some? {
        fixtures := fixtures + [f.value];
      }
      i := i + 1;
    }
    assert rows[..i] == rows;
  }

  /** The loop over the date panels of one accordion. */
  method CollectPanelFixtures(section: Section, panels: seq<Panel>) returns (fixtures: seq<FixtureRecord>)
    ensures fixtures == PanelsFixtures(section, panels)
  {
    fixtures := [];
    var j := 0;
    while j < |panels|
      invariant 0 <= j <= |panels|
      invariant fixtures == PanelsFixtures(section, panels[..j])
    {
      assert panels[..j + 1][..j] == panels[..j];
      var panel := panels[j];
      if panel.date.Some? && panel.rows.Some? {
        var found := CollectRowFixtures(section, panel.date.value, panel.rows.value);
        fixtures := fixtures + found;
      }
      j := j + 1;
    }
    assert panels[..j] == panels;
  }

  /** The loop over the two accordions, upcoming first. */
  method CollectFixtures(page: LeaguePage) returns (fixtures: seq<FixtureRecord>)
    ensures fixtures == PageFixtures(page)
  {
    fixtures := [];
    var k := 0;
    while k < |Sections|
      invariant 0 <= k <= |Sections|
      invariant fixtures == if k == 0 then [] else if k == 1 then SectionFixtures(page, Upcoming) else PageFixtures(page)
    {
      var section := Sections[k];
      var acc := Accordion(page, section);
      if acc.Some? {
        var found := CollectPanelFixtures(section, acc.value);
        fixtures := fixtures + found;
      }
      k := k + 1;
    }
  }

  // ---------------------------------------------------------------- venue of a league

  datatype VenueRecord = VenueRecord(name: string, url: Option<string>, address: string)

  const UnknownVenue: VenueRecord := VenueRecord("Unknown", None, DefaultLocation)

  /** `href` matches `^/info/venues/\d+`. */
  predicate IsVenueHref(href: string)
  {
    |href| > 13 && href[..13] == "/info/venues/" && IsDigit(href[13])
  }

  /** `soup.find("a", href=...)`: the first link in document order whose `href` is a venue page. */
  function FirstVenueLink(links: seq<Link>): (r: Option<Link>)
    ensures r.Some? ==> r.value in links && IsVenueHref(r.value.href)
    ensures r.None? <==> forall i :: 0 <= i < |links| ==> !IsVenueHref(links[i].href)
  {
    if links == [] then None
    else if IsVenueHref(links[0].href) then Some(links[0])
    else
      var r := FirstVenueLink(links[1..]);
      assert forall i :: 1 <= i < |links| ==> links[i] == links[1..][i - 1];
      r
  }

  /** The venue link found is the first one in document order; `i` is its position. */
  lemma {:induction false} FirstVenueLinkIsFirst(links: seq<Link>) returns (i: nat)
    requires FirstVenueLink(links).Some?
    ensures i < |links| && links[i] == FirstVenueLink(links).value
    ensures forall j :: 0 <= j < i ==> !IsVenueHref(links[j].href)
  {
    if IsVenueHref(links[0].href) {
      i := 0;
    } else {
      var k := FirstVenueLinkIsFirst(links[1..]);
      i := k + 1;
      forall j | 0 <= j < i
        ensures !IsVenueHref(links[j].href)
      {
        if j > 0 {
          assert links[j] == links[1..][j - 1];
        }
      }
    }
  }

  /**
    `extract_fixtures_from_league`: the page's fixture records and its venue,
    whose address goes through the venue cache.
   */
  method ExtractFixturesFromLeague(cache: Cache, leagueNet: nat -> Outcome<LeaguePage>, venueNet: string -> nat -> Outcome<VenuePage>)
    returns (fixtures: seq<FixtureRecord>, venue: VenueRecord, sleeps: seq<nat>)
    requires cache.Valid()
    modifies cache
    ensures cache.Valid()
    ensures Fetch(leagueNet).None? ==> fixtures == [] && venue == UnknownVenue && cache.entries == old(cache.entries)
    ensures Fetch(leagueNet).Some? ==>
      var page := Fetch(leagueNet).value;
      && fixtures == PageFixtures(page)
      && (FirstVenueLink(page.links).None? ==> venue == UnknownVenue && cache.entries == old(cache.entries))
      && (FirstVenueLink(page.links).Some? ==>
            var link := FirstVenueLink(page.links).value;
            && venue.name == link.text && venue.url == Some(link.href)
            && venue.address == (if link.href in old(cache.entries) then old(cache.entries)[link.href]
                                 else AddressOf(Fetch(venueNet(link.href))))
            && cache.entries == old(cache.entries)[link.href := venue.address]
            && sleeps == Backoff(leagueNet) + (if link.href in old(cache.entries) then [] else Backoff(venueNet(link.href))))
    ensures (Fetch(leagueNet).None? || FirstVenueLink(Fetch(leagueNet).value.links).None?) ==> sleeps == Backoff(leagueNet)
  {
    var page;
    page, sleeps := SafeGet(leagueNet);
    if page.None? {
      return [], UnknownVenue, sleeps;
    }
    var link := FirstVenueLink(page.value.links);
    if link.Some? {
      var address, _, venueSleeps := cache.FetchVenueAddress(link.value.href, venueNet(link.value.href));
      venue := VenueRecord(link.value.text, Some(link.value.href), address);
      sleeps := sleeps + venueSleeps;
    } else {
      venue := UnknownVenue;
    }
    fixtures := CollectFixtures(page.value);
  }
}
