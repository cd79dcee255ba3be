/**
  generate_ics.py: the single-team calendar. `fetch_team_fixtures` reads
  the fixtures table under the team's "Fixtures" heading and keeps the rows
  the team plays in, with the opponent's name; `build_calendar` makes one
  one-hour event per fixture. The page is given as the headings the
  document query sees; `strptime` of the date and time is a parameter.
 */
module TeamSchedule {
  import opened Wrappers
  import opened Text
  import opened Http
  import opened Calendar

  const TeamName: string := "CLIVE OWEN & CO"

  /** The text the fixtures heading must contain. */
  const HeadingMarker: string := "CLIVE OWEN & CO Fixtures"

  /** generate_ics.py's own default location, the same address as the bulk crawler's. */
  const EventLocation: string := "301 Huntington Rd, Huntington, York YO32 9WT"

  const TitlePrefix: string := "Match Versus "

  const CalendarCreator: string := "-//Aydin Aksel//Clive Owen Fixtures//EN"

  /** A `<td>`: its text joined with single spaces, and its text stripped. */
  datatype Cell = Cell(spaced: string, stripped: string)

  /**
    An `h4.panel-title` of the page: its text (`None` when it has more than
    one child, so it has no single string), and the rows of the striped
    tables in its enclosing `div.col-lg-6` (`None` when there is no such div).
   */
  datatype Heading = Heading(text: Option<string>, container: Option<seq<seq<Cell>>>)

  /** Why `fetch_team_fixtures` raises. */
  datatype FetchError =
    | RequestFailed       // `requests.get` raised
    | HttpError(status: int) // `raise_for_status` raised
    | NoFixturesHeading   // the RuntimeError for a page without the heading
    | NoContainer         // the heading has no enclosing div: AttributeError
    | MissingCell         // a row with fewer than four cells: AttributeError or IndexError
    | BadDateTime         // the first cell is not two words, or they do not parse: ValueError

  /** One kept fixture: the kick-off and the opponent's name. */
  datatype Fixture<T> = Fixture(kickoff: T, opponent: string)

  // ---------------------------------------------------------------- the heading

  /** Whether `m` occurs anywhere in `s`. */
  predicate Contains(s: string, m: string)
  {
    exists i :: 0 <= i <= |s| && OccursAt(s, m, i)
  }

  /** The heading pattern matches a heading whose text contains the marker anywhere. */
  predicate IsFixturesHeading(h: Heading)
  {
    h.text.Some? && Contains(h.text.value, HeadingMarker)
  }

  /** The first heading, in document order, that is the fixtures heading. */
  function FirstFixturesHeading(hs: seq<Heading>): (r: Option<Heading>)
    ensures r.None? <==> forall i :: 0 <= i < |hs| ==> !IsFixturesHeading(hs[i])
    ensures r.Some? ==>
      exists i :: 0 <= i < |hs| && hs[i] == r.value && IsFixturesHeading(hs[i]) && forall j :: 0 <= j < i ==> !IsFixturesHeading(hs[j])
  {
    if hs == [] then None
    else if IsFixturesHeading(hs[0]) then Some(hs[0])
    else
      var r := FirstFixturesHeading(hs[1..]);
      assert forall i :: 1 <= i < |hs| ==> hs[i] == hs[1..][i - 1];
      if r.Some? then
        var k :| 0 <= k < |hs| - 1 && hs[1..][k] == r.value && IsFixturesHeading(hs[1..][k])
          && forall j :: 0 <= j < k ==> !IsFixturesHeading(hs[1..][j]);
        assert hs[k + 1] == r.value;
        r
      else r
  }

  // ---------------------------------------------------------------- one row

  /** The length of the run of non-blank characters `s` starts with. */
  function WordLength(s: string): (n: nat)
    ensures n <= |s| && (n == |s| || IsSpace(s[n]))
    ensures forall k :: 0 <= k < n ==> !IsSpace(s[k])
  {
    if s == [] || IsSpace(s[0]) then 0 else 1 + WordLength(s[1..])
  }

  /** Python's `s.split()`: the maximal runs of non-blank characters, in order. */
  function Words(s: string): seq<string>
    decreases |s|
  {
    if s == [] then []
    else if IsSpace(s[0]) then Words(s[1..])
    else
      var n := WordLength(s);
      [s[..n]] + Words(s[n..])
  }

  /** Every word is non-empty and free of blanks. */
  lemma {:induction false} WordsBlankFree(s: string)
    ensures forall i :: 0 <= i < |Words(s)| ==> Words(s)[i] != [] && forall k :: 0 <= k < |Words(s)[i]| ==> !IsSpace(Words(s)[i][k])
    decreases |s|
  {
    if s != [] {
      if IsSpace(s[0]) {
        WordsBlankFree(s[1..]);
      } else {
        var n := WordLength(s);
        WordsBlankFree(s[n..]);
        assert Words(s) == [s[..n]] + Words(s[n..]);
      }
    }
  }

  /** What one row of the table does to the list: raise, be skipped, or add a fixture. */
  datatype RowOutcome<T> = Fail(error: FetchError) | Skip | Keep(fixture: Fixture<T>)

  /** The kick-off in a row's first cell: its two words, joined by a space, parsed; `None` when that fails. */
  function Kickoff<T>(cell: Cell, parse: string -> Option<T>): Option<T>
  {
    var words := Words(Strip(cell.spaced));
    if |words| != 2 then None else parse(words[0] + " " + words[1])
  }

  /**
    One pass of the loop. The date and time are read before the team
    check, so a malformed row raises even when the team does not play in it.
   */
  function RowStep<T>(row: seq<Cell>, parse: string -> Option<T>): RowOutcome<T>
  {
    if row == [] then Fail(MissingCell)
    else if Kickoff(row[0], parse).None? then Fail(BadDateTime)
    else if |row| < 4 then Fail(MissingCell)
    else if row[1].stripped == TeamName then Keep(Fixture(Kickoff(row[0], parse).value, row[3].stripped))
    else if row[3].stripped == TeamName then Keep(Fixture(Kickoff(row[0], parse).value, row[1].stripped))
    else Skip
  }

  /** A well-formed row: at least four cells and a first cell that parses as a date and a time. */
  predicate WellFormed<T>(row: seq<Cell>, parse: string -> Option<T>)
  {
    |row| >= 4 && Kickoff(row[0], parse).Some?
  }

  /**
    A row raises exactly when it is malformed. A well-formed row is kept
    exactly when the team is the home or the away side; the opponent is the
    away side when the team is at home (checked first), else the home side.
   */
  lemma RowRule<T>(row: seq<Cell>, parse: string -> Option<T>)
    ensures RowStep(row, parse).Fail? <==> !WellFormed(row, parse)
    ensures WellFormed(row, parse) ==>
      && (RowStep(row, parse).Keep? <==> row[1].stripped == TeamName || row[3].stripped == TeamName)
      && (row[1].stripped == TeamName ==> RowStep(row, parse).fixture.opponent == row[3].stripped)
      && (row[1].stripped != TeamName && row[3].stripped == TeamName ==>
            RowStep(row, parse).fixture.opponent == row[1].stripped)
  {
  }

  // ---------------------------------------------------------------- the loop

  /** The list after one more row: an error stays, a failing row raises, a kept row is appended. */
  function Step<T>(acc: Result<seq<Fixture<T>>, FetchError>, o: RowOutcome<T>): Result<seq<Fixture<T>>, FetchError>
  {
    if acc.Err? then acc
    else match o
      case Fail(e) => Err(e)
      case Skip => acc
      case Keep(f) => Ok(acc.value + [f])
  }

  /** The loop run over the rows' outcomes, in order, starting from the empty list. */
  function Run<T>(os: seq<RowOutcome<T>>): Result<seq<Fixture<T>>, FetchError>
  {
    if os == [] then Ok([]) else Step(Run(os[..|os| - 1]), os[|os| - 1])
  }

  /** What each row of a table does, in table order. */
  function Outcomes<T>(rows: seq<seq<Cell>>, parse: string -> Option<T>): (os: seq<RowOutcome<T>>)
    ensures |os| == |rows|
  {
    seq(|rows|, i requires 0 <= i < |rows| => RowStep(rows[i], parse))
  }

  /** The fixtures list after the rows `rows`, or the error of the first row that raised. */
  function Schedule<T>(rows: seq<seq<Cell>>, parse: string -> Option<T>): Result<seq<Fixture<T>>, FetchError>
  {
    Run(Outcomes(rows, parse))
  }

  /** Running two stretches of rows in turn: the first error wins, otherwise the lists are concatenated. */
  function Then<T>(a: Result<seq<Fixture<T>>, FetchError>, b: Result<seq<Fixture<T>>, FetchError>): Result<seq<Fixture<T>>, FetchError>
  {
    if a.Err? then a else if b.Err? then b else Ok(a.value + b.value)
  }

  lemma StepThen<T>(a: Result<seq<Fixture<T>>, FetchError>, b: Result<seq<Fixture<T>>, FetchError>, o: RowOutcome<T>)
    ensures Step(Then(a, b), o) == Then(a, Step(b, o))
  {
    if a.Ok? && b.Ok? && o.Keep? {
      assert a.value + b.value + [o.fixture] == a.value + (b.value + [o.fixture]);
    }
  }

  lemma {:induction false} RunAppend<T>(x: seq<RowOutcome<T>>, y: seq<RowOutcome<T>>)
    ensures Run(x + y) == Then(Run(x), Run(y))
    decreases |y|
  {
    if y == [] {
      assert x + y == x;
      if Run(x).Ok? {
        assert Run(x).value + [] == Run(x).value;
      }
    } else {
      var c := x + y;
      assert c[..|c| - 1] == x + y[..|y| - 1] && c[|c| - 1] == y[|y| - 1];
      RunAppend(x, y[..|y| - 1]);
      StepThen(Run(x), Run(y[..|y| - 1]), y[|y| - 1]);
    }
  }

  lemma OutcomesAppend<T>(a: seq<seq<Cell>>, b: seq<seq<Cell>>, parse: string -> Option<T>)
    ensures Outcomes(a + b, parse) == Outcomes(a, parse) + Outcomes(b, parse)
  {
    var l, r := Outcomes(a + b, parse), Outcomes(a, parse) + Outcomes(b, parse);
    forall i | 0 <= i < |l|
      ensures l[i] == r[i]
    {
      if i < |a| {
        assert (a + b)[i] == a[i];
      } else {
        assert (a + b)[i] == b[i - |a|];
      }
    }
  }

  /** The fixtures list keeps the rows' order: the schedule of a + b is that of a followed by that of b. */
  lemma ScheduleAppend<T>(a: seq<seq<Cell>>, b: seq<seq<Cell>>, parse: string -> Option<T>)
    ensures Schedule(a + b, parse) == Then(Schedule(a, parse), Schedule(b, parse))
  {
    OutcomesAppend(a, b, parse);
    RunAppend(Outcomes(a, parse), Outcomes(b, parse));
  }

  /** One row on its own: an error, nothing, or its one fixture. */
  lemma ScheduleOne<T>(row: seq<Cell>, parse: string -> Option<T>)
    ensures Schedule([row], parse) == Step(Ok([]), RowStep(row, parse))
  {
    var os := Outcomes([row], parse);
    assert os == [RowStep(row, parse)];
    assert os[..0] == [];
    assert Run(os[..0]) == Ok([]);
    assert Run(os) == Step(Run(os[..0]), os[0]);
  }

  lemma {:induction false} RunFails<T>(os: seq<RowOutcome<T>>, i: nat)
    requires i < |os| && os[i].Fail?
    ensures Run(os).Err?
    decreases |os|
  {
    if i < |os| - 1 {
      RunFails(os[..|os| - 1], i);
    }
  }

  /** One malformed row anywhere in the table makes the whole fetch raise. */
  lemma MalformedRowFails<T>(rows: seq<seq<Cell>>, parse: string -> Option<T>, i: nat)
    requires i < |rows| && !WellFormed(rows[i], parse)
    ensures Schedule(rows, parse).Err?
  {
    RowRule(rows[i], parse);
    RunFails(Outcomes(rows, parse), i);
  }

  lemma {:induction false} RunSound<T>(os: seq<RowOutcome<T>>, f: Fixture<T>) returns (i: nat)
    requires Run(os).Ok? && f in Run(os).value
    ensures i < |os| && os[i] == Keep(f)
    decreases |os|
  {
    var init := os[..|os| - 1];
    if Run(init).Ok? && f in Run(init).value {
      i := RunSound(init, f);
    } else {
      i := |os| - 1;
    }
  }

  /** Every fixture listed comes from a kept row. */
  lemma ScheduleSound<T>(rows: seq<seq<Cell>>, parse: string -> Option<T>, f: Fixture<T>) returns (i: nat)
    requires Schedule(rows, parse).Ok? && f in Schedule(rows, parse).value
    ensures i < |rows| && RowStep(rows[i], parse) == Keep(f)
  {
    i := RunSound(Outcomes(rows, parse), f);
  }

  /** What a row that did not raise contributes: its fixture when kept, nothing when skipped. */
  function Contribution<T>(o: RowOutcome<T>): seq<Fixture<T>>
  {
    if o.Keep? then [o.fixture] else []
  }

  /** The reference list: the contributions of the outcomes, front to back. */
  function Contributions<T>(os: seq<RowOutcome<T>>): seq<Fixture<T>>
  {
    if os == [] then [] else Contribution(os[0]) + Contributions(os[1..])
  }

  /** The fixture of every kept row, in table order. */
  function Kept<T>(rows: seq<seq<Cell>>, parse: string -> Option<T>): seq<Fixture<T>>
  {
    Contributions(Outcomes(rows, parse))
  }

  lemma {:induction false} ContributionsLast<T>(os: seq<RowOutcome<T>>)
    requires os != []
    ensures Contributions(os) == Contributions(os[..|os| - 1]) + Contribution(os[|os| - 1])
    decreases |os|
  {
    if |os| > 1 {
      var t := os[1..];
      ContributionsLast(t);
      assert t[..|t| - 1] == os[..|os| - 1][1..] && t[|t| - 1] == os[|os| - 1];
      assert Contributions(os[..|os| - 1]) == Contribution(os[0]) + Contributions(t[..|t| - 1]);
    } else {
      assert os[1..] == [] && os[..0] == [];
    }
  }

  /** Without a failing outcome the loop yields the reference list; with one, it raises. */
  lemma {:induction false} RunOk<T>(os: seq<RowOutcome<T>>)
    ensures Run(os).Ok? <==> forall i :: 0 <= i < |os| ==> !os[i].Fail?
    ensures Run(os).Ok? ==> Run(os).value == Contributions(os)
    decreases |os|
  {
    if os != [] {
      var init, last := os[..|os| - 1], os[|os| - 1];
      RunOk(init);
      ContributionsLast(os);
      if !(forall i :: 0 <= i < |os| ==> !os[i].Fail?) {
        var i :| 0 <= i < |os| && os[i].Fail?;
        RunFails(os, i);
      }
    }
  }

  /** The fetch of a table succeeds exactly when every row is well-formed, and then lists the kept rows in order. */
  lemma ScheduleOkIff<T>(rows: seq<seq<Cell>>, parse: string -> Option<T>)
    ensures Schedule(rows, parse).Ok? <==> forall i :: 0 <= i < |rows| ==> WellFormed(rows[i], parse)
    ensures Schedule(rows, parse).Ok? ==> Schedule(rows, parse).value == Kept(rows, parse)
  {
    var os := Outcomes(rows, parse);
    RunOk(os);
    forall i | 0 <= i < |rows|
      ensures os[i].Fail? <==> !WellFormed(rows[i], parse)
    {
      RowRule(rows[i], parse);
    }
  }

  /** The schedule of one more row of a table. */
  lemma SchedulePrefix<T>(rows: seq<seq<Cell>>, i: nat, parse: string -> Option<T>)
    requires i < |rows|
    ensures Schedule(rows[..i + 1], parse) == Step(Schedule(rows[..i], parse), RowStep(rows[i], parse))
  {
    var os := Outcomes(rows[..i + 1], parse);
    assert os[..i] == Outcomes(rows[..i], parse);
    assert os[i] == RowStep(rows[i], parse);
  }

  /** Once a row has raised, the rows after it change nothing. */
  lemma ErrorStays<T>(rows: seq<seq<Cell>>, k: nat, parse: string -> Option<T>)
    requires k <= |rows| && Schedule(rows[..k], parse).Err?
    ensures Schedule(rows, parse) == Schedule(rows[..k], parse)
  {
    ScheduleAppend(rows[..k], rows[k..], parse);
    assert rows[..k] + rows[k..] == rows;
  }

  /** One pass of the row loop of `fetch_team_fixtures` over the list built so far. */
  method CollectRow<T>(fixtures: seq<Fixture<T>>, row: seq<Cell>, parse: string -> Option<T>)
    returns (r: Result<seq<Fixture<T>>, FetchError>)
    ensures r == Step(Ok(fixtures), RowStep(row, parse))
  {
    if row == [] {
      return Err(MissingCell);
    }
    var kickoff := Kickoff(row[0], parse);
    if kickoff.None? {
      return Err(BadDateTime);
    }
    if |row| < 4 {
      return Err(MissingCell);
    }
    var home, away := row[1].stripped, row[3].stripped;
    if home == TeamName {
      r := Ok(fixtures + [Fixture(kickoff.value, away)]);
    } else if away == TeamName {
      r := Ok(fixtures + [Fixture(kickoff.value, home)]);
    } else {
      r := Ok(fixtures);
    }
  }

  /** The loop of `fetch_team_fixtures` over the table rows: the first malformed row raises. */
  method CollectFixtures<T>(rows: seq<seq<Cell>>, parse: string -> Option<T>) returns (r: Result<seq<Fixture<T>>, FetchError>)
    ensures r == Schedule(rows, parse)
  {
    var fixtures: seq<Fixture<T>> := [];
    var i := 0;
    while i < |rows|
      invariant 0 <= i <= |rows|
      invariant Schedule(rows[..i], parse) == Ok(fixtures)
    {
      SchedulePrefix(rows, i, parse);
      var next := CollectRow(fixtures, rows[i], parse);
      if next.Err? {
        ErrorStays(rows, i + 1, parse);
        return next;
      }
      fixtures := next.value;
      i := i + 1;
    }
    assert rows[..i] == rows;
    r := Ok(fixtures);
  }

  /** What `fetch_team_fixtures` returns or raises for one reply of the site. */
  function TeamFixtures<T>(reply: Outcome<seq<Heading>>, parse: string -> Option<T>): Result<seq<Fixture<T>>, FetchError>
  {
    match reply
    case ConnectionError => Err(RequestFailed)
    case Reply(status, headings) =>
      if !Succeeds(reply) then Err(HttpError(status))
      else match FirstFixturesHeading(headings)
        case None => Err(NoFixturesHeading)
        case Some(h) => if h.container.None? then Err(NoContainer) else Schedule(h.container.value, parse)
  }

  /** A page without the fixtures heading is an error, not an empty schedule. */
  lemma MissingHeadingRaises<T>(headings: seq<Heading>, parse: string -> Option<T>)
    requires forall i :: 0 <= i < |headings| ==> !IsFixturesHeading(headings[i])
    ensures TeamFixtures(Reply(200, headings), parse) == Err(NoFixturesHeading)
  {
  }

  /** `fetch_team_fixtures`: one GET (no retry), the heading, then the row loop. */
  method FetchTeamFixtures<T>(reply: Outcome<seq<Heading>>, parse: string -> Option<T>) returns (r: Result<seq<Fixture<T>>, FetchError>)
    ensures r == TeamFixtures(reply, parse)
  {
    if reply.ConnectionError? {
      return Err(RequestFailed);
    }
    if 400 <= reply.status < 600 {
      return Err(HttpError(reply.status));
    }
    var heading := FirstFixturesHeading(reply.doc);
    if heading.None? {
      return Err(NoFixturesHeading);
    }
    if heading.value.container.None? {
      return Err(NoContainer);
    }
    r := CollectFixtures(heading.value.container.value, parse);
  }

  // ---------------------------------------------------------------- the calendar

  /** The event `build_calendar` makes of one fixture. */
  function MatchEvent<T>(f: Fixture<T>): Event<T>
  {
    Event(TitlePrefix + f.opponent, f.kickoff, 1, EventLocation, None)
  }

  /** The opponent can be read back from an event's title. */
  lemma MatchTitleRoundTrip<T>(f: Fixture<T>)
    ensures var name := MatchEvent(f).name;
      |name| >= |TitlePrefix| && name[..|TitlePrefix|] == TitlePrefix && name[|TitlePrefix|..] == f.opponent
  {
    var name := MatchEvent(f).name;
    assert name[..|TitlePrefix|] == TitlePrefix;
    assert name[|TitlePrefix|..] == f.opponent;
  }

  /** Two fixtures' events share a title exactly when they have the same opponent. */
  lemma MatchTitlesDistinct<T>(f: Fixture<T>, g: Fixture<T>)
    ensures MatchEvent(f).name == MatchEvent(g).name <==> f.opponent == g.opponent
  {
    MatchTitleRoundTrip(f);
    MatchTitleRoundTrip(g);
  }

  /** `build_calendar`: one event per fixture, in order, each an hour long at the default location. */
  method BuildCalendar<T>(fixtures: seq<Fixture<T>>) returns (ics: Ics<T>)
    ensures ics.creator == CalendarCreator
    ensures |ics.events| == |fixtures|
    ensures forall i :: 0 <= i < |fixtures| ==>
      && ics.events[i].name == TitlePrefix + fixtures[i].opponent
      && ics.events[i].begin == fixtures[i].kickoff
      && ics.events[i].hours == 1
      && ics.events[i].location == EventLocation
      && ics.events[i].description.None?
  {
    var events: seq<Event<T>> := [];
    var i := 0;
    while i < |fixtures|
      invariant 0 <= i <= |fixtures|
      invariant |events| == i
      invariant forall j :: 0 <= j < i ==> events[j] == MatchEvent(fixtures[j])
    {
      events := events + [Event(TitlePrefix + fixtures[i].opponent, fixtures[i].kickoff, 1, EventLocation, None)];
      i := i + 1;
    }
    ics := Ics(CalendarCreator, events);
  }
}
