/**
 * The economic-calendar indicator: it downloads the week's calendar as CSV,
 * keeps every parsed event, and draws a vertical line for each of today's
 * events whose currency and impact are in the configured lists. A download
 * happens at most once an hour; between downloads the lines are redrawn
 * once per new UTC day.
 *
 * The download itself, the clock and `ParseExact` of the event date are
 * inputs: `fetched`, `now` and `parseDate`.
 */
module Calendar {
  import opened Wrappers
  import opened Time
  import opened Text
  import opened Host
  import opened Lists

  /** One calendar row; every field is kept as text. */
  datatype Event = Event(title: string, country: string, date: string, impact: string, forecast: string, previous: string)

  // ---------------------------------------------------------------------
  // The row parser of `ParseCsvData`

  const MinColumns: nat := 7

  /**
   * One line: blank lines and lines with fewer than seven comma-separated
   * columns give no event; otherwise the trimmed columns 0, 1, 4, 5, 6 and
   * a date made of columns 2 and 3 and the suffix " UTC".
   */
  function ParseLine(line: string): (r: Option<Event>)
    ensures IsBlank(line) ==> r.None?
    ensures r.Some? ==> Trimmed(r.value.title) && Trimmed(r.value.country) && Trimmed(r.value.impact)
                        && Trimmed(r.value.forecast) && Trimmed(r.value.previous)
  {
    if IsBlank(line) then None
    else
      var columns := Split(line, ',');
      if |columns| < MinColumns then None
      else Some(Event(
        Trim(columns[0]), Trim(columns[1]),
        Trim(columns[2]) + " " + Trim(columns[3]) + " UTC",
        Trim(columns[4]), Trim(columns[5]), Trim(columns[6])))
  }

  /** The events one line contributes: none or exactly one. */
  function Accepted(line: string): (r: seq<Event>)
    ensures |r| <= 1 && (r == [] <==> ParseLine(line).None?)
  {
    match ParseLine(line)
    case None => []
    case Some(e) => [e]
  }

  /** The loop over the lines after the header, appending in input order. */
  function ParseLines(lines: seq<string>): (events: seq<Event>)
    ensures |events| <= |lines|
  {
    FlatMapAtMostOneEach(lines, Accepted);
    FlatMap(lines, Accepted)
  }

  /** `ParseCsvData`: split on line feeds and skip the first line. */
  function ParseCsv(csv: string): (events: seq<Event>)
    ensures |events| <= |Split(csv, '\n')| - 1
  {
    ParseLines(Split(csv, '\n')[1..])
  }

  /** Parsing is line by line: the events of two blocks of lines are the events of each, in order. */
  lemma ParseLinesConcat(a: seq<string>, b: seq<string>)
    ensures ParseLines(a + b) == ParseLines(a) + ParseLines(b)
  {
    FlatMapConcat(a, b, Accepted);
  }

  /** An event comes out exactly when some line parses to it. */
  lemma ParseLinesMembers(lines: seq<string>, e: Event)
    ensures e in ParseLines(lines) <==> exists i :: 0 <= i < |lines| && ParseLine(lines[i]) == Some(e)
  {
    FlatMapMembers(lines, Accepted, e);
    assert forall i :: 0 <= i < |lines| ==> (e in Accepted(lines[i]) <==> ParseLine(lines[i]) == Some(e));
  }

  /** The first line is skipped even when it is a data row. */
  lemma HeaderAlwaysSkipped(header: string, rest: string)
    requires '\n' !in header
    ensures ParseCsv(header + "\n" + rest) == ParseLines(Split(rest, '\n'))
  {
    SplitAtFirst(header, rest, '\n');
    assert header + "\n" + rest == header + ['\n'] + rest;
  }

  /** A file of a header and rows parses to the events of the rows. */
  lemma ParseCsvOfRows(header: string, rows: seq<string>)
    requires NoSeparator([header] + rows, '\n')
    ensures ParseCsv(Join([header] + rows, '\n')) == ParseLines(rows)
  {
    SplitJoin([header] + rows, '\n');
    assert ([header] + rows)[1..] == rows;
  }

  lemma {:induction false} JoinHoldsSeparator(parts: seq<string>, c: char)
    requires |parts| >= 2
    ensures c in Join(parts, c)
  {
    assert Join(parts, c) == parts[0] + [c] + Join(parts[1..], c);
    assert Join(parts, c)[|parts[0]|] == c;
  }

  /**
   * A row of seven comma-free columns, followed by any number of extra
   * columns, parses to the event of those seven columns trimmed: white
   * space around a column (a space after a comma, the `'\r'` a CRLF file
   * leaves on the last column) is dropped, and the extra columns are ignored.
   */
  lemma RowRoundTrip(fields: seq<string>, extra: seq<string>)
    requires |fields| == MinColumns && NoSeparator(fields + extra, ',')
    ensures ParseLine(Join(fields + extra, ',')) ==
            Some(Event(Trim(fields[0]), Trim(fields[1]), Trim(fields[2]) + " " + Trim(fields[3]) + " UTC",
                       Trim(fields[4]), Trim(fields[5]), Trim(fields[6])))
  {
    var line := Join(fields + extra, ',');
    SplitJoin(fields + extra, ',');
    JoinHoldsSeparator(fields + extra, ',');
    var k :| 0 <= k < |line| && line[k] == ',';
    assert !IsBlank(line);
    forall i | 0 <= i < |fields| ensures (fields + extra)[i] == fields[i] {
    }
  }

  /** A row of fewer than seven columns is skipped. */
  lemma ShortRowSkipped(columns: seq<string>)
    requires 1 <= |columns| < MinColumns && NoSeparator(columns, ',')
    ensures ParseLine(Join(columns, ',')) == None
  {
    SplitJoin(columns, ',');
  }

  // ---------------------------------------------------------------------
  // The filter of `DrawEventsForToday` and `GetTransparencyForImpact`

  /** The non-empty pieces (`StringSplitOptions.RemoveEmptyEntries`). */
  function NonEmpty(parts: seq<string>): (r: seq<string>)
    ensures forall w :: w in r <==> w in parts && w != []
  {
    if parts == [] then []
    else (if parts[0] == [] then [] else [parts[0]]) + NonEmpty(parts[1..])
  }

  /** The words of a configuration list, split on spaces and trimmed. */
  function Words(config: string): seq<string> {
    Map(NonEmpty(Split(config, ' ')), Trim)
  }

  /** The currency list, upper-cased. */
  function CurrencyList(config: string): seq<string> {
    Map(Words(config), Upper)
  }

  /** The impact list, lower-cased. */
  function ImpactList(config: string): seq<string> {
    Map(Words(config), Lower)
  }

  /** What selects an event for drawing, besides its date. */
  datatype Filter = Filter(currencyCodes: string, impactLevels: string,
                           transparencyHigh: Int32, transparencyMedium: Int32, transparencyLow: Int32)

  predicate Selected(f: Filter, e: Event) {
    Upper(Trim(e.country)) in CurrencyList(f.currencyCodes) && Lower(Trim(e.impact)) in ImpactList(f.impactLevels)
  }

  /** The currency test is a case-insensitive match against one of the configured words. */
  lemma CurrencyMatch(config: string, country: string)
    ensures Upper(Trim(country)) in CurrencyList(config)
            <==> exists w :: w in Words(config) && EqualsIgnoreCase(w, Trim(country))
  {
    var c := Trim(country);
    MapMembers(Words(config), Upper, Upper(c));
    forall w | w in Words(config) {
      UpperEqualIffIgnoreCase(w, c);
    }
  }

  /** The impact test likewise. */
  lemma ImpactMatch(config: string, impact: string)
    ensures Lower(Trim(impact)) in ImpactList(config)
            <==> exists w :: w in Words(config) && EqualsIgnoreCase(w, Trim(impact))
  {
    var c := Trim(impact);
    MapMembers(Words(config), Lower, Lower(c));
    forall w | w in Words(config) {
      LowerEqualIffIgnoreCase(w, c);
    }
  }

  /** The words of a list are exactly its non-empty space-separated pieces, trimmed. */
  lemma WordsMembers(config: string, w: string)
    ensures w in Words(config) <==> exists p :: p in Split(config, ' ') && p != [] && Trim(p) == w
  {
    MapMembers(NonEmpty(Split(config, ' ')), Trim, w);
  }

  /** `GetTransparencyForImpact`: "high" and "medium" in any case, anything else is low. */
  function TransparencyForImpact(f: Filter, impact: string): (t: Int32)
    ensures EqualsIgnoreCase(Trim(impact), "high") ==> t == f.transparencyHigh
    ensures EqualsIgnoreCase(Trim(impact), "medium") ==> t == f.transparencyMedium
    ensures !EqualsIgnoreCase(Trim(impact), "high") && !EqualsIgnoreCase(Trim(impact), "medium")
            ==> t == f.transparencyLow
  {
    var key := Lower(Trim(impact));
    LowerMatchesWord(Trim(impact), "high");
    LowerMatchesWord(Trim(impact), "medium");
    if key == "high" then f.transparencyHigh
    else if key == "medium" then f.transparencyMedium
    else f.transparencyLow
  }

  // ---------------------------------------------------------------------
  // What `DrawEventsForToday` draws


  /** `DataRelease_{Impact}_{Country}: {Title} {time}`, the time in the host's culture format. */
  function ReleaseTag(e: Event, time: DateTime, format: DateTime -> string): string {
    "DataRelease_" + e.impact + "_" + e.country + ": " + e.title + " " + format(time)
  }

  /**
   * The draws for one event whose date parsed to `time`: one line exactly
   * when the event is today's, its trimmed country equals a configured
   * currency and its trimmed impact a configured impact level, both
   * ignoring case. The line stands at the event's time under its tag, and
   * its alpha is the transparency of the impact's tier.
   */
  function EventDraws(f: Filter, today: Date, format: DateTime -> string, e: Event, time: DateTime): (r: seq<Draw<VerticalLine>>)
    ensures r != [] <==> time.date == today
                         && (exists w :: w in Words(f.currencyCodes) && EqualsIgnoreCase(w, Trim(e.country)))
                         && (exists w :: w in Words(f.impactLevels) && EqualsIgnoreCase(w, Trim(e.impact)))
    ensures r != [] ==> |r| == 1 && r[0].tag == ReleaseTag(e, time, format) && r[0].obj.time == time
    ensures r != [] && EqualsIgnoreCase(Trim(e.impact), "high") ==> r[0].obj.alpha == Alpha(f.transparencyHigh)
    ensures r != [] && EqualsIgnoreCase(Trim(e.impact), "medium") ==> r[0].obj.alpha == Alpha(f.transparencyMedium)
    ensures r != [] && !EqualsIgnoreCase(Trim(e.impact), "high") && !EqualsIgnoreCase(Trim(e.impact), "medium")
            ==> r[0].obj.alpha == Alpha(f.transparencyLow)
  {
    CurrencyMatch(f.currencyCodes, e.country);
    ImpactMatch(f.impactLevels, e.impact);
    if time.date == today && Selected(f, e) then
      [Draw(ReleaseTag(e, time, format), VerticalLine(time, Alpha(TransparencyForImpact(f, e.impact))))]
    else []
  }

  /** The index of the first event whose date does not parse (`|events|` when all do). */
  function FirstUnparsable(parseDate: string -> Option<DateTime>, events: seq<Event>): (k: nat)
    ensures k <= |events|
    ensures forall j :: 0 <= j < k ==> parseDate(events[j].date).Some?
    ensures k < |events| ==> parseDate(events[k].date).None?
  {
    if events == [] || parseDate(events[0].date).None? then 0
    else 1 + FirstUnparsable(parseDate, events[1..])
  }

  /** What the loop does with one event: nothing when its date does not parse, else its draws. */
  function EventLine(f: Filter, today: Date, parseDate: string -> Option<DateTime>, format: DateTime -> string,
                     e: Event): seq<Draw<VerticalLine>>
  {
    match parseDate(e.date)
    case None => []
    case Some(t) => EventDraws(f, today, format, e, t)
  }

  function Contribution(f: Filter, today: Date, parseDate: string -> Option<DateTime>, format: DateTime -> string)
    : Event -> seq<Draw<VerticalLine>>
  {
    e => EventLine(f, today, parseDate, format, e)
  }

  /** The draws of the loop over the events, in order. */
  function TodayDraws(f: Filter, today: Date, parseDate: string -> Option<DateTime>, format: DateTime -> string,
                      events: seq<Event>): seq<Draw<VerticalLine>>
  {
    FlatMap(events, Contribution(f, today, parseDate, format))
  }

  /**
   * The chart after `DrawEventsForToday`: cleared, then the lines of the
   * events up to the first one whose date does not parse; a null cache
   * leaves it cleared.
   */
  function DrawnChart(f: Filter, today: Date, parseDate: string -> Option<DateTime>, format: DateTime -> string,
                      cached: Option<seq<Event>>): map<string, VerticalLine>
  {
    match cached
    case None => map[]
    case Some(events) => Apply(map[], TodayDraws(f, today, parseDate, format, events[..FirstUnparsable(parseDate, events)]))
  }

  /** `DrawEventsForToday` runs to its end, and so records the day as drawn. */
  predicate DrawCompletes(parseDate: string -> Option<DateTime>, cached: Option<seq<Event>>) {
    cached.Some? && FirstUnparsable(parseDate, cached.value) == |cached.value|
  }

  /** Event `e`, whose date parses, is today's and selected, and is drawn under `tag`. */
  predicate ShownUnder(f: Filter, today: Date, parseDate: string -> Option<DateTime>, format: DateTime -> string,
                       e: Event, tag: string)
  {
    parseDate(e.date).Some?
    && var t := parseDate(e.date).value;
       t.date == today && Selected(f, e) && ReleaseTag(e, t, format) == tag
  }

  /**
   * When every date parses, the chart holds a line under a tag exactly when
   * some event is today's and selected and is drawn under that tag.
   */
  lemma ChartShowsTodaysEvents(f: Filter, today: Date, parseDate: string -> Option<DateTime>,
                               format: DateTime -> string, events: seq<Event>, tag: string)
    requires DrawCompletes(parseDate, Some(events))
    ensures tag in DrawnChart(f, today, parseDate, format, Some(events))
            <==> exists i :: 0 <= i < |events| && ShownUnder(f, today, parseDate, format, events[i], tag)
  {
    var g := Contribution(f, today, parseDate, format);
    assert events[..|events|] == events;
    ApplyFlatMapTags(events, g, tag);
    forall i | 0 <= i < |events|
      ensures tag in Tags(g(events[i])) <==> ShownUnder(f, today, parseDate, format, events[i], tag)
    {
      EventTags(f, today, parseDate, format, events[i], tag);
    }
  }

  lemma EventTags(f: Filter, today: Date, parseDate: string -> Option<DateTime>, format: DateTime -> string,
                  e: Event, tag: string)
    ensures tag in Tags(EventLine(f, today, parseDate, format, e)) <==> ShownUnder(f, today, parseDate, format, e, tag)
  {
    var r := EventLine(f, today, parseDate, format, e);
    if tag in Tags(r) {
      var j :| 0 <= j < |r| && r[j].tag == tag;
    }
    if ShownUnder(f, today, parseDate, format, e, tag) {
      assert r[0].tag == tag;
    }
  }

  // ---------------------------------------------------------------------
  // The refresh rule of `OnBarUpdate`

  datatype Action = Idle | Download | Redraw

  /**
   * For an evaluated bar (last bar on the chart, enough bars): download
   * when an hour has passed since the last download, else redraw when the
   * day drawn is not today, else nothing.
   */
  function Refresh(evaluated: bool, now: DateTime, lastDownloadTime: DateTime, lastDrawnDate: Date): Action
    requires ValidDateTime(now) && ValidDateTime(lastDownloadTime)
  {
    if !evaluated then Idle
    else if HourElapsed(now, lastDownloadTime) then Download
    else if lastDrawnDate != now.date then Redraw
    else Idle
  }

  /** Right after a download at `t`, no instant less than an hour later downloads again. */
  lemma DownloadAtMostHourly(t: DateTime, now: DateTime, lastDrawnDate: Date)
    requires ValidDateTime(t) && ValidDateTime(now)
    requires TicksOf(now) - TicksOf(t) < TicksPerHour
    ensures Refresh(true, now, t, lastDrawnDate) != Download
  {
  }

  /** Once today is drawn, only a download can act before the day changes. */
  lemma RedrawOncePerDay(now: DateTime, lastDownloadTime: DateTime)
    requires ValidDateTime(now) && ValidDateTime(lastDownloadTime)
    ensures Refresh(true, now, lastDownloadTime, now.date) != Redraw
  {
  }

  /** The first evaluated bar after loading, at any valid instant far enough from year 1, downloads. */
  lemma FirstBarDownloads(now: DateTime, lastDrawnDate: Date)
    requires ValidDateTime(now) && DayNumber(now.date) >= 1
    ensures Refresh(true, now, MinValue, lastDrawnDate) == Download
  {
  }

  // ---------------------------------------------------------------------
  // The indicator

  datatype Settings = Settings(filter: Filter, barsRequiredToPlot: int, calculate: Calculate)

  class EconomicCalendar {
    const settings: Settings
    /** `DateTime.ParseExact(date, "MM-dd-yyyy h:mmtt 'UTC'", ...)`, `None` where it throws. */
    const parseDate: string -> Option<DateTime>
    /** The default `DateTime` to string conversion used in the line tag. */
    const format: DateTime -> string
    /** The events of the last successful download; `None` for the initial null. */
    var cachedEvents: Option<seq<Event>>
    var lastDownloadTime: DateTime
    var lastDrawnDate: Date
    /** The chart's vertical lines, by tag. */
    var chart: map<string, VerticalLine>

    ghost predicate Valid()
      reads this
    {
      ValidDateTime(lastDownloadTime)
    }

    constructor (settings: Settings, parseDate: string -> Option<DateTime>, format: DateTime -> string)
      ensures Valid()
      ensures this.settings == settings && this.parseDate == parseDate && this.format == format
      ensures cachedEvents == None && lastDownloadTime == MinValue && lastDrawnDate == MinValue.date && chart == map[]
    {
      this.settings := settings;
      this.parseDate := parseDate;
      this.format := format;
      cachedEvents := None;
      lastDownloadTime := MinValue;
      lastDrawnDate := MinValue.date;
      chart := map[];
    }

    /**
     * `ParseCsvData`: append the events of every line after the first to the
     * cache. Each line appends what `Accepted` gives: nothing at the two
     * `continue`s, otherwise its event.
     */
    method ParseCsvData(csvData: string)
      requires cachedEvents.Some?
      modifies this`cachedEvents
      ensures cachedEvents == Some(old(cachedEvents).value + ParseCsv(csvData))
    {
      var cached := cachedEvents.value;
      var lines := Split(csvData, '\n')[1..];
      var events: seq<Event> := [];
      for i := 0 to |lines|
        invariant events == FlatMap(lines[..i], Accepted)
      {
        var accepted := Accepted(lines[i]);
        FlatMapStep(lines, Accepted, i);
        events := events + accepted;
      }
      assert lines[..|lines|] == lines;
      cachedEvents := Some(cached + events);
    }

    /** The body of the event loop once the date has parsed: draw the line if today's and selected. */
    method DrawEventIfSelected(evt: Event, eventDateTime: DateTime, today: Date)
      modifies this`chart
      ensures chart == Apply(old(chart), EventDraws(settings.filter, today, format, evt, eventDateTime))
    {
      var f := settings.filter;
      ghost var draws := EventDraws(f, today, format, evt, eventDateTime);
      var selected := eventDateTime.date == today && Selected(f, evt);
      if selected {
        var transparency := TransparencyForImpact(f, evt.impact);
        var title := ReleaseTag(evt, eventDateTime, format);
        var line := VerticalLine(eventDateTime, Alpha(transparency));
        assert draws == [Draw(title, line)];
        ApplyOne(chart, Draw(title, line));
        chart := chart[title := line];
      } else {
        assert draws == [];
      }
    }

    /**
     * `DrawEventsForToday` for the UTC day `today`: clear the chart, draw the
     * selected events of that day and record the day as drawn. A date that
     * does not parse, or a null cache, ends the method by an exception, with
     * the lines drawn so far and the day not recorded.
     */
    method DrawEventsForToday(today: Date) returns (completed: bool)
      modifies this`chart, this`lastDrawnDate
      ensures chart == DrawnChart(settings.filter, today, parseDate, format, cachedEvents)
      ensures completed == DrawCompletes(parseDate, cachedEvents)
      ensures lastDrawnDate == if completed then today else old(lastDrawnDate)
    {
      chart := map[];
      if cachedEvents.None? {
        return false;
      }
      var events := cachedEvents.value;
      ghost var k := FirstUnparsable(parseDate, events);
      ghost var g := Contribution(settings.filter, today, parseDate, format);
      assert events[..0] == [];
      for i := 0 to |events|
        invariant i <= k
        invariant chart == Apply(map[], FlatMap(events[..i], g))
        invariant lastDrawnDate == old(lastDrawnDate)
      {
        var evt := events[i];
        var eventDateTime := parseDate(evt.date);
        if eventDateTime.None? {
          assert i == k;
          return false;
        }
        FlatMapStep(events, g, i);
        ApplyConcat(map[], FlatMap(events[..i], g), EventDraws(settings.filter, today, format, evt, eventDateTime.value));
        DrawEventIfSelected(evt, eventDateTime.value, today);
      }
      assert events[..|events|] == events;
      lastDrawnDate := today;
      return true;
    }

    /**
     * `LoadEconomicCalendarData` with `fetched` the downloaded text, or
     * `None` when the download throws (caught: nothing changes). After a
     * download the cache is replaced, the download time becomes `now`, and
     * today's events are drawn.
     */
    method LoadEconomicCalendarData(fetched: Option<string>, now: DateTime)
      requires Valid() && ValidDateTime(now)
      modifies this`cachedEvents, this`lastDownloadTime, this`chart, this`lastDrawnDate
      ensures Valid()
      ensures fetched.None? ==> cachedEvents == old(cachedEvents) && lastDownloadTime == old(lastDownloadTime)
                                && chart == old(chart) && lastDrawnDate == old(lastDrawnDate)
      ensures fetched.Some? ==>
                && cachedEvents == Some(ParseCsv(fetched.value))
                && lastDownloadTime == now
                && chart == DrawnChart(settings.filter, now.date, parseDate, format, cachedEvents)
                && lastDrawnDate == if DrawCompletes(parseDate, cachedEvents) then now.date else old(lastDrawnDate)
    {
      if fetched.None? {
        return;
      }
      ghost var events := ParseCsv(fetched.value);
      cachedEvents := Some([]);
      ParseCsvData(fetched.value);
      assert cachedEvents == Some(events) by {
        assert [] + events == events;
      }
      lastDownloadTime := now;
      var _ := DrawEventsForToday(now.date);
    }

    /**
     * `OnBarUpdate` at the instant `now`: the action taken is `Refresh` of
     * the gate and the two remembered times, and the state changes as that
     * action does.
     */
    method OnBarUpdate(currentBar: int, isFirstTickOfBar: bool, toIndex: int, now: DateTime, fetched: Option<string>)
      returns (action: Action)
      requires Valid() && ValidDateTime(now)
      modifies this`cachedEvents, this`lastDownloadTime, this`chart, this`lastDrawnDate
      ensures Valid()
      ensures action == Refresh(
        LastBarOnChart(isFirstTickOfBar, currentBar, settings.calculate, toIndex) && currentBar >= settings.barsRequiredToPlot,
        now, old(lastDownloadTime), old(lastDrawnDate))
      ensures action == Idle || (action == Download && fetched.None?) ==>
                cachedEvents == old(cachedEvents) && lastDownloadTime == old(lastDownloadTime)
                && chart == old(chart) && lastDrawnDate == old(lastDrawnDate)
      ensures action == Download && fetched.Some? ==>
                && cachedEvents == Some(ParseCsv(fetched.value))
                && lastDownloadTime == now
                && chart == DrawnChart(settings.filter, now.date, parseDate, format, cachedEvents)
                && lastDrawnDate == if DrawCompletes(parseDate, cachedEvents) then now.date else old(lastDrawnDate)
      ensures action == Redraw ==>
                && cachedEvents == old(cachedEvents) && lastDownloadTime == old(lastDownloadTime)
                && chart == DrawnChart(settings.filter, now.date, parseDate, format, cachedEvents)
                && lastDrawnDate == if DrawCompletes(parseDate, cachedEvents) then now.date else old(lastDrawnDate)
    {
      var lastBarOnChart := LastBarOnChart(isFirstTickOfBar, currentBar, settings.calculate, toIndex);
      if !lastBarOnChart || currentBar < settings.barsRequiredToPlot {
        return Idle;
      }
      if HourElapsed(now, lastDownloadTime) {
        LoadEconomicCalendarData(fetched, now);
        action := Download;
      } else if lastDrawnDate != now.date {
        var _ := DrawEventsForToday(now.date);
        action := Redraw;
      } else {
        action := Idle;
      }
    }
  }
}
