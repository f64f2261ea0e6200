/**
 * The session-open indicator: on the last bar of the chart it draws one
 * vertical line at the US cash open (09:30 New York) and one at the EU open
 * (08:00 London) of the bar's day, in the chart's zone. A line is drawn only
 * when no object with its tag exists yet, and the work is throttled to once
 * an hour or once per new bar date.
 */
module SessionOpenLines {
  import opened Time
  import opened Host

  /** The two sessions, named "US" and "EU" in the tags. */
  datatype Market = US | EU

  function MarketName(m: Market): (name: string)
    ensures |name| == 2
  {
    match m
    case US => "US"
    case EU => "EU"
  }

  /** `SessionOpenTime_{tag}_{yyyyMMdd}`. */
  function LineTag(m: Market, d: Date): (tag: string)
    ensures |tag| == 27
  {
    "SessionOpenTime_" + MarketName(m) + "_" + DateStamp(d)
  }

  /** The US and EU lines never share a tag, whatever their dates. */
  lemma MarketTagsDiffer(d1: Date, d2: Date)
    ensures LineTag(US, d1) != LineTag(EU, d2)
  {
    assert LineTag(US, d1)[16] == 'U' && LineTag(EU, d2)[16] == 'E';
  }

  /** One tag per market and valid day: the tag names its line. */
  lemma LineTagInjective(m1: Market, d1: Date, m2: Market, d2: Date)
    requires ValidDate(d1) && ValidDate(d2)
    requires LineTag(m1, d1) == LineTag(m2, d2)
    ensures m1 == m2 && d1 == d2
  {
    var t1, t2 := LineTag(m1, d1), LineTag(m2, d2);
    assert t1[16..18] == MarketName(m1) && t2[16..18] == MarketName(m2);
    assert t1[19..] == DateStamp(d1) && t2[19..] == DateStamp(d2);
    DateStampInjective(d1, d2);
  }

  datatype Settings = Settings(
    usSessionOpenTime: TimeSpan, nyseTimeZoneId: ZoneId,
    euSessionOpenTime: TimeSpan, londonTimeZoneId: ZoneId,
    chartTimeZoneId: ZoneId, lineTransparency: Int32,
    barsRequiredToPlot: int, calculate: Calculate)

  /** The zones of the `Configure` step, chart first, and its fallback list. */
  const DefaultZones: seq<ZoneId> := ["Central European Standard Time", "Eastern Standard Time", "GMT Standard Time"]

  /** The resolved zones: the chart's, New York's and London's. */
  datatype Zones = Zones(chart: ZoneId, nyse: ZoneId, london: ZoneId)

  /**
   * The line `DrawSessionOpenLineIfNeeded` draws for `m` on `date`: at the
   * session's open time on that date in the session's zone, seen in the
   * chart's zone.
   */
  function OpenLine(s: Settings, z: Zones, convert: Converter, m: Market, date: Date): VerticalLine {
    match m
    case US => VerticalLine(convert(date, s.usSessionOpenTime, z.nyse, z.chart), Alpha(s.lineTransparency))
    case EU => VerticalLine(convert(date, s.euSessionOpenTime, z.london, z.chart), Alpha(s.lineTransparency))
  }

  /**
   * The chart after one update on `date`: the US line and then the EU line,
   * each only where its tag is still free. Every existing object is kept,
   * and the only tags added are the day's two.
   */
  function Updated(chart: map<string, VerticalLine>, s: Settings, z: Zones, convert: Converter, date: Date)
    : (r: map<string, VerticalLine>)
    ensures r.Keys == chart.Keys + {LineTag(US, date), LineTag(EU, date)}
    ensures forall k :: k in chart ==> r[k] == chart[k]
  {
    var us := DrawIfAbsent(chart, LineTag(US, date), OpenLine(s, z, convert, US, date));
    DrawIfAbsent(us, LineTag(EU, date), OpenLine(s, z, convert, EU, date))
  }

  /** A line whose tag was free is the line of its market and day. */
  lemma UpdatedDrawsMissing(chart: map<string, VerticalLine>, s: Settings, z: Zones, convert: Converter, date: Date, m: Market)
    requires LineTag(m, date) !in chart
    ensures Updated(chart, s, z, convert, date)[LineTag(m, date)] == OpenLine(s, z, convert, m, date)
  {
    MarketTagsDiffer(date, date);
  }

  /**
   * Once a day's lines exist, later updates for that day leave the chart as
   * it is, even when the zones or open times now give other positions.
   */
  lemma UpdatedIdempotent(chart: map<string, VerticalLine>, s: Settings, z: Zones, s2: Settings, z2: Zones,
                          convert: Converter, date: Date)
    ensures Updated(Updated(chart, s, z, convert, date), s2, z2, convert, date) == Updated(chart, s, z, convert, date)
  {
    var once := Updated(chart, s, z, convert, date);
    assert LineTag(US, date) in once && LineTag(EU, date) in once;
  }

  /** The throttle: an hour since the last update, or a bar date other than the last one processed. */
  predicate UpdateDue(now: DateTime, lastUpdateTime: DateTime, currentBarDate: DateTime, lastProcessedDate: DateTime)
    requires ValidDateTime(now) && ValidDateTime(lastUpdateTime)
  {
    HourElapsed(now, lastUpdateTime) || currentBarDate != lastProcessedDate
  }

  /** From the initial state, any instant on a day after 0001-01-01 is due, whatever the bar date. */
  lemma FirstUpdateDue(now: DateTime, currentBarDate: DateTime)
    requires ValidDateTime(now) && now.date != MinValue.date
    ensures UpdateDue(now, MinValue, currentBarDate, MinValue)
  {
    var y := now.date.year - 1;
    DaysBeforeMonthAtLeast(now.date.year, now.date.month);
    if y == 0 {
      assert DayNumber(now.date) >= 1;
    } else {
      assert y / 4 >= y / 100;
      assert y * 365 >= 365;
      assert DayNumber(now.date) >= 1;
    }
  }

  /** Every month before `m` has at least one day. */
  lemma {:induction false} DaysBeforeMonthAtLeast(y: int, m: int)
    requires 1 <= m <= 12
    ensures DaysBeforeMonth(y, m) >= m - 1
    decreases m
  {
    if m > 1 {
      DaysBeforeMonthAtLeast(y, m - 1);
    }
  }

  /** Right after an update for a bar date, the same date within the hour is not due. */
  lemma ThrottledWithinHour(t: DateTime, now: DateTime, barDate: DateTime)
    requires ValidDateTime(t) && ValidDateTime(now)
    requires TicksOf(now) - TicksOf(t) < TicksPerHour
    ensures !UpdateDue(now, t, barDate, barDate)
  {
  }

  /**
   * With `lastProcessedDate` holding the `.Date` of an earlier bar, the
   * throttle opens exactly when an hour has passed or the new bar falls on
   * another calendar day.
   */
  lemma DueOnNewBarDate(previousBar: DateTime, barTime: DateTime, now: DateTime, lastUpdateTime: DateTime)
    requires ValidDateTime(now) && ValidDateTime(lastUpdateTime) && ValidDateTime(barTime)
    ensures UpdateDue(now, lastUpdateTime, Midnight(barTime), Midnight(previousBar))
            <==> HourElapsed(now, lastUpdateTime) || barTime.date != previousBar.date
  {
    SameBarDate(barTime, previousBar);
  }

  class SessionOpen {
    const settings: Settings
    const convert: Converter
    var zones: Zones
    /** The bar date of the last update (`MinValue` before the first). */
    var lastProcessedDate: DateTime
    /** The instant of the last update (`MinValue` before the first). */
    var lastUpdateTime: DateTime
    /** The chart's drawing objects, by tag. */
    var chart: map<string, VerticalLine>

    ghost predicate Valid()
      reads this
    {
      ValidDateTime(lastUpdateTime)
    }

    constructor (settings: Settings, convert: Converter)
      ensures Valid()
      ensures this.settings == settings && this.convert == convert
      ensures zones == Zones(settings.chartTimeZoneId, settings.nyseTimeZoneId, settings.londonTimeZoneId)
      ensures lastProcessedDate == MinValue && lastUpdateTime == MinValue && chart == map[]
    {
      this.settings := settings;
      this.convert := convert;
      zones := Zones(settings.chartTimeZoneId, settings.nyseTimeZoneId, settings.londonTimeZoneId);
      lastProcessedDate := MinValue;
      lastUpdateTime := MinValue;
      chart := map[];
    }

    /** The `Configure` branch: the three zones, or all three defaults when one is unknown. */
    method Configure(known: set<ZoneId>)
      modifies this`zones
      ensures [zones.chart, zones.nyse, zones.london]
              == ResolveZones([settings.chartTimeZoneId, settings.nyseTimeZoneId, settings.londonTimeZoneId], known, DefaultZones)
    {
      var r := ResolveZones([settings.chartTimeZoneId, settings.nyseTimeZoneId, settings.londonTimeZoneId], known, DefaultZones);
      zones := Zones(r[0], r[1], r[2]);
    }

    /** `DrawSessionOpenLineIfNeeded`: draw the market's line for `date` unless its tag is taken. */
    method DrawSessionOpenLineIfNeeded(m: Market, date: Date)
      modifies this`chart
      ensures chart == DrawIfAbsent(old(chart), LineTag(m, date), OpenLine(settings, zones, convert, m, date))
      ensures LineTag(m, date) in old(chart) ==> chart == old(chart)
      ensures LineTag(m, date) !in old(chart) ==> chart == old(chart)[LineTag(m, date) := VerticalLine(
                if m == US then convert(date, settings.usSessionOpenTime, zones.nyse, zones.chart)
                else convert(date, settings.euSessionOpenTime, zones.london, zones.chart),
                Alpha(settings.lineTransparency))]
    {
      var tag := LineTag(m, date);
      if tag !in chart {
        var openTime, zone := settings.usSessionOpenTime, zones.nyse;
        if m == EU {
          openTime, zone := settings.euSessionOpenTime, zones.london;
        }
        chart := chart[tag := VerticalLine(convert(date, openTime, zone, zones.chart), Alpha(settings.lineTransparency))];
      }
    }

    /**
     * `OnBarUpdate` for the bar at index `currentBar`, timed `barTime`, at
     * the local instant `now`. It updates exactly when the bar is the last
     * on the chart, enough bars are loaded and the throttle is due; an
     * update draws the day's missing lines and remembers the date and instant.
     */
    method OnBarUpdate(currentBar: int, barTime: DateTime, isFirstTickOfBar: bool, toIndex: int, now: DateTime)
      returns (updated: bool)
      requires Valid() && ValidDateTime(now)
      modifies this`chart, this`lastProcessedDate, this`lastUpdateTime
      ensures Valid()
      ensures updated == (LastBarOnChart(isFirstTickOfBar, currentBar, settings.calculate, toIndex)
                          && currentBar >= settings.barsRequiredToPlot
                          && UpdateDue(now, old(lastUpdateTime), Midnight(barTime), old(lastProcessedDate)))
      ensures updated ==> chart == Updated(old(chart), settings, zones, convert, barTime.date)
                          && lastProcessedDate == Midnight(barTime) && lastUpdateTime == now
      ensures !updated ==> chart == old(chart) && lastProcessedDate == old(lastProcessedDate)
                           && lastUpdateTime == old(lastUpdateTime)
    {
      updated := false;
      if !LastBarOnChart(isFirstTickOfBar, currentBar, settings.calculate, toIndex) {
        return;
      }
      if currentBar < settings.barsRequiredToPlot {
        return;
      }
      var currentBarDate := Midnight(barTime);
      if HourElapsed(now, lastUpdateTime) || currentBarDate != lastProcessedDate {
        DrawSessionOpenLineIfNeeded(US, currentBarDate.date);
        DrawSessionOpenLineIfNeeded(EU, currentBarDate.date);
        lastProcessedDate := currentBarDate;
        lastUpdateTime := now;
        updated := true;
      }
    }
  }
}
