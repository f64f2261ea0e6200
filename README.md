# NinjaTrader session indicators, modelled in Dafny

This project models four NinjaTrader chart indicators and proves properties of the model:

- **Cash-session levels** (`AAA_CashSessionLevels`). It watches the newest bar cross the session open or close. At each crossing it rescans the bar history, keeps the closing prices of the bars that sit exactly on a boundary, and keeps the six newest of them in newest-first order. It then draws one horizontal line per level, faded by its rank within its role.
- **Economic calendar** (`AAA_EconomicCalendar`). It downloads a weekly CSV at most once an hour and parses it into events. Once per day, or after a download, it draws a vertical line for each of today's events that passes the currency and impact filters.
- **Session open** (`AAA_SessionOpen`). On the last bar it draws the US and EU session-open lines of the bar's day. Each line is drawn only if no object already holds its tag. The drawing is throttled to once an hour or once per new bar date.
- **Clock** (`AAA_Clock`). It maps an alignment pair to a chart corner and formats the time as `HH:mm:ss`. Every tick redraws a single text object tagged `WallClock`.

## Files

| File | What it holds |
|---|---|
| `wrappers.dfy` | `Option`. |
| `lists.dfy` | `FlatMap` and `Map`: the shapes of the source's append loops and `Select` calls. |
| `time.dfy` | Dates and times of day, chronological order, the Gregorian day number, and elapsed hours. Also zero-padded fields, `yyyyMMdd` stamps, and time-zone fallback. |
| `text.dfy` | The .NET `Split`, `Join`, `Trim` and `IsNullOrWhiteSpace`, and ASCII case folding. |
| `host.dfy` | The "last bar on chart" gate and the alpha byte in 32-bit arithmetic. The chart's drawing objects are a map from tag to object; the vertical line both line-drawing indicators draw. |
| `cash_session_levels.dfy` | The crossing detector, the level scan, the stable newest-first sort, the six-level ledger, the tiered drawing, and the indicator class. |
| `economic_calendar.dfy` | The CSV parser, the filters, the daily drawing and the refresh rule, and the indicator class. |
| `session_open.dfy` | Session-open tags, draw-if-absent, the throttle, and the indicator class. |
| `clock.dfy` | Text position, the clock text, and the replacing redraw. |

### Modelling choices

- A `DateTime` is a date plus the ticks since midnight. The `yyyyMMdd` stamps are therefore concrete strings, and they are proved injective on valid dates. Dates and times are compared lexicographically, which is the .NET order on valid values. Elapsed time (`TotalHours >= 1`) goes through the day number.
- Time-zone conversion is a function value of type `Converter`, and is not interpreted. A zone lookup is a set of known identifiers: when any requested zone is unknown, every zone takes its default, as the source's single `catch` does.
- The chart's objects are a `map` from tag to drawn object. Drawing under an existing tag replaces the object, as the host does.
- The wall-clock instant (`DateTime.Now`, `UtcNow`) is one parameter per callback. So are the downloaded text (`None` when the download throws), the date parser of the calendar (`None` where `ParseExact` throws) and the host's date formatting.
- The state the cash-session, calendar and session-open indicators keep in fields is kept in fields of a Dafny `class`, one per indicator. The clock has no class: its text position and its chart are parameters of `Clock.UpdateClock`, which returns the new chart. The methods update those fields and are proved against the functions that specify them. The source's loops are `for` loops with invariants:
  - `CollectPriceLevels` scans the bars;
  - `DrawPriceLevels` draws each role;
  - `ParseCsvData` reads the lines;
  - `DrawEventsForToday` walks the events.

### Duplicate levels

`CollectPriceLevels` does not stop two levels with the same date and role. Strictly increasing bar times rule them out (`CashSession.LedgerOnePerSlot`). Two bars with the same time on a boundary would give two levels.

## Model

| member | source | states |
|---|---|---|
| `Time.DateStampInjective` | src/AAA_CashSessionLevels.cs:241 | Two valid dates with the same `yyyyMMdd` stamp are the same date, so a stamped tag names one day. |
| `Time.PadRoundTrip` | src/AAA_CashSessionLevels.cs:241 | Reading back a zero-padded decimal field gives the number whenever it fits the width. |
| `Time.DateStamp` | src/AAA_CashSessionLevels.cs:241 | Definition of `ToString("yyyyMMdd")`: eight digits, four for the year and two each for month and day; `Time.DateStampInjective` states that it names one day. |
| `Time.Midnight` | src/AAA_SessionOpen.cs:140 | Definition of `DateTime.Date`: the same date at tick 0. `Time.SameBarDate` states its properties. |
| `Time.SameBarDate` | src/AAA_SessionOpen.cs:140-143 | Two instants have the same `.Date` exactly when they fall on the same calendar day, and an instant is never before its own day's midnight. |
| `Time.Before` | src/AAA_CashSessionLevels.cs:175-176 | Definition of `DateTime <`, lexicographic on date and ticks; `Time.NotAfterTransitive` and the crossing lemmas use it. |
| `Time.NotAfter` | src/AAA_CashSessionLevels.cs:175-176 | Definition of `DateTime <=` as not `>`; `Time.NotAfterTransitive` states it is transitive. |
| `Time.DayNumber` | src/AAA_EconomicCalendar.cs:117 | Definition of the proleptic Gregorian day count behind `Ticks`; `Time.DayNumberExamples` pins it to .NET's values. |
| `Time.TicksOf` | src/AAA_EconomicCalendar.cs:117 | Definition of `Ticks`: the day count times the ticks of a day plus the ticks since midnight; `Time.HourElapsed` measures elapsed time with it. |
| `Time.ResolveZones` | src/AAA_CashSessionLevels.cs:140-150 | The requested zones are used exactly when all are known, or when they already are the defaults. Otherwise the whole default list is used. |
| `Time.HourElapsed` | src/AAA_EconomicCalendar.cs:117 | Definition of `(now - since).TotalHours >= 1` on the tick counts of the two instants; the throttles' lemmas (`Calendar.DownloadAtMostHourly`, `SessionOpenLines.ThrottledWithinHour`) state its use. |
| `Text.SplitPieces` | src/AAA_EconomicCalendar.cs:151 | No piece of `Split` contains the separator, and joining the pieces gives back the string. |
| `Text.SplitJoin` | src/AAA_EconomicCalendar.cs:158 | Splitting a join of separator-free pieces gives back the pieces. |
| `Text.Split` | src/AAA_EconomicCalendar.cs:158 | Definition of `string.Split(c)`, always at least one piece; `Text.SplitPieces` and `Text.SplitJoin` state what the pieces are. |
| `Text.Join` | src/AAA_EconomicCalendar.cs:151 | Definition of pieces joined by a separator, the inverse `Text.SplitJoin` proves for `Split`; it states what text the CSV lemmas start from. |
| `Text.IsWhite` | src/AAA_EconomicCalendar.cs:163-168 | Definition of `char.IsWhiteSpace`, the characters `Trim` removes; `Text.Trim`'s contract states what trimming does with them. |
| `Text.Trim` | src/AAA_EconomicCalendar.cs:163-168 | The result is the input with white space removed at both ends only: an infix of the input whose cut-off prefix and suffix are all white, and which neither starts nor ends with white space. |
| `Text.TrimStart` | src/AAA_EconomicCalendar.cs:163-168 | The result is a suffix of the input, and what was removed is all white space. |
| `Text.TrimEnd` | src/AAA_EconomicCalendar.cs:163-168 | The result is a prefix of the input, and what was removed is all white space. |
| `Text.TrimIdempotent` | src/AAA_EconomicCalendar.cs:193-194 | Trimming twice is trimming once, so re-trimming a parsed field changes nothing. |
| `Text.IsBlank` | src/AAA_EconomicCalendar.cs:156 | Definition of `string.IsNullOrWhiteSpace` on a non-null string: every character is white space. `Text.BlankIffTrimEmpty` states its properties. |
| `Text.BlankIffTrimEmpty` | src/AAA_EconomicCalendar.cs:156 | A line is blank exactly when trimming leaves nothing. |
| `Text.LowerEqualIffIgnoreCase` | src/AAA_EconomicCalendar.cs:184 | Two strings are equal after lower-casing exactly when they are equal up to letter case. |
| `Text.Upper` | src/AAA_EconomicCalendar.cs:181-193 | Definition of `ToUpperInvariant` on ASCII letters. `Text.UpperEqualIffIgnoreCase` states its properties. |
| `Text.Lower` | src/AAA_EconomicCalendar.cs:183-210 | Definition of `ToLowerInvariant` on ASCII letters. `Text.LowerEqualIffIgnoreCase` and `Text.LowerMatchesWord` state its properties. |
| `Text.UpperEqualIffIgnoreCase` | src/AAA_EconomicCalendar.cs:182 | Two strings are equal after upper-casing exactly when they are equal up to letter case. |
| `Text.LowerMatchesWord` | src/AAA_EconomicCalendar.cs:210-214 | A string lower-cases to a lower-case word exactly when it spells that word in any case. |
| `Host.Alpha` | src/AAA_CashSessionLevels.cs:269 | 0 percent gives alpha 0 and 100 percent gives alpha 255. |
| `Host.AlphaScales` | src/AAA_CashSessionLevels.cs:269 | For 0..100 percent the alpha is `percent * 255 / 100`, rounded down. |
| `Host.AlphaMonotone` | src/AAA_CashSessionLevels.cs:269 | A higher percentage in 0..100 is never more transparent. |
| `Host.AlphaWrapsPastHundred` | src/AAA_CashSessionLevels.cs:269 | Outside 0..100 the unchecked byte cast wraps: 101 gives 1 and -1 gives 254. |
| `Host.LastBarOnChart` | src/AAA_CashSessionLevels.cs:163 | Definition of the gate: the first tick of a bar whose index, plus one unless `OnEachTick`, reaches the chart's last index. Each `OnBarUpdate` contract states that nothing happens outside it. |
| `Host.Wrap32` | src/AAA_CashSessionLevels.cs:269 | Definition of the 32-bit two's-complement wrap of `lineTransparency * 255`; `Host.AlphaWrapsPastHundred` and `Host.AlphaScales` state its effect on the alpha. |
| `Host.TruncDiv` | src/AAA_CashSessionLevels.cs:269 | Definition of C# integer division, truncating toward zero; `Host.AlphaWrapsPastHundred` shows a negative case (-255 / 100 is -2). |
| `Host.ToByte` | src/AAA_CashSessionLevels.cs:269 | Definition of the unchecked `(byte)` cast, keeping the low eight bits; `Host.AlphaWrapsPastHundred` shows it wrapping. |
| `Host.Apply` | src/AAA_CashSessionLevels.cs:238-249 | After a series of draws, every earlier tag and every drawn tag is on the chart. |
| `Host.ApplyKeys` | src/AAA_CashSessionLevels.cs:238-249 | The tags after drawing are exactly the earlier ones plus the drawn ones. |
| `Host.ApplyOverrides` | src/AAA_CashSessionLevels.cs:238-249 | Drawing onto a chart overrides it with what the same draws leave on an empty chart. |
| `Host.ApplyConcat` | src/AAA_CashSessionLevels.cs:238-249 | Drawing two batches one after the other is drawing their concatenation. |
| `Host.ApplyIdempotent` | src/AAA_CashSessionLevels.cs:238-249 | Re-issuing the same draws leaves the chart unchanged. |
| `Host.ApplyDistinct` | src/AAA_CashSessionLevels.cs:238-249 | When tags are distinct, each drawn object is the one under its tag afterwards. |
| `Host.ApplyUntouched` | src/AAA_CashSessionLevels.cs:238-249 | An object whose tag no draw uses keeps its value. |
| `Host.ApplyFlatMapTags` | src/AAA_EconomicCalendar.cs:186-204 | After a loop of draws over a list, a tag is on the chart exactly when some element drew under it. |
| `Host.DrawIfAbsent` | src/AAA_SessionOpen.cs:159-165 | Nothing on the chart changes, and the new object appears only when its tag was free. |
| `Host.DrawIfAbsentIdempotent` | src/AAA_SessionOpen.cs:159-165 | A second draw-if-absent under the same tag changes nothing, even with a different object. |
| `CashSession.RepeatedTimeDoesNotRetrigger` | src/AAA_CashSessionLevels.cs:175-184 | A bar with the same time as the previous one never triggers a rebuild. |
| `CashSession.Boundary` | src/AAA_CashSessionLevels.cs:187-192 | Definition of `GetSessionInChartTimezone`: the open or close time on a date in the session's zone, converted to the chart's zone. |
| `CashSession.Crosses` | src/AAA_CashSessionLevels.cs:175-176 | Definition of one half of the crossing test: the boundary lies in `(prev, cur]`. `CashSession.CrossedAtMostOnce` and `CashSession.CrossedWhenSpanned` state its behaviour along a series. |
| `CashSession.RebuildDue` | src/AAA_CashSessionLevels.cs:169-176 | Definition of the rebuild test: a previous time is set and the open or close boundary of the current bar's date is crossed. Its properties are the lemmas around it. |
| `CashSession.NoRebuildWithoutPrevious` | src/AAA_CashSessionLevels.cs:169 | While the previous bar time is `MinValue`, no bar rebuilds. |
| `CashSession.RebuildOnFirstCrossing` | src/AAA_CashSessionLevels.cs:169-176 | With a previous time set, a bar rebuilds when a boundary of its date lies after that time and at or before its own. This unfolds `CashSession.RebuildDue`; the tie to `Transition` comes from the ensures of `Transition` and `OnBarUpdate`. |
| `CashSession.CrossedAtMostOnce` | src/AAA_CashSessionLevels.cs:175-176 | In a chronological series of bar times, a boundary lies in `(prev, cur]` at one step at most. |
| `CashSession.CrossedWhenSpanned` | src/AAA_CashSessionLevels.cs:175-176 | If the series starts before a boundary and ends at or after it, some step crosses it. |
| `CashSession.AtMostTwoRebuildsPerDay` | src/AAA_CashSessionLevels.cs:169-181 | Within one chart date, no three evaluated bars all trigger a rebuild. |
| `CashSession.LevelsAt` | src/AAA_CashSessionLevels.cs:209-222 | Definition of one loop pass: a level for each boundary the bar's time equals; `CashSession.LevelsAtMembers` states it. |
| `CashSession.Scan` | src/AAA_CashSessionLevels.cs:205-223 | Definition of the loop over `Time[i]`, newest bar first; `CashSession.ScanMembers` and `CashSession.ScanOnePerSlot` state what it collects. |
| `CashSession.LevelsAtMembers` | src/AAA_CashSessionLevels.cs:209-222 | A bar yields a level exactly when its time equals that role's boundary on its date; the level carries the bar's date and close. |
| `CashSession.ScanMembers` | src/AAA_CashSessionLevels.cs:205-223 | A level is collected exactly when some bar of the history sits on its boundary. |
| `CashSession.Insert` | src/AAA_CashSessionLevels.cs:226 | Definition of one insertion step of the stable sort; the `Insert*` lemmas state its properties. |
| `CashSession.SortNewestFirst` | src/AAA_CashSessionLevels.cs:226 | Definition of `OrderByDescending(p => p.Date)` as a stable insertion sort; `CashSession.SortCorrect` states it is a newest-first stable permutation. |
| `CashSession.InsertElements` | src/AAA_CashSessionLevels.cs:226 | Inserting adds exactly the inserted level. |
| `CashSession.InsertKeepsOrder` | src/AAA_CashSessionLevels.cs:226 | Inserting into a newest-first list keeps it newest first. |
| `CashSession.InsertOfDate` | src/AAA_CashSessionLevels.cs:226 | An inserted level goes ahead of the levels with its own date, so `OrderByDescending` stays stable. |
| `CashSession.SortCorrect` | src/AAA_CashSessionLevels.cs:226 | The sort is newest first, a permutation, and stable: each date's levels keep their scan order. |
| `CashSession.Take` | src/AAA_CashSessionLevels.cs:228 | `Take(n)` is a prefix of exactly `n` elements, or the whole list when it has fewer. |
| `CashSession.TakeNewestFirst` | src/AAA_CashSessionLevels.cs:228 | A prefix of a newest-first list is newest first. |
| `CashSession.TakeDropsOldest` | src/AAA_CashSessionLevels.cs:228 | Nothing `Take` drops is newer than anything it keeps. |
| `CashSession.Ledger` | src/AAA_CashSessionLevels.cs:225-228 | Definition of the kept levels: the scan, sorted, truncated to six; the `Ledger*` lemmas state their properties. |
| `CashSession.LedgerSize` | src/AAA_CashSessionLevels.cs:228 | The ledger holds exactly six levels when more than six were collected, and every collected level otherwise. |
| `CashSession.LedgerOrdered` | src/AAA_CashSessionLevels.cs:225-228 | The kept levels number at most six and are newest first. |
| `CashSession.LedgerProvenance` | src/AAA_CashSessionLevels.cs:205-228 | Every kept level records a bar of the history that sits exactly on its boundary. |
| `CashSession.LedgerEvictsOldest` | src/AAA_CashSessionLevels.cs:225-228 | Every collected level that was not kept is no newer than any kept one. |
| `CashSession.LedgerComplete` | src/AAA_CashSessionLevels.cs:228 | When at most six levels were collected, all of them are kept. |
| `CashSession.LedgerStable` | src/AAA_CashSessionLevels.cs:226-228 | The kept levels of a date are a prefix of that date's collected levels, in scan order. |
| `CashSession.OnePerSlotConcat` | src/AAA_CashSessionLevels.cs:213-222 | Joining two lists with one level per date and role and no shared slot keeps one level per slot. |
| `CashSession.ScanOnePerSlot` | src/AAA_CashSessionLevels.cs:205-223 | With strictly increasing bar times, no date gets two opens or two closes. |
| `CashSession.InsertOnePerSlot` | src/AAA_CashSessionLevels.cs:226 | Inserting a level with a fresh slot keeps one level per slot. |
| `CashSession.SortOnePerSlot` | src/AAA_CashSessionLevels.cs:226 | Sorting keeps one level per slot. |
| `CashSession.LedgerOnePerSlot` | src/AAA_CashSessionLevels.cs:205-228 | With strictly increasing bar times, the kept levels hold at most one open and one close per date. |
| `CashSession.OfRole` | src/AAA_CashSessionLevels.cs:234-235 | The `Where` filter keeps only levels of the asked role. |
| `CashSession.OfRoleMembers` | src/AAA_CashSessionLevels.cs:234-235 | A level passes the filter exactly when it is in the list and has the role. |
| `CashSession.OfRoleOnePerSlot` | src/AAA_CashSessionLevels.cs:234-235 | Filtering keeps one level per slot. |
| `CashSession.OfRoleNewestFirst` | src/AAA_CashSessionLevels.cs:234-235 | The `Where` filter keeps the order: a newest-first list gives a newest-first list. |
| `CashSession.LedgerRanksByAge` | src/AAA_CashSessionLevels.cs:226-240 | Within a role of the ledger, lower ranks are no older than higher ones, and rank 0 is no older than any level of its role; so rank 0, drawn with tier 1, is the newest. |
| `CashSession.Tier` | src/AAA_CashSessionLevels.cs:253-265 | Definition of `DetermineTransparency`: level 1 for rank 0, level 2 for rank 1, level 3 for every later rank; `CashSession.RenderedLines` and `CashSession.LedgerRanksByAge` state which level gets which tier. |
| `CashSession.LevelTag` | src/AAA_CashSessionLevels.cs:241-248 | Definition of `SessionOpenLevel_{yyyyMMdd}` and `SessionCloseLevel_{yyyyMMdd}`; `CashSession.LevelTagInjective` and `CashSession.OpenCloseTagsDiffer` state that a tag names one role and day. |
| `CashSession.RoleLines` | src/AAA_CashSessionLevels.cs:238-249 | Definition of one role's drawing loop: the level of rank `k` under its date's tag with its price and tier `k`. `CashSession.RenderedLines` states what it leaves on the chart. |
| `CashSession.Render` | src/AAA_CashSessionLevels.cs:231-250 | Definition of `DrawPriceLevels`' draws: the open lines, then the close lines. `CashSession.RenderDistinct` and `CashSession.RenderedLines` state its effect. |
| `CashSession.OpenCloseTagsDiffer` | src/AAA_CashSessionLevels.cs:241-248 | An open line's tag never equals a close line's tag. |
| `CashSession.LevelTagInjective` | src/AAA_CashSessionLevels.cs:241-248 | Within a role, equal tags on valid dates mean equal dates. |
| `CashSession.RoleLinesDistinct` | src/AAA_CashSessionLevels.cs:238-249 | With one level per slot on valid dates, one role's lines have distinct tags. |
| `CashSession.RenderDistinct` | src/AAA_CashSessionLevels.cs:231-250 | All lines drawn by `DrawPriceLevels` have distinct tags. |
| `CashSession.RenderedLines` | src/AAA_CashSessionLevels.cs:238-269 | After drawing, the level of rank `k` in its role is on the chart under its date's tag, with its price and the alpha of tier `k`: 1, 2, or 3 for every later rank. |
| `CashSession.LedgerRendered` | src/AAA_CashSessionLevels.cs:194-265 | End to end over well-formed, strictly increasing bars: each kept level is drawn under its tag with its price and its rank's tier. |
| `CashSession.RebuildIdempotent` | src/AAA_CashSessionLevels.cs:178-180 | A second rebuild from the same bars leaves the chart as the first left it. |
| `CashSession.Rebuilt` | src/AAA_CashSessionLevels.cs:194-228 | Definition of the levels after clearing and collecting: none while fewer bars than `BarsRequiredToPlot` are loaded, else the ledger. |
| `CashSession.CashSessionLevels.constructor` | src/AAA_CashSessionLevels.cs:119 | The indicator starts with no previous bar time (`MinValue`), no levels, and an empty chart. |
| `CashSession.CashSessionLevels.Configure` | src/AAA_CashSessionLevels.cs:137-151 | The session and chart zones are the configured pair when both are known, else the default pair. |
| `CashSession.CashSessionLevels.CollectPriceLevels` | src/AAA_CashSessionLevels.cs:194-229 | With too few bars nothing changes; otherwise the levels become the ledger of the history. |
| `CashSession.CashSessionLevels.DrawRoleLevels` | src/AAA_CashSessionLevels.cs:238-249 | One loop draws the role's lines in ledger order, each with its rank's tier. |
| `CashSession.CashSessionLevels.DrawPriceLevels` | src/AAA_CashSessionLevels.cs:231-250 | The chart receives the open lines and then the close lines. |
| `CashSession.CashSessionLevels.Rebuild` | src/AAA_CashSessionLevels.cs:178-180 | Clear, collect and draw; the levels are the ledger, or none when too few bars are loaded, and the chart receives their lines. The previous bar time is untouched. |
| `CashSession.CashSessionLevels.Transition` | src/AAA_CashSessionLevels.cs:152-158 | The rebuild from the loaded bars, and then the previous bar time is the last loaded bar's time. |
| `CashSession.CashSessionLevels.OnBarUpdate` | src/AAA_CashSessionLevels.cs:161-185 | Rebuilds exactly on the last bar when a previous time exists and a boundary of today lies in `(prev, cur]`. An evaluated bar's time always becomes the previous time. |
| `Calendar.ParseLine` | src/AAA_EconomicCalendar.cs:156-169 | A blank line gives no event, and every parsed text field is trimmed. |
| `Calendar.Accepted` | src/AAA_EconomicCalendar.cs:154-172 | A line contributes at most one event, and none exactly when it is rejected. |
| `Calendar.ParseLines` | src/AAA_EconomicCalendar.cs:154-172 | No more events than lines. |
| `Calendar.ParseCsv` | src/AAA_EconomicCalendar.cs:149-173 | No more events than lines after the first. |
| `Calendar.ParseLinesConcat` | src/AAA_EconomicCalendar.cs:154-172 | Parsing is line by line: two blocks parse to their events, in order. |
| `Calendar.ParseLinesMembers` | src/AAA_EconomicCalendar.cs:154-172 | An event is cached exactly when some line parses to it. |
| `Calendar.HeaderAlwaysSkipped` | src/AAA_EconomicCalendar.cs:151 | The first line is dropped even if it is a data row. |
| `Calendar.ParseCsvOfRows` | src/AAA_EconomicCalendar.cs:149-173 | A header plus rows parses to the events of the rows. |
| `Calendar.RowRoundTrip` | src/AAA_EconomicCalendar.cs:158-169 | A row of seven comma-free columns, plus any extra columns, parses to the seven columns trimmed. White space around a column is dropped, such as a space after a comma or a CRLF file's trailing `'\r'`. Its date is `date time UTC`, and extra columns are ignored. |
| `Calendar.ShortRowSkipped` | src/AAA_EconomicCalendar.cs:159 | Fewer than seven columns give no event. |
| `Calendar.NonEmpty` | src/AAA_EconomicCalendar.cs:181-183 | `RemoveEmptyEntries` keeps exactly the non-empty pieces. |
| `Calendar.Words` | src/AAA_EconomicCalendar.cs:181-184 | Definition of a configured list's words: the non-empty space-separated pieces, trimmed; `Calendar.WordsMembers` states it. |
| `Calendar.CurrencyList` | src/AAA_EconomicCalendar.cs:181-182 | Definition of the upper-cased currency list; `Calendar.CurrencyMatch` states the test it makes. |
| `Calendar.ImpactList` | src/AAA_EconomicCalendar.cs:183-184 | Definition of the lower-cased impact list; `Calendar.ImpactMatch` states the test it makes. |
| `Calendar.Selected` | src/AAA_EconomicCalendar.cs:193-196 | Definition of the filter test `Contains` on the normalized country and impact; `Calendar.EventDraws` states it as case-insensitive word matches. |
| `Calendar.WordsMembers` | src/AAA_EconomicCalendar.cs:181-184 | A configured word is exactly a non-empty space-separated piece, trimmed. |
| `Calendar.CurrencyMatch` | src/AAA_EconomicCalendar.cs:181-196 | The currency test holds exactly when the trimmed country equals a configured word up to case. |
| `Calendar.ImpactMatch` | src/AAA_EconomicCalendar.cs:183-196 | The impact test holds exactly when the trimmed impact equals a configured word up to case. |
| `Calendar.TransparencyForImpact` | src/AAA_EconomicCalendar.cs:208-216 | "high" in any case gives the high transparency and "medium" the medium one. Anything else gives the low one. |
| `Calendar.EventDraws` | src/AAA_EconomicCalendar.cs:190-202 | An event yields one line exactly when it is today's, its trimmed country equals a configured currency word and its trimmed impact a configured impact word, both ignoring case. The line stands at the event's time under its `DataRelease_` tag; its alpha is the high tier's for "high" in any case, the medium tier's for "medium", and the low tier's otherwise. |
| `Calendar.ReleaseTag` | src/AAA_EconomicCalendar.cs:199 | Definition of `DataRelease_{Impact}_{Country}: {Title} {time}`; `Calendar.EventDraws` and `Calendar.EventTags` state which events draw under it. |
| `Calendar.EventLine` | src/AAA_EconomicCalendar.cs:188-203 | Definition of one loop pass: nothing when the date does not parse, else the event's draws; `Calendar.EventTags` states its tags. |
| `Calendar.Contribution` | src/AAA_EconomicCalendar.cs:186-204 | The loop body as a function of the event, for the loop over the cache. |
| `Calendar.TodayDraws` | src/AAA_EconomicCalendar.cs:186-204 | Definition of the loop over the events, their draws in order; `Calendar.ChartShowsTodaysEvents` states what it leaves on the chart. |
| `Calendar.FirstUnparsable` | src/AAA_EconomicCalendar.cs:186-188 | Every event before the returned index parses, and the one at it does not. |
| `Calendar.EventTags` | src/AAA_EconomicCalendar.cs:186-204 | The tags one event draws under are exactly those it is shown under. |
| `Calendar.ChartShowsTodaysEvents` | src/AAA_EconomicCalendar.cs:175-206 | When every date parses, a tag is on the redrawn chart exactly when one of today's selected events is drawn under it. |
| `Calendar.DrawnChart` | src/AAA_EconomicCalendar.cs:175-206 | Definition of the chart after `DrawEventsForToday`: cleared, then the lines of the events before the first unparsable date; `Calendar.ChartShowsTodaysEvents` states which tags it holds. |
| `Calendar.Refresh` | src/AAA_EconomicCalendar.cs:112-126 | Definition of the per-bar choice: download after an hour, else redraw on a new day, else nothing. `Calendar.DownloadAtMostHourly`, `Calendar.RedrawOncePerDay` and `Calendar.FirstBarDownloads` state its schedule. |
| `Calendar.DownloadAtMostHourly` | src/AAA_EconomicCalendar.cs:117 | Less than an hour after a download, no download happens. |
| `Calendar.RedrawOncePerDay` | src/AAA_EconomicCalendar.cs:122 | Once today has been drawn, only a download acts. |
| `Calendar.FirstBarDownloads` | src/AAA_EconomicCalendar.cs:117 | The first evaluated bar downloads, because the last download time starts at `MinValue`. |
| `Calendar.EconomicCalendar.constructor` | src/AAA_EconomicCalendar.cs:41-43 | No cache, no download yet, nothing drawn. |
| `Calendar.EconomicCalendar.ParseCsvData` | src/AAA_EconomicCalendar.cs:149-173 | The cache grows by the events of the text, in order. |
| `Calendar.EconomicCalendar.DrawEventIfSelected` | src/AAA_EconomicCalendar.cs:190-202 | One event is drawn exactly as `EventDraws` says. |
| `Calendar.EconomicCalendar.DrawEventsForToday` | src/AAA_EconomicCalendar.cs:175-206 | The chart is cleared and then redrawn up to the first unparsable date. The day is recorded only when the loop finishes. |
| `Calendar.EconomicCalendar.LoadEconomicCalendarData` | src/AAA_EconomicCalendar.cs:129-147 | A failed download changes nothing. A successful one replaces the cache, stamps the time and redraws. |
| `Calendar.EconomicCalendar.OnBarUpdate` | src/AAA_EconomicCalendar.cs:110-127 | The action is download, redraw or nothing, as the gate and the two remembered times decide. The state changes accordingly. |
| `SessionOpenLines.LineTag` | src/AAA_SessionOpen.cs:156 | The tag `SessionOpenTime_{US/EU}_{yyyyMMdd}` is 27 characters long. |
| `SessionOpenLines.MarketTagsDiffer` | src/AAA_SessionOpen.cs:145-156 | The US and EU lines never share a tag. |
| `SessionOpenLines.LineTagInjective` | src/AAA_SessionOpen.cs:156 | Equal tags on valid dates mean the same market and the same day. |
| `SessionOpenLines.OpenLine` | src/AAA_SessionOpen.cs:161-172 | Definition of the line `DrawSessionOpenLineIfNeeded` draws: the market's open time on the date, converted from its zone to the chart's, with the configured alpha. `SessionOpenLines.UpdatedDrawsMissing` and the ensures of `SessionOpenLines.SessionOpen.DrawSessionOpenLineIfNeeded` state where it goes. |
| `SessionOpenLines.Updated` | src/AAA_SessionOpen.cs:145-146 | An update keeps every existing object and adds only the day's two tags. |
| `SessionOpenLines.UpdatedDrawsMissing` | src/AAA_SessionOpen.cs:159-165 | A line whose tag was free now holds its market's open line. |
| `SessionOpenLines.UpdatedIdempotent` | src/AAA_SessionOpen.cs:155-159 | Once a day's lines exist, later updates for that day change nothing, even under other settings. |
| `SessionOpenLines.UpdateDue` | src/AAA_SessionOpen.cs:143 | Definition of the throttle: an hour since the last update or another bar date. `SessionOpenLines.FirstUpdateDue` and `SessionOpenLines.ThrottledWithinHour` state its behaviour. |
| `SessionOpenLines.FirstUpdateDue` | src/AAA_SessionOpen.cs:143 | From the initial state, any instant after the first day of year 1 is due. |
| `SessionOpenLines.DueOnNewBarDate` | src/AAA_SessionOpen.cs:140-143 | When `lastProcessedDate` holds an earlier bar's `.Date`, an update is due exactly when an hour has passed or the new bar is on another calendar day. |
| `SessionOpenLines.ThrottledWithinHour` | src/AAA_SessionOpen.cs:143 | Right after an update for a date, the same date is not due again within the hour. |
| `SessionOpenLines.SessionOpen.constructor` | src/AAA_SessionOpen.cs:91-92 | Nothing processed or drawn yet, and both remembered times are `MinValue`. |
| `SessionOpenLines.SessionOpen.Configure` | src/AAA_SessionOpen.cs:110-127 | The three zones are the configured ones if all are known, else all three defaults. |
| `SessionOpenLines.SessionOpen.DrawSessionOpenLineIfNeeded` | src/AAA_SessionOpen.cs:153-166 | An existing tag leaves the chart as it was. Otherwise the only change is the new line under the tag, at the market's open time on the date (US from the New York zone, EU from the London zone) converted to the chart's zone, with the configured alpha. |
| `SessionOpenLines.SessionOpen.OnBarUpdate` | src/AAA_SessionOpen.cs:130-151 | An update happens exactly on the last bar, with enough bars, when the throttle is due. It draws the day's missing lines and records the date and the instant; otherwise nothing changes. |
| `Clock.ToTextPosition` | src/AAA_Clock.cs:100-110 | The position is always a corner, never the centre. |
| `Clock.ToTextPositionIff` | src/AAA_Clock.cs:102-109 | Top/Left, Top/Right and Bottom/Left each give their own corner and only those pairs do. Every other pair gives the bottom-right corner. |
| `Clock.DefaultPosition` | src/AAA_Clock.cs:47-56 | The default alignment puts the clock in the bottom-right corner. |
| `Clock.ClockText` | src/AAA_Clock.cs:86 | The text has eight characters, `dd:dd:dd`. |
| `Clock.ClockTextRoundTrip` | src/AAA_Clock.cs:86 | The text reads back as the second of the day, and its hour field is below 24. |
| `Clock.ClockTextSameIffSameSecond` | src/AAA_Clock.cs:86 | Two times of day show the same text exactly when they fall in the same second. |
| `Clock.UpdateClock` | src/AAA_Clock.cs:80-89 | Without a chart nothing changes. Otherwise the only change is the `WallClock` object, which now shows the time. |
| `Clock.TickIsUpdate` | src/AAA_Clock.cs:80-88 | Each timer tick is one `UpdateClock` on the chart. |
| `Clock.Tick` | src/AAA_Clock.cs:64 | Definition of one timer tick: the `WallClock` draw of that instant's text; `Clock.TickIsUpdate` states it is one `UpdateClock`. |
| `Clock.Ticks` | src/AAA_Clock.cs:60-65 | Definition of a run of timer ticks, one `WallClock` draw per tick; `Clock.TickIsUpdate` and `Clock.TicksReplace` state its effect. |
| `Clock.TicksReplace` | src/AAA_Clock.cs:88 | However many ticks there were, at most one clock object was added, and it shows the last tick's time. |

## Left out

- Time-zone conversion, including daylight-saving rules and the time-zone database. The conversion is a function parameter, and lookup is a set of known identifiers. The `Converter` is total, so the model does not capture `ConvertTimeToUtc` throwing for a session time that falls in a skipped daylight-saving hour.
- The system clock. `DateTime.Now` and `DateTime.UtcNow` are one `now` per callback, although the source reads them several times within one callback. The clock's `ConvertTime` of that instant is taken as given.
- CashSession.CashSessionLevels.Transition: requires at least one loaded bar. With no bars the source clears the levels, skips the collect (`CurrentBar` is -1, below `BarsRequiredToPlot`) and then reads `Bars.GetTime(CurrentBar)` at index -1. The model does not capture that out-of-range read or what `prevBarTime` becomes after it.
- The network. `WebClient.DownloadString` is an input: the text, or `None` when it throws.
- `DateTime.ParseExact` (format `MM-dd-yyyy h:mmtt 'UTC'`) is a function parameter. So is the culture formatting of the time in the calendar's tag.
- The calendar's cache and last download time are `static`, so all instances share them. The model gives each instance its own copy, which matches a single instance on a chart.
- An uncaught `ParseExact` exception during a redraw from `OnBarUpdate` goes to the host. The model stops the loop at the first unparsable date and does not record the day; what the host then does is not modelled.
- Culture-dependent formatting. The `yyyyMMdd` stamps of the level and session-open tags assume the Gregorian calendar (a culture such as th-TH or ar-SA would write other years and dates), and the clock's `HH:mm:ss` text assumes `:` as the time separator (the culture's `TimeSeparator`, which a user setting can override).
- Brushes, colours, line style, thickness, fonts, background, opacity, `ForceRefresh`, `Print`, and property serialization.
- The clock's `DispatcherTimer`, `Dispatcher.InvokeAsync` and the termination branch: UI thread dispatch. A run of ticks is a sequence of times.
- The clock's own zone lookup, which has no fallback: its converted time is an input.
- Unicode case mapping. `ToUpperInvariant` and `ToLowerInvariant` are modelled as ASCII case folding.
- Prices are an abstract type with equality, because no arithmetic is done on them. The `double` representation is not modelled.
- Objects drawn by other indicators or by the user are not modelled. The session-open check `DrawObjects.Any` sees any object with the same tag, and the model's chart is the one map the indicator draws into.
- Host.Alpha: its contract states only the two end points. The scaling between them is stated by `Host.AlphaScales`, and the wrap-around by `Host.AlphaWrapsPastHundred`.
- Calendar.ParseLine: its contract states the blank-line and trimming facts only. `Calendar.RowRoundTrip` states what any comma-free row of seven or more columns parses to: its columns trimmed. `Calendar.ShortRowSkipped` states the short-row case.
- Time.DateStampInjective, CashSession.LevelTagInjective, SessionOpenLines.LineTagInjective: injectivity is proved for valid dates only, years 1 to 9999, which are the dates `DateTime` can hold.
