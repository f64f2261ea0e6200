/**
 * The cash-session levels indicator: horizontal lines at the closing prices
 * of the bars that sit exactly on the session open and the session close,
 * for the most recent sessions on the chart.
 *
 * The functions give the ledger and the drawing it implies; the class
 * `CashSessionLevels` is the indicator's per-bar state machine, whose
 * methods are proved against those functions.
 */
module CashSession {
  import opened Time
  import opened Host

  /** A closing price. No arithmetic is done on prices. */
  type Price(==)

  /** Which session boundary a level marks (the source's "open"/"close" tag). */
  datatype Role = Open | Close

  datatype PriceLevel = PriceLevel(date: Date, price: Price, role: Role)

  datatype Bar = Bar(time: DateTime, close: Price)

  /** How many levels are kept: three sessions of an open and a close each. */
  const Capacity: nat := 6

  /** The session times, the resolved zones and the zone conversion. */
  datatype Session = Session(
    openTime: TimeSpan, closeTime: TimeSpan,
    sessionZone: ZoneId, chartZone: ZoneId,
    convert: Converter)

  /** `GetSessionInChartTimezone`: the chart-time instant of a boundary on a date. */
  function Boundary(s: Session, role: Role, date: Date): DateTime {
    s.convert(date, if role == Open then s.openTime else s.closeTime, s.sessionZone, s.chartZone)
  }

  // ---------------------------------------------------------------------
  // Crossing detector

  /** Boundary `b` lies in the half-open interval `(prev, cur]`. */
  predicate Crosses(prev: DateTime, cur: DateTime, b: DateTime) {
    Before(prev, b) && NotAfter(b, cur)
  }

  /**
   * The test of `OnBarUpdate`: a previous bar has been seen, and the open
   * or the close boundary of the current bar's date was crossed since it.
   */
  predicate RebuildDue(s: Session, prev: DateTime, cur: DateTime) {
    prev != MinValue
    && (Crosses(prev, cur, Boundary(s, Open, cur.date)) || Crosses(prev, cur, Boundary(s, Close, cur.date)))
  }

  /** A bar at the same time as the previous one never triggers. */
  lemma RepeatedTimeDoesNotRetrigger(s: Session, t: DateTime)
    ensures !RebuildDue(s, t, t)
  {
  }

  /** Before any previous bar time is set (`MinValue`), no bar triggers a rebuild. */
  lemma NoRebuildWithoutPrevious(s: Session, cur: DateTime)
    ensures !RebuildDue(s, MinValue, cur)
  {
  }

  /**
   * Once a previous time is set, as `Transition` sets it to the last loaded
   * bar's time, the next evaluated bar rebuilds when a boundary of its date
   * lies after that time and at or before its own.
   */
  lemma RebuildOnFirstCrossing(s: Session, prev: DateTime, cur: DateTime, role: Role)
    requires prev != MinValue && Crosses(prev, cur, Boundary(s, role, cur.date))
    ensures RebuildDue(s, prev, cur)
  {
  }

  predicate Chronological(ts: seq<DateTime>) {
    forall i, j :: 0 <= i <= j < |ts| ==> NotAfter(ts[i], ts[j])
  }

  /** Along a chronological series of bar times a boundary is crossed at most at one step. */
  lemma CrossedAtMostOnce(ts: seq<DateTime>, b: DateTime, j: nat, k: nat)
    requires Chronological(ts) && 0 < j < |ts| && 0 < k < |ts|
    requires Crosses(ts[j - 1], ts[j], b) && Crosses(ts[k - 1], ts[k], b)
    ensures j == k
  {
    if j < k {
      NotAfterTransitive(b, ts[j], ts[k - 1]);
    } else if k < j {
      NotAfterTransitive(b, ts[k], ts[j - 1]);
    }
  }

  /**
   * ... and at some step when the series starts before it and ends at or
   * after it; with `CrossedAtMostOnce` that step is the only one.
   */
  lemma {:induction false} CrossedWhenSpanned(ts: seq<DateTime>, b: DateTime) returns (k: nat)
    requires Chronological(ts) && |ts| > 0
    requires Before(ts[0], b) && NotAfter(b, ts[|ts| - 1])
    ensures 0 < k < |ts| && Crosses(ts[k - 1], ts[k], b)
  {
    var n := |ts| - 1;
    if Before(ts[n - 1], b) {
      k := n;
    } else {
      k := CrossedWhenSpanned(ts[..n], b);
    }
  }

  /**
   * Within one chart day the evaluated bars trigger a rebuild at most twice,
   * once for the open and once for the close. Only the triggering bars need
   * to be on that day: the bar before the day's first one may be on an
   * earlier day (an overnight or weekend gap).
   */
  lemma AtMostTwoRebuildsPerDay(s: Session, ts: seq<DateTime>, d: Date, i: nat, j: nat, k: nat)
    requires Chronological(ts)
    requires 0 < i < j < k < |ts|
    requires ts[i].date == d && ts[j].date == d && ts[k].date == d
    ensures !(RebuildDue(s, ts[i - 1], ts[i]) && RebuildDue(s, ts[j - 1], ts[j]) && RebuildDue(s, ts[k - 1], ts[k]))
  {
    var bo, bc := Boundary(s, Open, d), Boundary(s, Close, d);
    if RebuildDue(s, ts[i - 1], ts[i]) && RebuildDue(s, ts[j - 1], ts[j]) && RebuildDue(s, ts[k - 1], ts[k]) {
      if Crosses(ts[i - 1], ts[i], bo) && Crosses(ts[j - 1], ts[j], bo) {
        CrossedAtMostOnce(ts, bo, i, j);
      } else if Crosses(ts[i - 1], ts[i], bo) && Crosses(ts[k - 1], ts[k], bo) {
        CrossedAtMostOnce(ts, bo, i, k);
      } else if Crosses(ts[j - 1], ts[j], bo) && Crosses(ts[k - 1], ts[k], bo) {
        CrossedAtMostOnce(ts, bo, j, k);
      } else if Crosses(ts[i - 1], ts[i], bc) && Crosses(ts[j - 1], ts[j], bc) {
        CrossedAtMostOnce(ts, bc, i, j);
      } else if Crosses(ts[i - 1], ts[i], bc) && Crosses(ts[k - 1], ts[k], bc) {
        CrossedAtMostOnce(ts, bc, i, k);
      } else {
        CrossedAtMostOnce(ts, bc, j, k);
      }
    }
  }

  // ---------------------------------------------------------------------
  // The scan of `CollectPriceLevels`

  /** What one bar contributes: a level for each boundary its time equals exactly. */
  function LevelsAt(s: Session, bar: Bar): seq<PriceLevel> {
    var d := bar.time.date;
    (if bar.time == Boundary(s, Open, d) then [PriceLevel(d, bar.close, Open)] else [])
    + (if bar.time == Boundary(s, Close, d) then [PriceLevel(d, bar.close, Close)] else [])
  }

  /**
   * All levels of a chronological bar series, newest bar first, as the
   * source's loop over `Time[i]` (i bars ago) produces them.
   */
  function Scan(s: Session, bars: seq<Bar>): seq<PriceLevel> {
    if bars == [] then [] else Scan(s, bars[1..]) + LevelsAt(s, bars[0])
  }

  /** Level `l` records bar `bar`: same date, its close, and the bar sits on `l`'s boundary. */
  predicate Records(s: Session, bar: Bar, l: PriceLevel) {
    l.date == bar.time.date && l.price == bar.close && bar.time == Boundary(s, l.role, l.date)
  }

  lemma LevelsAtMembers(s: Session, bar: Bar, l: PriceLevel)
    ensures l in LevelsAt(s, bar) <==> Records(s, bar, l)
  {
  }

  /** A level is scanned exactly when some bar of the series sits on its boundary. */
  lemma {:induction false} ScanMembers(s: Session, bars: seq<Bar>, l: PriceLevel)
    ensures l in Scan(s, bars) <==> exists i :: 0 <= i < |bars| && Records(s, bars[i], l)
  {
    if bars != [] {
      ScanMembers(s, bars[1..], l);
      LevelsAtMembers(s, bars[0], l);
      if exists i :: 0 <= i < |bars| && Records(s, bars[i], l) {
        var i :| 0 <= i < |bars| && Records(s, bars[i], l);
        if i > 0 {
          assert bars[1..][i - 1] == bars[i];
        }
      }
      if l in Scan(s, bars[1..]) {
        var i :| 0 <= i < |bars| - 1 && Records(s, bars[1..][i], l);
        assert bars[i + 1] == bars[1..][i];
      }
    }
  }

  // ---------------------------------------------------------------------
  // The stable sort of `OrderByDescending(p => p.Date)`

  predicate NewestFirst(s: seq<PriceLevel>) {
    forall i, j :: 0 <= i < j < |s| ==> !DateBefore(s[i].date, s[j].date)
  }

  /** Place `x` before the first element that is not newer than it. */
  function Insert(x: PriceLevel, r: seq<PriceLevel>): seq<PriceLevel> {
    if r == [] || !DateBefore(x.date, r[0].date) then [x] + r
    else [r[0]] + Insert(x, r[1..])
  }

  /** Insertion sort by date, newest first; equal dates keep their order. */
  function SortNewestFirst(s: seq<PriceLevel>): seq<PriceLevel> {
    if s == [] then [] else Insert(s[0], SortNewestFirst(s[1..]))
  }

  /** The levels of one date, in order. */
  function OfDate(s: seq<PriceLevel>, d: Date): seq<PriceLevel> {
    if s == [] then [] else (if s[0].date == d then [s[0]] else []) + OfDate(s[1..], d)
  }

  lemma NewestFirstCons(x: PriceLevel, t: seq<PriceLevel>)
    ensures NewestFirst([x] + t) <==> NewestFirst(t) && forall y :: y in t ==> !DateBefore(x.date, y.date)
  {
    var s := [x] + t;
    if NewestFirst(t) && forall y :: y in t ==> !DateBefore(x.date, y.date) {
      forall i, j | 0 <= i < j < |s| ensures !DateBefore(s[i].date, s[j].date) {
        assert s[j] == t[j - 1] && s[j] in t;
        if i > 0 { assert s[i] == t[i - 1]; }
      }
    }
    if NewestFirst(s) {
      forall y | y in t ensures !DateBefore(x.date, y.date) {
        var j :| 0 <= j < |t| && t[j] == y;
        assert s[0] == x && s[j + 1] == y;
        assert !DateBefore(s[0].date, s[j + 1].date);
      }
      forall i, j | 0 <= i < j < |t| ensures !DateBefore(t[i].date, t[j].date) {
        assert t[i] == s[i + 1] && t[j] == s[j + 1];
      }
    }
  }

  lemma {:induction false} InsertElements(x: PriceLevel, r: seq<PriceLevel>)
    ensures multiset(Insert(x, r)) == multiset(r) + multiset{x}
  {
    if r != [] && DateBefore(x.date, r[0].date) {
      InsertElements(x, r[1..]);
      assert r == [r[0]] + r[1..];
    }
  }

  lemma {:induction false} InsertKeepsOrder(x: PriceLevel, r: seq<PriceLevel>)
    requires NewestFirst(r)
    ensures NewestFirst(Insert(x, r))
  {
    if r == [] || !DateBefore(x.date, r[0].date) {
      forall y | y in r ensures !DateBefore(x.date, y.date) {
        var j :| 0 <= j < |r| && r[j] == y;
        if j > 0 {
          assert !DateBefore(r[0].date, r[j].date);
          DateNotBeforeTransitive(x.date, r[0].date, y.date);
        }
      }
      NewestFirstCons(x, r);
    } else {
      assert r == [r[0]] + r[1..];
      NewestFirstCons(r[0], r[1..]);
      InsertKeepsOrder(x, r[1..]);
      InsertElements(x, r[1..]);
      forall y | y in Insert(x, r[1..]) ensures !DateBefore(r[0].date, y.date) {
        assert y in multiset(Insert(x, r[1..]));
        if y != x { assert y in r[1..]; }
      }
      NewestFirstCons(r[0], Insert(x, r[1..]));
    }
  }

  lemma {:induction false} InsertOfDate(x: PriceLevel, r: seq<PriceLevel>, d: Date)
    ensures OfDate(Insert(x, r), d) == (if x.date == d then [x] else []) + OfDate(r, d)
  {
    if r == [] || !DateBefore(x.date, r[0].date) {
      assert ([x] + r)[1..] == r;
    } else {
      InsertOfDate(x, r[1..], d);
      var ins := [r[0]] + Insert(x, r[1..]);
      assert ins[1..] == Insert(x, r[1..]);
      DateOrderTotal(x.date, r[0].date);
    }
  }

  /** The sort orders newest first, is a permutation, and is stable: each date keeps its order. */
  lemma {:induction false} SortCorrect(s: seq<PriceLevel>)
    ensures NewestFirst(SortNewestFirst(s))
    ensures multiset(SortNewestFirst(s)) == multiset(s)
    ensures forall d :: OfDate(SortNewestFirst(s), d) == OfDate(s, d)
  {
    if s != [] {
      SortCorrect(s[1..]);
      InsertKeepsOrder(s[0], SortNewestFirst(s[1..]));
      InsertElements(s[0], SortNewestFirst(s[1..]));
      assert s == [s[0]] + s[1..];
      forall d ensures OfDate(SortNewestFirst(s), d) == OfDate(s, d) {
        InsertOfDate(s[0], SortNewestFirst(s[1..]), d);
      }
    }
  }

  // ---------------------------------------------------------------------
  // The ledger

  /** `Take(n)`: the first `n` elements, or all of them when there are fewer. */
  function Take(s: seq<PriceLevel>, n: nat): (r: seq<PriceLevel>)
    ensures |r| == (if |s| <= n then |s| else n) && r == s[..|r|]
    ensures |s| <= n ==> r == s
  {
    if |s| <= n then s else s[..n]
  }

  /** The levels `CollectPriceLevels` keeps: the scan sorted newest first and truncated to six. */
  function Ledger(s: Session, bars: seq<Bar>): seq<PriceLevel> {
    Take(SortNewestFirst(Scan(s, bars)), Capacity)
  }

  /** A prefix of a newest-first sequence is newest first. */
  lemma TakeNewestFirst(sorted: seq<PriceLevel>, n: nat)
    requires NewestFirst(sorted)
    ensures NewestFirst(Take(sorted, n))
  {
    var r := Take(sorted, n);
    forall i, j | 0 <= i < j < |r| ensures !DateBefore(r[i].date, r[j].date) {
      assert r[i] == sorted[i] && r[j] == sorted[j];
    }
  }

  /** What a prefix of a newest-first sequence drops is no newer than anything it keeps. */
  lemma TakeDropsOldest(sorted: seq<PriceLevel>, n: nat, l: PriceLevel, k: nat)
    requires NewestFirst(sorted)
    requires l in multiset(sorted) - multiset(Take(sorted, n)) && k < |Take(sorted, n)|
    ensures !DateBefore(Take(sorted, n)[k].date, l.date)
  {
    var r := Take(sorted, n);
    var m := |r|;
    assert sorted == r + sorted[m..];
    assert multiset(sorted) == multiset(r) + multiset(sorted[m..]);
    assert l in sorted[m..];
    var j :| 0 <= j < |sorted[m..]| && sorted[m..][j] == l;
    assert sorted[k] == r[k] && sorted[m + j] == l;
  }

  /** The ledger holds at most six levels, newest first. */
  lemma LedgerOrdered(s: Session, bars: seq<Bar>)
    ensures |Ledger(s, bars)| <= Capacity
    ensures NewestFirst(Ledger(s, bars))
  {
    SortCorrect(Scan(s, bars));
    TakeNewestFirst(SortNewestFirst(Scan(s, bars)), Capacity);
  }

  /** Each kept level records a bar of the series that sits exactly on its boundary. */
  lemma LedgerProvenance(s: Session, bars: seq<Bar>, l: PriceLevel)
    requires l in Ledger(s, bars)
    ensures exists i :: 0 <= i < |bars| && Records(s, bars[i], l)
  {
    var sorted := SortNewestFirst(Scan(s, bars));
    SortCorrect(Scan(s, bars));
    assert l in sorted;
    assert l in multiset(sorted);
    ScanMembers(s, bars, l);
  }

  /** Every scanned level that is not kept is no newer than any kept one. */
  lemma LedgerEvictsOldest(s: Session, bars: seq<Bar>, l: PriceLevel, k: nat)
    requires l in multiset(Scan(s, bars)) - multiset(Ledger(s, bars)) && k < |Ledger(s, bars)|
    ensures !DateBefore(Ledger(s, bars)[k].date, l.date)
  {
    var sorted := SortNewestFirst(Scan(s, bars));
    SortCorrect(Scan(s, bars));
    TakeDropsOldest(sorted, Capacity, l, k);
  }

  /** The ledger holds six levels, or every scanned level when fewer were scanned. */
  lemma LedgerSize(s: Session, bars: seq<Bar>)
    ensures |Ledger(s, bars)| == if |Scan(s, bars)| <= Capacity then |Scan(s, bars)| else Capacity
  {
    SortCorrect(Scan(s, bars));
    assert |multiset(SortNewestFirst(Scan(s, bars)))| == |multiset(Scan(s, bars))|;
  }

  /** When at most six levels were scanned, all of them are kept. */
  lemma LedgerComplete(s: Session, bars: seq<Bar>)
    requires |Scan(s, bars)| <= Capacity
    ensures multiset(Ledger(s, bars)) == multiset(Scan(s, bars))
  {
    SortCorrect(Scan(s, bars));
  }

  /** Levels of one date appear in the ledger in scan order: a prefix of that date's scanned levels. */
  lemma LedgerStable(s: Session, bars: seq<Bar>, d: Date)
    ensures OfDate(Ledger(s, bars), d) <= OfDate(Scan(s, bars), d)
  {
    var sorted := SortNewestFirst(Scan(s, bars));
    SortCorrect(Scan(s, bars));
    OfDatePrefix(sorted, |Ledger(s, bars)|, d);
  }

  lemma {:induction false} OfDatePrefix(s: seq<PriceLevel>, m: nat, d: Date)
    requires m <= |s|
    ensures OfDate(s[..m], d) <= OfDate(s, d)
  {
    if m > 0 {
      OfDatePrefix(s[1..], m - 1, d);
      assert s[..m][1..] == s[1..][..m - 1];
    }
  }

  // ---------------------------------------------------------------------
  // At most one level per date and role

  predicate SameSlot(a: PriceLevel, b: PriceLevel) {
    a.date == b.date && a.role == b.role
  }

  predicate OnePerSlot(s: seq<PriceLevel>) {
    forall i, j :: 0 <= i < j < |s| ==> !SameSlot(s[i], s[j])
  }

  lemma OnePerSlotCons(x: PriceLevel, t: seq<PriceLevel>)
    ensures OnePerSlot([x] + t) <==> OnePerSlot(t) && forall y :: y in t ==> !SameSlot(x, y)
  {
    var s := [x] + t;
    if OnePerSlot(t) && forall y :: y in t ==> !SameSlot(x, y) {
      forall i, j | 0 <= i < j < |s| ensures !SameSlot(s[i], s[j]) {
        assert s[j] == t[j - 1] && s[j] in t;
        if i > 0 { assert s[i] == t[i - 1]; }
      }
    }
    if OnePerSlot(s) {
      forall y | y in t ensures !SameSlot(x, y) {
        var j :| 0 <= j < |t| && t[j] == y;
        assert s[0] == x && s[j + 1] == y;
        assert !SameSlot(s[0], s[j + 1]);
      }
      forall i, j | 0 <= i < j < |t| ensures !SameSlot(t[i], t[j]) {
        assert t[i] == s[i + 1] && t[j] == s[j + 1];
      }
    }
  }

  lemma OnePerSlotConcat(a: seq<PriceLevel>, b: seq<PriceLevel>)
    requires OnePerSlot(a) && OnePerSlot(b)
    requires forall x, y :: x in a && y in b ==> !SameSlot(x, y)
    ensures OnePerSlot(a + b)
  {
    var s := a + b;
    forall i, j | 0 <= i < j < |s| ensures !SameSlot(s[i], s[j]) {
      if j < |a| {
        assert s[i] == a[i] && s[j] == a[j];
      } else if i >= |a| {
        assert s[i] == b[i - |a|] && s[j] == b[j - |a|];
      } else {
        assert s[i] in a && s[j] in b;
      }
    }
  }

  /** Bar times strictly increase along the series. */
  predicate StrictlyIncreasing(bars: seq<Bar>) {
    forall i, j :: 0 <= i < j < |bars| ==> Before(bars[i].time, bars[j].time)
  }

  /** With strictly increasing bar times no date gets two opens or two closes. */
  lemma {:induction false} ScanOnePerSlot(s: Session, bars: seq<Bar>)
    requires StrictlyIncreasing(bars)
    ensures OnePerSlot(Scan(s, bars))
  {
    if bars != [] {
      var a, b := Scan(s, bars[1..]), LevelsAt(s, bars[0]);
      ScanOnePerSlot(s, bars[1..]);
      forall x, y | x in a && y in b ensures !SameSlot(x, y) {
        ScanMembers(s, bars[1..], x);
        LevelsAtMembers(s, bars[0], y);
        var i :| 0 <= i < |bars| - 1 && Records(s, bars[1..][i], x);
        assert bars[1..][i] == bars[i + 1];
        assert Before(bars[0].time, bars[i + 1].time);
      }
      OnePerSlotConcat(a, b);
    }
  }

  lemma {:induction false} InsertOnePerSlot(x: PriceLevel, r: seq<PriceLevel>)
    requires OnePerSlot(r) && forall y :: y in r ==> !SameSlot(x, y)
    ensures OnePerSlot(Insert(x, r))
  {
    if r == [] || !DateBefore(x.date, r[0].date) {
      OnePerSlotCons(x, r);
    } else {
      assert r == [r[0]] + r[1..];
      OnePerSlotCons(r[0], r[1..]);
      InsertOnePerSlot(x, r[1..]);
      InsertElements(x, r[1..]);
      forall y | y in Insert(x, r[1..]) ensures !SameSlot(r[0], y) {
        assert y in multiset(Insert(x, r[1..]));
        if y != x { assert y in r[1..]; }
      }
      OnePerSlotCons(r[0], Insert(x, r[1..]));
    }
  }

  lemma {:induction false} SortOnePerSlot(s: seq<PriceLevel>)
    requires OnePerSlot(s)
    ensures OnePerSlot(SortNewestFirst(s))
  {
    if s != [] {
      assert s == [s[0]] + s[1..];
      OnePerSlotCons(s[0], s[1..]);
      SortOnePerSlot(s[1..]);
      SortCorrect(s[1..]);
      forall y | y in SortNewestFirst(s[1..]) ensures !SameSlot(s[0], y) {
        assert y in multiset(SortNewestFirst(s[1..]));
      }
      InsertOnePerSlot(s[0], SortNewestFirst(s[1..]));
    }
  }

  lemma LedgerOnePerSlot(s: Session, bars: seq<Bar>)
    requires StrictlyIncreasing(bars)
    ensures OnePerSlot(Ledger(s, bars))
  {
    ScanOnePerSlot(s, bars);
    SortOnePerSlot(Scan(s, bars));
  }

  // ---------------------------------------------------------------------
  // Rendering: `DrawPriceLevels`, `DetermineTransparency`, the brush alpha

  /** The three configurable transparency tiers. */
  datatype Tiers = Tiers(level1: Int32, level2: Int32, level3: Int32)

  /** `DetermineTransparency`: rank 0, rank 1, and every later rank. */
  function Tier(t: Tiers, rank: nat): Int32 {
    if rank == 0 then t.level1 else if rank == 1 then t.level2 else t.level3
  }

  /** A drawn line: its price, the alpha of its brush, and whose colour it takes. */
  datatype HorizontalLine = HorizontalLine(price: Price, alpha: Byte, role: Role)

  /** `SessionOpenLevel_yyyyMMdd` or `SessionCloseLevel_yyyyMMdd`. */
  function LevelTag(role: Role, d: Date): string {
    (if role == Open then "SessionOpenLevel_" else "SessionCloseLevel_") + DateStamp(d)
  }

  /** The levels of one role, in ledger order (the `Where` filters). */
  function OfRole(s: seq<PriceLevel>, role: Role): (r: seq<PriceLevel>)
    ensures forall i :: 0 <= i < |r| ==> r[i].role == role
  {
    if s == [] then [] else (if s[0].role == role then [s[0]] else []) + OfRole(s[1..], role)
  }

  /** One draw per level of the role, its transparency chosen by its rank. */
  function RoleLines(levels: seq<PriceLevel>, role: Role, t: Tiers): seq<Draw<HorizontalLine>> {
    var ls := OfRole(levels, role);
    seq(|ls|, k requires 0 <= k < |ls| =>
      Draw(LevelTag(role, ls[k].date), HorizontalLine(ls[k].price, Alpha(Tier(t, k)), role)))
  }

  /** The draws of `DrawPriceLevels`: the open lines, then the close lines. */
  function Render(levels: seq<PriceLevel>, t: Tiers): seq<Draw<HorizontalLine>> {
    RoleLines(levels, Open, t) + RoleLines(levels, Close, t)
  }

  /** Open and close tags never collide, whatever the dates. */
  lemma OpenCloseTagsDiffer(d1: Date, d2: Date)
    ensures LevelTag(Open, d1) != LevelTag(Close, d2)
  {
    assert LevelTag(Open, d1)[7] == 'O';
    assert LevelTag(Close, d2)[7] == 'C';
  }

  /** Tags of one role on valid dates are equal only for equal dates. */
  lemma LevelTagInjective(role: Role, d1: Date, d2: Date)
    requires ValidDate(d1) && ValidDate(d2)
    requires LevelTag(role, d1) == LevelTag(role, d2)
    ensures d1 == d2
  {
    var p := if role == Open then "SessionOpenLevel_" else "SessionCloseLevel_";
    assert LevelTag(role, d1)[|p|..] == DateStamp(d1);
    assert LevelTag(role, d2)[|p|..] == DateStamp(d2);
    DateStampInjective(d1, d2);
  }

  lemma {:induction false} OfRoleMembers(s: seq<PriceLevel>, role: Role, y: PriceLevel)
    ensures y in OfRole(s, role) <==> y in s && y.role == role
  {
    if s != [] {
      OfRoleMembers(s[1..], role, y);
      assert s == [s[0]] + s[1..];
    }
  }

  lemma {:induction false} OfRoleOnePerSlot(s: seq<PriceLevel>, role: Role)
    requires OnePerSlot(s)
    ensures OnePerSlot(OfRole(s, role))
  {
    if s != [] {
      assert s == [s[0]] + s[1..];
      OnePerSlotCons(s[0], s[1..]);
      OfRoleOnePerSlot(s[1..], role);
      if s[0].role == role {
        forall y | y in OfRole(s[1..], role) ensures !SameSlot(s[0], y) {
          OfRoleMembers(s[1..], role, y);
        }
        OnePerSlotCons(s[0], OfRole(s[1..], role));
      } else {
        assert OfRole(s, role) == OfRole(s[1..], role);
      }
    }
  }

  /** The filter keeps the order: from a newest-first list it gives a newest-first list. */
  lemma {:induction false} OfRoleNewestFirst(s: seq<PriceLevel>, role: Role)
    requires NewestFirst(s)
    ensures NewestFirst(OfRole(s, role))
  {
    if s != [] {
      assert s == [s[0]] + s[1..];
      NewestFirstCons(s[0], s[1..]);
      OfRoleNewestFirst(s[1..], role);
      if s[0].role == role {
        forall y | y in OfRole(s[1..], role) ensures !DateBefore(s[0].date, y.date) {
          OfRoleMembers(s[1..], role, y);
        }
        NewestFirstCons(s[0], OfRole(s[1..], role));
      } else {
        assert OfRole(s, role) == OfRole(s[1..], role);
      }
    }
  }

  /**
   * Ranks within a role follow age: in the ledger, a level of lower rank is
   * no older than one of higher rank, and rank 0 is no older than any level
   * of its role.
   */
  lemma LedgerRanksByAge(s: Session, bars: seq<Bar>, role: Role)
    ensures NewestFirst(OfRole(Ledger(s, bars), role))
    ensures forall y :: y in Ledger(s, bars) && y.role == role
              ==> |OfRole(Ledger(s, bars), role)| > 0 && !DateBefore(OfRole(Ledger(s, bars), role)[0].date, y.date)
  {
    var ledger := Ledger(s, bars);
    var r := OfRole(ledger, role);
    LedgerOrdered(s, bars);
    OfRoleNewestFirst(ledger, role);
    forall y | y in ledger && y.role == role ensures |r| > 0 && !DateBefore(r[0].date, y.date) {
      OfRoleMembers(ledger, role, y);
      var j :| 0 <= j < |r| && r[j] == y;
      DateOrderTotal(r[0].date, y.date);
    }
  }

  predicate ValidDates(s: seq<PriceLevel>) {
    forall i :: 0 <= i < |s| ==> ValidDate(s[i].date)
  }

  lemma RoleLinesDistinct(levels: seq<PriceLevel>, role: Role, t: Tiers)
    requires OnePerSlot(levels) && ValidDates(levels)
    ensures DistinctTags(RoleLines(levels, role, t))
  {
    var ls := OfRole(levels, role);
    var cmds := RoleLines(levels, role, t);
    OfRoleOnePerSlot(levels, role);
    forall i, j | 0 <= i < j < |cmds| ensures cmds[i].tag != cmds[j].tag {
      OfRoleMembers(levels, role, ls[i]);
      OfRoleMembers(levels, role, ls[j]);
      var a :| 0 <= a < |levels| && levels[a] == ls[i];
      var b :| 0 <= b < |levels| && levels[b] == ls[j];
      assert !SameSlot(ls[i], ls[j]) && ls[i].role == ls[j].role;
      if cmds[i].tag == cmds[j].tag {
        LevelTagInjective(role, ls[i].date, ls[j].date);
      }
    }
  }

  lemma RenderDistinct(levels: seq<PriceLevel>, t: Tiers)
    requires OnePerSlot(levels) && ValidDates(levels)
    ensures DistinctTags(Render(levels, t))
  {
    var o, c := RoleLines(levels, Open, t), RoleLines(levels, Close, t);
    RoleLinesDistinct(levels, Open, t);
    RoleLinesDistinct(levels, Close, t);
    forall i, j | 0 <= i < |o| && 0 <= j < |c| ensures o[i].tag != c[j].tag {
      OpenCloseTagsDiffer(OfRole(levels, Open)[i].date, OfRole(levels, Close)[j].date);
    }
    DistinctConcat(o, c);
  }

  /**
   * After the draws, the line under the tag of the level of rank `k` within
   * its role carries that level's price and the alpha of tier `k`: rank 0 is
   * drawn with level 1, rank 1 with level 2, later ranks with level 3.
   */
  lemma RenderedLines(chart: map<string, HorizontalLine>, levels: seq<PriceLevel>, t: Tiers, role: Role, k: nat)
    requires OnePerSlot(levels) && ValidDates(levels)
    requires k < |OfRole(levels, role)|
    ensures var l, after := OfRole(levels, role)[k], Apply(chart, Render(levels, t));
      LevelTag(role, l.date) in after && after[LevelTag(role, l.date)] == HorizontalLine(l.price, Alpha(Tier(t, k)), role)
  {
    RenderDistinct(levels, t);
    var o := RoleLines(levels, Open, t);
    if role == Open {
      assert Render(levels, t)[k] == o[k];
      ApplyDistinct(chart, Render(levels, t), k);
    } else {
      assert Render(levels, t)[|o| + k] == RoleLines(levels, Close, t)[k];
      ApplyDistinct(chart, Render(levels, t), |o| + k);
    }
  }

  /**
   * End to end: over strictly increasing, well-formed bar times, each kept
   * level of rank `k` in its role is on the chart under its tag with the
   * alpha of tier `k`.
   */
  lemma LedgerRendered(chart: map<string, HorizontalLine>, s: Session, bars: seq<Bar>, t: Tiers, role: Role, k: nat)
    requires StrictlyIncreasing(bars)
    requires forall i :: 0 <= i < |bars| ==> ValidDateTime(bars[i].time)
    requires k < |OfRole(Ledger(s, bars), role)|
    ensures var l, after := OfRole(Ledger(s, bars), role)[k], Apply(chart, Render(Ledger(s, bars), t));
      LevelTag(role, l.date) in after && after[LevelTag(role, l.date)] == HorizontalLine(l.price, Alpha(Tier(t, k)), role)
  {
    var ledger := Ledger(s, bars);
    LedgerOnePerSlot(s, bars);
    forall i | 0 <= i < |ledger| ensures ValidDate(ledger[i].date) {
      LedgerProvenance(s, bars, ledger[i]);
    }
    RenderedLines(chart, ledger, t, role, k);
  }

  /** Rebuilding twice from the same bars draws nothing new the second time. */
  lemma RebuildIdempotent(chart: map<string, HorizontalLine>, s: Session, bars: seq<Bar>, t: Tiers)
    ensures var r := Render(Ledger(s, bars), t);
      Apply(Apply(chart, r), r) == Apply(chart, r)
  {
    ApplyIdempotent(chart, Render(Ledger(s, bars), t));
  }

  // ---------------------------------------------------------------------
  // The indicator

  datatype Settings = Settings(
    sessionOpenTime: TimeSpan, sessionCloseTime: TimeSpan,
    sessionTimeZoneId: ZoneId, chartTimeZoneId: ZoneId,
    tiers: Tiers, barsRequiredToPlot: int, calculate: Calculate)

  /** The zones the `Configure` step falls back to. */
  const DefaultZones: seq<ZoneId> := ["Eastern Standard Time", "Central European Standard Time"]

  /** The levels a rebuild leaves: none while too few bars are loaded, else the ledger. */
  function Rebuilt(s: Session, bars: seq<Bar>, barsRequiredToPlot: int): seq<PriceLevel> {
    if |bars| - 1 < barsRequiredToPlot then [] else Ledger(s, bars)
  }

  class CashSessionLevels {
    const settings: Settings
    const convert: Converter
    var sessionZone: ZoneId
    var chartZone: ZoneId
    /** Time of the last bar evaluated, `MinValue` before the first. */
    var prevBarTime: DateTime
    var priceLevels: seq<PriceLevel>
    /** The chart's horizontal lines, by tag. */
    var chart: map<string, HorizontalLine>

    constructor (settings: Settings, convert: Converter)
      ensures this.settings == settings && this.convert == convert
      ensures sessionZone == settings.sessionTimeZoneId && chartZone == settings.chartTimeZoneId
      ensures prevBarTime == MinValue && priceLevels == [] && chart == map[]
    {
      this.settings := settings;
      this.convert := convert;
      sessionZone := settings.sessionTimeZoneId;
      chartZone := settings.chartTimeZoneId;
      prevBarTime := MinValue;
      priceLevels := [];
      chart := map[];
    }

    function Current(): Session
      reads this
    {
      Session(settings.sessionOpenTime, settings.sessionCloseTime, sessionZone, chartZone, convert)
    }

    /** The `Configure` branch: resolve both zones, falling back to the defaults together. */
    method Configure(known: set<ZoneId>)
      modifies this`sessionZone, this`chartZone
      ensures [sessionZone, chartZone]
              == ResolveZones([settings.sessionTimeZoneId, settings.chartTimeZoneId], known, DefaultZones)
    {
      var zones := ResolveZones([settings.sessionTimeZoneId, settings.chartTimeZoneId], known, DefaultZones);
      sessionZone, chartZone := zones[0], zones[1];
    }

    /** `CollectPriceLevels` over the bars loaded so far (`CurrentBar` is the last index). */
    method CollectPriceLevels(bars: seq<Bar>)
      modifies this`priceLevels
      ensures priceLevels == if |bars| - 1 < settings.barsRequiredToPlot then old(priceLevels) else Ledger(Current(), bars)
    {
      var currentBar := |bars| - 1;
      if currentBar < settings.barsRequiredToPlot {
        return;
      }
      var s := Current();
      var temp: seq<PriceLevel> := [];
      for i := 0 to currentBar + 1
        invariant temp == Scan(s, bars[currentBar + 1 - i..])
      {
        var bar := bars[currentBar - i];   // Time[i] and Closes[0][i]: i bars ago
        var sessionOpen := Boundary(s, Open, bar.time.date);
        var sessionClose := Boundary(s, Close, bar.time.date);
        if bar.time == sessionOpen {
          temp := temp + [PriceLevel(bar.time.date, bar.close, Open)];
        }
        if bar.time == sessionClose {
          temp := temp + [PriceLevel(bar.time.date, bar.close, Close)];
        }
        assert bars[currentBar - i..][1..] == bars[currentBar + 1 - i..];
      }
      assert bars[0..] == bars;
      temp := SortNewestFirst(temp);
      priceLevels := Take(temp, Capacity);
    }

    /** One loop of `DrawPriceLevels`: the levels of one role, the i-th drawn with tier i. */
    method DrawRoleLevels(role: Role)
      modifies this`chart
      ensures chart == Apply(old(chart), RoleLines(priceLevels, role, settings.tiers))
    {
      var levels := OfRole(priceLevels, role);
      ghost var cmds := RoleLines(priceLevels, role, settings.tiers);
      for i := 0 to |levels|
        invariant chart == Apply(old(chart), cmds[..i])
      {
        var transparency := Tier(settings.tiers, i);
        ApplyStep(old(chart), cmds, i);
        chart := chart[LevelTag(role, levels[i].date) := HorizontalLine(levels[i].price, Alpha(transparency), role)];
      }
      assert cmds[..|levels|] == cmds;
    }

    /** `DrawPriceLevels`: draw the open lines, then the close lines, ranked within each. */
    method DrawPriceLevels()
      modifies this`chart
      ensures chart == Apply(old(chart), Render(priceLevels, settings.tiers))
    {
      DrawRoleLevels(Open);
      DrawRoleLevels(Close);
      ApplyConcat(old(chart), RoleLines(priceLevels, Open, settings.tiers), RoleLines(priceLevels, Close, settings.tiers));
    }

    /**
     * Clear, collect, draw: the rebuild on a crossing, and the first part
     * of the `Transition` branch. The previous bar time is not touched.
     */
    method Rebuild(bars: seq<Bar>)
      modifies this`priceLevels, this`chart
      ensures priceLevels == Rebuilt(Current(), bars, settings.barsRequiredToPlot)
      ensures chart == Apply(old(chart), Render(priceLevels, settings.tiers))
    {
      priceLevels := [];
      CollectPriceLevels(bars);
      DrawPriceLevels();
    }

    /**
     * The `Transition` branch, once the historical bars are loaded: rebuild
     * from them, then take the last loaded bar's time as the previous time,
     * so that the first real-time bar already detects a crossing.
     */
    method Transition(bars: seq<Bar>)
      requires |bars| > 0
      modifies this`priceLevels, this`chart, this`prevBarTime
      ensures priceLevels == Rebuilt(Current(), bars, settings.barsRequiredToPlot)
      ensures chart == Apply(old(chart), Render(priceLevels, settings.tiers))
      ensures prevBarTime == bars[|bars| - 1].time
    {
      Rebuild(bars);
      prevBarTime := bars[|bars| - 1].time;
    }

    /**
     * `OnBarUpdate` for the bars loaded so far. Bars other than the first
     * tick of the last bar on the chart change nothing. Otherwise the
     * rebuild runs exactly when `RebuildDue` holds, and the bar's time
     * becomes the previous time either way.
     */
    method OnBarUpdate(bars: seq<Bar>, isFirstTickOfBar: bool, toIndex: int) returns (rebuilt: bool)
      requires |bars| > 0
      modifies this`priceLevels, this`chart, this`prevBarTime
      ensures var evaluated := LastBarOnChart(isFirstTickOfBar, |bars| - 1, settings.calculate, toIndex);
        && rebuilt == (evaluated && RebuildDue(Current(), old(prevBarTime), bars[|bars| - 1].time))
        && prevBarTime == (if evaluated then bars[|bars| - 1].time else old(prevBarTime))
      ensures rebuilt ==> priceLevels == Rebuilt(Current(), bars, settings.barsRequiredToPlot)
                          && chart == Apply(old(chart), Render(priceLevels, settings.tiers))
      ensures !rebuilt ==> priceLevels == old(priceLevels) && chart == old(chart)
    {
      rebuilt := false;
      if !LastBarOnChart(isFirstTickOfBar, |bars| - 1, settings.calculate, toIndex) {
        return;
      }
      var currentBarTime := bars[|bars| - 1].time;
      if prevBarTime != MinValue {
        var s := Current();
        var sessionOpen := Boundary(s, Open, currentBarTime.date);
        var sessionClose := Boundary(s, Close, currentBarTime.date);
        if (Before(prevBarTime, sessionOpen) && NotAfter(sessionOpen, currentBarTime))
          || (Before(prevBarTime, sessionClose) && NotAfter(sessionClose, currentBarTime))
        {
          Rebuild(bars);
          rebuilt := true;
        }
      }
      prevBarTime := currentBarTime;
    }
  }
}
