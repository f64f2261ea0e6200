/**
 * The wall-clock indicator without its timer: where the text sits (an
 * alignment pair mapped to a chart corner), what it says (`HH:mm:ss`), and
 * that every tick redraws the one text object tagged "WallClock".
 */
module Clock {
  import opened Time
  import opened Host
  import opened Lists

  /** The WPF alignments offered as settings. */
  datatype VerticalAlignment = Top | Center | Bottom | Stretch
  datatype HorizontalAlignment = Left | Center | Right | Stretch

  /** The host's fixed text positions: four corners and the centre. */
  datatype TextPosition = TopLeft | TopRight | BottomLeft | BottomRight | Centered

  predicate IsCorner(p: TextPosition) {
    p != Centered
  }

  /**
   * `ToTextPosition`: the four corner pairs map to their corner, every other
   * pair to the bottom-right corner.
   */
  function ToTextPosition(vertical: VerticalAlignment, horizontal: HorizontalAlignment): (p: TextPosition)
    ensures IsCorner(p)
  {
    match (vertical, horizontal)
    case (Top, Left) => TopLeft
    case (Top, Right) => TopRight
    case (Bottom, Left) => BottomLeft
    case (Bottom, Right) => BottomRight
    case _ => BottomRight
  }

  /** Each corner is chosen by exactly the pairs that name it; bottom-right also by all the rest. */
  lemma ToTextPositionIff(v: VerticalAlignment, h: HorizontalAlignment)
    ensures ToTextPosition(v, h) == TopLeft <==> v == Top && h == Left
    ensures ToTextPosition(v, h) == TopRight <==> v == Top && h == Right
    ensures ToTextPosition(v, h) == BottomLeft <==> v == Bottom && h == Left
    ensures ToTextPosition(v, h) == BottomRight
            <==> !((v == Top || v == Bottom) && (h == Left || h == Right)) || (v == Bottom && h == Right)
  {
  }

  /** The default alignment (bottom, right) puts the clock in the bottom-right corner. */
  lemma DefaultPosition()
    ensures ToTextPosition(Bottom, Right) == BottomRight
  {
  }

  // ---------------------------------------------------------------------
  // The clock text

  /** The whole seconds since midnight of a time of day. */
  function SecondOfDay(t: DateTime): int {
    t.ticks / TicksPerSecond
  }

  /** `ToString("HH:mm:ss")`: 24-hour hours, minutes and seconds, two digits each. */
  function ClockText(t: DateTime): (text: string)
    ensures |text| == 8 && text[2] == ':' && text[5] == ':'
    ensures forall i :: 0 <= i < 8 && i != 2 && i != 5 ==> IsDigit(text[i])
  {
    var minutes := SecondOfDay(t) / 60;
    Pad(minutes / 60, 2) + ":" + Pad(minutes % 60, 2) + ":" + Pad(SecondOfDay(t) % 60, 2)
  }

  /** Reading an `HH:mm:ss` text back as seconds since midnight. */
  function TextSeconds(text: string): int
    requires |text| == 8
    requires forall i :: 0 <= i < 8 && i != 2 && i != 5 ==> IsDigit(text[i])
  {
    var h, m, s := text[0..2], text[3..5], text[6..8];
    assert forall i :: 0 <= i < 2 ==> h[i] == text[i] && m[i] == text[3 + i] && s[i] == text[6 + i];
    DigitsValue(h) * 3600 + DigitsValue(m) * 60 + DigitsValue(s)
  }

  /** The text of a valid time of day reads back as its second, and its hours are below 24. */
  lemma ClockTextRoundTrip(t: DateTime)
    requires 0 <= t.ticks < TicksPerDay
    ensures TextSeconds(ClockText(t)) == SecondOfDay(t)
    ensures DigitsValue(ClockText(t)[0..2]) < 24
  {
    var secs := SecondOfDay(t);
    var minutes := secs / 60;
    assert 0 <= secs < 86400;
    assert minutes < 1440 && minutes / 60 < 24;
    var text := ClockText(t);
    assert Pow10(2) == 100;
    assert text[0..2] == Pad(minutes / 60, 2);
    assert text[3..5] == Pad(minutes % 60, 2);
    assert text[6..8] == Pad(secs % 60, 2);
    PadRoundTrip(minutes / 60, 2);
    PadRoundTrip(minutes % 60, 2);
    PadRoundTrip(secs % 60, 2);
    assert (minutes / 60) * 60 + minutes % 60 == minutes;
    assert minutes * 60 + secs % 60 == secs;
  }

  /** Two times of day show the same text exactly when they fall in the same second. */
  lemma ClockTextSameIffSameSecond(a: DateTime, b: DateTime)
    requires 0 <= a.ticks < TicksPerDay && 0 <= b.ticks < TicksPerDay
    ensures ClockText(a) == ClockText(b) <==> SecondOfDay(a) == SecondOfDay(b)
  {
    ClockTextRoundTrip(a);
    ClockTextRoundTrip(b);
  }

  // ---------------------------------------------------------------------
  // Redrawing

  /** The fixed text object: what it says and where. */
  datatype TextFixed = TextFixed(text: string, position: TextPosition)

  const ClockTag: string := "WallClock"

  /**
   * `UpdateClock` at the time `currentTime` already converted to the
   * clock's zone: nothing while no chart is attached, otherwise the text
   * under the clock's tag is that time's.
   */
  function UpdateClock(chart: map<string, TextFixed>, attached: bool, currentTime: DateTime, position: TextPosition)
    : (r: map<string, TextFixed>)
    ensures !attached ==> r == chart
    ensures attached ==> r.Keys == chart.Keys + {ClockTag} && r[ClockTag] == TextFixed(ClockText(currentTime), position)
    ensures forall k :: k in chart && k != ClockTag ==> r[k] == chart[k]
  {
    if !attached then chart else chart[ClockTag := TextFixed(ClockText(currentTime), position)]
  }

  /** The draw of one tick. */
  function Tick(position: TextPosition): DateTime -> Draw<TextFixed> {
    t => Draw(ClockTag, TextFixed(ClockText(t), position))
  }

  /**
   * Ticking at the times `ts` onto an attached chart: one draw under the
   * clock's tag per tick.
   */
  function Ticks(chart: map<string, TextFixed>, ts: seq<DateTime>, position: TextPosition): map<string, TextFixed> {
    Apply(chart, Map(ts, Tick(position)))
  }

  /** A tick is an `UpdateClock` on an attached chart. */
  lemma TickIsUpdate(chart: map<string, TextFixed>, ts: seq<DateTime>, t: DateTime, position: TextPosition)
    ensures Ticks(chart, ts + [t], position) == UpdateClock(Ticks(chart, ts, position), true, t, position)
  {
    var cmds := Map(ts + [t], Tick(position));
    assert cmds[..|cmds| - 1] == Map(ts, Tick(position));
  }

  /**
   * However many ticks there were, the chart holds one clock object more at
   * most, and it shows the last tick's time: each update replaces the text
   * rather than adding another.
   */
  lemma TicksReplace(chart: map<string, TextFixed>, ts: seq<DateTime>, position: TextPosition)
    requires |ts| > 0
    ensures Ticks(chart, ts, position).Keys == chart.Keys + {ClockTag}
    ensures Ticks(chart, ts, position)[ClockTag] == TextFixed(ClockText(ts[|ts| - 1]), position)
  {
    var front := ts[..|ts| - 1];
    assert front + [ts[|ts| - 1]] == ts;
    TickIsUpdate(chart, front, ts[|ts| - 1], position);
    ApplyKeys(chart, Map(front, Tick(position)));
    var tags := Tags(Map(front, Tick(position)));
    assert tags <= {ClockTag};
  }
}
