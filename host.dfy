/**
 * What the indicators share about their host: the "last bar on the chart"
 * gate, the 32-bit integer arithmetic behind a brush's alpha byte, and the
 * chart's drawing objects as a map from tag to object, where drawing under
 * an existing tag replaces that object.
 */
module Host {
  import opened Lists
  import opened Time

  /** The `Calculate` setting of an indicator. */
  datatype Calculate = OnBarClose | OnEachTick | OnPriceChange

  /**
   * `IsFirstTickOfBar && CurrentBar + (OnEachTick ? 0 : 1) >= ChartBars.ToIndex`:
   * the update is for the newest bar on the chart and is its first tick.
   */
  predicate LastBarOnChart(isFirstTickOfBar: bool, currentBar: int, calculate: Calculate, toIndex: int) {
    isFirstTickOfBar && currentBar + (if calculate == OnEachTick then 0 else 1) >= toIndex
  }

  // ---------------------------------------------------------------------
  // 32-bit arithmetic and the byte cast

  type Int32 = x: int | -0x8000_0000 <= x < 0x8000_0000
  type Byte = x: int | 0 <= x < 0x100

  /** Two's-complement wrap-around of an `int` product. */
  function Wrap32(x: int): Int32 {
    var m := x % 0x1_0000_0000;
    if m >= 0x8000_0000 then m - 0x1_0000_0000 else m
  }

  /** C# integer division, which truncates toward zero. */
  function TruncDiv(a: int, b: int): int
    requires b > 0
  {
    if a >= 0 then a / b else -((-a) / b)
  }

  /** The unchecked `(byte)` cast keeps the low eight bits. */
  function ToByte(x: int): Byte {
    x % 0x100
  }

  /**
   * `(byte)(lineTransparency * 255 / 100)`: 0 is fully transparent and 100
   * fully opaque; `AlphaScales` says what lies between.
   */
  function Alpha(transparency: Int32): (a: Byte)
    ensures transparency == 0 ==> a == 0
    ensures transparency == 100 ==> a == 255
  {
    ToByte(TruncDiv(Wrap32(transparency * 255), 100))
  }

  /** For a percentage the alpha is the percentage scaled to 0..255, rounded down. */
  lemma AlphaScales(transparency: Int32)
    requires 0 <= transparency <= 100
    ensures Alpha(transparency) * 100 <= transparency * 255 < Alpha(transparency) * 100 + 100
  {
    var product := transparency * 255;
    assert 0 <= product <= 25500;
    assert Wrap32(product) == product;
    var q := product / 100;
    assert TruncDiv(product, 100) == q;
    assert 0 <= q <= 255 && ToByte(q) == q;
    assert q * 100 <= product < q * 100 + 100;
  }

  lemma AlphaMonotone(t1: Int32, t2: Int32)
    requires 0 <= t1 <= t2 <= 100
    ensures Alpha(t1) <= Alpha(t2)
  {
    AlphaScales(t1);
    AlphaScales(t2);
  }

  /** Past 100 the byte cast wraps around: 101 percent is almost transparent. */
  lemma AlphaWrapsPastHundred()
    ensures Alpha(101) == 1
    ensures Alpha(-1) == 254
  {
    assert Wrap32(101 * 255) == 25755 && TruncDiv(25755, 100) == 257 && ToByte(257) == 1;
    assert Wrap32(-255) == -255 && TruncDiv(-255, 100) == -2 && ToByte(-2) == 254;
  }

  // ---------------------------------------------------------------------
  // Drawing objects keyed by tag

  datatype Draw<T> = Draw(tag: string, obj: T)

  /** A drawn vertical line: the chart time it stands at and the alpha of its brush. */
  datatype VerticalLine = VerticalLine(time: DateTime, alpha: Byte)

  function Tags<T>(cmds: seq<Draw<T>>): set<string> {
    set i | 0 <= i < |cmds| :: cmds[i].tag
  }

  /**
   * The drawing objects after issuing `cmds` in order: each draw adds its
   * object under its tag, replacing whatever had that tag.
   */
  function Apply<T>(chart: map<string, T>, cmds: seq<Draw<T>>): (r: map<string, T>)
    ensures forall k :: k in chart ==> k in r
    ensures forall i :: 0 <= i < |cmds| ==> cmds[i].tag in r
  {
    if cmds == [] then chart
    else
      var last := cmds[|cmds| - 1];
      var front := cmds[..|cmds| - 1];
      assert forall i :: 0 <= i < |cmds| - 1 ==> cmds[i] == front[i];
      Apply(chart, front)[last.tag := last.obj]
  }

  /** The keys after issuing draws: the chart's keys and the drawn tags, nothing else. */
  lemma {:induction false} ApplyKeys<T>(chart: map<string, T>, cmds: seq<Draw<T>>)
    ensures Apply(chart, cmds).Keys == chart.Keys + Tags(cmds)
  {
    if cmds != [] {
      var front := cmds[..|cmds| - 1];
      ApplyKeys(chart, front);
      assert Tags(cmds) == Tags(front) + {cmds[|cmds| - 1].tag} by {
        forall t | t in Tags(cmds) ensures t in Tags(front) + {cmds[|cmds| - 1].tag} {
          var i :| 0 <= i < |cmds| && cmds[i].tag == t;
          if i < |cmds| - 1 { assert front[i] == cmds[i]; }
        }
        forall t | t in Tags(front) ensures t in Tags(cmds) {
          var i :| 0 <= i < |front| && front[i].tag == t;
          assert cmds[i] == front[i];
        }
      }
    }
  }

  /** Issuing draws onto a chart overrides it with what they draw onto an empty chart. */
  lemma {:induction false} ApplyOverrides<T>(chart: map<string, T>, cmds: seq<Draw<T>>)
    ensures Apply(chart, cmds) == chart + Apply(map[], cmds)
  {
    if cmds != [] {
      ApplyOverrides(chart, cmds[..|cmds| - 1]);
    }
  }

  /** Issuing one more draw: the loop step of a drawing loop. */
  lemma ApplyStep<T>(chart: map<string, T>, cmds: seq<Draw<T>>, i: nat)
    requires i < |cmds|
    ensures Apply(chart, cmds[..i + 1]) == Apply(chart, cmds[..i])[cmds[i].tag := cmds[i].obj]
  {
    assert cmds[..i + 1][..i] == cmds[..i];
  }

  lemma ApplyOne<T>(chart: map<string, T>, d: Draw<T>)
    ensures Apply(chart, [d]) == chart[d.tag := d.obj]
  {
    assert [d][..0] == [];
  }

  /** Issuing two batches is issuing their concatenation. */
  lemma {:induction false} ApplyConcat<T>(chart: map<string, T>, a: seq<Draw<T>>, b: seq<Draw<T>>)
    ensures Apply(chart, a + b) == Apply(Apply(chart, a), b)
    decreases |b|
  {
    if b == [] {
      assert a + b == a;
    } else {
      var front := b[..|b| - 1];
      var ab, last := a + b, b[|b| - 1];
      calc {
        Apply(chart, ab);
        { assert ab[..|ab| - 1] == a + front && ab[|ab| - 1] == last; }
        Apply(chart, a + front)[last.tag := last.obj];
        { ApplyConcat(chart, a, front); }
        Apply(Apply(chart, a), front)[last.tag := last.obj];
      }
    }
  }

  /** Re-issuing the same draws changes nothing: redraw is idempotent. */
  lemma ApplyIdempotent<T>(chart: map<string, T>, cmds: seq<Draw<T>>)
    ensures Apply(Apply(chart, cmds), cmds) == Apply(chart, cmds)
  {
    ApplyOverrides(chart, cmds);
    ApplyOverrides(Apply(chart, cmds), cmds);
    var m := Apply(map[], cmds);
    assert (chart + m) + m == chart + m;
  }

  predicate DistinctTags<T>(cmds: seq<Draw<T>>) {
    forall i, j :: 0 <= i < j < |cmds| ==> cmds[i].tag != cmds[j].tag
  }

  lemma DistinctConcat<T>(a: seq<Draw<T>>, b: seq<Draw<T>>)
    requires DistinctTags(a) && DistinctTags(b)
    requires forall i, j :: 0 <= i < |a| && 0 <= j < |b| ==> a[i].tag != b[j].tag
    ensures DistinctTags(a + b)
  {
    var r := a + b;
    forall i, j | 0 <= i < j < |r| ensures r[i].tag != r[j].tag {
      if j < |a| {
        assert r[i] == a[i] && r[j] == a[j];
      } else if i >= |a| {
        assert r[i] == b[i - |a|] && r[j] == b[j - |a|];
      } else {
        assert r[i] == a[i] && r[j] == b[j - |a|];
      }
    }
  }

  /** With distinct tags every draw survives: the object under its tag is its own. */
  lemma {:induction false} ApplyDistinct<T>(chart: map<string, T>, cmds: seq<Draw<T>>, i: nat)
    requires DistinctTags(cmds) && i < |cmds|
    ensures Apply(chart, cmds)[cmds[i].tag] == cmds[i].obj
  {
    var n := |cmds| - 1;
    if i < n {
      var front := cmds[..n];
      assert front[i] == cmds[i];
      ApplyDistinct(chart, front, i);
    }
  }

  /** A chart key no draw mentions keeps its object. */
  lemma {:induction false} ApplyUntouched<T>(chart: map<string, T>, cmds: seq<Draw<T>>, tag: string)
    requires tag in chart && forall i :: 0 <= i < |cmds| ==> cmds[i].tag != tag
    ensures Apply(chart, cmds)[tag] == chart[tag]
  {
    if cmds != [] {
      var front := cmds[..|cmds| - 1];
      assert forall i :: 0 <= i < |front| ==> front[i] == cmds[i];
      ApplyUntouched(chart, front, tag);
    }
  }

  /**
   * Drawing what a loop over `xs` draws onto an empty chart: a tag is on the
   * chart exactly when some element draws under it.
   */
  lemma {:induction false} ApplyFlatMapTags<A, T>(xs: seq<A>, g: A -> seq<Draw<T>>, tag: string)
    ensures tag in Apply(map[], FlatMap(xs, g)) <==> exists i :: 0 <= i < |xs| && tag in Tags(g(xs[i]))
  {
    if xs == [] {
      assert Apply(map[], FlatMap(xs, g)) == map[];
    } else {
      var n := |xs| - 1;
      var front := xs[..n];
      ApplyFlatMapTags(front, g, tag);
      ApplyConcat(map[], FlatMap(front, g), g(xs[n]));
      ApplyKeys(Apply(map[], FlatMap(front, g)), g(xs[n]));
      if exists i :: 0 <= i < |xs| && tag in Tags(g(xs[i])) {
        var i :| 0 <= i < |xs| && tag in Tags(g(xs[i]));
        if i < n { assert front[i] == xs[i]; }
      }
      if exists i :: 0 <= i < n && tag in Tags(g(front[i])) {
        var i :| 0 <= i < n && tag in Tags(g(front[i]));
        assert xs[i] == front[i];
      }
    }
  }

  /** Draw under `tag` only when no object has that tag yet. */
  function DrawIfAbsent<T>(chart: map<string, T>, tag: string, obj: T): (r: map<string, T>)
    ensures r.Keys == chart.Keys + {tag}
    ensures forall k :: k in chart ==> r[k] == chart[k]
    ensures tag !in chart ==> r[tag] == obj
  {
    if tag in chart then chart else chart[tag := obj]
  }

  /** Drawing if absent twice is drawing once, even with a different object the second time. */
  lemma DrawIfAbsentIdempotent<T>(chart: map<string, T>, tag: string, obj: T, obj2: T)
    ensures DrawIfAbsent(DrawIfAbsent(chart, tag, obj), tag, obj2) == DrawIfAbsent(chart, tag, obj)
  {
  }
}
