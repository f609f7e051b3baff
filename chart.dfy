/** The `Chart` component of `src/Chart.tsx`: the time of the first drink,
    one cumulative series per player over 56 half-hour points, the hour
    labels under the points and the legend. Drawing the chart and looking
    colours up in the theme are not modelled. */
module Chart {
  import opened Optional
  import opened JsNumber
  import opened Session

  /** `day`: one day in milliseconds. */
  const Day: int := 86400000

  /** `fiveMin`, written `300000 * 6` in the component: despite its name
      one point of the chart spans half an hour. */
  const FiveMin: int := 1800000

  /** `fiveIntervals`: `(day + day / 6) / fiveMin` points, 28 hours. */
  const FiveIntervals: nat := (Day + Day / 6) / FiveMin

  /** The three chart constants, evaluated. */
  lemma ChartConstants()
    ensures FiveMin == 300000 * 6 && FiveIntervals == 56 && FiveIntervals * FiveMin == Day + Day / 6
  {
  }

  // ---------------------------------------------------------------------
  // firstDrink

  /** `player.activity[0]`: undefined for a player without taps. */
  function FirstActivity(p: Player): (r: Option<int>)
    ensures r.Some? <==> p.activity != []
  {
    if p.activity == [] then None else Some(p.activity[0])
  }

  /** The reducer of `firstDrink` at position `valIndex`: the first value
      is taken whatever it is; a later first tap replaces the running value
      only when `<` holds, and `<` is false when either side is
      undefined. */
  function EarlierStep(previous: Option<int>, p: Player, valIndex: nat): (r: Option<int>)
    ensures valIndex == 0 ==> r == FirstActivity(p)
    ensures valIndex > 0 ==> (r.Some? <==> previous.Some?)
    ensures valIndex > 0 && r.Some? ==> r.value <= previous.value && (r == previous || r == FirstActivity(p))
  {
    if valIndex == 0 then FirstActivity(p)
    else if p.activity != [] && previous.Some? && p.activity[0] < previous.value then Some(p.activity[0])
    else previous
  }

  /** `Object.values(players).reduce(step, 0)`, folded from the left. */
  function FirstDrink(players: seq<Player>): (r: Option<int>)
    ensures players == [] ==> r == Some(0)
    ensures players != [] ==> (r.Some? <==> players[0].activity != [])
  {
    if players == [] then Some(0)
    else EarlierStep(FirstDrink(players[..|players| - 1]), players[|players| - 1], |players| - 1)
  }

  /** `firstDrink` is 0 with no players; undefined when the first player
      has no tap yet, whatever the others did; otherwise the earliest first
      tap among the players who have one. */
  lemma {:induction false} FirstDrinkSpec(players: seq<Player>)
    ensures players == [] ==> FirstDrink(players) == Some(0)
    ensures players != [] && players[0].activity == [] ==> FirstDrink(players) == None
    ensures players != [] && players[0].activity != [] ==>
      FirstDrink(players).Some?
      && (exists i :: 0 <= i < |players| && players[i].activity != [] && FirstDrink(players).value == players[i].activity[0])
      && (forall i :: 0 <= i < |players| && players[i].activity != [] ==> FirstDrink(players).value <= players[i].activity[0])
  {
    if |players| > 1 {
      var front := players[..|players| - 1];
      FirstDrinkSpec(front);
      assert front[0] == players[0];
      if players[0].activity != [] {
        var last := players[|players| - 1];
        var m := FirstDrink(front).value;
        if last.activity != [] && last.activity[0] < m {
          assert FirstDrink(players).value == players[|players| - 1].activity[0];
        } else {
          assert FirstDrink(players) == FirstDrink(front);
          var i :| 0 <= i < |front| && front[i].activity != [] && m == front[i].activity[0];
          assert players[i] == front[i];
        }
        forall i | 0 <= i < |players| && players[i].activity != []
          ensures FirstDrink(players).value <= players[i].activity[0]
        {
          if i < |front| {
            assert players[i] == front[i];
          }
        }
      }
    }
  }

  // ---------------------------------------------------------------------
  // drinkData

  /** `currTime` of point `index`: the points start two intervals before
      the first drink. */
  function BucketStart(firstDrink: int, index: int): int
  {
    index * FiveMin + (firstDrink - FiveMin * 2)
  }

  /** `ts.filter(t => t > lo && t < hi).length`. */
  function CountBetween(ts: seq<int>, lo: int, hi: int): (n: nat)
    ensures n <= |ts|
  {
    if ts == [] then 0 else (if lo < ts[0] < hi then 1 else 0) + CountBetween(ts[1..], lo, hi)
  }

  /** How the edges of an interval are compared with a tap time: `Open` is
      the chart's strict `>` and `<`; `HalfOpen` also counts a tap lying
      exactly on the lower edge. */
  datatype Edges = Open | HalfOpen

  /** `drinkAmount` of point `index`. With `firstDrink` undefined,
      `currTime` is NaN and no comparison holds. */
  function DrinkAmount(firstDrink: Option<int>, ts: seq<int>, index: int, edges: Edges): (n: nat)
    ensures n <= |ts|
    ensures firstDrink.None? ==> n == 0
  {
    match firstDrink
    case None => 0
    case Some(f) =>
      var currTime := BucketStart(f, index);
      CountBetween(ts, if edges == Open then currTime else currTime - 1, currTime + FiveMin)
  }

  /** `currAmount` after the first `n` points. */
  function Cumulative(firstDrink: Option<int>, ts: seq<int>, n: nat, edges: Edges): (total: nat)
    ensures firstDrink.None? ==> total == 0
  {
    if n == 0 then 0 else Cumulative(firstDrink, ts, n - 1, edges) + DrinkAmount(firstDrink, ts, n - 1, edges)
  }

  /** The array `drinkData(ts)` returns: point `i` holds `currAmount`
      after point `i` has been added. */
  function DrinkSeries(firstDrink: Option<int>, ts: seq<int>, edges: Edges): (series: seq<nat>)
    ensures |series| == FiveIntervals
  {
    seq(FiveIntervals, i requires 0 <= i < FiveIntervals => Cumulative(firstDrink, ts, i + 1, edges))
  }

  /** `drinkData(timeArr)`: one pass over the points carrying the running
      total `currAmount`. */
  method DrinkData(firstDrink: Option<int>, timeArr: seq<int>) returns (series: seq<nat>)
    ensures series == DrinkSeries(firstDrink, timeArr, Open)
  {
    var currAmount: nat := 0;
    series := [];
    var index := 0;
    while index < FiveIntervals
      invariant index <= FiveIntervals
      invariant currAmount == Cumulative(firstDrink, timeArr, index, Open)
      invariant |series| == index
      invariant forall i :: 0 <= i < index ==> series[i] == Cumulative(firstDrink, timeArr, i + 1, Open)
    {
      var drinkAmount := 0;
      if firstDrink.Some? {
        var currTime := index * FiveMin + (firstDrink.value - FiveMin * 2);
        drinkAmount := CountBetween(timeArr, currTime, currTime + FiveMin);
      }
      currAmount := currAmount + drinkAmount;
      series := series + [currAmount];
      index := index + 1;
    }
  }

  /** A running total never goes down. */
  lemma {:induction false} CumulativeMonotone(firstDrink: Option<int>, ts: seq<int>, i: nat, j: nat, edges: Edges)
    requires i <= j
    ensures Cumulative(firstDrink, ts, i, edges) <= Cumulative(firstDrink, ts, j, edges)
    decreases j - i
  {
    if i < j {
      CumulativeMonotone(firstDrink, ts, i, j - 1, edges);
    }
  }

  /** Every series is non-decreasing. */
  lemma SeriesNonDecreasing(firstDrink: Option<int>, ts: seq<int>, edges: Edges)
    ensures forall i, j :: 0 <= i <= j < FiveIntervals ==>
      DrinkSeries(firstDrink, ts, edges)[i] <= DrinkSeries(firstDrink, ts, edges)[j]
  {
    forall i, j | 0 <= i <= j < FiveIntervals
      ensures DrinkSeries(firstDrink, ts, edges)[i] <= DrinkSeries(firstDrink, ts, edges)[j]
    {
      CumulativeMonotone(firstDrink, ts, i + 1, j + 1, edges);
    }
  }

  /** With no first drink every point is 0. */
  lemma {:induction false} CumulativeUndefined(ts: seq<int>, n: nat, edges: Edges)
    ensures Cumulative(None, ts, n, edges) == 0
  {
    if n > 0 {
      CumulativeUndefined(ts, n - 1, edges);
    }
  }

  // The window counted by the chart as written: taps strictly inside one
  // of the first `n` intervals after `start`, which leaves out every tap
  // that falls exactly on an interval edge.

  /** `t` lies strictly inside one of the first `n` intervals from `start`. */
  predicate OffGrid(t: int, start: int, n: nat)
  {
    start < t < start + n * FiveMin && (t - start) % FiveMin != 0
  }

  /** The number of taps of `ts` that are `OffGrid`. */
  function CountOffGrid(ts: seq<int>, start: int, n: nat): (c: nat)
    ensures c <= |ts|
  {
    if ts == [] then 0 else (if OffGrid(ts[0], start, n) then 1 else 0) + CountOffGrid(ts[1..], start, n)
  }

  /** Widening the window by one interval adds exactly the taps strictly
      inside the new interval. */
  lemma OffGridStep(t: int, start: int, n: nat)
    ensures OffGrid(t, start, n + 1) <==> OffGrid(t, start, n) || start + n * FiveMin < t < start + n * FiveMin + FiveMin
    ensures !(OffGrid(t, start, n) && start + n * FiveMin < t < start + n * FiveMin + FiveMin)
  {
    var x := t - start;
    if n * FiveMin < x < n * FiveMin + FiveMin {
      var q := x / FiveMin;
      assert x == FiveMin * q + x % FiveMin;
    }
    if x == n * FiveMin {
      assert x % FiveMin == 0;
    }
  }

  lemma {:induction false} CountOffGridStep(ts: seq<int>, start: int, n: nat)
    ensures CountOffGrid(ts, start, n + 1)
         == CountOffGrid(ts, start, n) + CountBetween(ts, start + n * FiveMin, start + n * FiveMin + FiveMin)
  {
    if ts != [] {
      OffGridStep(ts[0], start, n);
      CountOffGridStep(ts[1..], start, n);
    }
  }

  lemma {:induction false} CountOffGridEmpty(ts: seq<int>, start: int)
    ensures CountOffGrid(ts, start, 0) == 0
  {
    if ts != [] {
      CountOffGridEmpty(ts[1..], start);
    }
  }

  /** The chart as written: after `n` points the running total counts
      exactly the taps lying strictly inside one of the first `n`
      intervals, i.e. after `firstDrink - 2 * fiveMin`, before the end of
      interval `n`, and not on an interval edge. */
  lemma {:induction false} OpenWindow(f: int, ts: seq<int>, n: nat)
    ensures Cumulative(Some(f), ts, n, Open) == CountOffGrid(ts, BucketStart(f, 0), n)
  {
    if n == 0 {
      CountOffGridEmpty(ts, BucketStart(f, 0));
    } else {
      OpenWindow(f, ts, n - 1);
      CountOffGridStep(ts, BucketStart(f, 0), n - 1);
    }
  }

  // The window of the corrected comparison: every tap from the lower
  // edge up to the end of interval `n`.

  lemma {:induction false} CountSplit(ts: seq<int>, a: int, b: int, c: int)
    requires a < b <= c
    ensures CountBetween(ts, a, c) == CountBetween(ts, a, b) + CountBetween(ts, b - 1, c)
  {
    if ts != [] {
      CountSplit(ts[1..], a, b, c);
    }
  }

  lemma {:induction false} CountNone(ts: seq<int>, lo: int, hi: int)
    requires hi <= lo + 1
    ensures CountBetween(ts, lo, hi) == 0
  {
    if ts != [] {
      CountNone(ts[1..], lo, hi);
    }
  }

  /** With the lower edge included, after `n` points the running total
      counts every tap from `firstDrink - 2 * fiveMin` up to the end of
      interval `n`, each once. */
  lemma {:induction false} HalfOpenWindow(f: int, ts: seq<int>, n: nat)
    ensures Cumulative(Some(f), ts, n, HalfOpen)
         == CountBetween(ts, BucketStart(f, 0) - 1, BucketStart(f, 0) + n * FiveMin)
  {
    var s0 := BucketStart(f, 0);
    if n == 0 {
      CountNone(ts, s0 - 1, s0);
    } else {
      HalfOpenWindow(f, ts, n - 1);
      assert BucketStart(f, n - 1) == s0 + (n - 1) * FiveMin;
      CountSplit(ts, s0 - 1, s0 + (n - 1) * FiveMin, s0 + n * FiveMin);
    }
  }

  /** No point counts more taps than the player has. */
  lemma SeriesBounded(firstDrink: Option<int>, ts: seq<int>, edges: Edges)
    ensures forall i :: 0 <= i < FiveIntervals ==> DrinkSeries(firstDrink, ts, edges)[i] <= |ts|
  {
    forall i | 0 <= i < FiveIntervals
      ensures DrinkSeries(firstDrink, ts, edges)[i] <= |ts|
    {
      match firstDrink
      case None => CumulativeUndefined(ts, i + 1, edges);
      case Some(f) =>
        if edges == Open {
          OpenWindow(f, ts, i + 1);
        } else {
          HalfOpenWindow(f, ts, i + 1);
        }
    }
  }

  /** As written, the tap that sets `firstDrink` lies exactly on the lower
      edge of point 2 and the upper edge of point 1, so it is never
      counted: adding it leaves the whole series unchanged. */
  lemma FirstDrinkNeverCharted(f: int, ts: seq<int>)
    ensures DrinkSeries(Some(f), [f] + ts, Open) == DrinkSeries(Some(f), ts, Open)
  {
    var s0 := BucketStart(f, 0);
    forall i | 0 <= i < FiveIntervals
      ensures DrinkSeries(Some(f), [f] + ts, Open)[i] == DrinkSeries(Some(f), ts, Open)[i]
    {
      OpenWindow(f, [f] + ts, i + 1);
      OpenWindow(f, ts, i + 1);
      assert ([f] + ts)[1..] == ts;
      assert (f - s0) % FiveMin == 0;
    }
  }

  /** With the lower edge included, the tap that sets `firstDrink` is
      counted from point 2 on. */
  lemma FixedChartsFirstDrink(f: int, ts: seq<int>)
    ensures forall i :: 0 <= i < FiveIntervals ==>
      DrinkSeries(Some(f), [f] + ts, HalfOpen)[i] == DrinkSeries(Some(f), ts, HalfOpen)[i] + (if i >= 2 then 1 else 0)
  {
    forall i | 0 <= i < FiveIntervals
      ensures DrinkSeries(Some(f), [f] + ts, HalfOpen)[i] == DrinkSeries(Some(f), ts, HalfOpen)[i] + (if i >= 2 then 1 else 0)
    {
      HalfOpenWindow(f, [f] + ts, i + 1);
      HalfOpenWindow(f, ts, i + 1);
      assert ([f] + ts)[1..] == ts;
    }
  }

  // ---------------------------------------------------------------------
  // labels

  /** `new Date(ms).getUTCHours()`: the hour of the day in UTC, NaN for an
      undefined time or one outside the ±8.64e15 ms range of dates. */
  function UtcHours(ms: Option<int>): (h: Num)
    ensures h.Int? ==> 0 <= h.value < 24
  {
    if ms.Some? && -8640000000000000 <= ms.value <= 8640000000000000 then Int((ms.value / 3600000) % 24)
    else NaN
  }

  /** `hour > 12 ? `${hour - 12} PM` : `${hour} AM``; NaN renders as
      "NaN" and fails the comparison. */
  function HourText(hour: Num): (text: string)
    requires hour.Int? ==> 0 <= hour.value < 24
    ensures |text| >= 4
    ensures text[|text| - 3..] == (if hour.Int? && hour.value > 12 then " PM" else " AM")
  {
    match hour
    case NaN => "NaN AM"
    case Int(h) => if h > 12 then NatToString(h - 12) + " PM" else NatToString(h) + " AM"
  }

  /** The label of point `index`: empty for even points, otherwise the UTC
      hour of `index * fiveMin + firstDrink`. */
  function Label(firstDrink: Option<int>, index: nat): (shown: string)
    ensures shown == "" <==> index % 2 == 0
    ensures index % 2 == 1 && firstDrink.None? ==> shown == "NaN AM"
  {
    if index % 2 == 1 then
      HourText(UtcHours(if firstDrink.Some? then Some(index * FiveMin + firstDrink.value) else None))
    else ""
  }

  /** `labels`: one label per point. */
  function Labels(firstDrink: Option<int>): (labels: seq<string>)
    ensures |labels| == FiveIntervals
    ensures forall i :: 0 <= i < FiveIntervals ==> labels[i] == Label(firstDrink, i)
  {
    seq(FiveIntervals, i requires 0 <= i < FiveIntervals => Label(firstDrink, i))
  }

  /** Reading an hour label back: `parseInt` gives the 12-hour clock hour,
      and the suffix is " PM" exactly after noon. Noon itself reads
      "12 AM" and midnight "0 AM". */
  lemma HourTextReadsBack(h: nat)
    requires h < 24
    ensures ParseInt(HourText(Int(h))) == Int(if h > 12 then h - 12 else h)
    ensures HourText(Int(h))[|HourText(Int(h))| - 3..] == (if h > 12 then " PM" else " AM")
  {
    if h > 12 {
      ParseIntOfNatToString(h - 12, " PM");
    } else {
      ParseIntOfNatToString(h, " AM");
    }
  }

  /** Labels alternate: every even point is blank and every odd one holds
      an hour, or "NaN AM" when `firstDrink` is undefined. */
  lemma LabelsAlternate(firstDrink: Option<int>)
    ensures forall i :: 0 <= i < FiveIntervals ==> (Labels(firstDrink)[i] == "" <==> i % 2 == 0)
    ensures firstDrink.None? ==> forall i :: 0 <= i < FiveIntervals && i % 2 == 1 ==> Labels(firstDrink)[i] == "NaN AM"
  {
    forall i | 0 <= i < FiveIntervals && i % 2 == 1
      ensures Labels(firstDrink)[i] != ""
    {
      var h := UtcHours(if firstDrink.Some? then Some(i * FiveMin + firstDrink.value) else None);
      assert |HourText(h)| >= 3;
    }
  }

  /** An odd label shows the UTC hour of `firstDrink + index` half hours.
      That time lies two interval widths after the lower edge of the same
      point, because the labels leave out the `- fiveMin * 2` offset. */
  lemma LabelHour(f: int, index: nat)
    requires index < FiveIntervals && index % 2 == 1
    requires -8640000000000000 <= index * FiveMin + f <= 8640000000000000
    ensures index * FiveMin + f == BucketStart(f, index) + 2 * FiveMin
    ensures Labels(Some(f))[index] == HourText(Int(((index * FiveMin + f) / 3600000) % 24))
  {
    assert Labels(Some(f))[index] == Label(Some(f), index);
  }

  // ---------------------------------------------------------------------
  // chart data

  /** One line of the chart: the series and the player's colour scheme
      name (the theme lookup of its shade 500 is not modelled). */
  datatype Dataset = Dataset(data: seq<nat>, color: string)

  /** `chartData`. */
  datatype ChartData = ChartData(labels: seq<string>, datasets: seq<Dataset>, legend: seq<string>)

  /** The chart of a state record. */
  function BuildChart(d: Data): (c: ChartData)
    ensures |c.labels| == FiveIntervals
    ensures |c.datasets| == |c.legend| == |Values(d)|
  {
    var players := Values(d);
    var first := FirstDrink(players);
    ChartData(
      Labels(first),
      seq(|players|, i requires 0 <= i < |players| => Dataset(DrinkSeries(first, players[i].activity, Open), players[i].color)),
      seq(|players|, i requires 0 <= i < |players| => players[i].name))
  }

  /** For a well-formed record there is one line per player, in the order
      the players were added: the legend is their names, each line is the
      series of that player's taps in that player's colour, and no line
      ends above the player's tally. */
  lemma ChartOfValid(d: Data)
    requires Valid(d)
    ensures BuildChart(d).legend == d.order
    ensures |BuildChart(d).datasets| == |d.order|
    ensures forall i :: 0 <= i < |d.order| ==>
      BuildChart(d).datasets[i]
      == Dataset(DrinkSeries(FirstDrink(Values(d)), d.players[d.order[i]].activity, Open), d.players[d.order[i]].color)
    ensures forall i :: 0 <= i < |d.order| ==>
      BuildChart(d).datasets[i].data[FiveIntervals - 1] <= d.players[d.order[i]].amount
  {
    ValuesOfListed(d.order, d.players);
    var c := BuildChart(d);
    var players := Values(d);
    var first := FirstDrink(players);
    forall i | 0 <= i < |d.order|
      ensures c.datasets[i] == Dataset(DrinkSeries(first, d.players[d.order[i]].activity, Open), d.players[d.order[i]].color)
      ensures c.datasets[i].data[FiveIntervals - 1] <= d.players[d.order[i]].amount
    {
      assert players[i] == d.players[d.order[i]];
      SeriesBounded(first, d.players[d.order[i]].activity, Open);
    }
  }

  /** The chart is drawn once a loaded record holds a player
      (`src/App.tsx`, line 270). For the first player added, who has no
      tap yet, `firstDrink` is undefined: the line stays at 0 and every odd
      label reads "NaN AM". */
  lemma FirstPlayerChart(d: Data, player: string, color: string)
    requires d.players == map[] && d.order == []
    ensures FirstDrink(Values(AddPlayer(d, player, color))) == None
    ensures |BuildChart(AddPlayer(d, player, color)).datasets| == 1
    ensures forall i :: 0 <= i < FiveIntervals ==> BuildChart(AddPlayer(d, player, color)).datasets[0].data[i] == 0
    ensures forall i :: 0 <= i < FiveIntervals && i % 2 == 1 ==> BuildChart(AddPlayer(d, player, color)).labels[i] == "NaN AM"
  {
    var added := AddPlayer(d, player, color);
    ValuesOfAppend([], added.players, player);
    assert Values(added) == [Player(player, 0, color, [])];
    forall i | 0 <= i < FiveIntervals
      ensures BuildChart(added).datasets[0].data[i] == 0
    {
      CumulativeUndefined([], i + 1, Open);
    }
    LabelsAlternate(None);
  }
}
