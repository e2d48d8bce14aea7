/** The page's session: the module-level state of the client (selected ticker
    and range, the chart, the refresh guard, the last-update instant) and the
    host's table of running intervals. `fetchAndRender` is asynchronous, so it
    is modelled as two steps: `BeginCycle`, the part that runs before the first
    `await`, and `FinishCycle`, the rest once both replies are in. Between the
    two, any other trigger may run. Its own `fetchAndRender` finds the guard set
    and is dropped, but the rest of the trigger still runs: a rotation moves to
    the next ticker and restarts the refresh interval, and a range button
    changes the range that `FinishCycle` then filters with. */
module Dashboard {
  import opened Wrappers
  import opened Text
  import opened Series
  import opened Annotations
  import opened Display

  /** The instruments the page rotates through. */
  const Tickers: seq<string> := ["AAPL", "AMZN", "TSLA"]

  /** Interval periods in milliseconds. */
  const RotatePeriodMs: nat := 30000
  const RefreshPeriodMs: nat := 10000
  const ClockPeriodMs: nat := 1000
  const LabelPeriodMs: nat := 1000

  /** The callbacks the page registers with `setInterval`. */
  datatype Task = RotateTicker | AutoRefresh | ClockTick | LastUpdatedTick
  datatype Interval = Interval(task: Task, periodMs: nat)

  /** What a `fetch` followed by `.json()` yields: a parsed body, or a failure
      (network error or unparsable body), which throws. */
  datatype Reply<T> = Delivered(body: T) | Failed

  /** `/api/quote`: its fields, or the `{error}` object of a failed lookup. The
      fields only feed the text on the page, and an error object does not throw. */
  datatype QuoteBody = QuoteFields(code: string, latestPrice: real, previousClose: real) | QuoteError

  /** `/api/chart`: an array of samples, or the `{error}` object of a failed
      lookup. The latter is not an array, and the first array operation on it
      throws (`filter` for the weekly and monthly ranges, `map` for labels). */
  datatype ChartBody = Points(samples: seq<Sample>) | ChartError

  /** Why a cycle was abandoned. */
  datatype CycleError = FetchFailed | NotAnArray | EmptyChartData

  /** The ticker index after one rotation: `(i + 1) % tickers.length`. */
  function NextTickerIndex(i: nat): (j: nat)
    requires i < |Tickers|
    ensures j < |Tickers|
    ensures j == 0 <==> i == |Tickers| - 1
    ensures j > 0 ==> j == i + 1
  {
    (i + 1) % |Tickers|
  }

  /** `count` rotations starting from index `i`. */
  function Rotated(i: nat, count: nat): (j: nat)
    requires i < |Tickers|
    ensures j < |Tickers|
    decreases count
  {
    if count == 0 then i else NextTickerIndex(Rotated(i, count - 1))
  }

  /** Rotation is a cycle through every ticker: after `|Tickers|` steps it is
      back where it started, and on the way it shows each ticker once. */
  lemma {:induction false} RotationCycles(i: nat)
    requires i < |Tickers|
    ensures Rotated(i, |Tickers|) == i
    ensures forall t :: t in Tickers ==> exists k :: 0 <= k < |Tickers| && Tickers[Rotated(i, k)] == t
  {
    assert Rotated(i, 1) == NextTickerIndex(i);
    assert Rotated(i, 2) == NextTickerIndex(NextTickerIndex(i));
    assert Rotated(i, 3) == NextTickerIndex(Rotated(i, 2));
    forall t | t in Tickers
      ensures exists k :: 0 <= k < |Tickers| && Tickers[Rotated(i, k)] == t
    {
      var target :| 0 <= target < |Tickers| && Tickers[target] == t;
      var k := (target - i + |Tickers|) % |Tickers|;
      assert Rotated(i, k) == target;
    }
  }

  /** `handle` is the one live interval running `task`, or there is none. */
  predicate SoleHandle(intervals: map<nat, Interval>, task: Task, handle: Option<nat>)
  {
    && (handle.Some? ==> handle.value in intervals && intervals[handle.value].task == task)
    && forall h :: h in intervals && intervals[h].task == task ==> handle == Some(h)
  }

  /** The handles of the live intervals running `task`. */
  function Running(intervals: map<nat, Interval>, task: Task): set<nat>
  {
    set h | h in intervals && intervals[h].task == task
  }

  /** A task with a sole handle runs at most once. */
  lemma AtMostOneInterval(intervals: map<nat, Interval>, task: Task, handle: Option<nat>)
    requires SoleHandle(intervals, task, handle)
    ensures |Running(intervals, task)| <= 1
  {
    var live := Running(intervals, task);
    var bound: set<nat> := if handle.Some? then {handle.value} else {};
    assert live <= bound;
    assert |bound| <= 1;
    SubsetCardinality(live, bound);
    assert |live| <= 1;
  }

  /** A subset is no larger than its superset: bounds the live-handle set in `AtMostOneInterval`. */
  lemma SubsetCardinality(a: set<nat>, b: set<nat>)
    requires a <= b
    ensures |a| <= |b|
  {
    assert b == a + (b - a);
  }

  /** The chart instance: its labels, plotted closes and annotation object.
      `transitions` counts the animated in-place updates it went through. */
  class Chart {
    var labels: seq<string>
    var data: seq<real>
    var annotations: seq<Entry>
    var transitions: nat

    ghost predicate Valid()
      reads this
    {
      |labels| == |data| && |data| > 0
    }

    /** `new Chart(ctx, config)` seeded with the first series. */
    constructor (labels: seq<string>, data: seq<real>, annotations: seq<Entry>)
      requires |labels| == |data| && |data| > 0
      ensures Valid()
      ensures this.labels == labels && this.data == data && this.annotations == annotations
      ensures transitions == 0
    {
      this.labels := labels;
      this.data := data;
      this.annotations := annotations;
      transitions := 0;
    }

    /** Replaces labels, data and annotations in place and animates the change. */
    method Update(labels: seq<string>, data: seq<real>, annotations: seq<Entry>)
      requires |labels| == |data| && |data| > 0
      modifies this
      ensures Valid()
      ensures this.labels == labels && this.data == data && this.annotations == annotations
      ensures transitions == old(transitions) + 1
    {
      this.labels := labels;
      this.data := data;
      this.annotations := annotations;
      transitions := transitions + 1;
    }
  }

  class Session {
    var currentTickerIndex: nat
    var currentTicker: string
    var currentRange: string
    var chart: Chart?
    var refreshInterval: Option<nat>
    var lastUpdateTime: Option<int>
    var lastUpdatedTimer: Option<nat>
    var isFetching: bool
    /** The host's live intervals by handle; handles are positive and never reused. */
    var intervals: map<nat, Interval>
    var nextHandle: nat
    /** The handles of the rotation and clock intervals, which the page never keeps. */
    ghost var rotateTimer: nat
    ghost var clockTimer: nat

    ghost predicate Valid()
      reads this, chart
    {
      && currentTickerIndex < |Tickers|
      && currentTicker == Tickers[currentTickerIndex]
      && (chart != null ==> chart.Valid())
      && (chart != null <==> lastUpdateTime.Some?)
      && (lastUpdateTime.Some? <==> lastUpdatedTimer.Some?)
      && SoleHandle(intervals, AutoRefresh, refreshInterval)
      && SoleHandle(intervals, LastUpdatedTick, lastUpdatedTimer)
      && SoleHandle(intervals, RotateTicker, Some(rotateTimer))
      && SoleHandle(intervals, ClockTick, Some(clockTimer))
      && (forall h :: h in intervals ==> 0 < h < nextHandle)
      && (forall h :: h in intervals ==> intervals[h].periodMs == PeriodOf(intervals[h].task))
    }

    /** The script's top level: the state of lines 1-11, the rotation interval,
        the first `fetchAndRender` (now waiting on its replies), the refresh
        interval and the clock interval, registered in that order. */
    constructor ()
      ensures Valid()
      ensures currentTickerIndex == 0 && currentTicker == "AAPL" && currentRange == Intraday
      ensures chart == null && lastUpdateTime == None && lastUpdatedTimer == None
      ensures isFetching
      ensures intervals == map[1 := Interval(RotateTicker, RotatePeriodMs),
                               2 := Interval(AutoRefresh, RefreshPeriodMs),
                               3 := Interval(ClockTick, ClockPeriodMs)]
      ensures refreshInterval == Some(2)
    {
      currentTickerIndex := 0;
      currentTicker := Tickers[0];
      currentRange := Intraday;
      chart := null;
      lastUpdateTime := None;
      lastUpdatedTimer := None;
      isFetching := true;
      refreshInterval := Some(2);
      intervals := map[1 := Interval(RotateTicker, RotatePeriodMs),
                       2 := Interval(AutoRefresh, RefreshPeriodMs),
                       3 := Interval(ClockTick, ClockPeriodMs)];
      nextHandle := 4;
      rotateTimer := 1;
      clockTimer := 3;
    }

    /** `fetchAndRender` up to its first `await`: nothing at all when a cycle is
        already in flight, otherwise the guard is taken. Also what the refresh
        button and each refresh tick do. */
    method BeginCycle() returns (started: bool)
      requires Valid()
      modifies this
      ensures Valid()
      ensures started <==> !old(isFetching)
      ensures isFetching
      ensures !started ==> unchanged(this)
      ensures currentTickerIndex == old(currentTickerIndex) && currentTicker == old(currentTicker)
      ensures currentRange == old(currentRange) && chart == old(chart)
      ensures lastUpdateTime == old(lastUpdateTime) && lastUpdatedTimer == old(lastUpdatedTimer)
      ensures refreshInterval == old(refreshInterval) && intervals == old(intervals)
      ensures nextHandle == old(nextHandle)
      ensures rotateTimer == old(rotateTimer) && clockTimer == old(clockTimer)
    {
      if isFetching {
        return false;
      }
      isFetching := true;
      started := true;
    }

    /** The rest of `fetchAndRender`, once the quote and chart replies are in:
        the display series for the range selected NOW, the empty check, the
        last-update instant and its label interval, the annotations, and the
        chart commit (in place if a chart exists, else a new one). Any throw
        leaves the chart, the last-update instant and the intervals as they
        were; the guard is released on every path. `cutoff` is the client's
        "now minus seven days", `nowMs` the instant of `new Date()`. */
    method FinishCycle(quote: Reply<QuoteBody>, reply: Reply<ChartBody>, cutoff: int, nowMs: int, locale: Locale)
      returns (outcome: Result<Stats, CycleError>)
      requires Valid() && isFetching
      modifies this, chart
      ensures Valid()
      ensures !isFetching
      ensures currentTickerIndex == old(currentTickerIndex) && currentTicker == old(currentTicker)
      ensures currentRange == old(currentRange) && refreshInterval == old(refreshInterval)
      ensures rotateTimer == old(rotateTimer) && clockTimer == old(clockTimer)
      ensures outcome == Err(FetchFailed) <==> quote.Failed? || reply.Failed?
      ensures outcome == Err(NotAnArray) <==> quote.Delivered? && reply.Delivered? && reply.body.ChartError?
      ensures outcome == Err(EmptyChartData) <==>
                quote.Delivered? && reply.Delivered? && reply.body.Points?
                && |Transform(currentRange, reply.body.samples, cutoff)| == 0
      ensures outcome.Err? ==>
                && chart == old(chart)
                && (chart != null ==> unchanged(chart))
                && lastUpdateTime == old(lastUpdateTime) && lastUpdatedTimer == old(lastUpdatedTimer)
                && intervals == old(intervals) && nextHandle == old(nextHandle)
      ensures outcome.Ok? ==>
                && reply.Delivered? && reply.body.Points?
                && var shown := Transform(currentRange, reply.body.samples, cutoff);
                && |shown| > 0
                && outcome.value == Summarize(shown)
                && chart != null
                && chart.labels == Labels(currentRange, locale, shown)
                && chart.data == Closes(shown)
                && chart.annotations == Overlay(currentRange, shown, chart.labels)
                && lastUpdateTime == Some(nowMs)
                && (old(chart) != null ==> chart == old(chart) && chart.transitions == old(chart.transitions) + 1)
                && (old(chart) == null ==> fresh(chart) && chart.transitions == 0)
                && lastUpdatedTimer == Some(old(nextHandle))
                && nextHandle == old(nextHandle) + 1
                && intervals == (match old(lastUpdatedTimer)
                                 case Some(h) => old(intervals) - {h}
                                 case None => old(intervals))[old(nextHandle) := Interval(LastUpdatedTick, LabelPeriodMs)]
    {
      if quote.Failed? || reply.Failed? {
        outcome := Err(FetchFailed);
      } else if reply.body.ChartError? {
        outcome := Err(NotAnArray);
      } else {
        var shown := Transform(currentRange, reply.body.samples, cutoff);
        if |shown| == 0 {
          outcome := Err(EmptyChartData);
        } else {
          var stats := Summarize(shown);
          Render(shown, nowMs, locale);
          outcome := Ok(stats);
        }
      }
      isFetching := false;
    }

    /** The success path of a cycle for a non-empty display series: labels,
        last-update instant and its interval, annotations, chart commit. */
    method Render(shown: seq<Sample>, nowMs: int, locale: Locale)
      requires Valid() && |shown| > 0
      modifies this, chart
      ensures Valid()
      ensures isFetching == old(isFetching)
      ensures currentTickerIndex == old(currentTickerIndex) && currentTicker == old(currentTicker)
      ensures currentRange == old(currentRange) && refreshInterval == old(refreshInterval)
      ensures rotateTimer == old(rotateTimer) && clockTimer == old(clockTimer)
      ensures chart != null
      ensures chart.labels == Labels(currentRange, locale, shown)
      ensures chart.data == Closes(shown)
      ensures chart.annotations == Overlay(currentRange, shown, chart.labels)
      ensures lastUpdateTime == Some(nowMs)
      ensures old(chart) != null ==> chart == old(chart) && chart.transitions == old(chart.transitions) + 1
      ensures old(chart) == null ==> fresh(chart) && chart.transitions == 0
      ensures lastUpdatedTimer == Some(old(nextHandle)) && nextHandle == old(nextHandle) + 1
      ensures intervals == (match old(lastUpdatedTimer)
                            case Some(h) => old(intervals) - {h}
                            case None => old(intervals))[old(nextHandle) := Interval(LastUpdatedTick, LabelPeriodMs)]
    {
      var labels := Labels(currentRange, locale, shown);
      RestartLastUpdated(nowMs);
      var annotations := BuildAnnotations(currentRange, shown, labels);
      CommitChart(labels, Closes(shown), annotations);
    }

    /** Lines 208-211: records the commit instant and replaces the "Updated"
        interval, clearing the old one first. */
    method RestartLastUpdated(nowMs: int)
      requires Valid()
      modifies this
      ensures lastUpdateTime == Some(nowMs)
      ensures lastUpdatedTimer == Some(old(nextHandle)) && nextHandle == old(nextHandle) + 1
      ensures intervals == (match old(lastUpdatedTimer)
                            case Some(h) => old(intervals) - {h}
                            case None => old(intervals))[old(nextHandle) := Interval(LastUpdatedTick, LabelPeriodMs)]
      ensures SoleHandle(intervals, AutoRefresh, refreshInterval)
      ensures SoleHandle(intervals, LastUpdatedTick, lastUpdatedTimer)
      ensures SoleHandle(intervals, RotateTicker, Some(rotateTimer))
      ensures SoleHandle(intervals, ClockTick, Some(clockTimer))
      ensures forall h :: h in intervals ==> 0 < h < nextHandle
      ensures forall h :: h in intervals ==> intervals[h].periodMs == PeriodOf(intervals[h].task)
      ensures currentTickerIndex == old(currentTickerIndex) && currentTicker == old(currentTicker)
      ensures currentRange == old(currentRange) && chart == old(chart) && isFetching == old(isFetching)
      ensures refreshInterval == old(refreshInterval)
      ensures rotateTimer == old(rotateTimer) && clockTimer == old(clockTimer)
    {
      lastUpdateTime := Some(nowMs);
      if lastUpdatedTimer.Some? {
        intervals := intervals - {lastUpdatedTimer.value};
      }
      lastUpdatedTimer := Some(nextHandle);
      intervals := intervals[nextHandle := Interval(LastUpdatedTick, LabelPeriodMs)];
      nextHandle := nextHandle + 1;
    }

    /** Lines 283-358: an existing chart takes the new labels, data and
        annotations in place; otherwise a chart is constructed with them. */
    method CommitChart(labels: seq<string>, data: seq<real>, annotations: seq<Entry>)
      requires |labels| == |data| && |data| > 0
      modifies this`chart, chart
      ensures chart != null && chart.Valid()
      ensures chart.labels == labels && chart.data == data && chart.annotations == annotations
      ensures old(chart) != null ==> chart == old(chart) && chart.transitions == old(chart.transitions) + 1
      ensures old(chart) == null ==> fresh(chart) && chart.transitions == 0
    {
      if chart != null {
        chart.Update(labels, data, annotations);
      } else {
        chart := new Chart(labels, data, annotations);
      }
    }

    /** `startAutoRefresh`: clears the running refresh interval, if any, and
        installs a fresh one, so exactly one refresh interval runs afterwards. */
    method StartAutoRefresh()
      requires Valid()
      modifies this
      ensures Valid()
      ensures refreshInterval == Some(old(nextHandle)) && nextHandle == old(nextHandle) + 1
      ensures intervals == (match old(refreshInterval)
                            case Some(h) => old(intervals) - {h}
                            case None => old(intervals))[old(nextHandle) := Interval(AutoRefresh, RefreshPeriodMs)]
      ensures currentTickerIndex == old(currentTickerIndex) && currentTicker == old(currentTicker)
      ensures currentRange == old(currentRange) && chart == old(chart) && isFetching == old(isFetching)
      ensures lastUpdateTime == old(lastUpdateTime) && lastUpdatedTimer == old(lastUpdatedTimer)
      ensures rotateTimer == old(rotateTimer) && clockTimer == old(clockTimer)
    {
      if refreshInterval.Some? {
        intervals := intervals - {refreshInterval.value};
      }
      refreshInterval := Some(nextHandle);
      intervals := intervals[nextHandle := Interval(AutoRefresh, RefreshPeriodMs)];
      nextHandle := nextHandle + 1;
    }

    /** `cycleTicker`: the next ticker, a new cycle for it (dropped if one is in
        flight) and a restarted refresh interval. */
    method CycleTicker() returns (started: bool)
      requires Valid()
      modifies this
      ensures Valid()
      ensures currentTickerIndex == NextTickerIndex(old(currentTickerIndex))
      ensures currentTicker == Tickers[currentTickerIndex]
      ensures started <==> !old(isFetching)
      ensures isFetching
      ensures currentRange == old(currentRange) && chart == old(chart)
      ensures lastUpdateTime == old(lastUpdateTime) && lastUpdatedTimer == old(lastUpdatedTimer)
      ensures refreshInterval == Some(old(nextHandle)) && nextHandle == old(nextHandle) + 1
      ensures intervals == (match old(refreshInterval)
                            case Some(h) => old(intervals) - {h}
                            case None => old(intervals))[old(nextHandle) := Interval(AutoRefresh, RefreshPeriodMs)]
      ensures forall h :: h in intervals && intervals[h].task == AutoRefresh ==> h == old(nextHandle) && h !in old(intervals)
      ensures rotateTimer == old(rotateTimer) && clockTimer == old(clockTimer)
    {
      currentTickerIndex := NextTickerIndex(currentTickerIndex);
      currentTicker := Tickers[currentTickerIndex];
      started := BeginCycle();
      StartAutoRefresh();
    }

    /** A range button: the selector changes at once and a cycle is begun
        (dropped if one is in flight). The refresh interval keeps running. */
    method SelectRange(range: string) returns (started: bool)
      requires Valid()
      modifies this
      ensures Valid()
      ensures currentRange == range
      ensures started <==> !old(isFetching)
      ensures isFetching
      ensures currentTickerIndex == old(currentTickerIndex) && currentTicker == old(currentTicker)
      ensures chart == old(chart) && lastUpdateTime == old(lastUpdateTime)
      ensures lastUpdatedTimer == old(lastUpdatedTimer)
      ensures refreshInterval == old(refreshInterval) && intervals == old(intervals) && nextHandle == old(nextHandle)
      ensures rotateTimer == old(rotateTimer) && clockTimer == old(clockTimer)
    {
      currentRange := range;
      started := BeginCycle();
    }

    /** One tick of the "Updated" interval: nothing before the first commit,
        else the label for the time since it. */
    method LastUpdatedText(nowMs: int) returns (text: Option<string>)
      requires Valid()
      ensures text.None? <==> chart == null
      ensures text.Some? ==> text == Some(UpdatedLabel(nowMs, lastUpdateTime.value))
    {
      if lastUpdateTime.None? {
        return None;
      }
      text := Some(UpdatedLabel(nowMs, lastUpdateTime.value));
    }

    /** The market clock's zone for the current ticker: New York for AAPL and
        TSLA, the viewer's own zone for AMZN, which the exchange table misses. */
    method MarketClock(viewerZone: string) returns (info: MarketInfo)
      requires Valid()
      ensures currentTicker == "AMZN" ==> info == MarketInfo(viewerZone, FallbackFlag)
      ensures currentTicker != "AMZN" ==> info == MarketInfo("America/New_York", UsFlag)
    {
      MarketLookupExamples(viewerZone);
      info := MarketTimeZoneAndFlag(currentTicker, viewerZone);
    }

    /** One animation frame: the pulse colour drawn on the current chart,
        nothing before the first commit or with fewer than two points. */
    method Redraw() returns (pulse: Option<string>)
      requires Valid()
      ensures chart == null ==> pulse.None?
      ensures chart != null ==> pulse == PulseColour(chart.data)
    {
      if chart == null {
        return None;
      }
      pulse := PulseColour(chart.data);
    }
  }

  /** Two triggers before the replies arrive begin one cycle only: the second
      finds the guard taken and is dropped, not queued. */
  method OverlappingTriggers(s: Session) returns (first: bool, second: bool)
    requires s.Valid() && !s.isFetching
    modifies s
    ensures first && !second
    ensures s.isFetching && s.chart == old(s.chart) && s.lastUpdateTime == old(s.lastUpdateTime)
  {
    first := s.BeginCycle();
    second := s.BeginCycle();
  }

  /** Two intraday samples on one day at 09:30 and 09:35 closing at 100 and
      101: the series passes through, the last close is 101 with an upward
      pulse, and the overlays are the price line at 101, the day line of
      2024-01-02 at index 0, and the market-open line at the 09:30 label. */
  lemma IntradayScenario(locale: Locale, t0: Option<int>, t1: Option<int>, cutoff: int)
    requires locale.time("2024-01-02 09:30:00") == "09:30"
    requires locale.time("2024-01-02 09:35:00") == "09:35"
    ensures var data := [Sample("2024-01-02 09:30:00", t0, 100.0), Sample("2024-01-02 09:35:00", t1, 101.0)];
            var labels := Labels(Intraday, locale, data);
            var overlay := Overlay(Intraday, data, labels);
            && Transform(Intraday, data, cutoff) == data
            && Summarize(data) == Stats(100.0, 101.0, 100.0, 101.0)
            && PulseColour(Closes(data)) == Some(UpColour)
            && labels == ["09:30", "09:35"]
            && |overlay| == 3
            && overlay[0] == Entry(CurrentPriceLine, PriceLine(101.0))
            && overlay[1] == Entry(DayLine(0), DayBoundary("2024-01-02 12:00:00"))
            && overlay[2] == Entry(MarketOpenLine, OpenLine("09:30"))
  {
    var data := [Sample("2024-01-02 09:30:00", t0, 100.0), Sample("2024-01-02 09:35:00", t1, 101.0)];
    var labels := Labels(Intraday, locale, data);
    assert labels == ["09:30", "09:35"] by {
      assert labels[0] == locale.time(data[0].date);
      assert labels[1] == locale.time(data[1].date);
    }
    assert Transform(Intraday, data, cutoff) == data;
    assert Summarize(data) == Stats(100.0, 101.0, 100.0, 101.0) && PulseColour(Closes(data)) == Some(UpColour) by {
      assert Closes(data) == [100.0, 101.0];
    }
    ScenarioOverlay(data, labels);
  }

  /** The overlays of the scenario series, given its labels. */
  lemma ScenarioOverlay(data: seq<Sample>, labels: seq<string>)
    requires |data| == 2 && data[0].date == "2024-01-02 09:30:00" && data[1].date == "2024-01-02 09:35:00"
    requires data[1].close == 101.0
    requires labels == ["09:30", "09:35"]
    ensures var overlay := Overlay(Intraday, data, labels);
            && |overlay| == 3
            && overlay[0] == Entry(CurrentPriceLine, PriceLine(101.0))
            && overlay[1] == Entry(DayLine(0), DayBoundary("2024-01-02 12:00:00"))
            && overlay[2] == Entry(MarketOpenLine, OpenLine("09:30"))
  {
    ScenarioDayLines(data);
    assert FindMarketOpen(labels) == Some("09:30") by {
      assert StartsWith(labels[0], MarketOpenPrefix);
    }
    var price := Entry(CurrentPriceLine, PriceLine(data[|data| - 1].close));
    var open := Entry(MarketOpenLine, OpenLine("09:30"));
    assert Overlay(Intraday, data, labels) == [price] + DayLines(Dates(data)) + [open];
  }

  /** Both scenario samples fall on 2024-01-02, which gets one day line at index 0. */
  lemma ScenarioDayLines(data: seq<Sample>)
    requires |data| == 2 && data[0].date == "2024-01-02 09:30:00" && data[1].date == "2024-01-02 09:35:00"
    ensures DayLines(Dates(data)) == [Entry(DayLine(0), DayBoundary("2024-01-02 12:00:00"))]
  {
    var day := "2024-01-02";
    DatePartUnique(data[0].date, day);
    DatePartUnique(data[1].date, day);
    var dates := Dates(data);
    assert dates[0] == day && dates[1] == day;
    SameDayLines(dates);
    assert day + NoonSuffix == "2024-01-02 12:00:00";
  }

  /** Two samples of one day give one day line, at the first. */
  lemma SameDayLines(dates: seq<string>)
    requires |dates| == 2 && dates[0] == dates[1]
    ensures DayLines(dates) == [Entry(DayLine(0), DayBoundary(dates[0] + NoonSuffix))]
  {
    assert dates[..1][..0] == [];
    assert dates[..1] == [dates[0]];
    assert DayLines(dates[..1]) == [Entry(DayLine(0), DayBoundary(dates[0] + NoonSuffix))];
  }

  /** The period the page passes to `setInterval` for each task. */
  function PeriodOf(task: Task): nat
  {
    match task
    case RotateTicker => RotatePeriodMs
    case AutoRefresh => RefreshPeriodMs
    case ClockTick => ClockPeriodMs
    case LastUpdatedTick => LabelPeriodMs
  }
}
