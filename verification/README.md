# TickBrick client core, modelled in Dafny

TickBrick is a browser page that shows a live price chart for a rotating list
of tickers (AAPL, AMZN, TSLA). Its logic lives in `public/script.js`. One fetch
cycle (`fetchAndRender`) gets a quote and a chart series from the page's own
server. It turns the series into the display series for the selected range
(`1d`, `1w` or `1m`), builds the chart annotations, and either updates the chart
in place or creates it. A guard flag stops cycles from overlapping. Intervals
rotate the ticker every 30 s, refresh every 10 s, tick the clocks every second
and refresh the "Updated …" label every second.

The model has six modules:

- `wrappers.dfy` (`Wrappers`): `Option` and `Result`.
- `text.dfy` (`Text`): decimal rendering of integers, as a template literal
  prints them, with its round trip and injectivity. Also ASCII upper-casing and
  the date part of a date stamp, i.e. the text before the first space.
- `series.dfy` (`Series`): the range transformer. It covers the weekly
  "since cutoff" filter, the monthly every-fourth-sample decimation with its
  120-point window, the open/high/low summary and the axis labels.
- `annotations.dfy` (`Annotations`): the annotation builder. `BuildAnnotations`
  is the client's loop with its `seenDays` set, proved equal to the
  specification `Overlay`. The lemmas beside it state what the overlays are.
- `display.dfy` (`Display`): the pulse colour, the "Updated" label buckets and
  the exchange time-zone lookup.
- `dashboard.dfy` (`Dashboard`): the `Chart` and `Session` classes. `Session`
  holds the script's module-level state and the host's table of live intervals.

`fetchAndRender` is asynchronous, so it is modelled as two methods:

- `Session.BeginCycle` is the synchronous part before the first `await`.
- `Session.FinishCycle` is the rest, which runs once both replies have arrived.

Other triggers may run between the two. The `fetchAndRender` call inside such
a trigger finds `isFetching` set and is dropped, but the rest of the trigger
still runs:

- A rotation (`CycleTicker`) still moves to the next ticker and restarts the
  refresh interval. It runs the source's steps in the source's order: rotate,
  begin a cycle, then restart the refresh interval.
- A range button (`SelectRange`) still changes `currentRange`. The pending
  `FinishCycle` then filters with the new range.

Inputs the model takes as parameters:

- The two replies. A failed fetch or unparsable JSON is `Failed`. A server error
  object is `QuoteError` or `ChartError`.
- The weekly cutoff ("now minus 7 days").
- The commit instant.
- The browser's locale formatting of times and dates (`Locale`).
- The viewer's own time zone.
- For each sample, the instant the browser parses its date text to
  (`Sample.time`). It is `None` when the text parses to an Invalid Date. The
  weekly filter drops such a sample, because a NaN comparison is false.

Behaviours of the code that the model keeps as written:

- Changing the range does not restart the refresh interval. Only `cycleTicker`
  does that (`SelectRange` keeps `refreshInterval`).
- An intraday series also gets a `dayline-<i>` annotation for each day. The
  one-day example with two 09:30/09:35 samples therefore has three annotations:
  the price line, `dayline-0` and the market-open line (`IntradayScenario`).
- The quote and chart requests are issued one after the other, not at the same
  time. Both must arrive before anything is changed.
- A reply is never rejected as stale. `FinishCycle` filters with the range
  selected when the reply arrives (`currentRange` at line 143). That need not be
  the range the request was made for.
- An error object from `/api/quote` does not fail the cycle. An error object
  from `/api/chart` fails it before any state changes (`NotAnArray`).

## Model

| member | source | states |
|---|---|---|
| Text.NatToString | public/script.js:407 | an integer prints as one or more decimal digits with no leading zero |
| Text.DecimalRoundTrip | public/script.js:407 | reading the printed digits back gives the number |
| Text.NatToStringInjective | public/script.js:233 | distinct indices print differently, so `dayline-<i>` keys never collide |
| Text.Upper | public/script.js:112 | `toUpperCase` maps each character to its upper-case letter and keeps the length |
| Text.UpperIdempotent | public/script.js:112-116 | upper-casing an upper-cased ticker changes nothing |
| Text.DatePart | public/script.js:229 | `split(" ")[0]` is the prefix of the stamp that has no space and ends at the first space or at the end |
| Text.DatePartUnique | public/script.js:229 | those three properties determine the date part uniquely |
| Series.Since | public/script.js:143-146 | the weekly filter keeps a sample exactly when its date parses to an instant at or after the cutoff, and never adds one |
| Series.SinceAppend | public/script.js:146 | filtering distributes over concatenation, so the kept samples keep their input order |
| Series.SinceKeepsAll | public/script.js:146 | a series with nothing older than the cutoff is returned unchanged |
| Series.SinceOfAscending | public/script.js:143-146 | on a date-ascending series the weekly filter drops exactly the leading samples older than the cutoff |
| Series.EveryFourth | public/script.js:148 | the stride filter returns ceil(n/4) elements, the k-th being input element 4k |
| Series.Monthly | public/script.js:147-149 | the monthly series has min(120, ceil(n/4)) points, is a suffix of the stride-4 subsequence, and point j is input element 4(m-len+j) |
| Series.Transform | public/script.js:143-150 | `1w` is the weekly filter, so it keeps exactly the samples whose date parses to an instant at or after the cutoff, in input order; `1m` is the monthly resampling, at most 120 points; and any other range passes the input through; no range invents samples |
| Series.Max | public/script.js:188 | the high is one of the closes and no close exceeds it |
| Series.Min | public/script.js:189 | the low is one of the closes and no close is below it |
| Series.Closes | public/script.js:285 | the plotted data has one close per display sample, in order |
| Series.Summarize | public/script.js:186-189 | open is the first close and last the final one; every close lies in [low, high], and both bounds are attained |
| Series.Labels | public/script.js:160-171 | there is one label per display sample: the locale time of day for `1d`, the locale day then the time for `1w`, and the locale day alone for `1m` or any other range |
| Annotations.KeyNamesDistinct | public/script.js:214-249 | distinct annotation keys have distinct property names, so no overlay overwrites another |
| Annotations.Dates | public/script.js:228-229 | each sample contributes the date part of its date stamp |
| Annotations.DayLines | public/script.js:226-243 | each day line sits at the first index of its date, is anchored at "<date> 12:00:00", and the lines come in index order |
| Annotations.DayLinesComplete | public/script.js:228-241 | every first occurrence of a date gets its day line |
| Annotations.OnePerDistinctDate | public/script.js:227-242 | every date in the series has a day line, and no two day lines share a date |
| Annotations.FindMarketOpen | public/script.js:246 | the result is the first label starting with "09:30", or nothing exactly when no label does |
| Annotations.Overlay | public/script.js:213-269 | the price line at the last close always comes first; keys are distinct; a non-intraday range gets only the price line; the market-open line exists exactly for `1d` with a 09:30 label and holds the first such label; the intraday lines in between are the day lines |
| Annotations.BuildAnnotations | public/script.js:213-269 | the loop with the `seenDays` set builds exactly `Overlay` |
| Display.PulseColour | public/script.js:21-28 | no pulse with fewer than two points; green exactly when the last value is strictly above the one before, otherwise red |
| Display.PulseExamples | public/script.js:27-28 | [10.0, 9.5] is red, [9.5, 10.0] is green, equal values are red, and a single point has no pulse |
| Display.SecondsAgo | public/script.js:401 | the floored seconds satisfy s·1000 ≤ elapsed < (s+1)·1000, also for negative elapsed time |
| Display.AgoText | public/script.js:403-407 | "just now" exactly below one second, "1 second ago" exactly at one, and "N seconds ago" above |
| Display.AgoTextInjective | public/script.js:403-407 | different elapsed seconds from one second up give different texts |
| Display.UpdatedLabel | public/script.js:398-409 | the label for an elapsed time, by bucket |
| Display.MarketTimeZoneAndFlag | public/script.js:106-121 | the flag is the US, UK or JP flag exactly when the upper-cased ticker is in that list; otherwise it is the white flag with the viewer's zone; each flag comes with its exchange's zone |
| Display.MarketLookupIgnoresCase | public/script.js:112-116 | a ticker and its upper-cased form resolve alike |
| Display.MarketLookupExamples | public/script.js:106-121 | "AMZN" falls back to the viewer's zone; "AAPL", "aapl" and "TSLA" resolve to New York |
| Dashboard.NextTickerIndex | public/script.js:367 | rotation stays in range and moves to the next index, wrapping after the last |
| Dashboard.Rotated | public/script.js:366-368 | repeated rotation stays within the ticker list |
| Dashboard.RotationCycles | public/script.js:366-368 | three rotations return to the start, and every ticker is shown on the way |
| Dashboard.AtMostOneInterval | public/script.js:423-428 | a task with a single tracked handle has at most one live interval |
| Dashboard.Chart.constructor | public/script.js:289-358 | a new chart holds exactly the given labels, data and annotations |
| Dashboard.Chart.Update | public/script.js:283-287 | in-place update replaces labels, data and annotations and counts one animated transition |
| Dashboard.Session.constructor | public/script.js:1-11 | initial state: AAPL, `1d`, no chart, a first cycle in flight; one rotation, one refresh and one clock interval |
| Dashboard.Session.BeginCycle | public/script.js:123-125 | with the guard set nothing changes; otherwise the guard is taken and nothing else changes |
| Dashboard.Session.FinishCycle | public/script.js:126-363 | the guard is released on every path; a failed fetch, a non-array chart body or an empty display series leaves chart, last-update time and intervals untouched; on success the chart holds the labels, closes and overlays of the display series for the current range, committed in place or newly created, and the last-update time and its single interval are replaced |
| Dashboard.Session.Render | public/script.js:160-358 | the success path: labels, last-update interval, annotations and chart commit for a non-empty series |
| Dashboard.Session.RestartLastUpdated | public/script.js:208-211 | records the commit instant; the old label interval is cleared before the new one is installed, so one remains |
| Dashboard.Session.CommitChart | public/script.js:283-358 | an existing chart is updated in place; otherwise a fresh chart is created with the same contents |
| Dashboard.Session.StartAutoRefresh | public/script.js:423-428 | the old refresh interval is cleared and one new one is installed; exactly one refresh interval then runs, and the rest of the interval table is kept |
| Dashboard.Session.CycleTicker | public/script.js:366-371 | advances to the next ticker, begins a cycle unless one is in flight, and restarts the refresh interval; the new interval table is the old one minus the previous refresh interval plus the new one, and the rotation and clock intervals are kept |
| Dashboard.Session.SelectRange | public/script.js:414-421 | the range changes at once and a cycle begins unless one is in flight; the interval table, the refresh interval and the handle counter are kept |
| Dashboard.Session.LastUpdatedText | public/script.js:398-410 | no label before the first commit; afterwards, the bucket for the time since the commit |
| Dashboard.Session.MarketClock | public/script.js:386-395 | the market clock uses New York for AAPL and TSLA and the viewer's zone for AMZN |
| Dashboard.Session.Redraw | public/script.js:438-441 | a frame draws nothing without a chart; otherwise the pulse colour of the plotted data |
| Dashboard.OverlappingTriggers | public/script.js:123-125 | of two triggers made before the replies arrive, only the first begins a cycle |
| Dashboard.IntradayScenario | public/script.js:143-269 | two 1d samples at 100 and 101 pass through unchanged, with last close 101, a green pulse, labels 09:30/09:35, and three overlays: price line, dayline-0 at 2024-01-02 12:00:00, and the open line at 09:30 |
| Dashboard.ScenarioOverlay | public/script.js:214-269 | the overlays of that series given its labels |
| Dashboard.ScenarioDayLines | public/script.js:226-243 | both samples fall on 2024-01-02, which gets one day line, at index 0 |
| Dashboard.SameDayLines | public/script.js:226-243 | two samples on one day give one day line, at the first |

## Left out

- DOM reads and writes are not modelled: price and change text, company name, logo, range caption, open/high/low fields and the clock text. The open/high/low values are returned by `FinishCycle` instead, for every range. The page shows them only for `1d` and blanks the three fields for every other range (lines 190-199).
- Chart.js configuration and the canvas drawing of both plugins are not modelled. That covers the glow, the sweep, the gradient and the sine-based pulse alpha. These are foreign library calls and floating-point animation. Only the pulse colour is kept.
- The change indicator (`close - first`, the percentage, the triangle) and all `toFixed` formatting are left out. They are display formatting.
- Locale formatting (`toLocaleTimeString`, `toLocaleDateString`, the `toLocaleString` time-zone conversion) and date parsing (`new Date(d.date)`) are host functions. Their results are inputs: `Locale` and `Sample.time`.
- The wall clock is not modelled. The weekly cutoff is a parameter. It stands for `setDate(getDate() - 7)`, which is calendar arithmetic in local time.
- Scheduling is not modelled: the passing of time, interval ticks, `requestAnimationFrame`, and any interleaving other than the split between `BeginCycle` and `FinishCycle`. The interval table records which intervals are registered. It does not record when they fire.
- Interval handles are modelled as a counter starting at 1. The browser chooses the real numbers, which are positive, so the `if (handle)` tests behave as modelled.
- Text.Upper: only ASCII letters are upper-cased. Full Unicode `toUpperCase` can turn some other characters into ASCII letters (e.g. dotless ı to I), and that is not modelled.
- Closes are exact reals, so a null close is not modelled. The server's `parseFloat` can yield NaN, which its JSON reply sends as `null`, so a close can arrive as `null`. The client treats such a close as 0 in `Math.max`/`Math.min` (lines 188-189) and in the pulse's `>` test (line 27).
- The `?? latestPrice` fallback at line 152 is not modelled. It uses the quote's `latestPrice`, destructured at line 130. The fallback fires in three cases:
  - the display series is empty, and the cycle then aborts at line 156;
  - the chart body is an `{error}` object under any range other than `1w` or `1m`, which passes through to line 160 and throws there;
  - the last sample's close is `null`.

  In the first two cases the cycle throws before line 185. `close` is used only at lines 185 and 201, and both write page text: the price, and the change at lines 201-206. In the third case those texts use the quote's price. The model does not track either text, so the fallback changes nothing that the model tracks.
- The request URLs and the ticker sent with them are not modelled. The replies are parameters.
- Console logging is not modelled.
- server.mjs is not part of this model. It sorts the date strings. `Series.Ascending` is a separate assumption, about the parsed instants: every date parses and the instants do not decrease. Only `Series.SinceOfAscending` relies on it.
- Chart.js calls are assumed never to throw. In the source, `lastUpdateTime` is set and the label interval is restarted (lines 208-211) before the annotations are built and the chart is committed (lines 213-358). A throwing `new Chart` would therefore leave `lastUpdateTime` set while `chart` is still null. `Session.Valid` (chart present exactly when a last-update instant is recorded) excludes that state, so the model does not represent it.
