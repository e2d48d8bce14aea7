/** The range transformer: turns the chart samples the server returns (sorted
    ascending by date) into the series shown for the selected range, its axis
    labels and its open/high/low summary. */
module Series {
  import opened Wrappers

  /** One point of `/api/chart`: the date text, the instant the browser parses
      it to (milliseconds; `None` for text that parses to an Invalid Date), and
      the closing price. */
  datatype Sample = Sample(date: string, time: Option<int>, close: real)

  /** The range selectors the filter buttons set. Any other value is passed
      through like the intraday range. */
  const Intraday: string := "1d"
  const Week: string := "1w"
  const Month: string := "1m"

  /** Monthly decimation: every fourth sample, at most this many kept. */
  const Stride: nat := 4
  const MonthPoints: nat := 120

  /** `new Date(d.date) >= sevenDaysAgo`: an Invalid Date compares as NaN,
      so a sample whose date does not parse is never at or after the cutoff. */
  predicate AtOrAfter(x: Sample, cutoff: int)
  {
    x.time.Some? && x.time.value >= cutoff
  }

  /** Samples have parsable dates in ascending order, as the server's key sort
      delivers them. */
  ghost predicate Ascending(data: seq<Sample>)
  {
    && (forall i :: 0 <= i < |data| ==> data[i].time.Some?)
    && (forall i, j :: 0 <= i < j < |data| ==> data[i].time.value <= data[j].time.value)
  }

  /** The weekly filter: the samples at or after `cutoff`, in input order. */
  function Since(data: seq<Sample>, cutoff: int): (r: seq<Sample>)
    ensures |r| <= |data|
    ensures forall x :: x in r <==> x in data && AtOrAfter(x, cutoff)
    decreases |data|
  {
    if |data| == 0 then []
    else
      assert data == [data[0]] + data[1..];
      (if AtOrAfter(data[0], cutoff) then [data[0]] else []) + Since(data[1..], cutoff)
  }

  /** Filtering distributes over concatenation, so it keeps the input order. */
  lemma {:induction false} SinceAppend(a: seq<Sample>, b: seq<Sample>, cutoff: int)
    ensures Since(a + b, cutoff) == Since(a, cutoff) + Since(b, cutoff)
    decreases |a|
  {
    if |a| > 0 {
      assert (a + b)[0] == a[0];
      assert (a + b)[1..] == a[1..] + b;
      SinceAppend(a[1..], b, cutoff);
    } else {
      assert a + b == b;
    }
  }

  /** A series with nothing older than the cutoff passes through unchanged. */
  lemma {:induction false} SinceKeepsAll(data: seq<Sample>, cutoff: int)
    requires forall i :: 0 <= i < |data| ==> AtOrAfter(data[i], cutoff)
    ensures Since(data, cutoff) == data
    decreases |data|
  {
    if |data| > 0 {
      SinceKeepsAll(data[1..], cutoff);
      assert data == [data[0]] + data[1..];
    }
  }

  /** On an ascending series the weekly filter drops exactly a prefix of
      samples older than the cutoff and keeps the rest. */
  lemma {:induction false} SinceOfAscending(data: seq<Sample>, cutoff: int)
    requires Ascending(data)
    ensures exists k :: 0 <= k <= |data| && Since(data, cutoff) == data[k..]
                        && forall i :: 0 <= i < k ==> !AtOrAfter(data[i], cutoff)
    decreases |data|
  {
    if |data| == 0 {
      assert Since(data, cutoff) == data[0..];
    } else if AtOrAfter(data[0], cutoff) {
      SinceKeepsAll(data, cutoff);
      assert Since(data, cutoff) == data[0..];
    } else {
      var rest := data[1..];
      assert Ascending(rest);
      SinceOfAscending(rest, cutoff);
      var k :| 0 <= k <= |rest| && Since(rest, cutoff) == rest[k..]
               && forall i :: 0 <= i < k ==> !AtOrAfter(rest[i], cutoff);
      assert Since(data, cutoff) == data[k + 1..];
      assert forall i :: 0 <= i < k + 1 ==> !AtOrAfter(data[i], cutoff) by {
        forall i | 0 <= i < k + 1 ensures !AtOrAfter(data[i], cutoff) {
          if i > 0 { assert data[i] == rest[i - 1]; }
        }
      }
    }
  }

  /** `filter((_, i) => i % 4 === 0)`: the elements at indices divisible by four. */
  function EveryFourth<T>(s: seq<T>): (r: seq<T>)
    ensures |r| == (|s| + 3) / 4
    ensures forall k :: 0 <= k < |r| ==> 4 * k < |s| && r[k] == s[4 * k]
    decreases |s|
  {
    if |s| == 0 then []
    else
      var i := |s| - 1;
      EveryFourth(s[..i]) + (if i % 4 == 0 then [s[i]] else [])
  }

  /** `slice(-n)`: the last `n` elements, or all of them when there are fewer. */
  function TakeLast<T>(s: seq<T>, n: nat): seq<T>
  {
    s[if |s| > n then |s| - n else 0..]
  }

  /** The monthly resampling: every fourth sample, then the most recent 120 of them. */
  function Monthly(data: seq<Sample>): (r: seq<Sample>)
    ensures var m := (|data| + 3) / 4;
            && |r| == (if m < MonthPoints then m else MonthPoints)
            && r == EveryFourth(data)[m - |r|..]
            && forall j :: 0 <= j < |r| ==>
                 4 * (m - |r| + j) < |data| && r[j] == data[4 * (m - |r| + j)]
  {
    TakeLast(EveryFourth(data), MonthPoints)
  }

  /** The display series for a range (lines 143-150 of the client). `cutoff` is
      "now minus seven days", which the client recomputes every cycle. */
  function Transform(range: string, data: seq<Sample>, cutoff: int): (r: seq<Sample>)
    ensures forall x :: x in r ==> x in data
    ensures range == Week ==> r == Since(data, cutoff)
    ensures range == Week ==> forall x :: x in data ==> (x in r <==> AtOrAfter(x, cutoff))
    ensures range == Month ==> r == Monthly(data)
    ensures range == Month ==> |r| <= MonthPoints && |r| == (if |data| + 3 < 4 * MonthPoints then (|data| + 3) / 4 else MonthPoints)
    ensures range != Week && range != Month ==> r == data
  {
    if range == Week then Since(data, cutoff)
    else if range == Month then Monthly(data)
    else data
  }

  /** `Math.max(...closes)` over a non-empty series. */
  function Max(xs: seq<real>): (m: real)
    requires |xs| > 0
    ensures m in xs
    ensures forall x :: x in xs ==> x <= m
    decreases |xs|
  {
    if |xs| == 1 then xs[0]
    else
      assert xs == [xs[0]] + xs[1..];
      var t := Max(xs[1..]);
      if xs[0] > t then xs[0] else t
  }

  /** `Math.min(...closes)` over a non-empty series. */
  function Min(xs: seq<real>): (m: real)
    requires |xs| > 0
    ensures m in xs
    ensures forall x :: x in xs ==> m <= x
    decreases |xs|
  {
    if |xs| == 1 then xs[0]
    else
      assert xs == [xs[0]] + xs[1..];
      var t := Min(xs[1..]);
      if xs[0] < t then xs[0] else t
  }

  /** `chartData.map(d => d.close)`. */
  function Closes(data: seq<Sample>): (r: seq<real>)
    ensures |r| == |data|
    ensures forall i :: 0 <= i < |data| ==> r[i] == data[i].close
  {
    seq(|data|, i requires 0 <= i < |data| => data[i].close)
  }

  /** The price summary of the display series. */
  datatype Stats = Stats(open: real, high: real, low: real, last: real)

  /** Open is the first close and last the final close; every close lies
      between low and high, and both bounds are closes of the series. */
  function Summarize(data: seq<Sample>): (s: Stats)
    requires |data| > 0
    ensures s.open == data[0].close && s.last == data[|data| - 1].close
    ensures forall i :: 0 <= i < |data| ==> s.low <= data[i].close <= s.high
    ensures exists i :: 0 <= i < |data| && data[i].close == s.high
    ensures exists i :: 0 <= i < |data| && data[i].close == s.low
  {
    var closes := Closes(data);
    assert forall i :: 0 <= i < |data| ==> closes[i] in closes;
    Stats(closes[0], Max(closes), Min(closes), closes[|closes| - 1])
  }

  /** The browser's locale formatting of a parsed date: time of day ("09:30")
      and short month and day ("Jan 2"). Host functions, taken as given. */
  datatype Locale = Locale(time: string -> string, day: string -> string)

  /** The axis label of one sample for a range (lines 160-171). */
  function Label(range: string, locale: Locale, date: string): string
  {
    if range == Intraday then locale.time(date)
    else if range == Week then locale.day(date) + ", " + locale.time(date)
    else locale.day(date)
  }

  /** One label per display sample, in order: the time of day for `1d`, day
      and time for `1w`, and the day alone for `1m` and any other range. */
  function Labels(range: string, locale: Locale, data: seq<Sample>): (r: seq<string>)
    ensures |r| == |data|
    ensures range == Intraday ==> forall i :: 0 <= i < |data| ==> r[i] == locale.time(data[i].date)
    ensures range == Week ==>
              forall i :: 0 <= i < |data| ==> r[i] == locale.day(data[i].date) + ", " + locale.time(data[i].date)
    ensures range != Intraday && range != Week ==> forall i :: 0 <= i < |data| ==> r[i] == locale.day(data[i].date)
  {
    seq(|data|, i requires 0 <= i < |data| => Label(range, locale, data[i].date))
  }
}
