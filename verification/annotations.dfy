/** The annotation builder: the chart overlays rebuilt on every refresh — the
    current-price line, one day-boundary line per calendar day of an intraday
    series, and the market-open line. */
module Annotations {
  import opened Wrappers
  import opened Text
  import opened Series

  /** The keys of the annotation object: `currentPriceLine`, `dayline-<i>`, `marketOpenLine`. */
  datatype Key = CurrentPriceLine | DayLine(index: nat) | MarketOpenLine

  /** The value each overlay is anchored at: a price for the horizontal line,
      an x-axis value for the vertical ones. Styling is not modelled. */
  datatype Annotation = PriceLine(price: real) | DayBoundary(noon: string) | OpenLine(openLabel: string)

  /** One property of the annotation object, in insertion order. */
  datatype Entry = Entry(key: Key, line: Annotation)

  const MarketOpenPrefix: string := "09:30"
  const NoonSuffix: string := " 12:00:00"
  const DayLinePrefix: string := "dayline-"

  /** The property name under which an annotation is stored. */
  function KeyName(k: Key): string
  {
    match k
    case CurrentPriceLine => "currentPriceLine"
    case DayLine(i) => DayLinePrefix + NatToString(i)
    case MarketOpenLine => "marketOpenLine"
  }

  /** Distinct keys have distinct property names, so no assignment into the
      annotation object overwrites another overlay. */
  lemma KeyNamesDistinct(a: Key, b: Key)
    ensures KeyName(a) == KeyName(b) ==> a == b
  {
    if a.DayLine? && b.DayLine? && KeyName(a) == KeyName(b) {
      var n := |DayLinePrefix|;
      assert KeyName(a)[n..] == NatToString(a.index);
      assert KeyName(b)[n..] == NatToString(b.index);
      NatToStringInjective(a.index, b.index);
    } else if KeyName(a) == KeyName(b) {
      assert KeyName(a)[0] == KeyName(b)[0];
    }
  }

  /** The date part of each sample's date text. */
  function Dates(data: seq<Sample>): (r: seq<string>)
    ensures |r| == |data|
    ensures forall i :: 0 <= i < |data| ==> r[i] == DatePart(data[i].date)
  {
    seq(|data|, i requires 0 <= i < |data| => DatePart(data[i].date))
  }

  /** Index `i` is where its date first appears. */
  predicate FirstOccurrence(dates: seq<string>, i: nat)
    requires i < |dates|
  {
    dates[i] !in dates[..i]
  }

  /** The day-boundary lines of an intraday series: for every first occurrence
      of a date, in order, `dayline-<i>` at that date's noon. */
  function DayLines(dates: seq<string>): (r: seq<Entry>)
    ensures forall j :: 0 <= j < |r| ==>
              && r[j].key.DayLine?
              && r[j].key.index < |dates|
              && FirstOccurrence(dates, r[j].key.index)
              && r[j].line == DayBoundary(dates[r[j].key.index] + NoonSuffix)
    ensures forall a, b :: 0 <= a < b < |r| ==> r[a].key.index < r[b].key.index
    decreases |dates|
  {
    if |dates| == 0 then []
    else
      var i := |dates| - 1;
      var earlier := DayLines(dates[..i]);
      assert forall k :: 0 <= k < i ==> dates[..i][..k] == dates[..k];
      earlier + (if dates[i] in dates[..i] then [] else [Entry(DayLine(i), DayBoundary(dates[i] + NoonSuffix))])
  }

  /** Every first occurrence of a date gets its day line. */
  lemma {:induction false} DayLinesComplete(dates: seq<string>, i: nat)
    requires i < |dates| && FirstOccurrence(dates, i)
    ensures exists j :: 0 <= j < |DayLines(dates)| && DayLines(dates)[j].key == DayLine(i)
    decreases |dates|
  {
    var n := |dates| - 1;
    var r := DayLines(dates);
    if i == n {
      assert r[|r| - 1].key == DayLine(i);
    } else {
      assert dates[..n][..i] == dates[..i];
      DayLinesComplete(dates[..n], i);
      var j :| 0 <= j < |DayLines(dates[..n])| && DayLines(dates[..n])[j].key == DayLine(i);
      assert r[j] == DayLines(dates[..n])[j];
    }
  }

  /** The first index at which `d` occurs. */
  function FirstIndex(dates: seq<string>, d: string): (i: nat)
    requires d in dates
    ensures i < |dates| && dates[i] == d && d !in dates[..i]
    decreases |dates|
  {
    if dates[0] == d then 0
    else
      assert dates == [dates[0]] + dates[1..];
      var k := FirstIndex(dates[1..], d);
      assert dates[..k + 1] == [dates[0]] + dates[1..][..k];
      k + 1
  }

  /** Some day line of `lines` is anchored at date `d` of `dates`. */
  ghost predicate HasDayLineFor(lines: seq<Entry>, dates: seq<string>, d: string)
  {
    exists j :: 0 <= j < |lines| && lines[j].key.DayLine? && lines[j].key.index < |dates|
                && dates[lines[j].key.index] == d
  }

  /** Exactly one day line per distinct date: every date of the series is the
      date of some day line, and no two day lines share a date. */
  lemma {:induction false} OnePerDistinctDate(dates: seq<string>)
    ensures forall d :: d in dates ==> HasDayLineFor(DayLines(dates), dates, d)
    ensures forall a, b :: 0 <= a < b < |DayLines(dates)| ==>
              dates[DayLines(dates)[a].key.index] != dates[DayLines(dates)[b].key.index]
  {
    var r := DayLines(dates);
    forall d | d in dates
      ensures HasDayLineFor(r, dates, d)
    {
      var i := FirstIndex(dates, d);
      DayLinesComplete(dates, i);
      var j :| 0 <= j < |r| && r[j].key == DayLine(i);
      assert r[j].key.index == i;
      assert dates[r[j].key.index] == d;
    }
    forall a, b | 0 <= a < b < |r|
      ensures dates[r[a].key.index] != dates[r[b].key.index]
    {
      var ia, ib := r[a].key.index, r[b].key.index;
      assert dates[ia] == dates[..ib][ia];
    }
  }

  /** `labels.find(label => label.startsWith("09:30"))`. */
  function FindMarketOpen(labels: seq<string>): (r: Option<string>)
    ensures r.None? <==> forall i :: 0 <= i < |labels| ==> !StartsWith(labels[i], MarketOpenPrefix)
    ensures r.Some? ==> exists i :: 0 <= i < |labels| && labels[i] == r.value
                          && StartsWith(r.value, MarketOpenPrefix)
                          && forall k :: 0 <= k < i ==> !StartsWith(labels[k], MarketOpenPrefix)
    decreases |labels|
  {
    if |labels| == 0 then None
    else if StartsWith(labels[0], MarketOpenPrefix) then Some(labels[0])
    else
      var r := FindMarketOpen(labels[1..]);
      assert forall i :: 0 < i < |labels| ==> labels[i] == labels[1..][i - 1];
      r
  }

  /** The annotation object built for a non-empty display series (lines
      214-269), as a list of entries in insertion order. */
  function Overlay(range: string, data: seq<Sample>, labels: seq<string>): (r: seq<Entry>)
    requires |data| > 0
    ensures |r| > 0 && r[0] == Entry(CurrentPriceLine, PriceLine(data[|data| - 1].close))
    ensures forall a, b :: 0 <= a < b < |r| ==> r[a].key != r[b].key
    ensures range != Intraday ==> r == [Entry(CurrentPriceLine, PriceLine(data[|data| - 1].close))]
    ensures r[|r| - 1].key == MarketOpenLine
            <==> range == Intraday && exists i :: 0 <= i < |labels| && StartsWith(labels[i], MarketOpenPrefix)
    ensures r[|r| - 1].key == MarketOpenLine ==> r[|r| - 1].line == OpenLine(FindMarketOpen(labels).value)
    ensures forall j :: 0 <= j < |r| - 1 ==> r[j].key != MarketOpenLine
    ensures range == Intraday ==>
              && |r| == 1 + |DayLines(Dates(data))| + (if FindMarketOpen(labels).Some? then 1 else 0)
              && r[1..1 + |DayLines(Dates(data))|] == DayLines(Dates(data))
  {
    var dayLines := if range == Intraday then DayLines(Dates(data)) else [];
    var openLine := match FindMarketOpen(labels)
                    case Some(l) => if range == Intraday then [Entry(MarketOpenLine, OpenLine(l))] else []
                    case None => [];
    [Entry(CurrentPriceLine, PriceLine(data[|data| - 1].close))] + dayLines + openLine
  }

  /** Builds the annotation object as the client does: the price line first,
      then for an intraday series the day lines from one pass with a set of
      dates already seen, then the market-open line if some label is at 09:30. */
  method BuildAnnotations(range: string, data: seq<Sample>, labels: seq<string>)
    returns (annotations: seq<Entry>)
    requires |data| > 0
    ensures annotations == Overlay(range, data, labels)
  {
    annotations := [Entry(CurrentPriceLine, PriceLine(data[|data| - 1].close))];
    ghost var dates := Dates(data);
    if range == Intraday {
      var seenDays: set<string> := {};
      var i := 0;
      while i < |data|
        invariant 0 <= i <= |data|
        invariant seenDays == set d | d in dates[..i]
        invariant annotations == [Entry(CurrentPriceLine, PriceLine(data[|data| - 1].close))] + DayLines(dates[..i])
      {
        var dateOnly := DatePart(data[i].date);
        assert dates[..i + 1][..i] == dates[..i];
        assert dateOnly == dates[..i + 1][i];
        if dateOnly !in seenDays {
          seenDays := seenDays + {dateOnly};
          annotations := annotations + [Entry(DayLine(i), DayBoundary(dateOnly + NoonSuffix))];
        }
        assert dates[..i + 1] == dates[..i] + [dateOnly];
        i := i + 1;
      }
      assert dates[..|data|] == dates;
    }
    if range == Intraday {
      var marketOpenLabel := FindMarketOpen(labels);
      if marketOpenLabel.Some? {
        annotations := annotations + [Entry(MarketOpenLine, OpenLine(marketOpenLabel.value))];
      }
    }
  }
}
