/** The small display rules: the colour of the pulsing dot on the last point,
    the "Updated" label, and the exchange time zone of a ticker. */
module Display {
  import opened Wrappers
  import opened Text

  const UpColour: string := "#00e676"
  const DownColour: string := "#ff5252"

  /** The pulse colour for the plotted closes: green when the last close is
      strictly above the one before, red otherwise (ties included); no pulse
      with fewer than two points. */
  function PulseColour(data: seq<real>): (c: Option<string>)
    ensures c.None? <==> |data| < 2
    ensures c == Some(UpColour) <==> |data| >= 2 && data[|data| - 1] > data[|data| - 2]
    ensures c == Some(DownColour) <==> |data| >= 2 && data[|data| - 1] <= data[|data| - 2]
  {
    if |data| < 2 then None
    else if data[|data| - 1] > data[|data| - 2] then Some(UpColour)
    else Some(DownColour)
  }

  /** A falling and a rising pair, and an unchanged pair that counts as falling. */
  lemma PulseExamples()
    ensures PulseColour([10.0, 9.5]) == Some(DownColour)
    ensures PulseColour([9.5, 10.0]) == Some(UpColour)
    ensures PulseColour([9.5, 9.5]) == Some(DownColour)
    ensures PulseColour([9.5]) == None
  {
  }

  /** `Math.floor((now - lastUpdateTime) / 1000)` on millisecond instants: the
      whole seconds elapsed, rounded down also when the clock went backwards. */
  function SecondsAgo(nowMs: int, lastMs: int): (s: int)
    ensures s * 1000 <= nowMs - lastMs < (s + 1) * 1000
  {
    (nowMs - lastMs) / 1000
  }

  const SecondsSuffix: string := " seconds ago"

  /** The bucket text for a number of whole seconds. */
  function AgoText(secondsAgo: int): (t: string)
    ensures t == "just now" <==> secondsAgo < 1
    ensures t == "1 second ago" <==> secondsAgo == 1
    ensures secondsAgo > 1 ==> t == NatToString(secondsAgo) + SecondsSuffix
  {
    if secondsAgo < 1 then "just now"
    else if secondsAgo == 1 then "1 second ago"
    else NatToString(secondsAgo) + SecondsSuffix
  }

  /** Different elapsed seconds from one second on give different texts. */
  lemma AgoTextInjective(a: int, b: int)
    requires a >= 1 && b >= 1
    ensures AgoText(a) == AgoText(b) ==> a == b
  {
    if a > 1 && b > 1 && AgoText(a) == AgoText(b) {
      var ta, tb := NatToString(a), NatToString(b);
      assert ta == AgoText(a)[..|ta|];
      assert |ta| == |tb|;
      assert tb == AgoText(b)[..|tb|];
      NatToStringInjective(a, b);
    }
  }

  /** The text of the "Updated" label for the instant of the last commit. */
  function UpdatedLabel(nowMs: int, lastMs: int): (t: string)
    ensures nowMs - lastMs < 1000 ==> t == "Updated: just now"
    ensures 1000 <= nowMs - lastMs < 2000 ==> t == "Updated: 1 second ago"
    ensures nowMs - lastMs >= 2000 ==> t == "Updated: " + NatToString((nowMs - lastMs) / 1000) + SecondsSuffix
  {
    "Updated: " + AgoText(SecondsAgo(nowMs, lastMs))
  }

  const UsStocks: seq<string> := ["AAPL", "MSFT", "GOOG", "TSLA"]
  const UkStocks: seq<string> := ["BARC.L", "HSBA.L"]
  const JpStocks: seq<string> := ["7203.T", "6758.T"]

  const UsFlag: string := "\U{1F1FA}\U{1F1F8}"
  const UkFlag: string := "\U{1F1EC}\U{1F1E7}"
  const JpFlag: string := "\U{1F1EF}\U{1F1F5}"
  const FallbackFlag: string := "\U{1F3F3}\U{FE0F}"

  datatype MarketInfo = MarketInfo(timezone: string, flag: string)

  /** The exchange time zone and flag of a ticker, by case-insensitive lookup
      in the US, then UK, then Tokyo list; anything else gets the viewer's own
      zone (`viewerZone`, which the browser resolves) and a white flag. The flag
      tells which branch was taken. */
  function MarketTimeZoneAndFlag(ticker: string, viewerZone: string): (m: MarketInfo)
    ensures m.flag == UsFlag <==> Upper(ticker) in UsStocks
    ensures m.flag == UkFlag <==> Upper(ticker) in UkStocks
    ensures m.flag == JpFlag <==> Upper(ticker) in JpStocks
    ensures m.flag == FallbackFlag <==>
              Upper(ticker) !in UsStocks && Upper(ticker) !in UkStocks && Upper(ticker) !in JpStocks
    ensures m.flag == UsFlag ==> m.timezone == "America/New_York"
    ensures m.flag == UkFlag ==> m.timezone == "Europe/London"
    ensures m.flag == JpFlag ==> m.timezone == "Asia/Tokyo"
    ensures m.flag == FallbackFlag ==> m.timezone == viewerZone
  {
    var code := Upper(ticker);
    if code in UsStocks then MarketInfo("America/New_York", UsFlag)
    else if code in UkStocks then MarketInfo("Europe/London", UkFlag)
    else if code in JpStocks then MarketInfo("Asia/Tokyo", JpFlag)
    else MarketInfo(viewerZone, FallbackFlag)
  }

  /** The lookup ignores letter case. */
  lemma MarketLookupIgnoresCase(ticker: string, viewerZone: string)
    ensures MarketTimeZoneAndFlag(ticker, viewerZone) == MarketTimeZoneAndFlag(Upper(ticker), viewerZone)
  {
    UpperIdempotent(ticker);
  }

  /** "AMZN" is not in the US list, so it falls back to the viewer's zone,
      while "AAPL", "aapl" and "TSLA" resolve to New York. */
  lemma MarketLookupExamples(viewerZone: string)
    ensures MarketTimeZoneAndFlag("AMZN", viewerZone) == MarketInfo(viewerZone, FallbackFlag)
    ensures MarketTimeZoneAndFlag("aapl", viewerZone) == MarketInfo("America/New_York", UsFlag)
    ensures MarketTimeZoneAndFlag("AAPL", viewerZone) == MarketInfo("America/New_York", UsFlag)
    ensures MarketTimeZoneAndFlag("TSLA", viewerZone) == MarketInfo("America/New_York", UsFlag)
  {
    assert Upper("AMZN") == "AMZN";
    assert Upper("aapl") == "AAPL";
    assert Upper("AAPL") == "AAPL";
    assert Upper("TSLA") == "TSLA";
  }
}
