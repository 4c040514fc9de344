/** Trading volume (`src/http/v1/volume.rs`): the interval table and the volume query. */
module V1Volume {

  import opened Wrappers
  import opened Text
  import opened Http

  datatype Interval = Minute | Hour | Day

  /** The length of an interval in seconds. */
  function IntervalSeconds(i: Interval): nat {
    match i
    case Minute => 60 * 1
    case Hour => 60 * 60
    case Day => 24 * 3600
  }

  /** `convert_interval`: the decimal text of the interval's length in seconds. */
  function ConvertInterval(i: Interval): (s: string)
    ensures s == NatToString(IntervalSeconds(i))
  {
    IntervalTexts();
    match i
    case Minute => "60"
    case Hour => "3600"
    case Day => "86400"
  }

  lemma IntervalTexts()
    ensures NatToString(60) == "60" && NatToString(3600) == "3600" && NatToString(86400) == "86400"
  {
    assert Digit(0) == '0' && Digit(3) == '3' && Digit(4) == '4' && Digit(6) == '6' && Digit(8) == '8';
    assert NatToString(6) == "6" && NatToString(60) == "6" + "0";
    assert NatToString(3) == "3" && NatToString(36) == "3" + "6";
    assert NatToString(360) == "36" + "0" && NatToString(3600) == "360" + "0";
    assert NatToString(8) == "8" && NatToString(86) == "8" + "6";
    assert NatToString(864) == "86" + "4" && NatToString(8640) == "864" + "0";
    assert NatToString(86400) == "8640" + "0";
  }

  /** The three intervals are strictly increasing, so their texts are distinct. */
  lemma IntervalsIncrease(a: Interval, b: Interval)
    ensures IntervalSeconds(Minute) < IntervalSeconds(Hour) < IntervalSeconds(Day)
    ensures ConvertInterval(a) == ConvertInterval(b) ==> a == b
  {
    if ConvertInterval(a) == ConvertInterval(b) {
      NatToStringInjective(IntervalSeconds(a), IntervalSeconds(b));
    }
  }

  /** The `key=value` pairs of the query, in the order the query lists them. */
  function VolumePairs(startTime: nat, endTime: nat, interval: Interval, currency: string, net: bool, byExchange: bool): seq<string> {
    ["start_time=" + NatToString(startTime), "end_time=" + NatToString(endTime),
     "interval=" + ConvertInterval(interval), "currency=" + currency,
     "net=" + BoolText(net), "by_exchange=" + BoolText(byExchange)]
  }

  const VOLUME_PATH: string := "analytics/volume?"

  /** The resource of `volume`: the path, then the six pairs separated by `&`. */
  function VolumeQuery(startTime: nat, endTime: nat, interval: Interval, currency: string, net: bool, byExchange: bool): string {
    VOLUME_PATH + Join(VolumePairs(startTime, endTime, interval, currency, net, byExchange), '&')
  }

  /** When the currency holds no `&`, the query splits back into its six pairs, in order. */
  lemma VolumeQuerySplits(startTime: nat, endTime: nat, interval: Interval, currency: string, net: bool, byExchange: bool)
    requires '&' !in currency
    ensures var q := VolumeQuery(startTime, endTime, interval, currency, net, byExchange);
            |q| >= |VOLUME_PATH| && q[..|VOLUME_PATH|] == VOLUME_PATH
            && Split(q[|VOLUME_PATH|..], '&') == VolumePairs(startTime, endTime, interval, currency, net, byExchange)
  {
    var p := VolumePairs(startTime, endTime, interval, currency, net, byExchange);
    PairsHaveNoAmpersand(startTime, endTime, interval, currency, net, byExchange);
    SplitJoin(p, '&');
  }

  lemma PairsHaveNoAmpersand(startTime: nat, endTime: nat, interval: Interval, currency: string, net: bool, byExchange: bool)
    requires '&' !in currency
    ensures forall i :: 0 <= i < 6 ==> '&' !in VolumePairs(startTime, endTime, interval, currency, net, byExchange)[i]
  {
    var p := VolumePairs(startTime, endTime, interval, currency, net, byExchange);
    DigitsHaveNoAmpersand(NatToString(startTime));
    DigitsHaveNoAmpersand(NatToString(endTime));
    DigitsHaveNoAmpersand(ConvertInterval(interval));
    NoAmpersand("start_time=", NatToString(startTime));
    NoAmpersand("end_time=", NatToString(endTime));
    NoAmpersand("interval=", ConvertInterval(interval));
    NoAmpersand("currency=", currency);
    NoAmpersand("net=", BoolText(net));
    NoAmpersand("by_exchange=", BoolText(byExchange));
  }

  lemma NoAmpersand(key: string, value: string)
    requires '&' !in key && '&' !in value
    ensures '&' !in key + value
  {
  }

  lemma DigitsHaveNoAmpersand(s: string)
    requires AllDigits(s)
    ensures '&' !in s
  {
    forall k | 0 <= k < |s| ensures s[k] != '&' {
      assert IsDigit(s[k]);
    }
  }

  /** `volume`: a GET of the query, with no parameters. */
  function Volume(startTime: nat, endTime: nat, interval: Interval, currency: string, net: bool, byExchange: bool): (r: Request)
    ensures r.verb == Get && r.params.None? && r.kind == JsonResponse
    ensures r.target == V1Resource(VolumeQuery(startTime, endTime, interval, currency, net, byExchange))
  {
    Request(Get, V1Resource(VolumeQuery(startTime, endTime, interval, currency, net, byExchange)), None, JsonResponse)
  }
}
