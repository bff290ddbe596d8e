/**
 * The static table of race distances: for each distance, the length of the
 * opening (the first, shorter part of the race) and the number of full 400 m
 * laps that follow it, plus the default opening fraction and the choice of
 * the initial distance from the `distance` query parameter.
 */
module Distances {
  import opened Wrappers
  import Decimal

  /** Length of one full lap of the rink, in metres. */
  const LAP_DISTANCE: nat := 400

  /** The six race distances the table knows. */
  datatype Distance = D500 | D1000 | D1500 | D3000 | D5000 | D10000

  /** One table entry: the race distance, the opening length in metres and the count of full laps. */
  datatype DistanceInfo = DistanceInfo(distance: Distance, opening: nat, laps: nat)

  /** The race length in metres. */
  function Meters(d: Distance): nat {
    match d
    case D500 => 500
    case D1000 => 1000
    case D1500 => 1500
    case D3000 => 3000
    case D5000 => 5000
    case D10000 => 10000
  }

  /**
   * The table entry for a distance. Every entry has at least one full lap and
   * a positive opening of at most one lap; opening plus full laps covers the
   * race length for every entry except 3000 m, whose table entry (200 m
   * opening, 6 laps) adds up to 2600 m.
   */
  function Info(d: Distance): (info: DistanceInfo)
    ensures info.distance == d
    ensures info.laps >= 1 && 0 < info.opening <= LAP_DISTANCE
    ensures info.opening + LAP_DISTANCE * info.laps == Meters(d) <==> d != D3000
  {
    match d
    case D500 => DistanceInfo(D500, 100, 1)
    case D1000 => DistanceInfo(D1000, 200, 2)
    case D1500 => DistanceInfo(D1500, 300, 3)
    case D3000 => DistanceInfo(D3000, 200, 6)
    case D5000 => DistanceInfo(D5000, 200, 12)
    case D10000 => DistanceInfo(D10000, 400, 24)
  }

  /**
   * `getOpeningPct`: the share of the result time spent on the opening when
   * no quantity is locked, an empirical constant per distance.
   */
  function OpeningPct(info: DistanceInfo): (pct: real)
    ensures 0.0 < pct < 1.0
  {
    match info.distance
    case D500 => 0.275
    case D1000 => 0.24
    case D1500 => 0.23
    case D3000 => 0.09
    case D5000 => 0.05
    case D10000 => 0.045
  }

  /** The longer the race, the smaller the default opening share. */
  lemma OpeningPctDecreasing(a: Distance, b: Distance)
    ensures Meters(a) < Meters(b) <==> OpeningPct(Info(a)) > OpeningPct(Info(b))
  {
  }

  /** The key of a distance in the table object, as it appears in the query string. */
  function Key(d: Distance): string {
    match d
    case D500 => "500"
    case D1000 => "1000"
    case D1500 => "1500"
    case D3000 => "3000"
    case D5000 => "5000"
    case D10000 => "10000"
  }

  /** The key of a distance is the decimal rendering of its length, so `parseInt` of a key gives the length. */
  lemma KeyIsDecimalMeters(d: Distance)
    ensures Key(d) == Decimal.ToDecimal(Meters(d))
    ensures Decimal.AllDigits(Key(d)) && Decimal.ParseDecimal(Key(d)) == Meters(d)
  {
    Decimal.ParseToDecimal(Meters(d));
    match d
    case D500 => assert Decimal.ToDecimal(500) == "500";
    case D1000 => assert Decimal.ToDecimal(1000) == "1000";
    case D1500 => assert Decimal.ToDecimal(1500) == "1500";
    case D3000 => assert Decimal.ToDecimal(3000) == "3000";
    case D5000 => assert Decimal.ToDecimal(5000) == "5000";
    case D10000 => assert Decimal.ToDecimal(10000) == "10000";
  }

  /** The own-property lookup `hasOwnProperty(distances, param)`: which distance, if any, has this key. */
  function DistanceOfKey(param: string): (r: Option<Distance>)
    ensures r.Some? ==> Key(r.value) == param
    ensures r.None? ==> forall d :: Key(d) != param
  {
    if param == "500" then Some(D500)
    else if param == "1000" then Some(D1000)
    else if param == "1500" then Some(D1500)
    else if param == "3000" then Some(D3000)
    else if param == "5000" then Some(D5000)
    else if param == "10000" then Some(D10000)
    else None
  }

  /**
   * `getInitialDistance`, given the value of the `distance` query parameter
   * (None when there is no window or no such parameter): the distance whose
   * key it is, and 5000 m otherwise.
   */
  function InitialDistance(param: Option<string>): (d: Distance)
    ensures param.Some? && DistanceOfKey(param.value).Some? ==> param.value == Key(d)
    ensures (param.None? || forall e :: Key(e) != param.value) ==> d == D5000
  {
    if param.Some? && param.value != "" && DistanceOfKey(param.value).Some? then
      DistanceOfKey(param.value).value
    else
      D5000
  }

  /** The query parameter written for a distance selects that distance again on reload. */
  lemma InitialDistanceRoundTrip(d: Distance)
    ensures InitialDistance(Some(Key(d))) == d
  {
    assert DistanceOfKey(Key(d)).Some? by {
      match d
      case D500 =>
      case D1000 =>
      case D1500 =>
      case D3000 =>
      case D5000 =>
      case D10000 =>
    }
    var e := DistanceOfKey(Key(d)).value;
    KeyInjective(d, e);
  }

  lemma KeyInjective(d: Distance, e: Distance)
    requires Key(d) == Key(e)
    ensures d == e
  {
    KeyIsDecimalMeters(d);
    KeyIsDecimalMeters(e);
  }
}
