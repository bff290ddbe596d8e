/**
 * The split table (`lapSplits`): one row for the opening and one for each
 * full lap, with the distance covered and the time elapsed at the end of it.
 */
module SplitTable {
  import opened Distances
  import Pacing

  /** One row of the split table. */
  datatype LapInfo = LapInfo(distance: nat, timeSec: real, lapNumber: nat)

  /**
   * Row `i` (counting from 0): lap number `i + 1`, the opening plus `i` full
   * laps of distance, and the opening time plus `i` lap times.
   */
  function SplitAt(secOpening: real, secLap: real, info: DistanceInfo, i: nat): LapInfo {
    LapInfo(info.opening + LAP_DISTANCE * i, secOpening + i as real * secLap, i + 1)
  }

  /**
   * `lapSplits`: walks the race lap by lap, accumulating distance and time,
   * and yields exactly one row per lap plus one for the opening.
   */
  method LapSplits(secOpening: real, secLap: real, info: DistanceInfo) returns (laps: seq<LapInfo>)
    ensures |laps| == info.laps + 1
    ensures forall i :: 0 <= i < |laps| ==> laps[i] == SplitAt(secOpening, secLap, info, i)
  {
    laps := [];
    var curDistance := info.opening;
    var curTime := secOpening;
    for i := 0 to info.laps + 1
      invariant |laps| == i
      invariant curDistance == info.opening + LAP_DISTANCE * i
      invariant curTime == secOpening + i as real * secLap
      invariant forall k :: 0 <= k < i ==> laps[k] == SplitAt(secOpening, secLap, info, k)
    {
      var row := LapInfo(curDistance, curTime, i + 1);
      laps := laps + [row];
      curDistance := curDistance + LAP_DISTANCE;
      curTime := curTime + secLap;
    }
  }

  /** Consecutive rows are one lap of distance and one lap time apart. */
  lemma ConsecutiveSplits(secOpening: real, secLap: real, info: DistanceInfo, i: nat)
    ensures var a := SplitAt(secOpening, secLap, info, i);
      var b := SplitAt(secOpening, secLap, info, i + 1);
      b.distance == a.distance + LAP_DISTANCE && b.timeSec == a.timeSec + secLap && b.lapNumber == a.lapNumber + 1
  {
  }

  /** The last row (index `laps`) is at the result time of the race run at this pace. */
  lemma FinalSplit(secOpening: real, secLap: real, info: DistanceInfo)
    ensures var last := SplitAt(secOpening, secLap, info, info.laps);
      last.timeSec == Pacing.ResultOf(Pacing.Pace(secOpening, secLap), info) && last.lapNumber == info.laps + 1
  {
  }

  /**
   * The last row is at the race distance for every distance except 3000 m,
   * whose table entry stops 400 m short.
   */
  lemma FinalSplitDistance(secOpening: real, secLap: real, d: Distance)
    ensures SplitAt(secOpening, secLap, Info(d), Info(d).laps).distance == Meters(d) <==> d != D3000
  {
  }

  /**
   * The split table the page shows ends at the result the page shows, in laps
   * mode and in result mode under any lock.
   */
  lemma SplitsEndAtShownResult(mode: Pacing.Mode, lockMode: Pacing.LockMode, info: DistanceInfo)
    requires Pacing.Derivable(mode) && info.laps > 0
    ensures var t := Pacing.CurrentTimes(mode, lockMode, info);
      SplitAt(t.secOpening, t.secLap, info, info.laps).timeSec == t.result
  {
    var t := Pacing.CurrentTimes(mode, lockMode, info);
    FinalSplit(t.secOpening, t.secLap, info);
  }

  /** 1000 m at a 20 s opening and 40 s laps: rows (1, 200 m, 20 s), (2, 600 m, 60 s), (3, 1000 m, 100 s). */
  lemma SplitsExample1000()
    ensures Info(D1000).laps + 1 == 3
    ensures SplitAt(20.0, 40.0, Info(D1000), 0) == LapInfo(200, 20.0, 1)
    ensures SplitAt(20.0, 40.0, Info(D1000), 1) == LapInfo(600, 60.0, 2)
    ensures SplitAt(20.0, 40.0, Info(D1000), 2) == LapInfo(1000, 100.0, 3)
  {
  }
}
