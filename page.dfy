/**
 * The page's state: the selected distance, the lock mode and the edit mode,
 * each held in its own state hook and replaced whole by its setter. The
 * handlers here are the transitions the sliders, switches and the distance
 * selector trigger; rendering is not modelled.
 */
module Page {
  import opened Distances
  import Pacing
  import SplitTable

  class PageState {
    var selectedDistance: Distance
    var lockMode: Pacing.LockMode
    var mode: Pacing.Mode

    /** A result mode never holds a zero result, so opening and lap can be derived from it. */
    ghost predicate Valid()
      reads this
    {
      Pacing.Derivable(mode)
    }

    /** The times the page shows for its current state. */
    function Shown(): (t: Pacing.Times)
      reads this
      requires Valid()
    {
      Pacing.CurrentTimes(mode, lockMode, Info(selectedDistance))
    }

    /** The page starts at the initial distance, with no lock, a 20 s opening and 40 s laps. */
    constructor (initial: Distance)
      ensures Valid()
      ensures selectedDistance == initial && lockMode == Pacing.NoLock && mode == Pacing.INITIAL_MODE
    {
      selectedDistance := initial;
      lockMode := Pacing.NoLock;
      mode := Pacing.INITIAL_MODE;
    }

    /** Choosing another distance changes neither the lock nor the edit mode. */
    method SelectDistance(d: Distance)
      requires Valid()
      modifies this
      ensures Valid()
      ensures selectedDistance == d && lockMode == old(lockMode) && mode == old(mode)
    {
      selectedDistance := d;
    }

    /** `setLapLock(n)`. */
    method SetLapLock(n: real)
      requires Valid()
      modifies this
      ensures Valid()
      ensures lockMode == Pacing.ToggleLapLock(old(lockMode), n)
      ensures selectedDistance == old(selectedDistance) && mode == old(mode)
    {
      lockMode := Pacing.ToggleLapLock(lockMode, n);
    }

    /** `setOpeningLock(n)`. */
    method SetOpeningLock(n: real)
      requires Valid()
      modifies this
      ensures Valid()
      ensures lockMode == Pacing.ToggleOpeningLock(old(lockMode), n)
      ensures selectedDistance == old(selectedDistance) && mode == old(mode)
    {
      lockMode := Pacing.ToggleOpeningLock(lockMode, n);
    }

    /** The lap switch: toggles the lap lock, capturing the lap shown. */
    method ToggleLapSwitch()
      requires Valid()
      modifies this
      ensures Valid()
      ensures lockMode == Pacing.ToggleLapLock(old(lockMode), old(Shown()).secLap)
      ensures selectedDistance == old(selectedDistance) && mode == old(mode)
    {
      var shown := Shown();
      SetLapLock(shown.secLap);
    }

    /** The opening switch: toggles the opening lock, capturing the opening shown. */
    method ToggleOpeningSwitch()
      requires Valid()
      modifies this
      ensures Valid()
      ensures lockMode == Pacing.ToggleOpeningLock(old(lockMode), old(Shown()).secOpening)
      ensures selectedDistance == old(selectedDistance) && mode == old(mode)
    {
      var shown := Shown();
      SetOpeningLock(shown.secOpening);
    }

    /** `setOpeningSec`: the opening becomes `opening`, the lap stays the one shown. */
    method SetOpeningSec(opening: real)
      requires Valid()
      modifies this
      ensures Valid()
      ensures mode == Pacing.SetOpeningSec(old(mode), old(lockMode), Info(old(selectedDistance)), opening)
      ensures selectedDistance == old(selectedDistance) && lockMode == old(lockMode)
      ensures Shown().secOpening == opening && Shown().secLap == old(Shown()).secLap
    {
      mode := Pacing.SetOpeningSec(mode, lockMode, Info(selectedDistance), opening);
    }

    /** `setLapSec`: the lap becomes `lap`, the opening stays the one shown. */
    method SetLapSec(lap: real)
      requires Valid()
      modifies this
      ensures Valid()
      ensures mode == Pacing.SetLapSec(old(mode), old(lockMode), Info(old(selectedDistance)), lap)
      ensures selectedDistance == old(selectedDistance) && lockMode == old(lockMode)
      ensures Shown().secLap == lap && Shown().secOpening == old(Shown()).secOpening
    {
      mode := Pacing.SetLapSec(mode, lockMode, Info(selectedDistance), lap);
    }

    /** `setResult`. A result of zero, where the source shows NaN, is not modelled. */
    method SetResult(result: real)
      requires Valid() && result != 0.0
      modifies this
      ensures Valid()
      ensures mode == Pacing.SetResult(old(mode), result)
      ensures selectedDistance == old(selectedDistance) && lockMode == old(lockMode)
      ensures Shown().result == result
    {
      mode := Pacing.SetResult(mode, result);
    }

    /**
     * Moving the opening slider: a locked opening is released first, then the
     * opening is set. Both setters were bound when the page was last shown,
     * so the lap kept is the one derived under the lock as it was.
     */
    method OpeningSliderChanged(value: real)
      requires Valid()
      modifies this
      ensures Valid()
      ensures lockMode == if old(lockMode).OpeningLock? then Pacing.NoLock else old(lockMode)
      ensures mode == Pacing.SetOpeningSec(old(mode), old(lockMode), Info(old(selectedDistance)), value)
      ensures selectedDistance == old(selectedDistance)
      ensures mode == Pacing.Laps(old(Shown()).secLap, value)
    {
      var info := Info(selectedDistance);
      var next := Pacing.SetOpeningSec(mode, lockMode, info, value);
      var locked := Pacing.LockFlags(lockMode).1;
      if locked {
        var shown := Shown();
        lockMode := Pacing.ToggleOpeningLock(lockMode, shown.secOpening);
      }
      mode := next;
    }

    /**
     * Moving the lap slider: a locked lap is released first, then the lap is
     * set, keeping the opening derived under the lock as it was.
     */
    method LapSliderChanged(value: real)
      requires Valid()
      modifies this
      ensures Valid()
      ensures lockMode == if old(lockMode).LapLock? then Pacing.NoLock else old(lockMode)
      ensures mode == Pacing.SetLapSec(old(mode), old(lockMode), Info(old(selectedDistance)), value)
      ensures selectedDistance == old(selectedDistance)
      ensures mode == Pacing.Laps(value, old(Shown()).secOpening)
    {
      var info := Info(selectedDistance);
      var next := Pacing.SetLapSec(mode, lockMode, info, value);
      var locked := Pacing.LockFlags(lockMode).0;
      if locked {
        var shown := Shown();
        lockMode := Pacing.ToggleLapLock(lockMode, shown.secLap);
      }
      mode := next;
    }

    /** The rows of the split table for the times shown; the last one is at the result shown. */
    method ShownSplits() returns (rows: seq<SplitTable.LapInfo>)
      requires Valid()
      ensures |rows| == Info(selectedDistance).laps + 1
      ensures rows[0].distance == Info(selectedDistance).opening && rows[0].timeSec == Shown().secOpening
      ensures forall i :: 0 <= i < |rows| ==>
        rows[i] == SplitTable.SplitAt(Shown().secOpening, Shown().secLap, Info(selectedDistance), i)
      ensures rows[|rows| - 1].timeSec == Shown().result
      ensures rows[|rows| - 1].distance == Meters(selectedDistance) <==> selectedDistance != D3000
    {
      var info := Info(selectedDistance);
      var shown := Shown();
      rows := SplitTable.LapSplits(shown.secOpening, shown.secLap, info);
      SplitTable.SplitsEndAtShownResult(mode, lockMode, info);
      SplitTable.FinalSplitDistance(shown.secOpening, shown.secLap, selectedDistance);
    }
  }
}
