/**
 * The pacing model: the lock on the opening or the lap time, the edit mode
 * (opening and lap edited directly, or the result edited directly), the
 * result-slider bounds and the derivation of opening and lap times from a
 * result. Times are exact reals in seconds; the result of a race is always
 * `opening + lap * laps`.
 */
module Pacing {
  import opened Distances

  /** The bounds of the opening and lap sliders, in seconds. */
  const MIN_TIME: real := 5.0
  const MAX_TIME: real := 60.0

  // ---------------------------------------------------------------------------
  // Lock mode

  /** Which quantity stays fixed while the result is edited, with the captured value. */
  datatype LockMode = NoLock | LapLock(lap: real) | OpeningLock(opening: real)

  /**
   * `setLapLock(n)`: toggling the lap lock releases it when the lap is already
   * locked and otherwise locks the lap at `n`, replacing any opening lock.
   */
  function ToggleLapLock(lockMode: LockMode, n: real): (r: LockMode)
    ensures r.LapLock? <==> !lockMode.LapLock?
    ensures r.LapLock? ==> r.lap == n
    ensures !r.LapLock? ==> r == NoLock
  {
    if !lockMode.LapLock? then LapLock(n) else NoLock
  }

  /**
   * `setOpeningLock(n)`: toggling the opening lock releases it when the
   * opening is already locked and otherwise locks the opening at `n`,
   * replacing any lap lock.
   */
  function ToggleOpeningLock(lockMode: LockMode, n: real): (r: LockMode)
    ensures r.OpeningLock? <==> !lockMode.OpeningLock?
    ensures r.OpeningLock? ==> r.opening == n
    ensures !r.OpeningLock? ==> r == NoLock
  {
    if !lockMode.OpeningLock? then OpeningLock(n) else NoLock
  }

  /** The two switch states `lapLock` and `openingLock`: never both on, and each on exactly for its own lock. */
  function LockFlags(lockMode: LockMode): (flags: (bool, bool))
    ensures !(flags.0 && flags.1)
    ensures flags.0 <==> lockMode.LapLock?
    ensures flags.1 <==> lockMode.OpeningLock?
    ensures flags.0 || flags.1 <==> lockMode != NoLock
  {
    (lockMode.LapLock?, lockMode.OpeningLock?)
  }

  /** Toggling the same lock twice from a state without that lock comes back to no lock. */
  lemma ToggleTwiceReleases(lockMode: LockMode, a: real, b: real)
    ensures !lockMode.LapLock? ==> ToggleLapLock(ToggleLapLock(lockMode, a), b) == NoLock
    ensures !lockMode.OpeningLock? ==> ToggleOpeningLock(ToggleOpeningLock(lockMode, a), b) == NoLock
  {
  }

  // ---------------------------------------------------------------------------
  // Result-slider bounds

  datatype Bounds = Bounds(minResult: real, maxResult: real)

  /**
   * `calculateMinMaxResult`: the range of results the result slider offers.
   * Unlocked, both opening and lap range over [MIN_TIME, MAX_TIME]; with a
   * lock, only the free quantity does.
   */
  function MinMaxResult(lockMode: LockMode, info: DistanceInfo): (b: Bounds)
    ensures info.laps > 0 ==> b.minResult < b.maxResult
    ensures lockMode == NoLock ==>
      b == Bounds(MIN_TIME * (info.laps as real + 1.0), MAX_TIME * (info.laps as real + 1.0))
  {
    var laps := info.laps as real;
    match lockMode
    case OpeningLock(opening) =>
      Bounds(opening + laps * MIN_TIME, opening + laps * MAX_TIME)
    case LapLock(lap) =>
      Bounds(MIN_TIME + laps * lap, MAX_TIME + laps * lap)
    case NoLock =>
      Bounds(MIN_TIME + laps * MIN_TIME, MAX_TIME + laps * MAX_TIME)
  }

  /** Bounds for 5000 m (12 laps) without a lock: 65 s to 780 s. */
  lemma MinMaxResultExample()
    ensures MinMaxResult(NoLock, Info(D5000)) == Bounds(65.0, 780.0)
  {
  }

  /** A captured lock value that lies on its slider, as the sliders only offer [MIN_TIME, MAX_TIME]. */
  predicate LockOnSlider(lockMode: LockMode) {
    match lockMode
    case NoLock => true
    case LapLock(lap) => MIN_TIME <= lap <= MAX_TIME
    case OpeningLock(opening) => MIN_TIME <= opening <= MAX_TIME
  }

  /**
   * While the locked value lies on its slider, every result the result slider
   * offers is positive (see NegativeResultReachable for a lock captured off
   * its slider).
   */
  lemma BoundsPositive(lockMode: LockMode, info: DistanceInfo)
    requires LockOnSlider(lockMode)
    ensures MinMaxResult(lockMode, info).minResult > 0.0
  {
    var laps := info.laps as real;
    assert laps >= 0.0;
    match lockMode
    case NoLock =>
    case LapLock(lap) =>
      assert laps * lap >= 0.0;
    case OpeningLock(opening) =>
  }

  // ---------------------------------------------------------------------------
  // Deriving opening and lap from a result

  /** An opening time and a lap time. */
  datatype Pace = Pace(secOpening: real, secLap: real)

  /** The result of a race run at this pace. */
  function ResultOf(p: Pace, info: DistanceInfo): real {
    p.secOpening + p.secLap * info.laps as real
  }

  lemma CancelDivision(a: real, t: real)
    requires t != 0.0
    ensures (a / t) * t == a
  {
  }

  lemma OneMinusShare(a: real, t: real)
    requires t != 0.0
    ensures (1.0 - a / t) * t == t - a
  {
    CancelDivision(a, t);
  }

  /**
   * The lap time the source computes from an opening share of the result:
   * `((1 - openingPct) / laps) * targetResult`, that is, the part of the result
   * not spent on the opening, spread over the laps.
   */
  function LapFromOpeningPct(openingPct: real, targetResult: real, laps: real): (secLap: real)
    requires laps > 0.0
    ensures secLap == (targetResult - openingPct * targetResult) / laps
    ensures secLap * laps == targetResult - openingPct * targetResult
  {
    var lapPct := (1.0 - openingPct) / laps;
    lapPct * targetResult
  }

  /**
   * `calculateLapAndOpeningFromLockMode`: the opening and lap times shown
   * while the result is being edited. A locked quantity keeps its value and
   * the other takes up the rest of the result; unlocked, the opening takes the
   * distance's default share of the result, clamped to [MIN_TIME, MAX_TIME],
   * and a lap above MAX_TIME is clamped with the opening taking up the rest.
   * Whatever the branch, opening plus the laps make up the result.
   */
  function LapAndOpening(lockMode: LockMode, targetResult: real, info: DistanceInfo): (p: Pace)
    requires targetResult != 0.0 && info.laps > 0
    ensures ResultOf(p, info) == targetResult
    ensures lockMode.LapLock? ==>
      p.secLap == lockMode.lap && p.secOpening == targetResult - lockMode.lap * info.laps as real
    ensures lockMode.OpeningLock? ==>
      p.secOpening == lockMode.opening && p.secLap == (targetResult - lockMode.opening) / info.laps as real
  {
    var laps := info.laps as real;
    match lockMode
    case OpeningLock(opening) => OpeningLockedLapAndOpening(opening, targetResult, laps)
    case LapLock(lap) => LapLockedLapAndOpening(lap, targetResult, laps)
    case NoLock => UnlockedLapAndOpening(OpeningPct(info), targetResult, laps)
  }

  /** The opening-locked branch of `calculateLapAndOpeningFromLockMode`. */
  function OpeningLockedLapAndOpening(opening: real, targetResult: real, laps: real): (p: Pace)
    requires targetResult != 0.0 && laps > 0.0
    ensures p.secOpening == opening && p.secLap == (targetResult - opening) / laps
    ensures p.secOpening + p.secLap * laps == targetResult
  {
    var openingPct := opening / targetResult;
    var secOpening := openingPct * targetResult;
    CancelDivision(opening, targetResult);
    Pace(secOpening, LapFromOpeningPct(openingPct, targetResult, laps))
  }

  /** The lap-locked branch of `calculateLapAndOpeningFromLockMode`. */
  function LapLockedLapAndOpening(lap: real, targetResult: real, laps: real): (p: Pace)
    requires targetResult != 0.0 && laps > 0.0
    ensures p.secLap == lap && p.secOpening == targetResult - lap * laps
    ensures p.secOpening + p.secLap * laps == targetResult
  {
    var lapPct := (lap * laps) / targetResult;
    var secLap := lap;
    var openingPct := 1.0 - lapPct;
    var secOpening := openingPct * targetResult;
    OneMinusShare(lap * laps, targetResult);
    Pace(secOpening, secLap)
  }

  /**
   * The unlocked branch of `calculateLapAndOpeningFromLockMode`, for an
   * opening share `openingPct` of the result.
   */
  function UnlockedLapAndOpening(openingPct: real, targetResult: real, laps: real): (p: Pace)
    requires targetResult != 0.0 && laps > 0.0
    ensures p.secOpening + p.secLap * laps == targetResult
  {
    var secOpening := openingPct * targetResult;
    if secOpening < MIN_TIME then
      var fixedOpeningPct := MIN_TIME / targetResult;
      CancelDivision(MIN_TIME, targetResult);
      Pace(MIN_TIME, LapFromOpeningPct(fixedOpeningPct, targetResult, laps))
    else if secOpening > MAX_TIME then
      var fixedOpeningPct := MAX_TIME / targetResult;
      CancelDivision(MAX_TIME, targetResult);
      Pace(MAX_TIME, LapFromOpeningPct(fixedOpeningPct, targetResult, laps))
    else
      var secLap := LapFromOpeningPct(openingPct, targetResult, laps);
      if secLap > MAX_TIME then
        var fixedSecOpening := targetResult - MAX_TIME * laps;
        Pace(fixedSecOpening, MAX_TIME)
      else
        Pace(secOpening, secLap)
  }

  lemma DivExact(a: real, b: real, laps: real)
    requires laps > 0.0 && a == b * laps
    ensures a / laps == b
  {
  }

  lemma DivAtLeast(a: real, b: real, laps: real)
    requires laps > 0.0
    ensures a / laps >= b <==> a >= b * laps
    ensures a / laps <= b <==> a <= b * laps
  {
    assert a / laps * laps == a;
    if a / laps >= b {
      assert a / laps * laps >= b * laps;
    }
    if a / laps <= b {
      assert a / laps * laps <= b * laps;
    }
    if a >= b * laps {
      assert a / laps >= (b * laps) / laps;
    }
    if a <= b * laps {
      assert a / laps <= (b * laps) / laps;
    }
  }

  /**
   * The unlocked derivation in closed form, with `c` the default share of the
   * result: an opening below MIN_TIME is raised to MIN_TIME, one above
   * MAX_TIME is lowered to MAX_TIME, otherwise a lap above MAX_TIME is
   * lowered to MAX_TIME with the opening taking the rest, and otherwise the
   * opening is `c` and the laps share the rest evenly.
   */
  lemma UnlockedClamping(targetResult: real, info: DistanceInfo)
    requires targetResult != 0.0 && info.laps > 0
    ensures var laps := info.laps as real;
      var c := OpeningPct(info) * targetResult;
      var p := LapAndOpening(NoLock, targetResult, info);
      && (c < MIN_TIME ==> p == Pace(MIN_TIME, (targetResult - MIN_TIME) / laps))
      && (c > MAX_TIME ==> p == Pace(MAX_TIME, (targetResult - MAX_TIME) / laps))
      && (MIN_TIME <= c <= MAX_TIME && (targetResult - c) / laps > MAX_TIME ==>
            p == Pace(targetResult - MAX_TIME * laps, MAX_TIME))
      && (MIN_TIME <= c <= MAX_TIME && (targetResult - c) / laps <= MAX_TIME ==>
            p == Pace(c, (targetResult - c) / laps))
  {
    CancelDivision(MIN_TIME, targetResult);
    CancelDivision(MAX_TIME, targetResult);
  }

  /** Without a lock the derived opening is never below MIN_TIME, whatever the result. */
  lemma UnlockedOpeningAtLeastMin(targetResult: real, info: DistanceInfo)
    requires targetResult != 0.0 && info.laps > 0
    ensures LapAndOpening(NoLock, targetResult, info).secOpening >= MIN_TIME
  {
    var laps := info.laps as real;
    var c := OpeningPct(info) * targetResult;
    UnlockedClamping(targetResult, info);
    if MIN_TIME <= c <= MAX_TIME && (targetResult - c) / laps > MAX_TIME {
      DivAtLeast(targetResult - c, MAX_TIME, laps);
    }
  }

  /** The distance example: 500 m with a result of 15 s and no lock gives an opening of 5 s and a lap of 10 s. */
  lemma UnlockedExample()
    ensures LapAndOpening(NoLock, 15.0, Info(D500)) == Pace(5.0, 10.0)
  {
    UnlockedClamping(15.0, Info(D500));
  }

  /**
   * With a lock, a result lies within the result-slider bounds exactly when
   * the free quantity derived from it lies on its own slider.
   */
  lemma LockedBoundsExact(lockMode: LockMode, targetResult: real, info: DistanceInfo)
    requires lockMode != NoLock && targetResult != 0.0 && info.laps > 0
    ensures var b := MinMaxResult(lockMode, info);
      var p := LapAndOpening(lockMode, targetResult, info);
      var free := if lockMode.LapLock? then p.secOpening else p.secLap;
      b.minResult <= targetResult <= b.maxResult <==> MIN_TIME <= free <= MAX_TIME
  {
    if lockMode.OpeningLock? {
      var laps := info.laps as real;
      DivAtLeast(targetResult - lockMode.opening, MIN_TIME, laps);
      DivAtLeast(targetResult - lockMode.opening, MAX_TIME, laps);
    }
  }

  /**
   * Without a lock, every result within the result-slider bounds gives an
   * opening in [MIN_TIME, MAX_TIME] and a lap no slower than MAX_TIME.
   */
  lemma UnlockedWithinBounds(d: Distance, targetResult: real)
    requires MinMaxResult(NoLock, Info(d)).minResult <= targetResult <= MinMaxResult(NoLock, Info(d)).maxResult
    ensures var p := LapAndOpening(NoLock, targetResult, Info(d));
      MIN_TIME <= p.secOpening <= MAX_TIME && p.secLap <= MAX_TIME
  {
    UnlockedClamping(targetResult, Info(d));
  }

  /**
   * Without a lock, every result within the result-slider bounds gives a lap
   * no faster than MIN_TIME for every distance but 10000 m (see
   * UnlockedLapBelowMinAt10000).
   */
  lemma UnlockedLapWithinBounds(d: Distance, targetResult: real)
    requires d != D10000
    requires MinMaxResult(NoLock, Info(d)).minResult <= targetResult <= MinMaxResult(NoLock, Info(d)).maxResult
    ensures MIN_TIME <= LapAndOpening(NoLock, targetResult, Info(d)).secLap
  {
    UnlockedClamping(targetResult, Info(d));
  }

  /**
   * At 10000 m (24 laps, default share 0.045) the lowest result the slider
   * offers, 125 s, gives an unclamped opening of 5.625 s and a lap of
   * 4.97... s, below MIN_TIME: the unlocked derivation clamps the lap only
   * from above.
   */
  lemma UnlockedLapBelowMinAt10000()
    ensures MinMaxResult(NoLock, Info(D10000)).minResult == 125.0
    ensures LapAndOpening(NoLock, 125.0, Info(D10000)).secLap < MIN_TIME
  {
    UnlockedClamping(125.0, Info(D10000));
  }

  // ---------------------------------------------------------------------------
  // Edit mode

  /**
   * What is being edited: opening and lap directly (`laps`), or the result
   * directly (`result`), in which case opening and lap are derived.
   */
  datatype Mode = Laps(lap: real, opening: real) | Result(result: real)

  /** The mode the page starts in: a 20 s opening and 40 s laps. */
  const INITIAL_MODE: Mode := Laps(40.0, 20.0)

  /** The three times the page shows. */
  datatype Times = Times(secLap: real, secOpening: real, result: real)

  /**
   * A result mode can be derived from only when its result is not zero: the
   * source divides by the result, and at zero it shows NaN.
   */
  predicate Derivable(mode: Mode) {
    mode.Result? ==> mode.result != 0.0
  }

  /**
   * The values `useMode` returns for display: in laps mode the stored opening
   * and lap with the result they add up to; in result mode the stored result
   * with the opening and lap derived under the current lock.
   */
  function CurrentTimes(mode: Mode, lockMode: LockMode, info: DistanceInfo): (t: Times)
    requires Derivable(mode) && info.laps > 0
    ensures ResultOf(Pace(t.secOpening, t.secLap), info) == t.result
    ensures mode.Laps? ==> t.secLap == mode.lap && t.secOpening == mode.opening
    ensures mode.Result? ==> t.result == mode.result
    ensures mode.Result? ==> Pace(t.secOpening, t.secLap) == LapAndOpening(lockMode, mode.result, info)
  {
    match mode
    case Laps(lap, opening) => Times(lap, opening, opening + lap * info.laps as real)
    case Result(result) =>
      var p := LapAndOpening(lockMode, result, info);
      Times(p.secLap, p.secOpening, result)
  }

  /**
   * `setOpeningSec`: the page switches to (or stays in) laps mode with the
   * new opening and the lap that was shown when the edit was made.
   */
  function SetOpeningSec(mode: Mode, lockMode: LockMode, info: DistanceInfo, opening: real): (next: Mode)
    requires Derivable(mode) && info.laps > 0
    ensures next.Laps? && next.opening == opening
    ensures next.lap == CurrentTimes(mode, lockMode, info).secLap
  {
    match mode
    case Laps(_, _) => mode.(opening := opening)
    case Result(result) =>
      var p := LapAndOpening(lockMode, result, info);
      Laps(p.secLap, opening)
  }

  /**
   * `setLapSec`: the page switches to (or stays in) laps mode with the new
   * lap and the opening that was shown when the edit was made.
   */
  function SetLapSec(mode: Mode, lockMode: LockMode, info: DistanceInfo, lap: real): (next: Mode)
    requires Derivable(mode) && info.laps > 0
    ensures next.Laps? && next.lap == lap
    ensures next.opening == CurrentTimes(mode, lockMode, info).secOpening
  {
    match mode
    case Laps(_, _) => mode.(lap := lap)
    case Result(result) =>
      var p := LapAndOpening(lockMode, result, info);
      Laps(lap, p.secOpening)
  }

  /** `setResult`: from either mode, the page is in result mode with the new result. */
  function SetResult(mode: Mode, result: real): (next: Mode)
    ensures next.Result? && next.result == result
  {
    match mode
    case Laps(_, _) => Result(result)
    case Result(_) => mode.(result := result)
  }

  /**
   * Moving the result slider to the result already shown, with the lap locked
   * at the lap shown or the opening locked at the opening shown, shows the same
   * three times again.
   */
  lemma SetResultRoundTripLocked(mode: Mode, lockMode: LockMode, info: DistanceInfo)
    requires Derivable(mode) && info.laps > 0
    requires CurrentTimes(mode, lockMode, info).result != 0.0
    requires var t := CurrentTimes(mode, lockMode, info);
      lockMode == LapLock(t.secLap) || lockMode == OpeningLock(t.secOpening)
    ensures var t := CurrentTimes(mode, lockMode, info);
      CurrentTimes(SetResult(mode, t.result), lockMode, info) == t
  {
    var t := CurrentTimes(mode, lockMode, info);
    var laps := info.laps as real;
    if lockMode.OpeningLock? {
      assert t.secLap == (t.result - t.secOpening) / laps by {
        assert t.result - t.secOpening == t.secLap * laps;
      }
    }
  }

  /**
   * Without a lock, moving the result slider to the result shown for laps
   * `Laps(lap, opening)` shows the same opening and lap again when the opening
   * is the distance's default share of that result, lies on its slider and
   * the lap is at most MAX_TIME.
   */
  lemma SetResultRoundTripUnlocked(lap: real, opening: real, info: DistanceInfo)
    requires info.laps > 0 && lap <= MAX_TIME
    requires var result := opening + lap * info.laps as real;
      result != 0.0 && opening == OpeningPct(info) * result && MIN_TIME <= opening <= MAX_TIME
    ensures var t := CurrentTimes(Laps(lap, opening), NoLock, info);
      CurrentTimes(SetResult(Laps(lap, opening), t.result), NoLock, info) == t
  {
    var laps := info.laps as real;
    var result := opening + lap * laps;
    assert CurrentTimes(Laps(lap, opening), NoLock, info).result == result;
    var c := OpeningPct(info) * result;
    assert c == opening;
    DivExact(result - c, lap, laps);
    UnlockedClamping(result, info);
    assert LapAndOpening(NoLock, result, info) == Pace(opening, lap);
  }

  /**
   * Results of zero and below are reachable. From the initial laps mode at
   * 500 m, lock the lap (capturing the 40 s shown) and set the result to
   * 65 s, within the bounds [45, 100]. Selecting 10000 m then shows an
   * opening of 65 - 40 * 24 = -895 s; locking the opening captures it, and
   * the result slider then offers [-775, 545], which contains zero and
   * negative results. A negative result still derives finite times.
   */
  lemma NegativeResultReachable()
    ensures var lapLocked := ToggleLapLock(NoLock, CurrentTimes(INITIAL_MODE, NoLock, Info(D500)).secLap);
      && lapLocked == LapLock(40.0)
      && MinMaxResult(lapLocked, Info(D500)) == Bounds(45.0, 100.0)
      && var shown := CurrentTimes(SetResult(INITIAL_MODE, 65.0), lapLocked, Info(D10000));
      && shown.secOpening == -895.0
      && var openingLocked := ToggleOpeningLock(lapLocked, shown.secOpening);
      && MinMaxResult(openingLocked, Info(D10000)) == Bounds(-775.0, 545.0)
      && LapAndOpening(openingLocked, -100.0, Info(D10000)) == Pace(-895.0, 795.0 / 24.0)
  {
  }
}
