# Speed-skating pacing model

A Dafny model of the pacing calculator in `src/splits.tsx` of skatetimes. For
a race distance the page relates three times: the opening (the first, shorter
part of the race), the steady time of each following 400 m lap, and the result.
The result is always `opening + lap * laps`. The user edits either opening and
lap directly (laps mode) or the result directly (result mode). In result mode
opening and lap are derived from the result, holding a locked quantity fixed
when the lap or the opening is locked and otherwise starting from a fixed
per-distance opening share with clamping. The page also shows result-slider
bounds and a split table.

Times are exact `real` seconds, distances and lap counts `nat`. The model
checks the intended algebra, not double-precision rounding.

Modules:

- `Distances` (`distances.dfy`): the distance table, `getOpeningPct`, and the
  rule that picks the initial distance from the `distance` query parameter.
- `Pacing` (`pacing.dfy`): lock mode and its toggles, result-slider bounds,
  `calculateLapAndOpeningFromLockMode`, the edit mode and its setters
  (`useLockMode` and `useMode` as pure state transitions).
- `SplitTable` (`split_table.dfy`): `lapSplits` as a loop with invariants.
- `Decimal` (`decimal.dfy`): `toString`, `padStart` and `formatDistance`.
- `Page` (`page.dfy`): a class holding the three state hooks of the page
  (selected distance, lock mode, edit mode). Its methods replace that state
  through the transitions of `Pacing`, including the slider handlers that
  release a lock on the quantity being edited.
- `Wrappers` (`wrappers.dfy`): `Option`.

Notes on the code:

- The derivation is written as the source computes it, through shares of the
  result (`opening / result`, then `share * result`). The contracts show
  that this equals the closed forms: under a lap lock `L`, opening
  `result - L * laps`; under an opening lock `O`, lap `(result - O) / laps`.
  Every branch gives `opening + lap * laps == result`.
- The slider handlers release the lock of the quantity being edited
  (src/splits.tsx:296-300, 338-342); a lock on the other quantity stays.
  Opening and lap are kept within [5, 60] only by the sliders. The unlocked
  derivation clamps the opening from both sides and the lap only from above.
- Without a lock, at 10000 m (24 laps, share 0.045), the lowest result the
  slider offers is 125 s. It derives an unclamped opening of 5.625 s and a lap
  of about 4.97 s, below the 5 s lap-slider minimum
  (`Pacing.UnlockedLapBelowMinAt10000`). For the other five distances every
  result within the bounds derives both times within [5, 60]
  (`Pacing.UnlockedWithinBounds`, `Pacing.UnlockedLapWithinBounds`). This is recorded as an observation; the
  intended behaviour here is not evident.
- The 3000 m entry (200 m opening, 6 laps) covers 2600 m. Its split table
  therefore ends 400 m short of the race distance. `Distances.Info` and
  `SplitTable.FinalSplitDistance` state this as an if-and-only-if.
- The derivation requires `targetResult != 0` and `laps > 0`, because the
  source divides by both. `Distances.Info` gives every entry at least one lap.
  Negative results are modelled, since the page can reach them. A lap lock
  held in result mode, followed by a switch to a distance with more laps,
  shows a negative opening. Either toggling the opening lock, or moving the
  lap slider (which releases the lap lock and stores that opening) and then
  toggling the opening lock, captures it off its slider.
  `Pacing.NegativeResultReachable` gives such a path. Lock the lap at 40 s at
  500 m and set the result to 65 s. Then select 10000 m, which shows an
  opening of -895 s. Locking that opening makes the result slider offer
  [-775, 545]. `Pacing.BoundsPositive` shows the bounds are positive while
  the locked value lies on its slider. This is recorded as an observation;
  the intended behaviour here is not evident.

## Model

| member | source | states |
|---|---|---|
| `Distances.Info` | src/splits.tsx:72-103 | each entry names its own distance, has at least one full lap and an opening in (0, 400]; opening plus 400 m per lap equals the race length exactly when the distance is not 3000 m |
| `Distances.OpeningPct` | src/splits.tsx:113-128 | the default opening share lies strictly between 0 and 1 for every distance |
| `Distances.OpeningPctDecreasing` | src/splits.tsx:113-128 | a longer race has a strictly smaller default opening share, and conversely |
| `Distances.KeyIsDecimalMeters` | src/splits.tsx:472-473 | each table key is the decimal rendering of the race length, so `parseInt` of the key gives the length |
| `Distances.DistanceOfKey` | src/splits.tsx:472 | the own-property lookup finds a distance exactly when the parameter is that distance's key |
| `Distances.InitialDistance` | src/splits.tsx:466-476 | a parameter that is a key selects the distance with that key; no parameter, or one that is no key, selects 5000 m |
| `Distances.InitialDistanceRoundTrip` | src/splits.tsx:18-23 | the parameter written for a distance selects that same distance on the next load |
| `Decimal.ToDecimal` | src/splits.tsx:437 | `toString` of a non-negative integer is a non-empty digit string that starts with 0 only for 0 |
| `Decimal.ParseToDecimal` | src/splits.tsx:437 | reading the decimal rendering back gives the number |
| `Decimal.ToDecimalLength` | src/splits.tsx:437 | a number has at most k digits exactly when it is below 10^k |
| `Decimal.PadStart` | src/splits.tsx:437 | `padStart` keeps the string as its suffix, fills the rest with the fill character, and has length max(length, width) |
| `Decimal.FormatDistance` | src/splits.tsx:436-438 | the distance cell is spaces, then the decimal digits of the distance, then "m", and is six characters long for every distance below 100000 |
| `Decimal.FormatDistanceRoundTrip` | src/splits.tsx:436-438 | stripping the padding and the "m" from a distance cell gives back the distance |
| `Decimal.FormatDistanceExample` | src/splits.tsx:436-438 | `formatDistance(200)` is "  200m" |
| `Pacing.ToggleLapLock` | src/splits.tsx:142-143 | the result is lap-locked exactly when the old mode was not, then at the captured value; otherwise it is no lock |
| `Pacing.ToggleOpeningLock` | src/splits.tsx:144-145 | the result is opening-locked exactly when the old mode was not, then at the captured value; otherwise it is no lock |
| `Pacing.LockFlags` | src/splits.tsx:146-147 | `lapLock` is on exactly under a lap lock and `openingLock` exactly under an opening lock; they are never both on, and one is on exactly when some lock is active |
| `Pacing.ToggleTwiceReleases` | src/splits.tsx:142-145 | toggling the same lock twice from a state without that lock ends with no lock |
| `Pacing.MinMaxResult` | src/splits.tsx:194-212 | min is below max whenever there is at least one lap; unlocked, the bounds are 5·(laps+1) and 60·(laps+1) |
| `Pacing.MinMaxResultExample` | src/splits.tsx:206-210 | unlocked bounds for 5000 m are 65 s and 780 s |
| `Pacing.BoundsPositive` | src/splits.tsx:194-212 | with the locked value on its slider, every result the slider offers is positive |
| `Pacing.LapAndOpening` | src/splits.tsx:214-255 | in every branch opening plus laps times lap equals the target result; a lap lock L gives lap L and opening result − L·laps; an opening lock O gives opening O and lap (result − O)/laps |
| `Pacing.OpeningLockedLapAndOpening` | src/splits.tsx:216-223 | the share-based computation yields opening O and lap (result − O)/laps |
| `Pacing.LapLockedLapAndOpening` | src/splits.tsx:224-230 | the share-based computation yields lap L and opening result − L·laps |
| `Pacing.UnlockedLapAndOpening` | src/splits.tsx:231-253 | every unlocked branch, clamped or not, gives opening plus laps times lap equal to the result |
| `Pacing.LapFromOpeningPct` | src/splits.tsx:219-220 | the lap computed from an opening share is the rest of the result divided evenly over the laps |
| `Pacing.UnlockedClamping` | src/splits.tsx:231-253 | unlocked, with c the default share of the result: c < 5 gives (5, (result−5)/laps); c > 60 gives (60, (result−60)/laps); otherwise a lap above 60 gives (result − 60·laps, 60); otherwise (c, (result−c)/laps) |
| `Pacing.UnlockedOpeningAtLeastMin` | src/splits.tsx:231-253 | unlocked, the derived opening is at least 5 s for every non-zero result, negative ones included |
| `Pacing.UnlockedExample` | src/splits.tsx:234-239 | 500 m, result 15 s, no lock: opening 5 s, lap 10 s |
| `Pacing.LockedBoundsExact` | src/splits.tsx:194-230 | under a lap or opening lock, a result lies within the slider bounds exactly when the derived free quantity lies in [5, 60] |
| `Pacing.UnlockedWithinBounds` | src/splits.tsx:206-253 | unlocked, every result within the bounds derives an opening in [5, 60] and a lap of at most 60 |
| `Pacing.UnlockedLapWithinBounds` | src/splits.tsx:206-253 | unlocked, every result within the bounds derives a lap of at least 5 for every distance but 10000 m |
| `Pacing.UnlockedLapBelowMinAt10000` | src/splits.tsx:246-252 | at 10000 m the lowest result the slider offers (125 s) derives a lap below 5 s |
| `Pacing.CurrentTimes` | src/splits.tsx:152-189 | the shown opening plus laps times the shown lap is the shown result; laps mode shows the stored opening and lap; result mode shows the stored result with the opening and lap derived from it under the current lock |
| `Pacing.SetOpeningSec` | src/splits.tsx:156-180 | from either mode the page goes to laps mode with the new opening and the lap that was shown |
| `Pacing.SetLapSec` | src/splits.tsx:159-183 | from either mode the page goes to laps mode with the new lap and the opening that was shown |
| `Pacing.SetResult` | src/splits.tsx:162-186 | from either mode the page goes to result mode with the new result |
| `Pacing.SetResultRoundTripLocked` | src/splits.tsx:214-230 | with the lap locked at the shown lap, or the opening at the shown opening, setting the result to the shown result shows the same three times |
| `Pacing.SetResultRoundTripUnlocked` | src/splits.tsx:231-253 | unlocked, from laps mode whose opening is the default share of its result, lies in [5, 60] and whose lap is at most 60, setting the result to the shown result shows the same opening and lap |
| `Pacing.NegativeResultReachable` | src/splits.tsx:194-230 | a lap lock at 40 s, a 65 s result at 500 m, then 10000 m shows a -895 s opening; locking it gives result bounds [-775, 545], and a negative result there derives finite times |
| `SplitTable.LapSplits` | src/splits.tsx:453-464 | exactly laps + 1 rows; row i has lap number i+1, distance opening + 400·i and time opening time + i·lap time |
| `SplitTable.ConsecutiveSplits` | src/splits.tsx:457-462 | consecutive rows are 400 m, one lap time and one lap number apart |
| `SplitTable.FinalSplit` | src/splits.tsx:457-462 | the last row has lap number laps + 1 and the time opening + lap·laps, the laps-mode result |
| `SplitTable.FinalSplitDistance` | src/splits.tsx:88-92 | the last row's distance is the race length exactly when the distance is not 3000 m |
| `SplitTable.SplitsEndAtShownResult` | src/splits.tsx:168 | in laps mode and in result mode under any lock, the split table computed from the shown opening and lap ends at the shown result |
| `SplitTable.SplitsExample1000` | src/splits.tsx:453-464 | 1000 m at 20 s / 40 s: rows (1, 200 m, 20 s), (2, 600 m, 60 s), (3, 1000 m, 100 s) |
| `Page.PageState.constructor` | src/splits.tsx:9-13 | the page starts at the given distance with no lock and laps mode at a 20 s opening and 40 s laps |
| `Page.PageState.SelectDistance` | src/splits.tsx:33 | a new distance leaves lock and edit mode unchanged |
| `Page.PageState.SetLapLock` | src/splits.tsx:142-143 | the lock becomes the lap toggle of the old lock; distance and mode are unchanged |
| `Page.PageState.SetOpeningLock` | src/splits.tsx:144-145 | the lock becomes the opening toggle of the old lock; distance and mode are unchanged |
| `Page.PageState.ToggleLapSwitch` | src/splits.tsx:45 | the lap switch toggles the lap lock, capturing the lap shown |
| `Page.PageState.ToggleOpeningSwitch` | src/splits.tsx:51 | the opening switch toggles the opening lock, capturing the opening shown |
| `Page.PageState.SetOpeningSec` | src/splits.tsx:155-180 | the page shows the new opening and the lap it showed before; lock and distance are unchanged |
| `Page.PageState.SetLapSec` | src/splits.tsx:155-183 | the page shows the new lap and the opening it showed before; lock and distance are unchanged |
| `Page.PageState.SetResult` | src/splits.tsx:162-186 | the page shows the new result; lock and distance are unchanged |
| `Page.PageState.OpeningSliderChanged` | src/splits.tsx:296-300 | a locked opening is released, other locks stay; the mode becomes laps with the new opening and the lap shown before the edit |
| `Page.PageState.LapSliderChanged` | src/splits.tsx:338-342 | a locked lap is released, other locks stay; the mode becomes laps with the new lap and the opening shown before the edit |
| `Page.PageState.ShownSplits` | src/splits.tsx:257-262 | the split table for the shown times has laps + 1 rows, row i at the opening plus i laps of distance and of shown lap time; it ends at the shown result, and at the race length exactly when the distance is not 3000 m |

## Left out

- Page layout and rendering: the `Page` JSX, the sliders' styling and marks, `LockButton`, the table markup and `App.tsx`. These are presentation only.
- The URL effect that writes `?distance=` with `window.history.replaceState` (src/splits.tsx:18-23). It is I/O. Only its round trip with the initial-distance rule is stated.
- The `window` and `URLSearchParams` reads in `getInitialDistance`. The query parameter is an `Option<string>` argument, `None` when there is no window or no parameter.
- `secKmToMinKm`, `formatLap` and `formatSplitTime` (src/splits.tsx:423-434, 440-445). They depend on `Math.round`, `Math.floor`, `%` and `toFixed` over binary floating point, whose rounding is not captured by exact reals.
- IEEE-754 arithmetic in general. Times are exact reals, so the model checks the intended algebra; a sum that rounds in double precision is exact here.
- React mechanics: re-rendering and which render a closure captured. The slider handlers take their setters from the state as it was before the edit; that is the one place where the captured state matters, and it is modelled.
- Pacing.LapAndOpening: a result of exactly 0 is excluded, because the source divides by it and shows NaN there. The same holds for its three branch functions, `Pacing.Derivable` and `Pacing.CurrentTimes`.
- Page.PageState.SetResult: a result of exactly 0 is excluded, because the source then shows NaN. The result slider can offer 0 once a lock holds a value off its slider (`Pacing.NegativeResultReachable`).
