# GeoMaster round and scoring logic, modelled in Dafny

GeoMaster is a geography guessing game. The player sees a street-level panorama of a location, drops a guess pin on a world map and scores points by distance. This project models the three pieces of that game that have exact rules:

- `scoring.dfy` (module `Scoring`): `calculateScore` of `app/page.tsx`. The distance is capped at 200 km, the remaining fraction is squared and scaled to 5000 points, the result is floored at 50 and rounded. It is modelled over exact reals, with `Math.round(x)` as `(x + 0.5).Floor`.
- `page.dfy` (module `Page`): the `Home` page's seven `useState` cells, as class `Home`. They are `round`, `actual`, `guess`, `revealed`, `score`, `pointsThisRound` and `guessMade`. The class has the transitions `handleGuess` and `nextRound`, the two setters handed to the child components, and a `Click` method for whichever of "Make Guess" / "Next Round" is shown. A ghost sequence `completed` holds the points of every finished round. The invariant `score == Sum(completed) + pointsThisRound` states that each round adds to the total at most once.
- `geo.dfy` (module `Geo`): the banded scorer `scoreFromDistanceKm` of `lib/geo.ts`. Beside it is an independent table-driven definition of the same ladder. Monotonicity is proved for every well-formed ladder and then carried over to the if-chain.
- `street_view_player.dfy` (module `StreetViewPlayer`): one run of the `useEffect` body in `app/components/StreetViewPlayer.tsx`, as class `Effect`. The run polls with `tryInit`, issues one `getPanorama` request with radius 50000, and reports the panorama's coordinate or the requested one to `onFound`. Its `cancelled` flag is set by the cleanup and silences late calls. The Google library, the container and the street view service are oracle inputs: booleans for "loaded" and "mounted", and a status string with an optional `latLng` for the answer. The `Run*` methods are client scenarios over whole runs, starting with the polling loop.
- `coords.dfy`: the `{ lat, lng }` record and an `Option` type for nullable values.

The haversine distance is never defined. `Home` takes it as a function value, and its invariant requires only that the function is never negative.

The code has no game-over state and no restart, it asks for a panorama with a single radius, and it silences late callbacks with a per-run `cancelled` flag:
- `nextRound` wraps the round index modulo the number of locations. There is no game-over state and no restart (`Page.AdvanceIsModulo`, `Page.RoundsCycle`).
- The panorama lookup uses one request with one radius, not a sequence of radii.
- The stale-result guard is the per-run `cancelled` flag, not a round token.

## Model

| member | source | states |
|---|---|---|
| `Geo.ScoreFromDistanceKm` | lib/geo.ts:30-36 | the result is one of 0, 2000, 3000, 4000, 5000, and it is positive exactly when the distance is at most 2000 km |
| `Geo.ScoreBands` | lib/geo.ts:31-35 | the five exact bands: up to 100 km gives 5000, up to 500 km gives 4000, up to 1000 km gives 3000, up to 2000 km gives 2000, beyond gives 0 |
| `Geo.BandsIsLadder` | lib/geo.ts:31-35 | the thresholds of the ladder increase while its points do not, and none is below the final 0 |
| `Geo.ScoreIsLookup` | lib/geo.ts:30-36 | the if-chain equals a first-match lookup in the band table for every distance |
| `Geo.LookupInBand` | lib/geo.ts:30-36 | in any well-formed ladder, a distance inside band k gets band k's points |
| `Geo.LookupMonotone` | lib/geo.ts:30-36 | lookup in any well-formed ladder never increases with the distance |
| `Geo.ScoreMonotone` | lib/geo.ts:30-36 | a larger distance never scores more under the banded scorer |
| `Scoring.Round` | app/page.tsx:219 | `Math.round` gives the integer r with r - 1/2 <= x < r + 1/2 |
| `Scoring.CalculateScore` | app/page.tsx:210-220 | for any distance that is not negative the score is in [50, 5000]; distance 0 scores 5000; any distance of 200 km or more scores 50 |
| `Scoring.FalloffRange` | app/page.tsx:216-217 | the unrounded quadratic falloff lies in [0, 5000], is 5000 at distance 0, and is 0 from the cap on |
| `Scoring.FalloffMonotone` | app/page.tsx:216-217 | the unrounded falloff never increases with a non-negative distance |
| `Scoring.CalculateScoreMonotone` | app/page.tsx:216-219 | `calculateScore` is non-increasing on [0, infinity) |
| `Scoring.MinimumFrom180Km` | app/page.tsx:213-219 | the 50-point floor already applies from 180 km on, before the 200 km cap |
| `Scoring.FullPointsWithinTenMetres` | app/page.tsx:211-219 | 5000 points at any distance up to 10 m, and fewer than 5000 beyond 11 m |
| `Page.NextIndex` | app/page.tsx:39 | the next round index is in range; it is r + 1 before the last location and 0 after it |
| `Page.AdvanceIsModulo` | app/page.tsx:39 | after k presses of "Next Round" from index r the index is (r + k) mod the number of locations, so there is no end state |
| `Page.RoundsCycle` | app/page.tsx:39 | after as many rounds as there are locations the game is back at its starting location |
| `Page.SumBounds` | app/page.tsx:16 | a list of finished rounds, each worth 0 or between 50 and 5000 points, sums to between 0 and 5000 per round |
| `Page.Home.TotalBounds` | app/page.tsx:16 | in every reachable state the total is non-negative and at most 5000 per finished round plus the current one |
| `Page.Home.constructor` | app/page.tsx:12-18 | the initial cell values: round 0, no actual or guess coordinate, nothing revealed, zero scores, no guess made |
| `Page.Home.SetActual` | app/page.tsx:13 | `setActual` replaces the actual coordinate and leaves every other cell as it was |
| `Page.Home.SetGuess` | app/page.tsx:14 | `setGuess` replaces the guess and leaves every other cell as it was, even after a reveal |
| `Page.Home.HandleGuess` | app/page.tsx:21-36 | with no actual or no guess coordinate nothing changes; otherwise the points p = calculateScore(distance) lie in [50, 5000], `pointsThisRound` becomes p, `score` grows by p, `revealed` and `guessMade` become true, and round, actual and guess stay the same |
| `Page.Home.NextRound` | app/page.tsx:38-45 | the round index becomes (round + 1) mod the number of locations; actual, guess, revealed, pointsThisRound and guessMade are reset; score is unchanged; the finished round's points join `completed` |
| `Page.Home.Click` | app/page.tsx:115-153 | while no guess is made a click keeps actual and guess and, when both are present, makes the guess with `pointsThisRound` = calculateScore(distance) and `score` grown by it; after the guess a click wraps the round index, clears actual and guess and keeps `score`; the total changes only on the click that makes the guess, and `score == Sum(completed) + pointsThisRound` is kept |
| `StreetViewPlayer.Effect.constructor` | app/components/StreetViewPlayer.tsx:16-19 | without a location the run stays inactive; with one, the first `tryInit` either requests at once or leaves a retry due; nothing is reported |
| `StreetViewPlayer.Effect.TryInit` | app/components/StreetViewPlayer.tsx:22-34 | once cancelled it ends the retries and changes nothing else; while the library or container is missing it only reschedules; otherwise it issues exactly one request for the location with radius 50000; it never reports |
| `StreetViewPlayer.Effect.Callback` | app/components/StreetViewPlayer.tsx:34-57 | once cancelled it changes nothing; on "OK" with a coordinate it reports that coordinate and holds a panorama there; in every other case it reports the requested location; each uncancelled call appends exactly one report |
| `StreetViewPlayer.Effect.Cleanup` | app/components/StreetViewPlayer.tsx:62-73 | sets `cancelled`; the panorama reference becomes empty unless `setVisible` throws; requests and reports are unchanged |
| `StreetViewPlayer.RunUncancelled` | app/components/StreetViewPlayer.tsx:22-60 | polling until the library and container are there issues exactly one request with radius 50000 and reports exactly one coordinate, the panorama's own on success and the requested one otherwise; if they never become ready nothing is requested or reported |
| `StreetViewPlayer.RunCancelledInFlight` | app/components/StreetViewPlayer.tsx:35 | a callback arriving after cleanup reports nothing and leaves no panorama |
| `StreetViewPlayer.RunCancelledWhilePolling` | app/components/StreetViewPlayer.tsx:23 | a retry firing after cleanup neither requests nor reports |
| `StreetViewPlayer.RunFoundThenCleanup` | app/components/StreetViewPlayer.tsx:64-68 | after a successful answer `onFound` received the panorama's coordinate, and the cleanup leaves the panorama reference empty |
| `StreetViewPlayer.RunWithoutLocation` | app/components/StreetViewPlayer.tsx:17 | without a location prop nothing is requested and `onFound` is never called |

## Left out

- Haversine distance (`getDistance` in app/page.tsx and `haversineKm` in lib/geo.ts) is left out because it is floating-point trigonometry. The distance is a parameter, assumed only to be non-negative. Symmetry and zero distance are not claimed.
- Floating point in general is left out: scores are computed over exact reals. NaN inputs are not modelled. With NaN every comparison in `scoreFromDistanceKm` fails and it returns 0.
- Scoring.CalculateScore: has no precondition, as in the code. A negative distance can give more than 5000 points (from about -10 m down); the range is stated only for distances that are not negative.
- The `showPopup` cell, its 3-second `setTimeout`, the JSX layout, styles, hover handlers, keyframes and the script tag are left out as presentation.
- The location list (`@/lib/locations`) is not part of this model. `Home` requires only that it is non-empty. With an empty list `(r + 1) % 0` would give NaN.
- React's batching of state updates is not modelled: each handler is applied as one atomic step.
- The page-to-player wiring is not modelled. The page passes `locationIndex`, but the player reads `location`, so in the shipped wiring the effect exits at once. Each component is modelled on its own props.
- app/components/GuessMap.tsx is left out because it only handles Google Maps markers, lines and the viewport. Its click listener captures `revealed` once, so guesses after a reveal are not blocked. `Page.Home.SetGuess` therefore has no reveal guard.
- app/Map.tsx is left out. It uses random coordinates and DOM writes, and repeats the player's fallback.
- The StreetViewPanorama options (heading, pitch, zoom), the static image URL and the `innerHTML` write are left out as DOM and network side effects.
- The street view service is taken to call its callback exactly once per `getPanorama` request, and only after that request. The code itself would call `onFound` again on every further call of the callback. The model cannot express a second or unrequested answer, so `Effect.Valid`'s "at most one report" and the one-report result of `RunUncancelled` rest on this assumption.
- The 200 ms delay of the `setTimeout` retry is left out. A due retry is modelled as the next `TryInit` call.
- A re-run of the effect when its props change is not modelled. Each `Effect` object is one run with its own `cancelled` flag, and `panoramaRef` starts empty.
- The unused constant `perfectDistance` is left out because it has no behaviour.
