/** The round and score state of the `Home` page of app/page.tsx. */
module Page {
  import opened Options
  import opened Coords
  import Scoring

  /** The one control the page shows below the map. */
  datatype Button = MakeGuessButton | NextRoundButton

  /** `(r + 1) % locations.length`: the next round index, wrapping to 0 after the last location. */
  function NextIndex(r: nat, count: nat): (next: nat)
    requires count > 0
    ensures next < count
    ensures r + 1 < count ==> next == r + 1
    ensures r + 1 == count ==> next == 0
  {
    (r + 1) % count
  }

  /** The round index after `k` presses of "Next Round", starting from `r`. */
  function Advance(r: nat, count: nat, k: nat): nat
    requires count > 0
  {
    if k == 0 then r else NextIndex(Advance(r, count, k - 1), count)
  }

  /** There is no game-over state: after `k` rounds the index is `(r + k) % count`. */
  lemma {:induction false} AdvanceIsModulo(r: nat, count: nat, k: nat)
    requires count > 0 && r < count
    ensures Advance(r, count, k) == (r + k) % count
  {
    if k == 0 {
      ModuloUnique(r, count, 0, r);
    } else {
      AdvanceIsModulo(r, count, k - 1);
      ModuloStep(r + k - 1, count);
    }
  }

  /** Taking the next index commutes with reducing modulo `count`. */
  lemma ModuloStep(a: nat, count: nat)
    requires count > 0
    ensures NextIndex(a % count, count) == (a + 1) % count
  {
    var q, m := a / count, a % count;
    assert a == q * count + m;
    if m + 1 < count {
      ModuloUnique(a + 1, count, q, m + 1);
    } else {
      assert (q + 1) * count == q * count + count;
      ModuloUnique(a + 1, count, q + 1, 0);
    }
  }

  /** The remainder is determined by any quotient-remainder decomposition. */
  lemma ModuloUnique(n: nat, count: nat, q: int, m: nat)
    requires count > 0 && m < count && n == q * count + m
    ensures n % count == m
  {
    var q0, m0 := n / count, n % count;
    assert n == q0 * count + m0;
    var d := q - q0;
    assert d * count == q * count - q0 * count;
    assert (-d) * count == q0 * count - q * count;
    if d > 0 {
      MultipleAtLeast(d, count);
      assert false;
    } else if d < 0 {
      MultipleAtLeast(-d, count);
      assert false;
    }
  }

  /** A positive multiple of `count` is at least `count`. */
  lemma MultipleAtLeast(d: int, count: nat)
    requires d >= 1
    ensures d * count >= count
  {
  }

  /** After exactly `count` rounds the game is back at the location it started from. */
  lemma RoundsCycle(r: nat, count: nat)
    requires count > 0 && r < count
    ensures Advance(r, count, count) == r
  {
    AdvanceIsModulo(r, count, count);
    ModuloUnique(r + count, count, 1, r);
  }

  /** The sum of the points of finished rounds. */
  function Sum(points: seq<int>): int
  {
    if points == [] then 0 else Sum(points[..|points| - 1]) + points[|points| - 1]
  }

  /** Every finished round scored between 50 and 5000 points, or 0 when `NextRound` is called
      directly, without the guess that the shown button demands first. */
  ghost predicate RoundPoints(points: seq<int>)
  {
    forall i :: 0 <= i < |points| ==> points[i] == 0 || 50 <= points[i] <= 5000
  }

  /** The sum of such rounds is between 0 and 5000 per round. */
  lemma {:induction false} SumBounds(points: seq<int>)
    requires RoundPoints(points)
    ensures 0 <= Sum(points) <= 5000 * |points|
  {
    if points != [] {
      var init := points[..|points| - 1];
      assert RoundPoints(init) by {
        forall i | 0 <= i < |init| ensures init[i] == 0 || 50 <= init[i] <= 5000 {
          assert init[i] == points[i];
        }
      }
      SumBounds(init);
    }
  }

  /** Finishing a round with 0 or between 50 and 5000 points adds exactly those points to the sum. */
  lemma AppendRound(before: seq<int>, p: int)
    requires RoundPoints(before)
    requires p == 0 || 50 <= p <= 5000
    ensures RoundPoints(before + [p])
    ensures Sum(before + [p]) == Sum(before) + p
  {
    assert (before + [p])[..|before|] == before;
  }

  /** The seven `useState` cells of `Home` that the round logic uses. */
  class Home {
    /** `locations.length`, fixed for the page's life. */
    const locationCount: nat
    /** `getDistance`, the haversine distance in metres, taken as given. */
    const getDistance: (LatLng, LatLng) -> real

    var round: nat
    var actual: Option<LatLng>
    var guess: Option<LatLng>
    var revealed: bool
    var score: int
    var pointsThisRound: int
    var guessMade: bool

    /** Points of every round already left through "Next Round", in order. */
    ghost var completed: seq<int>

    ghost predicate Valid()
      reads this
    {
      locationCount > 0 && round < locationCount &&
      NonNegativeDistance(getDistance) &&
      revealed == guessMade &&
      (guessMade ==> actual.Some? && guess.Some? && 50 <= pointsThisRound <= 5000) &&
      (!guessMade ==> pointsThisRound == 0) &&
      RoundPoints(completed) &&
      score == Sum(completed) + pointsThisRound
    }

    /** The total is a non-negative accumulator: at most 5000 for each finished round and the current one. */
    lemma TotalBounds()
      requires Valid()
      ensures 0 <= score <= 5000 * (|completed| + 1)
    {
      SumBounds(completed);
    }

    /** Which button the controls show. */
    function Shown(): Button
      reads this
    {
      if !guessMade then MakeGuessButton else NextRoundButton
    }

    /** The initial `useState` values. */
    constructor (locationCount: nat, getDistance: (LatLng, LatLng) -> real)
      requires locationCount > 0
      requires NonNegativeDistance(getDistance)
      ensures Valid()
      ensures this.locationCount == locationCount && this.getDistance == getDistance
      ensures round == 0 && actual == None && guess == None && !revealed
      ensures score == 0 && pointsThisRound == 0 && !guessMade && completed == []
    {
      this.locationCount := locationCount;
      this.getDistance := getDistance;
      round, actual, guess, revealed := 0, None, None, false;
      score, pointsThisRound, guessMade := 0, 0, false;
      completed := [];
    }

    /** `setActual`, the `onFound` callback handed to the street view player. */
    method SetActual(c: LatLng)
      requires Valid()
      modifies this
      ensures Valid() && actual == Some(c)
      ensures round == old(round) && guess == old(guess) && revealed == old(revealed)
      ensures score == old(score) && pointsThisRound == old(pointsThisRound) && guessMade == old(guessMade)
      ensures completed == old(completed)
    {
      actual := Some(c);
    }

    /** `setGuess`, handed to the guess map; its listener keeps calling it after a reveal. */
    method SetGuess(c: LatLng)
      requires Valid()
      modifies this
      ensures Valid() && guess == Some(c)
      ensures round == old(round) && actual == old(actual) && revealed == old(revealed)
      ensures score == old(score) && pointsThisRound == old(pointsThisRound) && guessMade == old(guessMade)
      ensures completed == old(completed)
    {
      guess := Some(c);
    }

    /** `handleGuess`: score the round once both coordinates exist, otherwise do nothing. */
    method HandleGuess()
      requires Valid()
      modifies this
      ensures old(actual).None? || old(guess).None? ==> unchanged(this)
      ensures old(actual).Some? && old(guess).Some? ==>
        var p := Scoring.CalculateScore(getDistance(old(actual).value, old(guess).value));
        && 50 <= p <= 5000
        && pointsThisRound == p && score == old(score) + p
        && revealed && guessMade
        && round == old(round) && actual == old(actual) && guess == old(guess)
        && completed == old(completed)
      ensures !old(guessMade) ==> Valid()
    {
      if actual.None? || guess.None? {
        return;
      }
      var distance := getDistance(actual.value, guess.value);
      var points := Scoring.CalculateScore(distance);
      pointsThisRound := points;
      score := score + points;
      revealed := true;
      guessMade := true;
    }

    /** `nextRound`: move to the next location and clear every per-round cell; the total stays. */
    method NextRound()
      requires Valid()
      modifies this
      ensures Valid()
      ensures round == NextIndex(old(round), locationCount)
      ensures actual == None && guess == None && !revealed && pointsThisRound == 0 && !guessMade
      ensures score == old(score)
      ensures completed == old(completed) + [old(pointsThisRound)]
    {
      AppendRound(completed, pointsThisRound);
      completed := completed + [pointsThisRound];
      round := NextIndex(round, locationCount);
      actual, guess, revealed := None, None, false;
      pointsThisRound, guessMade := 0, false;
      assert score == Sum(completed);
    }

    /** A click on whichever button is shown: "Make Guess" while no guess is made, else "Next Round". */
    method Click()
      requires Valid()
      modifies this
      ensures Valid()
      ensures old(Shown()) == MakeGuessButton ==>
        round == old(round) && completed == old(completed) &&
        actual == old(actual) && guess == old(guess) &&
        (score == old(score) + pointsThisRound) &&
        (score != old(score) ==> guessMade)
      ensures old(Shown()) == MakeGuessButton && old(actual).Some? && old(guess).Some? ==>
        guessMade && revealed &&
        pointsThisRound == Scoring.CalculateScore(getDistance(old(actual).value, old(guess).value))
      ensures old(Shown()) == NextRoundButton ==>
        round == NextIndex(old(round), locationCount) && score == old(score) && Shown() == MakeGuessButton &&
        completed == old(completed) + [old(pointsThisRound)] &&
        actual == None && guess == None && !revealed && pointsThisRound == 0
      ensures score != old(score) ==> !old(guessMade) && guessMade
    {
      if !guessMade {
        HandleGuess();
      } else {
        NextRound();
      }
    }
  }
}
