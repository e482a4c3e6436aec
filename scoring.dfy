/** The quadratic scorer `calculateScore` of app/page.tsx, over exact reals. */
module Scoring {

  const MaxPoints: real := 5000.0
  /** Distances are capped at 200 km (in metres). */
  const MaxDistance: real := 200000.0
  const MinPoints: real := 50.0

  function Min(a: real, b: real): real { if a <= b then a else b }
  function Max(a: real, b: real): real { if a >= b then a else b }

  /** `Math.round`: the integer nearest to `x`, halves rounded up. */
  function Round(x: real): (r: int)
    ensures r as real - 0.5 <= x < r as real + 0.5
  {
    (x + 0.5).Floor
  }

  /** The unrounded quadratic falloff: `maxPoints * ((maxDistance - capped) / maxDistance) ** 2`. */
  function Falloff(distance: real): real
  {
    var fraction := (MaxDistance - Min(distance, MaxDistance)) / MaxDistance;
    MaxPoints * (fraction * fraction)
  }

  /** `calculateScore(distance)`, with every guarantee that holds for a distance that is not negative. */
  function CalculateScore(distance: real): (points: int)
    ensures distance >= 0.0 ==> 50 <= points <= 5000
    ensures distance == 0.0 ==> points == 5000
    ensures distance >= MaxDistance ==> points == 50
  {
    FalloffRange(distance);
    Round(Max(Falloff(distance), MinPoints))
  }

  /** The falloff lies between 0 and `MaxPoints` for any distance that is not negative. */
  lemma FalloffRange(distance: real)
    ensures distance >= 0.0 ==> 0.0 <= Falloff(distance) <= MaxPoints
    ensures distance == 0.0 ==> Falloff(distance) == MaxPoints
    ensures distance >= MaxDistance ==> Falloff(distance) == 0.0
  {
    var fraction := (MaxDistance - Min(distance, MaxDistance)) / MaxDistance;
    if distance >= 0.0 {
      assert 0.0 <= fraction <= 1.0;
      SquareMonotone(fraction, 1.0);
    }
  }

  /** Squaring is monotone on the non-negative reals. */
  lemma SquareMonotone(a: real, b: real)
    requires 0.0 <= a <= b
    ensures a * a <= b * b
  {
  }

  /** Moving the guess further away never raises the falloff. */
  lemma FalloffMonotone(d1: real, d2: real)
    requires 0.0 <= d1 <= d2
    ensures Falloff(d1) >= Falloff(d2)
  {
    var f1 := (MaxDistance - Min(d1, MaxDistance)) / MaxDistance;
    var f2 := (MaxDistance - Min(d2, MaxDistance)) / MaxDistance;
    assert 0.0 <= f2 <= f1;
    SquareMonotone(f2, f1);
  }

  /** `calculateScore` is non-increasing in the distance on [0, infinity). */
  lemma CalculateScoreMonotone(d1: real, d2: real)
    requires 0.0 <= d1 <= d2
    ensures CalculateScore(d1) >= CalculateScore(d2)
  {
    FalloffMonotone(d1, d2);
  }

  /** The minimum of 50 points is already reached at 180 km, short of the 200 km cap. */
  lemma MinimumFrom180Km(distance: real)
    requires distance >= 180000.0
    ensures CalculateScore(distance) == 50
  {
    var fraction := (MaxDistance - Min(distance, MaxDistance)) / MaxDistance;
    assert 0.0 <= fraction <= 0.1;
    SquareMonotone(fraction, 0.1);
  }

  /** The full 5000 points are earned only within about ten metres: at 10 m still, beyond 11 m no more. */
  lemma FullPointsWithinTenMetres(distance: real)
    ensures 0.0 <= distance <= 10.0 ==> CalculateScore(distance) == 5000
    ensures distance > 11.0 ==> CalculateScore(distance) < 5000
  {
    if 0.0 <= distance <= 10.0 {
      var fraction := (MaxDistance - distance) / MaxDistance;
      assert 0.99995 <= fraction;
      SquareMonotone(0.99995, fraction);
    }
    if distance > 11.0 {
      var fraction := (MaxDistance - Min(distance, MaxDistance)) / MaxDistance;
      assert 0.0 <= fraction < 0.999945;
      SquareMonotone(fraction, 0.999945);
    }
  }
}
