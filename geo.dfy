/** The banded scorer of lib/geo.ts: a distance in kilometres mapped to one of five point values. */
module Geo {

  /** `scoreFromDistanceKm`: a ladder of upper bounds, each tested with `<=`, the first hit wins. */
  function ScoreFromDistanceKm(d: real): (points: int)
    ensures points in {0, 2000, 3000, 4000, 5000}
    ensures points > 0 <==> d <= 2000.0
  {
    if d <= 100.0 then 5000
    else if d <= 500.0 then 4000
    else if d <= 1000.0 then 3000
    else if d <= 2000.0 then 2000
    else 0
  }

  /** One rung of a score ladder: distances up to and including `upTo` earn `points`. */
  datatype Band = Band(upTo: real, points: int)

  /** The ladder of lib/geo.ts written as data, nearest band first. */
  const Bands: seq<Band> := [Band(100.0, 5000), Band(500.0, 4000), Band(1000.0, 3000), Band(2000.0, 2000)]

  /** Points for anything beyond the last band. */
  const Beyond: int := 0

  /** A ladder is well formed when its bounds increase and its points do not, ending above `Beyond`. */
  ghost predicate Ladder(bands: seq<Band>)
  {
    (forall i, j :: 0 <= i < j < |bands| ==> bands[i].upTo < bands[j].upTo && bands[i].points >= bands[j].points) &&
    (forall i :: 0 <= i < |bands| ==> bands[i].points >= Beyond)
  }

  /** Reference definition: the points of the first band whose bound the distance does not exceed. */
  function Lookup(bands: seq<Band>, d: real): int
  {
    if bands == [] then Beyond
    else if d <= bands[0].upTo then bands[0].points
    else Lookup(bands[1..], d)
  }

  lemma BandsIsLadder()
    ensures Ladder(Bands)
  {
  }

  /** The if-chain and the table agree on every distance. */
  lemma ScoreIsLookup(d: real)
    ensures ScoreFromDistanceKm(d) == Lookup(Bands, d)
  {
    var b1, b2, b3 := Bands[1..], Bands[2..], Bands[3..];
    assert b1[1..] == b2 && b2[1..] == b3 && b3[1..] == [];
    assert Lookup(b3, d) == if d <= 2000.0 then 2000 else Lookup([], d);
    assert Lookup(b2, d) == if d <= 1000.0 then 3000 else Lookup(b3, d);
    assert Lookup(b1, d) == if d <= 500.0 then 4000 else Lookup(b2, d);
  }

  /** A lookup in a well-formed ladder gives the points of the band the distance falls into. */
  lemma {:induction false} LookupInBand(bands: seq<Band>, d: real, k: nat)
    requires Ladder(bands)
    requires k < |bands|
    requires d <= bands[k].upTo
    requires k == 0 || bands[k - 1].upTo < d
    ensures Lookup(bands, d) == bands[k].points
  {
    if k > 0 {
      assert bands[0].upTo <= bands[k - 1].upTo;
      assert Ladder(bands[1..]) by {
        forall i, j | 0 <= i < j < |bands[1..]|
          ensures bands[1..][i].upTo < bands[1..][j].upTo && bands[1..][i].points >= bands[1..][j].points
        {
          assert bands[1..][i] == bands[i + 1] && bands[1..][j] == bands[j + 1];
        }
      }
      LookupInBand(bands[1..], d, k - 1);
    }
  }

  /** Lookup in a well-formed ladder never increases with the distance. */
  lemma {:induction false} LookupMonotone(bands: seq<Band>, d1: real, d2: real)
    requires Ladder(bands)
    requires d1 <= d2
    ensures Lookup(bands, d1) >= Lookup(bands, d2)
  {
    if bands != [] {
      var rest := bands[1..];
      assert Ladder(rest) by {
        forall i, j | 0 <= i < j < |rest|
          ensures rest[i].upTo < rest[j].upTo && rest[i].points >= rest[j].points
        {
          assert rest[i] == bands[i + 1] && rest[j] == bands[j + 1];
        }
        forall i | 0 <= i < |rest| ensures rest[i].points >= Beyond {
          assert rest[i] == bands[i + 1];
        }
      }
      if d1 <= bands[0].upTo {
        if d2 > bands[0].upTo {
          LookupBounded(rest, d2, bands[0].points);
        }
      } else {
        LookupMonotone(rest, d1, d2);
      }
    }
  }

  /** Every lookup in a well-formed ladder is at most a bound that caps all its points. */
  lemma {:induction false} LookupBounded(bands: seq<Band>, d: real, cap: int)
    requires Ladder(bands)
    requires cap >= Beyond
    requires forall i :: 0 <= i < |bands| ==> bands[i].points <= cap
    ensures Lookup(bands, d) <= cap
  {
    if bands != [] && d > bands[0].upTo {
      var rest := bands[1..];
      assert Ladder(rest) by {
        forall i, j | 0 <= i < j < |rest|
          ensures rest[i].upTo < rest[j].upTo && rest[i].points >= rest[j].points
        {
          assert rest[i] == bands[i + 1] && rest[j] == bands[j + 1];
        }
        forall i | 0 <= i < |rest| ensures rest[i].points >= Beyond {
          assert rest[i] == bands[i + 1];
        }
      }
      forall i | 0 <= i < |rest| ensures rest[i].points <= cap {
        assert rest[i] == bands[i + 1];
      }
      LookupBounded(rest, d, cap);
    }
  }

  /** The exact bands of the ladder, stated on the scorer itself and read off the band table. */
  lemma ScoreBands(d: real)
    ensures d <= 100.0 ==> ScoreFromDistanceKm(d) == 5000
    ensures 100.0 < d <= 500.0 ==> ScoreFromDistanceKm(d) == 4000
    ensures 500.0 < d <= 1000.0 ==> ScoreFromDistanceKm(d) == 3000
    ensures 1000.0 < d <= 2000.0 ==> ScoreFromDistanceKm(d) == 2000
    ensures 2000.0 < d ==> ScoreFromDistanceKm(d) == 0
  {
    BandsIsLadder();
    ScoreIsLookup(d);
    if d <= 100.0 {
      LookupInBand(Bands, d, 0);
    } else if d <= 500.0 {
      LookupInBand(Bands, d, 1);
    } else if d <= 1000.0 {
      LookupInBand(Bands, d, 2);
    } else if d <= 2000.0 {
      LookupInBand(Bands, d, 3);
    }
  }

  /** A guess further away never scores more. */
  lemma ScoreMonotone(d1: real, d2: real)
    requires d1 <= d2
    ensures ScoreFromDistanceKm(d1) >= ScoreFromDistanceKm(d2)
  {
    ScoreIsLookup(d1);
    ScoreIsLookup(d2);
    BandsIsLadder();
    LookupMonotone(Bands, d1, d2);
  }
}
