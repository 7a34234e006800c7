/**
 * Route metrics derived from the coordinates of a GeoJSON LineString:
 * the distance in miles and the elevation gain in feet.
 *
 * Both are sums over consecutive pairs of positions. The elevation term is
 * modelled exactly over `real`; the distance term (the Haversine formula)
 * is a parameter, because its trigonometry is out of reach.
 */
module GeoUtils {

  /** One GeoJSON position: `[longitude, latitude]` or `[longitude, latitude, elevation]`. */
  type Position = seq<real>

  /** A quantity computed for one pair of consecutive positions. */
  type PairTerm = (Position, Position) -> real

  /** Conversion factor from metres to feet used by the elevation gain. */
  const FeetPerMetre: real := 3.28084

  /** JavaScript's `Math.round`: the nearest integer, halves rounded towards +infinity. */
  function JsRound(x: real): (r: int)
    ensures x - 0.5 < r as real <= x + 0.5
  {
    (x + 0.5).Floor
  }

  /** The elevation of a position in metres; a missing third entry reads as 0. */
  function Elevation(p: Position): real
  {
    if |p| > 2 then p[2] else 0.0
  }

  /** Metres climbed between two consecutive positions: a rise counts, a descent counts as nothing. */
  function Climb(p: Position, q: Position): (m: real)
    ensures m >= 0.0 && m >= Elevation(q) - Elevation(p)
    ensures m == 0.0 || m == Elevation(q) - Elevation(p)
  {
    var diff := Elevation(q) - Elevation(p);
    if diff > 0.0 then diff else 0.0
  }

  /** The in-order sum of `f` over every pair of consecutive positions of `c`. */
  function PairSum(f: PairTerm, c: seq<Position>): real
  {
    if |c| < 2 then 0.0 else PairSum(f, c[..|c| - 1]) + f(c[|c| - 2], c[|c| - 1])
  }

  /** Total metres climbed along a path. */
  function ClimbTotal(c: seq<Position>): real
  {
    PairSum(Climb, c)
  }

  /** The elevation gain of a path in whole feet, as the route record stores it. */
  function ElevationGainFeet(c: seq<Position>): (feet: int)
    ensures feet >= 0
    ensures |c| < 2 ==> feet == 0
    ensures ClimbTotal(c) * FeetPerMetre - 0.5 < feet as real <= ClimbTotal(c) * FeetPerMetre + 0.5
  {
    ClimbTotalNonNegative(c);
    JsRound(ClimbTotal(c) * FeetPerMetre)
  }

  /** The length of a path in miles, rounded to tenths, for a given segment distance. */
  function DistanceMiles(segment: PairTerm, c: seq<Position>): (miles: real)
    ensures |c| < 2 ==> miles == 0.0
    ensures (miles * 10.0).Floor as real == miles * 10.0
    ensures PairSum(segment, c) - 0.05 < miles <= PairSum(segment, c) + 0.05
  {
    JsRound(PairSum(segment, c) * 10.0) as real / 10.0
  }

  /** `calculateDistance`: one pass over the consecutive pairs, then rounding to tenths. */
  method CalculateDistance(segment: PairTerm, coords: seq<Position>) returns (miles: real)
    ensures miles == DistanceMiles(segment, coords)
  {
    var total := 0.0;
    var i := 1;
    // The loop starts at i = 1 even on an empty array, so the empty case visits the empty prefix.
    while i < |coords|
      invariant 1 <= i && (|coords| == 0 || i <= |coords|)
      invariant total == PairSum(segment, coords[..if |coords| == 0 then 0 else i])
    {
      assert coords[..i + 1][..i] == coords[..i];
      total := total + segment(coords[i - 1], coords[i]);
      i := i + 1;
    }
    assert coords[..if |coords| == 0 then 0 else i] == coords;
    miles := JsRound(total * 10.0) as real / 10.0;
  }

  /** `calculateElevationGain`: one pass adding each positive rise, then metres to feet. */
  method CalculateElevationGain(coords: seq<Position>) returns (feet: int)
    ensures feet == ElevationGainFeet(coords)
  {
    var gain := 0.0;
    var i := 1;
    // The loop starts at i = 1 even on an empty array, so the empty case visits the empty prefix.
    while i < |coords|
      invariant 1 <= i && (|coords| == 0 || i <= |coords|)
      invariant gain == ClimbTotal(coords[..if |coords| == 0 then 0 else i])
    {
      assert coords[..i + 1][..i] == coords[..i];
      var elevDiff := Elevation(coords[i]) - Elevation(coords[i - 1]);
      if elevDiff > 0.0 {
        gain := gain + elevDiff;
      }
      i := i + 1;
    }
    assert coords[..if |coords| == 0 then 0 else i] == coords;
    feet := JsRound(gain * FeetPerMetre);
  }

  // ---------------------------------------------------------------------------
  // Properties of the pair sum
  // ---------------------------------------------------------------------------

  /** A sum of non-negative terms is non-negative. */
  lemma {:induction false} PairSumNonNegative(f: PairTerm, c: seq<Position>)
    requires forall p, q :: f(p, q) >= 0.0
    ensures PairSum(f, c) >= 0.0
  {
    if |c| >= 2 {
      PairSumNonNegative(f, c[..|c| - 1]);
    }
  }

  /** Descents are never subtracted, so the metres climbed are never negative. */
  lemma ClimbTotalNonNegative(c: seq<Position>)
    ensures ClimbTotal(c) >= 0.0
  {
    PairSumNonNegative(Climb, c);
  }

  /** Appending a position adds exactly the term for the new last pair. */
  lemma PairSumAppend(f: PairTerm, c: seq<Position>, x: Position)
    requires |c| >= 1
    ensures PairSum(f, c + [x]) == PairSum(f, c) + f(c[|c| - 1], x)
  {
  }

  /** Appending a position no higher than the last leaves the climb unchanged; a higher one adds the rise. */
  lemma ClimbAppend(c: seq<Position>, x: Position)
    requires |c| >= 1
    ensures Elevation(x) <= Elevation(c[|c| - 1]) ==> ClimbTotal(c + [x]) == ClimbTotal(c)
    ensures Elevation(x) > Elevation(c[|c| - 1]) ==>
              ClimbTotal(c + [x]) == ClimbTotal(c) + (Elevation(x) - Elevation(c[|c| - 1]))
  {
  }

  /** The sum over a concatenation splits at the pair that joins the two parts. */
  lemma {:induction false} PairSumConcat(f: PairTerm, a: seq<Position>, b: seq<Position>)
    requires |a| >= 1 && |b| >= 1
    ensures PairSum(f, a + b) == PairSum(f, a) + f(a[|a| - 1], b[0]) + PairSum(f, b)
  {
    if |b| == 1 {
      PairSumAppend(f, a, b[0]);
      assert a + b == a + [b[0]];
    } else {
      var b' := b[..|b| - 1];
      PairSumConcat(f, a, b');
      assert (a + b)[..|a + b| - 1] == a + b';
      assert b'[0] == b[0];
    }
  }

  /** Summing from the front: the first pair's term plus the sum over the rest. */
  lemma PairSumCons(f: PairTerm, x: Position, c: seq<Position>)
    requires |c| >= 1
    ensures PairSum(f, [x] + c) == f(x, c[0]) + PairSum(f, c)
  {
    PairSumConcat(f, [x], c);
  }

  /** The positions of a path in reverse order. */
  function Reverse(c: seq<Position>): (r: seq<Position>)
    ensures |r| == |c|
    ensures forall i :: 0 <= i < |c| ==> r[i] == c[|c| - 1 - i]
  {
    if c == [] then [] else Reverse(c[1..]) + [c[0]]
  }

  /** For a symmetric segment term, travelling a path backwards covers the same total. */
  lemma {:induction false} PairSumReverse(f: PairTerm, c: seq<Position>)
    requires forall p, q :: f(p, q) == f(q, p)
    ensures PairSum(f, Reverse(c)) == PairSum(f, c)
  {
    if |c| >= 2 {
      var rest := c[1..];
      PairSumReverse(f, rest);
      assert Reverse(c) == Reverse(rest) + [c[0]];
      PairSumAppend(f, Reverse(rest), c[0]);
      PairSumCons(f, c[0], rest);
      assert [c[0]] + rest == c;
    }
  }

  /** For a segment term that is zero between identical positions, repeating a position adds nothing. */
  lemma {:induction false} PairSumDuplicate(f: PairTerm, c: seq<Position>, k: nat)
    requires forall p :: f(p, p) == 0.0
    requires k < |c|
    ensures PairSum(f, c[..k + 1] + [c[k]] + c[k + 1..]) == PairSum(f, c)
  {
    var front, back := c[..k + 1], c[k + 1..];
    var doubled := front + [c[k]];
    PairSumAppend(f, front, c[k]);
    assert front[|front| - 1] == c[k];
    assert f(c[k], c[k]) == 0.0;
    assert PairSum(f, doubled) == PairSum(f, front);
    if back == [] {
      assert doubled + back == doubled;
      assert front == c;
    } else {
      PairSumConcat(f, doubled, back);
      PairSumConcat(f, front, back);
      assert front + back == c;
    }
  }

  /** A path that never descends climbs exactly from its first elevation to its last. */
  lemma {:induction false} ClimbTelescopes(c: seq<Position>)
    requires |c| >= 1
    requires forall i :: 0 < i < |c| ==> Elevation(c[i - 1]) <= Elevation(c[i])
    ensures ClimbTotal(c) == Elevation(c[|c| - 1]) - Elevation(c[0])
  {
    if |c| >= 2 {
      var front := c[..|c| - 1];
      ClimbTelescopes(front);
    }
  }

  /** The metres climbed are at least the net rise from start to finish. */
  lemma {:induction false} ClimbAtLeastNetRise(c: seq<Position>)
    requires |c| >= 1
    ensures ClimbTotal(c) >= Elevation(c[|c| - 1]) - Elevation(c[0])
  {
    if |c| >= 2 {
      ClimbAtLeastNetRise(c[..|c| - 1]);
    }
  }

  /** The climb depends on the positions only through their elevations. */
  lemma {:induction false} ClimbOnlyReadsElevation(c: seq<Position>, d: seq<Position>)
    requires |c| == |d|
    requires forall i :: 0 <= i < |c| ==> Elevation(c[i]) == Elevation(d[i])
    ensures ClimbTotal(c) == ClimbTotal(d)
  {
    if |c| >= 2 {
      ClimbOnlyReadsElevation(c[..|c| - 1], d[..|d| - 1]);
    }
  }

  /** A position without a third entry climbs like the same position at elevation 0. */
  lemma MissingElevationIsZero(c: seq<Position>, k: nat)
    requires k < |c| && |c[k]| == 2
    ensures ClimbTotal(c) == ClimbTotal(c[k := c[k] + [0.0]])
  {
    ClimbOnlyReadsElevation(c, c[k := c[k] + [0.0]]);
  }

  /** Two worked tracks: a 100 m climb is 328 ft; down 50 m then up 70 m is 70 m, i.e. 230 ft. */
  lemma WorkedTracks()
    ensures ElevationGainFeet([[-122.4194, 37.7749, 0.0], [-122.3, 37.8, 100.0]]) == 328
    ensures ClimbTotal([[0.0, 0.0, 100.0], [0.0, 0.0, 50.0], [0.0, 0.0, 120.0]]) == 70.0
    ensures ElevationGainFeet([[0.0, 0.0, 100.0], [0.0, 0.0, 50.0], [0.0, 0.0, 120.0]]) == 230
  {
    var two: seq<Position> := [[-122.4194, 37.7749, 0.0], [-122.3, 37.8, 100.0]];
    assert two[..1] == [two[0]];
    var three: seq<Position> := [[0.0, 0.0, 100.0], [0.0, 0.0, 50.0], [0.0, 0.0, 120.0]];
    ClimbAppend([three[0]], three[1]);
    assert [three[0]] + [three[1]] == three[..2];
    ClimbAppend(three[..2], three[2]);
    assert three[..2] + [three[2]] == three;
  }
}
