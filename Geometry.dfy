/**
 * The polygon utilities of the H3 hexagon layer: antimeridian-safe longitude
 * normalisation, scaling of a cell's ring towards its centroid, and the
 * conversion of a cell boundary into a vertex list or an interleaved buffer.
 *
 * A vertex is a `[lng, lat]` array in the source, and the source mutates these
 * arrays in place. Here a vertex is an object of class `Vertex`, so that two
 * entries of one list can be the very same vertex (the closed-ring convention
 * of `h3ToGeoBoundary`, whose last entry is the first array again).
 */
module Geometry {
  import opened Wrappers

  /** A geodetic point, as the grid library reports centroids and corners. */
  datatype GeoPoint = GeoPoint(lat: real, lng: real)

  /**
   * A cell boundary as `h3ToGeoBoundary` yields it: the corners of the cell
   * (and the closing corner), never an empty list.
   */
  type Boundary = s: seq<GeoPoint> | |s| > 0 witness [GeoPoint(0.0, 0.0)]

  /** One `[lng, lat]` entry of a vertex list. */
  class Vertex {
    var lng: real
    var lat: real

    constructor (lng: real, lat: real)
      ensures this.lng == lng && this.lat == lat
    {
      this.lng := lng;
      this.lat := lat;
    }
  }

  predicate Distinct<T(==)>(s: seq<T>) {
    forall i, j :: 0 <= i < j < |s| ==> s[i] != s[j]
  }

  /** How many times `x` stands in `s`: how often a loop over `s` visits it. */
  function Occurrences<T(==)>(s: seq<T>, x: T): nat {
    if s == [] then 0
    else Occurrences(s[..|s| - 1], x) + (if s[|s| - 1] == x then 1 else 0)
  }

  lemma {:induction false} OccurrencesOfAbsent<T>(s: seq<T>, x: T)
    requires x !in s
    ensures Occurrences(s, x) == 0
  {
    if s != [] {
      assert s[..|s| - 1] <= s;
      OccurrencesOfAbsent(s[..|s| - 1], x);
    }
  }

  lemma OccurrencesOfPrefix<T>(s: seq<T>, k: int, x: T)
    requires 0 <= k < |s|
    ensures Occurrences(s[..k + 1], x) == Occurrences(s[..k], x) + (if s[k] == x then 1 else 0)
  {
    assert s[..k + 1][..k] == s[..k];
  }

  lemma {:induction false} DistinctOccursOnce<T>(s: seq<T>, j: int)
    requires Distinct(s) && 0 <= j < |s|
    ensures Occurrences(s, s[j]) == 1
  {
    var prefix := s[..|s| - 1];
    if j == |s| - 1 {
      assert s[j] !in prefix by {
        forall m | 0 <= m < |prefix| ensures prefix[m] != s[j] {
          assert prefix[m] == s[m];
        }
      }
      OccurrencesOfAbsent(prefix, s[j]);
    } else {
      DistinctOccursOnce(prefix, j);
      assert prefix[j] == s[j];
    }
  }

  // ---------------------------------------------------------------------------
  // normalizeLongitudes
  // ---------------------------------------------------------------------------

  /**
   * The step `normalizeLongitudes` applies to one longitude: shift by a full
   * turn when it lies more than half a turn away from the reference.
   */
  function Unwrap(lng: real, refLng: real): (r: real)
    ensures r == lng || r == lng - 360.0 || r == lng + 360.0
    ensures -180.0 <= lng - refLng <= 180.0 ==> r == lng
    ensures -540.0 <= lng - refLng <= 540.0 ==> -180.0 <= r - refLng <= 180.0
  {
    var deltaLng := lng - refLng;
    if deltaLng > 180.0 then lng - 360.0
    else if deltaLng < -180.0 then lng + 360.0
    else lng
  }

  /** The step applied `n` times, as happens to a vertex object listed `n` times. */
  function UnwrapTimes(lng: real, refLng: real, n: nat): real {
    if n == 0 then lng else Unwrap(UnwrapTimes(lng, refLng, n - 1), refLng)
  }

  /**
   * Within one and a half turns of the reference, visiting a vertex again
   * changes nothing: the closing vertex that aliases the first one is
   * normalised once, however often the loop meets it.
   */
  lemma {:induction false} UnwrapTimesIsUnwrap(lng: real, refLng: real, n: nat)
    requires n >= 1
    requires -540.0 <= lng - refLng <= 540.0
    ensures UnwrapTimes(lng, refLng, n) == Unwrap(lng, refLng)
  {
    if n > 1 {
      UnwrapTimesIsUnwrap(lng, refLng, n - 1);
    }
  }

  /** The reference longitude: the one given, else the first vertex's. */
  function ReferenceLng(refLng: Option<real>, firstLng: real): real {
    if refLng.Some? then refLng.value else firstLng
  }

  /**
   * Shifts longitudes in place by a full turn so that the list does not wrap
   * across the antimeridian. The reference is `refLng`, or else the first
   * vertex's longitude; with neither, the source's `vertices[0][0]` throws,
   * which is `ok == false` here.
   */
  method NormalizeLongitudes(vertices: seq<Vertex>, refLng: Option<real>) returns (ok: bool)
    modifies vertices
    ensures ok <==> refLng.Some? || |vertices| > 0
    ensures ok ==>
      forall j :: 0 <= j < |vertices| ==>
        vertices[j].lng == UnwrapTimes(old(vertices[j].lng), ReferenceLng(refLng, old(vertices[0].lng)),
                                       Occurrences(vertices, vertices[j]))
    ensures forall j :: 0 <= j < |vertices| ==> vertices[j].lat == old(vertices[j].lat)
  {
    if refLng.None? && |vertices| == 0 {
      return false;
    }
    ok := true;
    var r := ReferenceLng(refLng, if |vertices| > 0 then vertices[0].lng else 0.0);
    var k := 0;
    while k < |vertices|
      invariant 0 <= k <= |vertices|
      invariant forall j :: 0 <= j < |vertices| ==>
        vertices[j].lng == UnwrapTimes(old(vertices[j].lng), r, Occurrences(vertices[..k], vertices[j]))
      invariant forall j :: 0 <= j < |vertices| ==> vertices[j].lat == old(vertices[j].lat)
    {
      label step:
      var pt := vertices[k];
      var deltaLng := pt.lng - r;
      if deltaLng > 180.0 {
        pt.lng := pt.lng - 360.0;
      } else if deltaLng < -180.0 {
        pt.lng := pt.lng + 360.0;
      }
      assert pt.lng == Unwrap(old@step(pt.lng), r);
      forall j | 0 <= j < |vertices|
        ensures vertices[j].lng == UnwrapTimes(old(vertices[j].lng), r, Occurrences(vertices[..k + 1], vertices[j]))
      {
        OccurrencesOfPrefix(vertices, k, vertices[j]);
        if vertices[j] != pt {
          assert vertices[j].lng == old@step(vertices[j].lng);
        }
      }
      k := k + 1;
    }
    assert vertices[..k] == vertices;
  }

  /** `normalizeLongitudes` on the values of a list of distinct vertices. */
  function Normalized(ring: seq<GeoPoint>, refLng: real): (r: seq<GeoPoint>)
    ensures |r| == |ring|
    ensures forall i :: 0 <= i < |ring| ==> r[i].lat == ring[i].lat
    ensures (forall i :: 0 <= i < |ring| ==> -540.0 <= ring[i].lng - refLng <= 540.0) ==>
      forall i :: 0 <= i < |r| ==> -180.0 <= r[i].lng - refLng <= 180.0
  {
    seq(|ring|, i requires 0 <= i < |ring| => GeoPoint(ring[i].lat, Unwrap(ring[i].lng, refLng)))
  }

  /** Normalising a normalised list against the same reference is a no-op. */
  lemma NormalizedIdempotent(ring: seq<GeoPoint>, refLng: real)
    requires forall i :: 0 <= i < |ring| ==> -540.0 <= ring[i].lng - refLng <= 540.0
    ensures Normalized(Normalized(ring, refLng), refLng) == Normalized(ring, refLng)
  {
    var once := Normalized(ring, refLng);
    assert forall i :: 0 <= i < |once| ==> Normalized(once, refLng)[i] == once[i];
  }

  /**
   * The antimeridian example: a ring at longitudes 170 and -170, normalised
   * against 175, lies on one side (170 and 190) and no longer wraps.
   */
  lemma AntimeridianExample()
    ensures Normalized([GeoPoint(10.0, 170.0), GeoPoint(10.0, -170.0), GeoPoint(-10.0, -170.0), GeoPoint(-10.0, 170.0)], 175.0)
         == [GeoPoint(10.0, 170.0), GeoPoint(10.0, 190.0), GeoPoint(-10.0, 190.0), GeoPoint(-10.0, 170.0)]
  {
  }

  // ---------------------------------------------------------------------------
  // scalePolygon
  // ---------------------------------------------------------------------------

  /**
   * `lerp(a, b, t)` of math.gl: `a` at 0 and `b` at 1.
   */
  function Lerp(a: real, b: real, t: real): (r: real)
    ensures t == 0.0 ==> r == a
    ensures t == 1.0 ==> r == b
  {
    a + t * (b - a)
  }

  /** With a factor between 0 and 1 the result lies between the two ends. */
  lemma LerpBetween(a: real, b: real, t: real)
    requires 0.0 <= t <= 1.0
    ensures a <= b ==> a <= Lerp(a, b, t) <= b
    ensures b <= a ==> b <= Lerp(a, b, t) <= a
  {
    var d := b - a;
    assert Lerp(a, b, t) - a == t * d;
    assert b - Lerp(a, b, t) == (1.0 - t) * d;
    if a <= b {
      ProductSign(t, d);
      ProductSign(1.0 - t, d);
    } else {
      ProductSign(t, -d);
      ProductSign(1.0 - t, -d);
    }
  }

  lemma ProductSign(x: real, y: real)
    requires 0.0 <= x && 0.0 <= y
    ensures 0.0 <= x * y && x * -y <= 0.0
  {
  }

  /** `Lerp` towards `a` applied `n` times, as happens to a vertex listed `n` times. */
  function LerpTimes(a: real, b: real, t: real, n: nat): real {
    if n == 0 then b else Lerp(a, LerpTimes(a, b, t, n - 1), t)
  }

  /** Factor 1 leaves every coordinate where it was, however often it is visited. */
  lemma {:induction false} LerpTimesByOne(a: real, b: real, n: nat)
    ensures LerpTimes(a, b, 1.0, n) == b
  {
    if n > 0 {
      LerpTimesByOne(a, b, n - 1);
    }
  }

  /** Factor 0 puts every visited coordinate on the centroid's. */
  lemma LerpTimesByZero(a: real, b: real, n: nat)
    requires n >= 1
    ensures LerpTimes(a, b, 0.0, n) == a
  {
  }

  /**
   * The prefix of the list that `scalePolygon` interpolates: all of it, less
   * the last entry when that entry is the first vertex object again. (For an
   * empty list the source compares `undefined === undefined` and counts -1.)
   */
  function ScaledVertices(vertices: seq<Vertex>): (s: seq<Vertex>)
    ensures s == vertices || (|vertices| > 0 && s == vertices[..|vertices| - 1])
  {
    if |vertices| == 0 then []
    else if vertices[0] == vertices[|vertices| - 1] then vertices[..|vertices| - 1]
    else vertices
  }

  /**
   * In a closed ring (the last entry is the first object again, and otherwise
   * no object repeats) every object is interpolated exactly once, and the
   * first one is normalised twice.
   */
  lemma ClosedRingScaledOnce(vertices: seq<Vertex>, j: int)
    requires |vertices| >= 2 && vertices[0] == vertices[|vertices| - 1]
    requires Distinct(vertices[..|vertices| - 1])
    requires 0 <= j < |vertices|
    ensures Occurrences(ScaledVertices(vertices), vertices[j]) == 1
    ensures Occurrences(vertices, vertices[j]) == if vertices[j] == vertices[0] then 2 else 1
  {
    var open := vertices[..|vertices| - 1];
    var i := if j == |vertices| - 1 then 0 else j;
    assert open[i] == vertices[j];
    DistinctOccursOnce(open, i);
  }

  /** In a list where no object repeats, every vertex is interpolated exactly once. */
  lemma OpenRingScaledOnce(vertices: seq<Vertex>, j: int)
    requires Distinct(vertices) && |vertices| >= 2
    requires 0 <= j < |vertices|
    ensures ScaledVertices(vertices) == vertices
    ensures Occurrences(vertices, vertices[j]) == 1
  {
    DistinctOccursOnce(vertices, j);
  }

  /**
   * Normalises the list against the centroid's longitude, then moves each
   * vertex of `ScaledVertices` towards the centroid by `factor`.
   */
  method ScalePolygon(center: GeoPoint, vertices: seq<Vertex>, factor: real)
    modifies vertices
    ensures forall j :: 0 <= j < |vertices| ==>
      vertices[j].lng == LerpTimes(center.lng,
                                   UnwrapTimes(old(vertices[j].lng), center.lng, Occurrences(vertices, vertices[j])),
                                   factor, Occurrences(ScaledVertices(vertices), vertices[j]))
    ensures forall j :: 0 <= j < |vertices| ==>
      vertices[j].lat == LerpTimes(center.lat, old(vertices[j].lat), factor, Occurrences(ScaledVertices(vertices), vertices[j]))
  {
    var lat, lng := center.lat, center.lng;
    var actualCount := |vertices|;
    var _ := NormalizeLongitudes(vertices, Some(lng));
    label normalized:
    var vertexCount := if actualCount == 0 || vertices[0] == vertices[actualCount - 1] then actualCount - 1 else actualCount;
    assert ScaledVertices(vertices) == vertices[..if vertexCount < 0 then 0 else vertexCount];
    var i := 0;
    while i < vertexCount
      invariant 0 <= i <= if vertexCount < 0 then 0 else vertexCount
      invariant forall j :: 0 <= j < |vertices| ==>
        vertices[j].lng == LerpTimes(lng, old@normalized(vertices[j].lng), factor, Occurrences(vertices[..i], vertices[j]))
      invariant forall j :: 0 <= j < |vertices| ==>
        vertices[j].lat == LerpTimes(lat, old@normalized(vertices[j].lat), factor, Occurrences(vertices[..i], vertices[j]))
    {
      label step:
      vertices[i].lng := Lerp(lng, vertices[i].lng, factor);
      vertices[i].lat := Lerp(lat, vertices[i].lat, factor);
      forall j | 0 <= j < |vertices|
        ensures vertices[j].lng == LerpTimes(lng, old@normalized(vertices[j].lng), factor, Occurrences(vertices[..i + 1], vertices[j]))
      {
        OccurrencesOfPrefix(vertices, i, vertices[j]);
        if vertices[j] != vertices[i] {
          assert vertices[j].lng == old@step(vertices[j].lng);
        }
      }
      forall j | 0 <= j < |vertices|
        ensures vertices[j].lat == LerpTimes(lat, old@normalized(vertices[j].lat), factor, Occurrences(vertices[..i + 1], vertices[j]))
      {
        OccurrencesOfPrefix(vertices, i, vertices[j]);
        if vertices[j] != vertices[i] {
          assert vertices[j].lat == old@step(vertices[j].lat);
        }
      }
      i := i + 1;
    }
  }

  // ---------------------------------------------------------------------------
  // h3ToPolygon
  // ---------------------------------------------------------------------------

  /** `scalePolygon` on the values of a list of at least two distinct vertices. */
  function Scaled(ring: seq<GeoPoint>, center: GeoPoint, factor: real): (r: seq<GeoPoint>)
    ensures |r| == |ring|
  {
    seq(|ring|, i requires 0 <= i < |ring| =>
      GeoPoint(Lerp(center.lat, ring[i].lat, factor), Lerp(center.lng, Unwrap(ring[i].lng, center.lng), factor)))
  }

  /** With factor 1 scaling only normalises against the centroid. */
  lemma ScaledByOne(ring: seq<GeoPoint>, center: GeoPoint)
    ensures Scaled(ring, center, 1.0) == Normalized(ring, center.lng)
  {
    assert forall i :: 0 <= i < |ring| ==> Scaled(ring, center, 1.0)[i] == Normalized(ring, center.lng)[i];
  }

  /** With factor 0 every vertex lands on the centroid. */
  lemma ScaledByZero(ring: seq<GeoPoint>, center: GeoPoint)
    ensures forall i :: 0 <= i < |ring| ==> Scaled(ring, center, 0.0)[i] == center
  {
  }

  /**
   * The ring `h3ToPolygon` produces from a boundary: normalised against its
   * first vertex when `coverage` is 1, else scaled towards the centroid (a
   * one-vertex list is its own closing vertex, so it is only normalised).
   */
  function PolygonValues(ring: Boundary, center: GeoPoint, coverage: real): (r: seq<GeoPoint>)
    ensures |r| == |ring|
  {
    if coverage == 1.0 then Normalized(ring, ring[0].lng)
    else if |ring| == 1 then Normalized(ring, center.lng)
    else Scaled(ring, center, coverage)
  }

  /** What `h3ToPolygon` returns: the vertex list, or the interleaved buffer. */
  datatype Polygon = Ring(vertices: seq<Vertex>) | Flat(positions: array<real>)

  /**
   * The copy `idToPolygonRotated` makes: its `.map` chain builds a new array
   * per vertex, so the result never aliases its first and last vertex.
   */
  method CopyVertices(ring: seq<GeoPoint>) returns (vertices: seq<Vertex>)
    ensures |vertices| == |ring| && Distinct(vertices)
    ensures forall j :: 0 <= j < |ring| ==>
      fresh(vertices[j]) && vertices[j].lng == ring[j].lng && vertices[j].lat == ring[j].lat
  {
    vertices := [];
    for i := 0 to |ring|
      invariant |vertices| == i && Distinct(vertices)
      invariant forall j :: 0 <= j < i ==>
        fresh(vertices[j]) && vertices[j].lng == ring[j].lng && vertices[j].lat == ring[j].lat
    {
      var v := new Vertex(ring[i].lng, ring[i].lat);
      vertices := vertices + [v];
    }
  }

  /** The `flatten` branch of `h3ToPolygon`: `[x0, y0, x1, y1, ...]` with a running index. */
  method Flatten(vertices: seq<Vertex>) returns (positions: array<real>)
    ensures fresh(positions) && positions.Length == 2 * |vertices|
    ensures forall m :: 0 <= m < |vertices| ==>
      positions[2 * m] == vertices[m].lng && positions[2 * m + 1] == vertices[m].lat
  {
    positions := new real[|vertices| * 2];
    var i := 0;
    for k := 0 to |vertices|
      invariant i == 2 * k
      invariant forall m :: 0 <= m < k ==>
        positions[2 * m] == vertices[m].lng && positions[2 * m + 1] == vertices[m].lat
    {
      positions[i] := vertices[k].lng;
      i := i + 1;
      positions[i] := vertices[k].lat;
      i := i + 1;
    }
  }

  /**
   * `h3ToPolygon` on the rotated boundary `ring` and centroid `center` of a
   * cell: copies the vertices, scales them by `coverage` or normalises them
   * against the first one, and flattens them when asked.
   */
  method H3ToPolygon(ring: Boundary, center: GeoPoint, coverage: real, flatten: bool) returns (polygon: Polygon)
    ensures flatten <==> polygon.Flat?
    ensures polygon.Flat? ==>
      fresh(polygon.positions) && polygon.positions.Length == 2 * |ring| &&
      forall i :: 0 <= i < |ring| ==>
        polygon.positions[2 * i] == PolygonValues(ring, center, coverage)[i].lng &&
        polygon.positions[2 * i + 1] == PolygonValues(ring, center, coverage)[i].lat
    ensures polygon.Ring? ==>
      |polygon.vertices| == |ring| && Distinct(polygon.vertices) &&
      forall i :: 0 <= i < |ring| ==>
        fresh(polygon.vertices[i]) &&
        polygon.vertices[i].lng == PolygonValues(ring, center, coverage)[i].lng &&
        polygon.vertices[i].lat == PolygonValues(ring, center, coverage)[i].lat
  {
    var vertices := CopyVertices(ring);
    ghost var values := PolygonValues(ring, center, coverage);
    label copied:
    if coverage != 1.0 {
      ScalePolygon(center, vertices, coverage);
      forall j | 0 <= j < |vertices|
        ensures vertices[j].lng == values[j].lng && vertices[j].lat == values[j].lat
      {
        assert old@copied(vertices[j].lng) == ring[j].lng && old@copied(vertices[j].lat) == ring[j].lat;
        DistinctOccursOnce(vertices, j);
        ghost var u := Unwrap(ring[j].lng, center.lng);
        assert UnwrapTimes(ring[j].lng, center.lng, 1) == u;
        if |vertices| > 1 {
          OpenRingScaledOnce(vertices, j);
          assert LerpTimes(center.lng, u, coverage, 1) == Lerp(center.lng, u, coverage);
          assert LerpTimes(center.lat, ring[j].lat, coverage, 1) == Lerp(center.lat, ring[j].lat, coverage);
          assert values[j] == Scaled(ring, center, coverage)[j];
        } else {
          assert ScaledVertices(vertices) == [];
          assert values[j] == Normalized(ring, center.lng)[j];
        }
      }
    } else {
      var ok := NormalizeLongitudes(vertices, None);
      forall j | 0 <= j < |vertices|
        ensures vertices[j].lng == values[j].lng && vertices[j].lat == values[j].lat
      {
        assert old@copied(vertices[j].lng) == ring[j].lng && old@copied(vertices[0].lng) == ring[0].lng;
        DistinctOccursOnce(vertices, j);
        assert UnwrapTimes(ring[j].lng, ring[0].lng, 1) == Unwrap(ring[j].lng, ring[0].lng);
        assert values[j] == Normalized(ring, ring[0].lng)[j];
      }
    }
    if flatten {
      var positions := Flatten(vertices);
      return Flat(positions);
    }
    return Ring(vertices);
  }
}
