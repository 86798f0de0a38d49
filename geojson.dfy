/** The GeoJSON helpers used to import boundaries as geofence rings:
    conversion of `[longitude, latitude]` positions into coordinates,
    thinning a ring to every n-th point, and the bounding box. */
module GeoJson {
  import opened Wrappers
  import opened JsSemantics
  import opened Schema
  import Routes

  // ---------------------------------------------------------------------
  // Conversion
  // ---------------------------------------------------------------------

  /** A GeoJSON position `[x, y]`: longitude first, latitude second. */
  datatype Position = Position(x: real, y: real)

  /** A feature's geometry. Only polygons and multi-polygons carry
      coordinates that the conversion reads; any other type is skipped. */
  datatype Geometry =
    | Polygon(rings: seq<seq<Position>>)
    | MultiPolygon(polygons: seq<seq<seq<Position>>>)
    | OtherGeometry(kind: string)

  datatype Feature = Feature(geometry: Geometry)

  /** Reading `coordinates[0]` (or `[0][0]`) of a geometry that lacks it
      yields `undefined`, and iterating over it throws; the error names the
      feature at which that happens. */
  datatype ConvertError = MissingRing(featureIndex: nat)

  /** Whether the geometry has the ring the conversion reads. */
  predicate HasOuterRing(g: Geometry)
  {
    match g
    case Polygon(rings) => |rings| > 0
    case MultiPolygon(polygons) => |polygons| > 0 && |polygons[0]| > 0
    case OtherGeometry(_) => true
  }

  /** The exterior ring of a polygon, the first polygon's exterior ring of a
      multi-polygon, nothing for any other geometry. */
  function OuterRing(g: Geometry): seq<Position>
    requires HasOuterRing(g)
  {
    match g
    case Polygon(rings) => rings[0]
    case MultiPolygon(polygons) => polygons[0][0]
    case OtherGeometry(_) => []
  }

  function ToCoordinate(p: Position): (c: Coordinate)
    ensures c.lng == p.x && c.lat == p.y
  {
    Coordinate(p.y, p.x)
  }

  function ToPosition(c: Coordinate): (p: Position)
    ensures ToCoordinate(p) == c
  {
    Position(c.lng, c.lat)
  }

  function ToCoordinates(ring: seq<Position>): (cs: seq<Coordinate>)
    ensures |cs| == |ring|
    ensures forall i :: 0 <= i < |ring| ==> cs[i] == ToCoordinate(ring[i])
  {
    seq(|ring|, i requires 0 <= i < |ring| => ToCoordinate(ring[i]))
  }

  function ToPositions(cs: seq<Coordinate>): (ps: seq<Position>)
    ensures |ps| == |cs|
    ensures forall i :: 0 <= i < |cs| ==> ps[i] == ToPosition(cs[i])
  {
    seq(|cs|, i requires 0 <= i < |cs| => ToPosition(cs[i]))
  }

  /** The rings the conversion reads, concatenated in feature order. */
  function OuterRings(fs: seq<Feature>): seq<Position>
    requires forall i :: 0 <= i < |fs| ==> HasOuterRing(fs[i].geometry)
  {
    if fs == [] then []
    else OuterRings(fs[..|fs| - 1]) + OuterRing(fs[|fs| - 1].geometry)
  }

  /** What the conversion computes for a feature list. */
  function Converted(fs: seq<Feature>): Result<seq<Coordinate>, ConvertError>
  {
    if fs == [] then Success([])
    else
      var last := fs[|fs| - 1].geometry;
      match Converted(fs[..|fs| - 1])
      case Failure(e) => Failure(e)
      case Success(cs) =>
        if HasOuterRing(last) then Success(cs + ToCoordinates(OuterRing(last)))
        else Failure(MissingRing(|fs| - 1))
  }

  /** Once a prefix fails, the whole list fails with the same error. */
  lemma {:induction false} ConvertedFailurePersists(fs: seq<Feature>, k: nat)
    requires k <= |fs| && Converted(fs[..k]).Failure?
    ensures Converted(fs) == Converted(fs[..k])
    decreases |fs| - k
  {
    if k < |fs| {
      var next := fs[..k + 1];
      assert next[..k] == fs[..k];
      assert fs[..k + 1][..k] == fs[..k];
      assert Converted(next) == Converted(fs[..k]);
      ConvertedFailurePersists(fs, k + 1);
    } else {
      assert fs[..k] == fs;
    }
  }

  /** `convertGeoJSONToCoordinates`: appends, feature by feature, the
      coordinates of the ring each polygon-like geometry designates. */
  method ConvertGeoJsonToCoordinates(features: seq<Feature>)
      returns (r: Result<seq<Coordinate>, ConvertError>)
    ensures r == Converted(features)
  {
    var allCoordinates: seq<Coordinate> := [];
    var f := 0;
    while f < |features|
      invariant 0 <= f <= |features|
      invariant Converted(features[..f]) == Success(allCoordinates)
    {
      assert features[..f + 1][..f] == features[..f];
      var geometry := features[f].geometry;
      var coordinates: seq<Position> := [];
      match geometry {
        case Polygon(rings) =>
          if |rings| == 0 {
            ConvertedFailurePersists(features, f + 1);
            return Failure(MissingRing(f));
          }
          coordinates := rings[0];
        case MultiPolygon(polygons) =>
          if |polygons| == 0 || |polygons[0]| == 0 {
            ConvertedFailurePersists(features, f + 1);
            return Failure(MissingRing(f));
          }
          coordinates := polygons[0][0];
        case OtherGeometry(_) =>
      }
      allCoordinates := PushRing(allCoordinates, coordinates);
      f := f + 1;
    }
    assert features[..f] == features;
    r := Success(allCoordinates);
  }

  /** The inner `forEach`: each position of the ring pushed as a
      coordinate, latitude from the second number. */
  method PushRing(acc: seq<Coordinate>, ring: seq<Position>) returns (out: seq<Coordinate>)
    ensures out == acc + ToCoordinates(ring)
  {
    out := acc;
    var k := 0;
    while k < |ring|
      invariant 0 <= k <= |ring|
      invariant out == acc + ToCoordinates(ring[..k])
    {
      out := out + [Coordinate(ring[k].y, ring[k].x)];
      k := k + 1;
    }
    assert ring[..k] == ring;
  }

  /** The conversion fails exactly when some feature lacks its ring, and
      then it names the first such feature. */
  lemma {:induction false} ConvertedFailsAtFirstMissingRing(fs: seq<Feature>)
    ensures Converted(fs).Success? <==> forall i :: 0 <= i < |fs| ==> HasOuterRing(fs[i].geometry)
    ensures Converted(fs).Failure? ==>
      var i := Converted(fs).error.featureIndex;
      && i < |fs| && !HasOuterRing(fs[i].geometry)
      && forall j :: 0 <= j < i ==> HasOuterRing(fs[j].geometry)
  {
    if fs != [] {
      var init := fs[..|fs| - 1];
      ConvertedFailsAtFirstMissingRing(init);
      assert forall j :: 0 <= j < |init| ==> init[j] == fs[j];
    }
  }

  /** Round trip: turning the result back into `[x, y]` positions gives the
      designated rings, concatenated in feature order. */
  lemma {:induction false} ConvertedRoundTrip(fs: seq<Feature>)
    requires forall i :: 0 <= i < |fs| ==> HasOuterRing(fs[i].geometry)
    ensures Converted(fs).Success?
    ensures ToPositions(Converted(fs).value) == OuterRings(fs)
  {
    if fs != [] {
      var init := fs[..|fs| - 1];
      assert forall j :: 0 <= j < |init| ==> init[j] == fs[j];
      ConvertedRoundTrip(init);
      var cs := Converted(init).value;
      var ring := OuterRing(fs[|fs| - 1].geometry);
      var all := cs + ToCoordinates(ring);
      assert ToPositions(all) == ToPositions(cs) + ring by {
        forall i | 0 <= i < |all|
          ensures ToPositions(all)[i] == (ToPositions(cs) + ring)[i]
        {
          if i >= |cs| {
            assert all[i] == ToCoordinate(ring[i - |cs|]);
          }
        }
      }
    }
  }

  // ---------------------------------------------------------------------
  // Simplification
  // ---------------------------------------------------------------------

  /** The indices `i, i + step, i + 2·step, …` below `n`. */
  function SampleIndices(n: nat, step: nat, i: nat): (s: seq<nat>)
    requires step >= 1
    ensures i < n ==> |s| >= 1 && s[0] == i
    decreases n - i
  {
    if i >= n then [] else [i] + SampleIndices(n, step, i + step)
  }

  lemma {:induction false} SampleIndicesBounded(n: nat, step: nat, i: nat)
    requires step >= 1
    ensures forall k :: 0 <= k < |SampleIndices(n, step, i)| ==> i <= SampleIndices(n, step, i)[k] < n
    decreases n - i
  {
    if i < n {
      SampleIndicesBounded(n, step, i + step);
      var s, rest := SampleIndices(n, step, i), SampleIndices(n, step, i + step);
      assert s == [i] + rest;
      forall k | 0 <= k < |s| ensures i <= s[k] < n {
        if k > 0 {
          assert s[k] == rest[k - 1];
        }
      }
    }
  }

  /** The sampled indices are `step` apart and the last is within one step
      of the end. */
  lemma {:induction false} SampleIndicesShape(n: nat, step: nat, i: nat)
    requires step >= 1 && i < n
    ensures var s := SampleIndices(n, step, i);
      && (forall k :: 0 <= k < |s| - 1 ==> s[k + 1] == s[k] + step)
      && s[|s| - 1] <= n - 1 < s[|s| - 1] + step
    decreases n - i
  {
    if i + step < n {
      SampleIndicesShape(n, step, i + step);
    }
  }

  /** The positions kept: every `step`-th one from the first, then the last
      position if it was not already taken. The source compares the last
      kept object with the last coordinate object by identity; each
      coordinate is its own object, so this is a comparison of indices. */
  function SimplifyIndices(n: nat, step: nat): (s: seq<nat>)
    requires step >= 1 && n > step
    ensures IndicesBelow(s, n)
  {
    var sampled := SampleIndices(n, step, 0);
    SampleIndicesBounded(n, step, 0);
    var s := sampled + (if sampled[|sampled| - 1] == n - 1 then [] else [n - 1]);
    assert forall k :: 0 <= k < |s| ==> s[k] < n by {
      forall k | 0 <= k < |s| ensures s[k] < n {
        if k < |sampled| {
          assert s[k] == sampled[k];
        }
      }
    }
    s
  }

  predicate IndicesBelow(idx: seq<nat>, n: nat)
  {
    forall k :: 0 <= k < |idx| ==> idx[k] < n
  }

  function Pick(coords: seq<Coordinate>, idx: seq<nat>): (r: seq<Coordinate>)
    requires IndicesBelow(idx, |coords|)
    ensures |r| == |idx|
    ensures forall k :: 0 <= k < |idx| ==> r[k] == coords[idx[k]]
  {
    seq(|idx|, k requires 0 <= k < |idx| => coords[idx[k]])
  }

  /** What `simplifyCoordinates` returns. A ring no longer than `step` is
      returned as it is. */
  function Simplified(coords: seq<Coordinate>, step: int): seq<Coordinate>
    requires step >= 1 || |coords| == 0
  {
    if |coords| <= step || |coords| == 0 then coords
    else Pick(coords, SimplifyIndices(|coords|, step))
  }

  /** `simplifyCoordinates`. A step below 1 on a non-empty ring never ends
      in the source, so it is excluded; on an empty ring every step gives
      the empty ring. */
  method SimplifyCoordinates(coordinates: seq<Coordinate>, step: int) returns (r: seq<Coordinate>)
    requires step >= 1 || |coordinates| == 0
    ensures r == Simplified(coordinates, step)
  {
    var n := |coordinates|;
    if n <= step {
      return coordinates;
    }
    if n == 0 {
      // Neither the loop nor the closing push runs.
      return [];
    }
    var simplified, last := TakeEvery(coordinates, step);
    ghost var sampled := SampleIndices(n, step, 0);
    SampleIndicesBounded(n, step, 0);
    assert Simplified(coordinates, step) == Pick(coordinates, SimplifyIndices(n, step));
    if last != n - 1 {
      PickAppend(coordinates, sampled, n - 1);
      simplified := simplified + [coordinates[n - 1]];
    }
    r := simplified;
  }

  /** The sampling loop of `simplifyCoordinates`; `last` is the index of the
      last coordinate taken. */
  method TakeEvery(coordinates: seq<Coordinate>, step: nat) returns (simplified: seq<Coordinate>, last: int)
    requires step >= 1 && |coordinates| > 0
    ensures IndicesBelow(SampleIndices(|coordinates|, step, 0), |coordinates|)
    ensures simplified == Pick(coordinates, SampleIndices(|coordinates|, step, 0))
    ensures SampleIndices(|coordinates|, step, 0) != []
    ensures last == Last(SampleIndices(|coordinates|, step, 0))
  {
    var n := |coordinates|;
    simplified := [];
    ghost var taken: seq<nat> := [];
    last := -1;
    var i := 0;
    while i < n
      invariant 0 <= i
      invariant Sampling(coordinates, step, i, taken, simplified)
      invariant taken == [] ==> last == -1
      invariant taken != [] ==> last == Last(taken)
      decreases n - i
    {
      SamplingStep(coordinates, step, i, taken, simplified);
      simplified := simplified + [coordinates[i]];
      taken := taken + [i];
      last := i;
      i := i + step;
    }
    SamplingDone(coordinates, step, i, taken, simplified);
  }

  /** Once `i` has passed the end, `taken` is the whole sample. */
  lemma SamplingDone(coords: seq<Coordinate>, step: nat, i: nat, taken: seq<nat>, simplified: seq<Coordinate>)
    requires step >= 1 && i >= |coords| > 0
    requires Sampling(coords, step, i, taken, simplified)
    ensures SampleIndices(|coords|, step, 0) == taken != []
  {
    assert taken + [] == taken;
    assert SampleIndices(|coords|, step, 0) == [0] + SampleIndices(|coords|, step, step);
  }

  function Last(s: seq<nat>): nat
    requires s != []
  {
    s[|s| - 1]
  }

  /** The loop's state after visiting the indices before `i`: `taken` is the
      sampled prefix, and `simplified` holds those coordinates. */
  ghost predicate Sampling(coords: seq<Coordinate>, step: nat, i: nat, taken: seq<nat>, simplified: seq<Coordinate>)
    requires step >= 1
  {
    && SampleIndices(|coords|, step, 0) == taken + SampleIndices(|coords|, step, i)
    && IndicesBelow(taken, |coords|)
    && simplified == Pick(coords, taken)
  }

  lemma SamplingStep(coords: seq<Coordinate>, step: nat, i: nat, taken: seq<nat>, simplified: seq<Coordinate>)
    requires step >= 1 && i < |coords|
    requires Sampling(coords, step, i, taken, simplified)
    ensures Sampling(coords, step, i + step, taken + [i], simplified + [coords[i]])
  {
    SampleIndicesStep(|coords|, step, i, taken);
    PickAppend(coords, taken, i);
  }

  lemma SampleIndicesStep(n: nat, step: nat, i: nat, taken: seq<nat>)
    requires step >= 1 && i < n
    requires SampleIndices(n, step, 0) == taken + SampleIndices(n, step, i)
    ensures SampleIndices(n, step, 0) == (taken + [i]) + SampleIndices(n, step, i + step)
  {
    assert SampleIndices(n, step, i) == [i] + SampleIndices(n, step, i + step);
    assert taken + ([i] + SampleIndices(n, step, i + step))
        == (taken + [i]) + SampleIndices(n, step, i + step);
  }

  lemma PickAppend(coords: seq<Coordinate>, idx: seq<nat>, i: nat)
    requires IndicesBelow(idx, |coords|)
    requires i < |coords|
    ensures Pick(coords, idx + [i]) == Pick(coords, idx) + [coords[i]]
  {
    assert forall k :: 0 <= k < |idx| ==> (idx + [i])[k] == idx[k];
  }

  /** The kept indices start at the first position, end at the last, rise
      strictly and skip at most `step - 1` positions at a time. */
  lemma SimplifyIndicesShape(n: nat, step: nat)
    requires step >= 1 && n > step
    ensures var s := SimplifyIndices(n, step);
      && |s| >= 2 && s[0] == 0 && s[|s| - 1] == n - 1
      && forall k :: 0 <= k < |s| - 1 ==> s[k] < s[k + 1] <= s[k] + step
  {
    SampleIndicesShape(n, step, 0);
    var sampled := SampleIndices(n, step, 0);
    assert sampled[1] == step;
  }

  /** So a ring longer than `step` keeps its first and last points, every
      kept point is one of the original points in their original order, and
      no gap exceeds `step`. */
  lemma SimplifiedKeepsEnds(coords: seq<Coordinate>, step: int)
    requires step >= 1 && |coords| > step
    ensures var r := Simplified(coords, step);
      && |r| >= 2 && r[0] == coords[0] && r[|r| - 1] == coords[|coords| - 1]
      && exists idx: seq<nat> ::
           && |idx| == |r|
           && (forall k :: 0 <= k < |idx| ==> idx[k] < |coords| && r[k] == coords[idx[k]])
           && (forall k :: 0 <= k < |idx| - 1 ==> idx[k] < idx[k + 1] <= idx[k] + step)
  {
    SimplifyIndicesShape(|coords|, step);
    var idx := SimplifyIndices(|coords|, step);
    assert Simplified(coords, step) == Pick(coords, idx);
  }

  // ---------------------------------------------------------------------
  // Bounding box
  // ---------------------------------------------------------------------

  datatype BoundingBox = BoundingBox(north: real, south: real, east: real, west: real)

  /** The box of a coordinate list, folded from the world-sized start
      values: north from -90 up, south from 90 down, east from -180 up,
      west from 180 down. */
  function Bounds(coords: seq<Coordinate>): BoundingBox
  {
    if coords == [] then BoundingBox(-90.0, 90.0, -180.0, 180.0)
    else
      var b := Bounds(coords[..|coords| - 1]);
      var c := coords[|coords| - 1];
      BoundingBox(Max(b.north, c.lat), Min(b.south, c.lat), Max(b.east, c.lng), Min(b.west, c.lng))
  }

  /** `getBoundingBox`. */
  method GetBoundingBox(coordinates: seq<Coordinate>) returns (box: BoundingBox)
    ensures box == Bounds(coordinates)
  {
    var north, south, east, west := -90.0, 90.0, -180.0, 180.0;
    var i := 0;
    while i < |coordinates|
      invariant 0 <= i <= |coordinates|
      invariant Bounds(coordinates[..i]) == BoundingBox(north, south, east, west)
    {
      assert coordinates[..i + 1][..i] == coordinates[..i];
      var coord := coordinates[i];
      north := Max(north, coord.lat);
      south := Min(south, coord.lat);
      east := Max(east, coord.lng);
      west := Min(west, coord.lng);
      i := i + 1;
    }
    assert coordinates[..i] == coordinates;
    box := BoundingBox(north, south, east, west);
  }

  /** Every coordinate lies within the box, and the box never shrinks below
      its start values. */
  lemma {:induction false} BoundsContain(coords: seq<Coordinate>)
    ensures var b := Bounds(coords);
      && b.north >= -90.0 && b.south <= 90.0 && b.east >= -180.0 && b.west <= 180.0
      && forall c :: c in coords ==> b.south <= c.lat <= b.north && b.west <= c.lng <= b.east
  {
    if coords != [] {
      var init := coords[..|coords| - 1];
      BoundsContain(init);
      assert forall c :: c in coords ==> c in init || c == coords[|coords| - 1];
    }
  }

  /** Each side is its start value or some coordinate's value. */
  lemma {:induction false} BoundsAttained(coords: seq<Coordinate>)
    ensures var b := Bounds(coords);
      && (b.north == -90.0 || exists c :: c in coords && c.lat == b.north)
      && (b.south == 90.0 || exists c :: c in coords && c.lat == b.south)
      && (b.east == -180.0 || exists c :: c in coords && c.lng == b.east)
      && (b.west == 180.0 || exists c :: c in coords && c.lng == b.west)
  {
    if coords != [] {
      var init := coords[..|coords| - 1];
      BoundsAttained(init);
      assert forall c :: c in init ==> c in coords;
      assert coords[|coords| - 1] in coords;
    }
  }

  /** A point at or beyond the box's north, east or south edge is outside
      the ring (strictly beyond for south, as the crossing test counts a
      vertex on the point's latitude as below it). */
  lemma OutsideBoundsIsOutside(pt: Coordinate, ring: seq<Coordinate>)
    requires var b := Bounds(ring); pt.lat >= b.north || pt.lat < b.south || pt.lng >= b.east
    ensures !Routes.Inside(pt, ring)
  {
    BoundsContain(ring);
    var b := Bounds(ring);
    if pt.lat >= b.north {
      Routes.NorthOfRingIsOutside(pt, ring);
    } else if pt.lat < b.south {
      Routes.SouthOfRingIsOutside(pt, ring);
    } else {
      Routes.EastOfRingIsOutside(pt, ring);
    }
  }
}
