/**
 * Geodesy: the ground resolution at a latitude, the choice of zoom level,
 * the rectangle around a point and the meters-per-pixel constraint derived
 * from the requested output size.  The cosine of the latitude is an input:
 * the model never evaluates transcendental functions.
 */
module Geodesy {
  import opened Wrappers

  const TileSize: nat := 256
  /** Meters, at the equator. */
  const EarthCircumference: real := 40075016.686
  /** The highest zoom level the tile server offers anywhere. */
  const MaxZoom: nat := 23

  function Pow2(n: nat): (r: nat)
    ensures r >= 1
  {
    if n == 0 then 1 else 2 * Pow2(n - 1)
  }

  /** Meters per pixel at `zoom`, given the meters per pixel at zoom 0. */
  function Resolution(mpp0: real, zoom: nat): (r: real)
    ensures r * (Pow2(zoom) as real) == mpp0
  {
    mpp0 / (Pow2(zoom) as real)
  }

  lemma Pow2Monotone(a: nat, b: nat)
    requires a <= b
    ensures Pow2(a) <= Pow2(b)
    decreases b
  {
    if a < b {
      Pow2Monotone(a, b - 1);
    }
  }

  /** Each zoom level halves the resolution of the previous one. */
  lemma ResolutionHalves(mpp0: real, n: nat)
    ensures Resolution(mpp0, n + 1) == Resolution(mpp0, n) / 2.0
  {
    var p := Pow2(n) as real;
    assert Pow2(n + 1) as real == 2.0 * p;
    assert p > 0.0;
    calc {
      Resolution(mpp0, n + 1);
      mpp0 / (2.0 * p);
      (mpp0 / p) / 2.0;
    }
  }

  lemma ResolutionPositive(mpp0: real, zoom: nat)
    requires mpp0 > 0.0
    ensures Resolution(mpp0, zoom) > 0.0
  {
    assert Pow2(zoom) as real > 0.0;
  }

  /** A finer zoom never has a coarser resolution. */
  lemma {:induction false} ResolutionMonotone(mpp0: real, a: nat, b: nat)
    requires mpp0 >= 0.0 && a <= b
    ensures 0.0 <= Resolution(mpp0, b) <= Resolution(mpp0, a)
    decreases b
  {
    if a == b {
      assert Pow2(b) as real > 0.0;
    } else {
      ResolutionMonotone(mpp0, a, b - 1);
      ResolutionHalves(mpp0, b - 1);
    }
  }

  datatype ZoomError = ZoomLevelUnavailable

  /**
   * GeoPoint.compute_zoom_level as it is written: scan zoom 23 down to 0 and
   * return one more than the first zoom whose resolution exceeds the limit;
   * raise when no zoom in 0..23 exceeds it.
   */
  method ComputeZoomLevel(mpp0: real, maxMetersPerPixel: real) returns (r: Result<nat, ZoomError>)
    ensures r.Success? ==> 1 <= r.value <= MaxZoom + 1
    ensures r.Success? ==> Resolution(mpp0, r.value - 1) > maxMetersPerPixel
    ensures r.Success? ==> forall z: nat :: r.value <= z <= MaxZoom ==> Resolution(mpp0, z) <= maxMetersPerPixel
    ensures r.Failure? <==> forall z: nat :: z <= MaxZoom ==> Resolution(mpp0, z) <= maxMetersPerPixel
  {
    var zoom: int := MaxZoom;
    while zoom >= 0
      invariant -1 <= zoom <= MaxZoom
      invariant forall z: nat :: zoom < z <= MaxZoom ==> Resolution(mpp0, z) <= maxMetersPerPixel
    {
      if Resolution(mpp0, zoom) > maxMetersPerPixel {
        return Success(zoom + 1);
      }
      zoom := zoom - 1;
    }
    return Failure(ZoomLevelUnavailable);
  }

  /** The as-written scan raises exactly when zoom 0 already meets the constraint. */
  lemma ComputeZoomLevelRaisesIffZoomZeroSuffices(mpp0: real, maxMetersPerPixel: real)
    requires mpp0 >= 0.0
    ensures (forall z: nat :: z <= MaxZoom ==> Resolution(mpp0, z) <= maxMetersPerPixel)
            <==> mpp0 <= maxMetersPerPixel
  {
    assert Resolution(mpp0, 0) == mpp0;
    if mpp0 <= maxMetersPerPixel {
      forall z: nat | z <= MaxZoom
        ensures Resolution(mpp0, z) <= maxMetersPerPixel
      {
        ResolutionMonotone(mpp0, 0, z);
      }
    }
  }

  /**
   * Two inputs on which the as-written scan contradicts its own documentation
   * and error message: the coarse constraint 2 m/px, which zoom 0 already
   * meets at 1 m/px, is refused, and the constraint 0 m/px, which no zoom
   * meets, yields the unavailable zoom 24.
   */
  method ComputeZoomLevelCounterexamples() returns (coarse: Result<nat, ZoomError>, fine: Result<nat, ZoomError>)
    ensures coarse.Failure?
    ensures fine == Success(MaxZoom + 1)
  {
    var mpp0, coarseLimit, fineLimit := 1.0, 2.0, 0.0;
    ComputeZoomLevelRaisesIffZoomZeroSuffices(mpp0, coarseLimit);
    coarse := ComputeZoomLevel(mpp0, coarseLimit);
    ResolutionPositive(mpp0, MaxZoom);
    fine := ComputeZoomLevel(mpp0, fineLimit);
    assert fine.Success?;
  }

  /**
   * The evident intent of compute_zoom_level: the lowest zoom in 0..23 whose
   * resolution still meets the constraint, and an error only when even zoom
   * 23 is too coarse.
   */
  method CoarsestZoomLevel(mpp0: real, maxMetersPerPixel: real) returns (r: Result<nat, ZoomError>)
    requires mpp0 > 0.0
    ensures r.Success? ==> r.value <= MaxZoom && Resolution(mpp0, r.value) <= maxMetersPerPixel
    ensures r.Success? ==> forall z: nat :: z < r.value ==> Resolution(mpp0, z) > maxMetersPerPixel
    ensures r.Failure? <==> Resolution(mpp0, MaxZoom) > maxMetersPerPixel
  {
    var zoom: int := MaxZoom;
    while zoom >= 0
      invariant -1 <= zoom <= MaxZoom
      invariant forall z: nat :: zoom < z <= MaxZoom ==> Resolution(mpp0, z) <= maxMetersPerPixel
    {
      if Resolution(mpp0, zoom) > maxMetersPerPixel {
        if zoom == MaxZoom {
          return Failure(ZoomLevelUnavailable);
        }
        forall z: nat | z < zoom + 1
          ensures Resolution(mpp0, z) > maxMetersPerPixel
        {
          ResolutionMonotone(mpp0, z, zoom);
        }
        return Success(zoom + 1);
      }
      zoom := zoom - 1;
    }
    return Success(0);
  }

  /** A latitude/longitude pair in degrees; GeoPoint's constructor asserts the ranges. */
  datatype GeoPoint = GeoPoint(lat: real, lon: real)

  predicate InRange(lat: real, lon: real)
  {
    -90.0 <= lat <= 90.0 && -180.0 <= lon <= 180.0
  }

  /** Southwest and northeast corners; GeoRect's constructor asserts sw.lat <= ne.lat. */
  datatype GeoRect = GeoRect(sw: GeoPoint, ne: GeoPoint)

  datatype GeoError = InvalidArea | PointOutOfRange

  const MetersPerDegree: real := EarthCircumference / 360.0

  /**
   * GeoRect.around_geopoint: the rectangle of `width` by `height` meters
   * centred on `p`; `cosLat` stands for cos(radians(p.lat)).  It fails on a
   * non-positive size and when a corner leaves the GeoPoint ranges.
   */
  function AroundGeoPoint(p: GeoPoint, width: real, height: real, cosLat: real): (r: Result<GeoRect, GeoError>)
    requires InRange(p.lat, p.lon) && cosLat > 0.0
    ensures width <= 0.0 || height <= 0.0 ==> r == Failure(InvalidArea)
    ensures r.Success? ==> width > 0.0 && height > 0.0
    ensures r.Success? ==> InRange(r.value.sw.lat, r.value.sw.lon) && InRange(r.value.ne.lat, r.value.ne.lon)
    ensures r.Success? ==> r.value.sw.lat < r.value.ne.lat && r.value.sw.lon < r.value.ne.lon
    ensures r.Success? ==> ((r.value.sw.lat + r.value.ne.lat) / 2.0 == p.lat
                           && (r.value.sw.lon + r.value.ne.lon) / 2.0 == p.lon)
    ensures r.Success? ==> (r.value.ne.lat - r.value.sw.lat) * MetersPerDegree == height
    ensures r.Success? ==> (r.value.ne.lon - r.value.sw.lon) * (MetersPerDegree * cosLat) == width
    ensures width > 0.0 && height > 0.0 ==>
              (r.Failure? <==>
                 (!InRange(p.lat - height / MetersPerDegree / 2.0, p.lon - width / (MetersPerDegree * cosLat) / 2.0)
                  || !InRange(p.lat + height / MetersPerDegree / 2.0, p.lon + width / (MetersPerDegree * cosLat) / 2.0)))
  {
    if width <= 0.0 || height <= 0.0 then Failure(InvalidArea)
    else
      var widthGeo := width / (MetersPerDegree * cosLat);
      var heightGeo := height / MetersPerDegree;
      var swLat, swLon := p.lat - heightGeo / 2.0, p.lon - widthGeo / 2.0;
      var neLat, neLon := p.lat + heightGeo / 2.0, p.lon + widthGeo / 2.0;
      if !InRange(swLat, swLon) || !InRange(neLat, neLon) then Failure(PointOutOfRange)
      else Success(GeoRect(GeoPoint(swLat, swLon), GeoPoint(neLat, neLon)))
  }

  datatype ConfigError = MissingConstraint

  function Min(a: real, b: real): (m: real)
    ensures m <= a && m <= b && (m == a || m == b)
  {
    if a <= b then a else b
  }

  /** Python's `x or 1` on an optional nonzero number. */
  function OrOne(x: Option<real>): real
  {
    if x.Some? then x.value else 1.0
  }

  /**
   * The meters-per-pixel constraint main derives from the options: the given
   * one when no output size is set, otherwise the given one (or 1) scaled by
   * the area-to-image ratio of the set dimension, or of the tighter of both.
   * Options that were given as 0 are absent, so every present value is nonzero.
   */
  function MaxMetersPerPixel(configured: Option<real>, width: real, height: real,
                             imageWidth: Option<real>, imageHeight: Option<real>): (r: Result<real, ConfigError>)
    requires configured.Some? ==> configured.value != 0.0
    requires imageWidth.Some? ==> imageWidth.value != 0.0
    requires imageHeight.Some? ==> imageHeight.value != 0.0
    ensures r.Failure? <==> imageWidth.None? && imageHeight.None? && configured.None?
    ensures imageWidth.None? && imageHeight.None? && configured.Some? ==> r == Success(configured.value)
    ensures imageWidth.Some? && imageHeight.None? ==> r == Success(OrOne(configured) * (width / imageWidth.value))
    ensures imageWidth.None? && imageHeight.Some? ==> r == Success(OrOne(configured) * (height / imageHeight.value))
    ensures imageWidth.Some? && imageHeight.Some? ==>
              r == Success(OrOne(configured) * Min(width / imageWidth.value, height / imageHeight.value))
  {
    if imageWidth.None? && imageHeight.None? then
      if configured.Some? then Success(configured.value) else Failure(MissingConstraint)
    else if imageHeight.None? then
      Success(OrOne(configured) * (width / imageWidth.value))
    else if imageWidth.None? then
      Success(OrOne(configured) * (height / imageHeight.value))
    else
      Success(OrOne(configured) * Min(width / imageWidth.value, height / imageHeight.value))
  }

  /**
   * With both output dimensions set, the derived constraint is the tighter
   * of the two: it is one of the per-dimension constraints and no larger
   * than either, for a positive configured factor.
   */
  lemma MaxMetersPerPixelIsTighter(configured: Option<real>, width: real, height: real, imageWidth: real, imageHeight: real)
    requires configured.Some? ==> configured.value > 0.0
    requires imageWidth != 0.0 && imageHeight != 0.0
    ensures var r := MaxMetersPerPixel(configured, width, height, Some(imageWidth), Some(imageHeight));
            var byWidth, byHeight := OrOne(configured) * (width / imageWidth), OrOne(configured) * (height / imageHeight);
            && r.Success?
            && r.value <= byWidth && r.value <= byHeight
            && (r.value == byWidth || r.value == byHeight)
  {
    var f := OrOne(configured);
    var m := Min(width / imageWidth, height / imageHeight);
    assert f > 0.0;
    ScaleMonotone(f, m, width / imageWidth);
    ScaleMonotone(f, m, height / imageHeight);
  }

  lemma ScaleMonotone(f: real, a: real, b: real)
    requires f > 0.0 && a <= b
    ensures f * a <= f * b
  {
    assert f * b - f * a == f * (b - a);
  }
}
