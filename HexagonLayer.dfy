/**
 * The `H3HexagonLayer` composite layer: the scan of the data that decides
 * between exact rendering (one polygon per cell) and approximate rendering
 * (one shared hexagon translated per cell), the precision selector, and the
 * cache of the shared hexagon's vertices that follows the viewport.
 *
 * The h3-js library and the viewport's projection are parameters (`H3`,
 * `Viewport`): their functions are uninterpreted. The cell boundary and
 * centroid the layer reads are those after the module-level rotation
 * (`idToPolygonRotated`, `idToCenterRotated`).
 */
module HexagonLayer {
  import opened Wrappers
  import opened Geometry

  /** An H3 index as the layer sees it: a hexadecimal string. */
  type CellId = string

  /** The h3-js functions the layer calls, composed with the rotation where the source does so. */
  datatype H3 = H3(
    resolutionOf: CellId -> nat,             // h3GetResolution
    isPentagon: CellId -> bool,              // h3IsPentagon
    edgeLengthKm: nat -> real,               // edgeLength(res, UNITS.km)
    distance: (CellId, CellId) -> int,       // h3Distance, negative when undefined
    cellAt: (real, real, nat) -> CellId,     // centerToIdRotated(lat, lng, res)
    boundary: CellId -> Boundary,            // idToPolygonRotated
    centroid: CellId -> GeoPoint)            // idToCenterRotated

  type PosReal = r: real | r > 0.0 witness 1.0

  /**
   * The parts of the deck.gl viewport the layer reads. `indexed` is the
   * truthiness of `viewport.resolution`; `projectFlat` takes `[lng, lat]`.
   */
  datatype Viewport = Viewport(
    latitude: real,
    longitude: real,
    indexed: bool,
    unitsPerMeter: (PosReal, PosReal),
    projectFlat: ((real, real)) -> (real, real))

  /** The `highPrecision` prop: `'auto'` (the default), `true` or `false`. */
  datatype HighPrecision = Auto | Fixed(value: bool)

  /** JavaScript truthiness of the prop: the string `'auto'` is truthy. */
  function Truthy(hp: HighPrecision): bool {
    hp.Auto? || hp.value
  }

  /** JavaScript truthiness of an optional cell id: `null`, `undefined` and `''` are falsy. */
  function Present(o: Option<CellId>): bool {
    o.Some? && o.value != ""
  }

  /** The props the modelled code reads; `data` holds each object's hexagon id, in order. */
  datatype Props = Props(data: seq<CellId>, highPrecision: HighPrecision, coverage: real, centerHexagon: Option<CellId>)

  /** The result of `_calculateH3DataProps`. */
  datatype DataProps = DataProps(resolution: int, edgeLengthKM: real, hasMultipleRes: bool, hasPentagon: bool)

  /** `UPDATE_THRESHOLD_KM`. */
  const UpdateThresholdKm: real := 10.0

  // ---------------------------------------------------------------------------
  // The data scan
  // ---------------------------------------------------------------------------

  /** Cell `i` is the first with another resolution than the first cell, and no pentagon comes before it. */
  ghost predicate ResolutionChangesAt(data: seq<CellId>, h3: H3, i: int) {
    0 < i < |data| && h3.resolutionOf(data[i]) != h3.resolutionOf(data[0]) &&
    forall j :: 0 <= j < i ==> !h3.isPentagon(data[j])
  }

  /** Cell `i` is a pentagon, and every cell up to it has the first cell's resolution. */
  ghost predicate PentagonAt(data: seq<CellId>, h3: H3, i: int) {
    0 <= i < |data| && h3.isPentagon(data[i]) &&
    forall j :: 0 < j <= i ==> h3.resolutionOf(data[j]) == h3.resolutionOf(data[0])
  }

  /** The scan stops at a change of resolution. */
  ghost predicate MultipleResFound(data: seq<CellId>, h3: H3) {
    exists i :: ResolutionChangesAt(data, h3, i)
  }

  /** The scan stops at a pentagon. */
  ghost predicate PentagonFound(data: seq<CellId>, h3: H3) {
    exists i :: PentagonAt(data, h3, i)
  }

  /**
   * What the scan reports about `props.data`: nothing for no data; else the
   * first cell's resolution and its edge length, and, unless `highPrecision`
   * is `false`, which of the two stopping conditions the cells meet first.
   */
  ghost predicate DescribesData(p: DataProps, props: Props, h3: H3) {
    var data := props.data;
    (|data| == 0 ==> p == DataProps(-1, 0.0, false, false)) &&
    (|data| > 0 ==>
      p.resolution == h3.resolutionOf(data[0]) &&
      p.edgeLengthKM == h3.edgeLengthKm(h3.resolutionOf(data[0])) &&
      (p.hasMultipleRes <==> props.highPrecision != Fixed(false) && MultipleResFound(data, h3)) &&
      (p.hasPentagon <==> props.highPrecision != Fixed(false) && PentagonFound(data, h3)))
  }

  /** The two conditions cannot both hold: whichever comes first ends the scan. */
  lemma ScanFlagsExclusive(data: seq<CellId>, h3: H3)
    ensures !(MultipleResFound(data, h3) && PentagonFound(data, h3))
  {
  }

  /** Every cell has the first cell's resolution and none is a pentagon. */
  ghost predicate Uniform(data: seq<CellId>, h3: H3) {
    forall i :: 0 <= i < |data| ==>
      h3.resolutionOf(data[i]) == h3.resolutionOf(data[0]) && !h3.isPentagon(data[i])
  }

  /**
   * When the full scan finds neither condition, the data is uniform: one
   * resolution and no pentagon, the premise of the shared-hexagon rendering.
   */
  lemma ScanSafety(data: seq<CellId>, h3: H3)
    requires !MultipleResFound(data, h3) && !PentagonFound(data, h3)
    ensures Uniform(data, h3)
  {
    UniformPrefix(data, h3, |data|);
  }

  /**
   * Without either condition, the first `n` cells share the first cell's
   * resolution and none of them is a pentagon.
   */
  lemma {:induction false} UniformPrefix(data: seq<CellId>, h3: H3, n: nat)
    requires n <= |data|
    requires !MultipleResFound(data, h3) && !PentagonFound(data, h3)
    ensures forall j :: 0 <= j < n ==> h3.resolutionOf(data[j]) == h3.resolutionOf(data[0])
    ensures forall j :: 0 <= j < n ==> !h3.isPentagon(data[j])
  {
    if n > 0 {
      UniformPrefix(data, h3, n - 1);
      var k := n - 1;
      assert !ResolutionChangesAt(data, h3, k);
      assert !PentagonAt(data, h3, k);
    }
  }

  /**
   * `_calculateH3DataProps`: walks the cells in order, takes the first one's
   * resolution (stopping there when `highPrecision` is `false`), and stops
   * at the first cell with another resolution or the first pentagon.
   */
  method CalculateH3DataProps(props: Props, h3: H3) returns (p: DataProps)
    ensures DescribesData(p, props, h3)
    ensures !(p.hasMultipleRes && p.hasPentagon)
    ensures props.highPrecision == Fixed(false) ==> !p.hasMultipleRes && !p.hasPentagon
  {
    var data := props.data;
    var resolution: int := -1;
    var hasPentagon := false;
    var hasMultipleRes := false;
    var i := 0;
    while i < |data|
      invariant 0 <= i <= |data|
      invariant i == 0 ==> resolution == -1
      invariant i > 0 ==> resolution == h3.resolutionOf(data[0]) && Truthy(props.highPrecision)
      invariant forall j :: 0 < j < i ==> h3.resolutionOf(data[j]) == h3.resolutionOf(data[0])
      invariant forall j :: 0 <= j < i ==> !h3.isPentagon(data[j])
      invariant !hasMultipleRes && !hasPentagon
    {
      var hexId := data[i];
      var hexResolution := h3.resolutionOf(hexId);
      if resolution < 0 {
        resolution := hexResolution;
        if !Truthy(props.highPrecision) {
          break;
        }
      } else if resolution != hexResolution {
        hasMultipleRes := true;
        assert ResolutionChangesAt(data, h3, i);
        break;
      }
      if h3.isPentagon(hexId) {
        hasPentagon := true;
        assert PentagonAt(data, h3, i);
        break;
      }
      i := i + 1;
    }
    ScanFlagsExclusive(data, h3);
    p := DataProps(
      resolution,
      if resolution >= 0 then h3.edgeLengthKm(resolution) else 0.0,
      hasMultipleRes,
      hasPentagon);
  }

  // ---------------------------------------------------------------------------
  // The shared hexagon
  // ---------------------------------------------------------------------------

  /** One vertex in metres from the projected centre `c`. */
  function Offset(vp: Viewport, p: GeoPoint, c: (real, real)): (real, real) {
    var w := vp.projectFlat((p.lng, p.lat));
    ((w.0 - c.0) / vp.unitsPerMeter.0, (w.1 - c.1) / vp.unitsPerMeter.1)
  }

  /** The vertices of `ring` as offsets in metres from the projection of `center`. */
  function LocalVertices(ring: seq<GeoPoint>, center: GeoPoint, vp: Viewport): (r: seq<(real, real)>)
    ensures |r| == |ring|
  {
    var c := vp.projectFlat((center.lng, center.lat));
    seq(|ring|, i requires 0 <= i < |ring| => Offset(vp, ring[i], c))
  }

  /** Offsets are relative: the centre itself lands on the origin. */
  lemma CenterIsOrigin(center: GeoPoint, vp: Viewport)
    ensures LocalVertices([center], center, vp) == [(0.0, 0.0)]
  {
    var c := vp.projectFlat((center.lng, center.lat));
    assert LocalVertices([center], center, vp)[0] == Offset(vp, center, c);
  }

  /** The shape cached for cell `hex`: its boundary normalised against the first vertex, around its centroid. */
  function HexagonShape(hex: CellId, vp: Viewport, h3: H3): (r: seq<(real, real)>)
    ensures |r| == |h3.boundary(hex)|
  {
    var ring := h3.boundary(hex);
    LocalVertices(Normalized(ring, ring[0].lng), h3.centroid(hex), vp)
  }

  /** The layer: its props, the scan's results and the cached shared hexagon. */
  class H3HexagonLayer {
    var props: Props
    var resolution: int
    var edgeLengthKM: real
    var hasMultipleRes: bool
    var hasPentagon: bool
    var centerHex: Option<CellId>
    var vertices: seq<(real, real)>

    constructor (props: Props)
      ensures this.props == props && resolution == -1 && edgeLengthKM == 0.0
      ensures !hasMultipleRes && !hasPentagon && centerHex == None && vertices == []
    {
      this.props := props;
      resolution := -1;
      edgeLengthKM := 0.0;
      hasMultipleRes := false;
      hasPentagon := false;
      centerHex := None;
      vertices := [];
    }

    function DataState(): DataProps
      reads this
    {
      DataProps(resolution, edgeLengthKM, hasMultipleRes, hasPentagon)
    }

    /**
     * `_updateVertices`: keeps the cache under its guards, else recentres it
     * on the candidate cell with that cell's shape in metres. Either way the
     * cache is then current for this viewport.
     */
    method UpdateVertices(vp: Viewport, h3: H3)
      modifies this
      ensures props == old(props) && DataState() == old(DataState())
      ensures old(KeepsCache(props, DataState(), centerHex, vp, h3)) ==>
        centerHex == old(centerHex) && vertices == old(vertices)
      ensures !old(KeepsCache(props, DataState(), centerHex, vp, h3)) ==>
        centerHex == Some(Candidate(props, DataState(), vp, h3)) &&
        vertices == HexagonShape(Candidate(props, DataState(), vp, h3), vp, h3)
      ensures KeepsCache(props, DataState(), centerHex, vp, h3)
    {
      if UseHighPrecision(props.highPrecision, DataState(), vp.indexed) {
        return;
      }
      if resolution < 0 {
        return;
      }
      var hex := if Present(props.centerHexagon) then props.centerHexagon.value
        else h3.cellAt(vp.latitude, vp.longitude, resolution);
      if centerHex == Some(hex) {
        return;
      }
      if Present(centerHex) {
        var distance := h3.distance(centerHex.value, hex);
        if distance >= 0 && (distance as real) * edgeLengthKM < UpdateThresholdKm {
          return;
        }
      }
      var shape := ShapeInMeters(hex, vp, h3);
      centerHex := Some(hex);
      vertices := shape;
    }

    /**
     * `updateState`: rescans the data when `highPrecision` is not `true` and
     * the data or the `getHexagon` trigger changed, then updates the cache
     * against the new props and scan results.
     */
    method UpdateState(newProps: Props, dataChanged: bool, hexagonTriggerChanged: bool, vp: Viewport, h3: H3)
      modifies this
      ensures props == newProps
      ensures Rescans(newProps, dataChanged, hexagonTriggerChanged) ==> DescribesData(DataState(), newProps, h3)
      ensures !Rescans(newProps, dataChanged, hexagonTriggerChanged) ==> DataState() == old(DataState())
      ensures KeepsCache(newProps, DataState(), old(centerHex), vp, h3) ==>
        centerHex == old(centerHex) && vertices == old(vertices)
      ensures !KeepsCache(newProps, DataState(), old(centerHex), vp, h3) ==>
        centerHex == Some(Candidate(newProps, DataState(), vp, h3)) &&
        vertices == HexagonShape(Candidate(newProps, DataState(), vp, h3), vp, h3)
      ensures KeepsCache(props, DataState(), centerHex, vp, h3)
      ensures (Rescans(newProps, dataChanged, hexagonTriggerChanged) && newProps.highPrecision == Auto &&
               !UseHighPrecision(newProps.highPrecision, DataState(), vp.indexed)) ==>
          forall i :: 0 <= i < |newProps.data| ==>
            h3.resolutionOf(newProps.data[i]) == resolution && resolution > 5 && !h3.isPentagon(newProps.data[i])
    {
      props := newProps;
      if Rescans(newProps, dataChanged, hexagonTriggerChanged) {
        var dataProps := CalculateH3DataProps(newProps, h3);
        resolution, edgeLengthKM := dataProps.resolution, dataProps.edgeLengthKM;
        hasMultipleRes, hasPentagon := dataProps.hasMultipleRes, dataProps.hasPentagon;
      }
      UpdateVertices(vp, h3);
      if Rescans(newProps, dataChanged, hexagonTriggerChanged) && newProps.highPrecision == Auto &&
         !UseHighPrecision(newProps.highPrecision, DataState(), vp.indexed) {
        ApproximateOnlyOnUniformData(DataState(), newProps, h3, vp.indexed);
      }
    }
  }

  /** The condition of `updateState` for recomputing the data props. */
  predicate Rescans(props: Props, dataChanged: bool, hexagonTriggerChanged: bool)
    ensures props.highPrecision == Fixed(true) ==> !Rescans(props, dataChanged, hexagonTriggerChanged)
    ensures !dataChanged && !hexagonTriggerChanged ==> !Rescans(props, dataChanged, hexagonTriggerChanged)
  {
    props.highPrecision != Fixed(true) && (dataChanged || hexagonTriggerChanged)
  }

  /**
   * `_shouldUseHighPrecision` on the values it reads: `true` and `false` pass
   * through; `'auto'` chooses exact rendering for an indexed viewport, for
   * either scan flag and for a coarse resolution.
   */
  function UseHighPrecision(hp: HighPrecision, p: DataProps, indexed: bool): (r: bool)
    ensures hp.Fixed? ==> r == hp.value
    ensures hp == Auto && (indexed || p.hasMultipleRes || p.hasPentagon) ==> r
  {
    match hp
    case Auto => indexed || p.hasMultipleRes || p.hasPentagon || (p.resolution >= 0 && p.resolution <= 5)
    case Fixed(b) => b
  }

  /**
   * The centre cell `_updateVertices` wants: a truthy `centerHexagon` prop
   * overrides the cell under the viewport centre at the data's resolution.
   */
  function Candidate(props: Props, p: DataProps, vp: Viewport, h3: H3): CellId
    requires p.resolution >= 0
  {
    if Present(props.centerHexagon) then props.centerHexagon.value
    else h3.cellAt(vp.latitude, vp.longitude, p.resolution)
  }

  /** The guards under which `_updateVertices` keeps the cached hexagon of `centerHex`. */
  predicate KeepsCache(props: Props, p: DataProps, centerHex: Option<CellId>, vp: Viewport, h3: H3)
    ensures !KeepsCache(props, p, centerHex, vp, h3) ==>
      !UseHighPrecision(props.highPrecision, p, vp.indexed) && p.resolution >= 0 &&
      centerHex != Some(Candidate(props, p, vp, h3))
  {
    UseHighPrecision(props.highPrecision, p, vp.indexed) || p.resolution < 0 ||
    centerHex == Some(Candidate(props, p, vp, h3)) ||
    (Present(centerHex) &&
     var d := h3.distance(centerHex.value, Candidate(props, p, vp, h3));
     d >= 0 && (d as real) * p.edgeLengthKM < UpdateThresholdKm)
  }

  /**
   * Once the first three guards pass, the cache is kept exactly when there is
   * a previous centre at a defined (nonnegative) grid distance whose drift is
   * under `UPDATE_THRESHOLD_KM`; no previous centre, or a negative distance,
   * always recomputes.
   */
  lemma CacheKeptOnlyOnSmallDrift(props: Props, p: DataProps, centerHex: Option<CellId>, vp: Viewport, h3: H3)
    requires !UseHighPrecision(props.highPrecision, p, vp.indexed) && p.resolution >= 0
    requires centerHex != Some(Candidate(props, p, vp, h3))
    ensures KeepsCache(props, p, centerHex, vp, h3) <==>
      Present(centerHex) &&
      var d := h3.distance(centerHex.value, Candidate(props, p, vp, h3));
      d >= 0 && (d as real) * p.edgeLengthKM < UpdateThresholdKm
    ensures !Present(centerHex) ==> !KeepsCache(props, p, centerHex, vp, h3)
    ensures Present(centerHex) && h3.distance(centerHex.value, Candidate(props, p, vp, h3)) < 0 ==>
      !KeepsCache(props, p, centerHex, vp, h3)
  {
  }

  /**
   * In `'auto'` mode the approximate rendering is chosen only for data of one
   * resolution finer than 5 without pentagons (or for no data at all).
   */
  lemma ApproximateOnlyOnUniformData(p: DataProps, props: Props, h3: H3, indexed: bool)
    requires DescribesData(p, props, h3) && props.highPrecision == Auto
    requires !UseHighPrecision(props.highPrecision, p, indexed)
    ensures forall i :: 0 <= i < |props.data| ==>
      h3.resolutionOf(props.data[i]) == p.resolution && p.resolution > 5 && !h3.isPentagon(props.data[i])
  {
    if |props.data| > 0 {
      ScanSafety(props.data, h3);
    }
  }

  /**
   * A scan under `highPrecision: false` stops at the first cell and records
   * no pentagon. Switching the prop to `'auto'` with the same data and
   * trigger does not rescan, so `'auto'` then picks approximate rendering
   * even when that first cell is a pentagon.
   */
  lemma StaleScanAfterSwitchToAuto(p: DataProps, props: Props, h3: H3)
    requires props.highPrecision == Fixed(false) && DescribesData(p, props, h3)
    requires |props.data| > 0 && h3.resolutionOf(props.data[0]) > 5 && h3.isPentagon(props.data[0])
    ensures PentagonFound(props.data, h3) && !p.hasPentagon
    ensures !Rescans(props.(highPrecision := Auto), false, false)
    ensures !UseHighPrecision(Auto, p, false)
  {
    assert PentagonAt(props.data, h3, 0);
  }

  /**
   * The selector in `'auto'` mode after a scan, both ways: approximate
   * rendering is chosen exactly for a viewport without `resolution` and data
   * that is empty or of one resolution finer than 5 without pentagons.
   */
  lemma AutoSelectorOnScannedData(p: DataProps, props: Props, h3: H3, indexed: bool)
    requires DescribesData(p, props, h3) && props.highPrecision == Auto
    ensures !UseHighPrecision(Auto, p, indexed) <==>
      !indexed && (|props.data| == 0 || (Uniform(props.data, h3) && h3.resolutionOf(props.data[0]) > 5))
  {
    var data := props.data;
    if !UseHighPrecision(Auto, p, indexed) {
      ApproximateOnlyOnUniformData(p, props, h3, indexed);
    }
    if !indexed && |data| > 0 && Uniform(data, h3) && h3.resolutionOf(data[0]) > 5 {
      forall i ensures !ResolutionChangesAt(data, h3, i) && !PentagonAt(data, h3, i) {
        if 0 <= i < |data| {
          assert h3.resolutionOf(data[i]) == h3.resolutionOf(data[0]) && !h3.isPentagon(data[i]);
        }
      }
    }
  }

  /**
   * The vertices of `_updateVertices`: `h3ToPolygon(hex)` (coverage 1, not
   * flattened), each vertex projected and taken relative to the projected
   * centroid, in metres.
   */
  method ShapeInMeters(hex: CellId, vp: Viewport, h3: H3) returns (shape: seq<(real, real)>)
    ensures shape == HexagonShape(hex, vp, h3)
  {
    var ring := h3.boundary(hex);
    var polygon := H3ToPolygon(ring, h3.centroid(hex), 1.0, false);
    ghost var values := PolygonValues(ring, h3.centroid(hex), 1.0);
    assert values == Normalized(ring, ring[0].lng);
    var center := h3.centroid(hex);
    var c := vp.projectFlat((center.lng, center.lat));
    var pts := polygon.vertices;
    shape := [];
    for i := 0 to |pts|
      invariant |shape| == i
      invariant forall j :: 0 <= j < i ==> shape[j] == Offset(vp, values[j], c)
    {
      var w := vp.projectFlat((pts[i].lng, pts[i].lat));
      shape := shape + [((w.0 - c.0) / vp.unitsPerMeter.0, (w.1 - c.1) / vp.unitsPerMeter.1)];
    }
  }
}
