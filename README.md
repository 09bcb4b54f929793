# H3 hexagon layer — a verified model

This project models the core of deck.gl's `H3HexagonLayer`
(`modules/geo-layers/src/h3-layers/h3-hexagon-layer.js`). The layer draws H3 grid
cells in one of two ways:

- **Exact rendering** builds one polygon per cell.
- **Approximate rendering** builds one shared hexagon and translates it to every cell.

The model covers four parts of that file:

- **Polygon utilities** (`Geometry.dfy`):
  - `normalizeLongitudes` shifts longitudes by a full turn so that a ring does not wrap across the antimeridian.
  - `scalePolygon` moves vertices towards the cell centroid with `lerp`.
  - `h3ToPolygon` picks between the two and can flatten the result into an interleaved buffer.
  - Vertices are objects of class `Vertex` and are updated in place. One list can therefore hold the same vertex twice, as a closed ring from `h3ToGeoBoundary` does. Each method's contract gives every vertex's new value as the step applied once per occurrence of that vertex.
- **Rotation plumbing** (`Rotation.dfy`):
  - the 3x3 helpers, written as nested loops over `array2<real>` and proved against value-level matrices (`Mat3`);
  - `skew` and `reverse_geo`;
  - the angle conversions;
  - the three rotations that `reset_by_centroid_and_azimuth` multiplies.

  The pair of module-level matrices is the class `RotationFrames`. Its forward matrix is rebound on every reset. Its inverse is one array, overwritten in place with the transpose.
- **Data scan and precision selector** (`HexagonLayer.dfy`):
  - `_calculateH3DataProps` is the loop with its early exits.
  - `_shouldUseHighPrecision` and the guard of `updateState` are also here.
- **Shared-hexagon cache** (`HexagonLayer.dfy`): `_updateVertices` on the layer's state, in class `H3HexagonLayer`.

The h3-js functions and the viewport's `projectFlat` are parameters whose behaviour is left unspecified (`H3`, `Viewport`). So are `Math.sin`, `Math.cos`, `Math.asin` and `Math.atan2` (`Trig`). Coordinates are `real`.

## Model

| member | source | states |
|---|---|---|
| Geometry.Unwrap | modules/geo-layers/src/h3-layers/h3-hexagon-layer.js:232-237 | Each longitude moves by exactly -360, +360 or 0. It is unchanged within 180 of the reference. Within 540 of the reference it lands within 180 of it. |
| Geometry.NormalizeLongitudes | modules/geo-layers/src/h3-layers/h3-hexagon-layer.js:229-239 | The reference is `refLng`, else the first vertex's longitude. With neither, the source's `vertices[0][0]` throws, modelled as `ok == false`. Each vertex's longitude becomes the unwrap step applied once per occurrence of that vertex in the list. Latitudes are unchanged. |
| Geometry.UnwrapTimesIsUnwrap | modules/geo-layers/src/h3-layers/h3-hexagon-layer.js:229-239 | Within 540 of the reference, applying the step again changes nothing. An aliased closing vertex therefore ends as if it were normalised once. |
| Geometry.Normalized | modules/geo-layers/src/h3-layers/h3-hexagon-layer.js:229-239 | Normalising keeps the length and the latitudes. If every longitude is within 540 of the reference, every result is within 180 of it. |
| Geometry.NormalizedIdempotent | modules/geo-layers/src/h3-layers/h3-hexagon-layer.js:229-239 | When every longitude is within 540 of the reference, normalising twice against it equals normalising once. |
| Geometry.AntimeridianExample | modules/geo-layers/src/h3-layers/h3-hexagon-layer.js:229-239 | A ring at longitudes 170 and -170, normalised against 175, becomes 170 and 190. |
| Geometry.Lerp | modules/geo-layers/src/h3-layers/h3-hexagon-layer.js:253-254 | math.gl's `lerp` gives the first end at factor 0 and the second at factor 1. |
| Geometry.LerpBetween | modules/geo-layers/src/h3-layers/h3-hexagon-layer.js:253-254 | With a factor between 0 and 1, the interpolated coordinate lies between the centroid's and the vertex's. |
| Geometry.LerpTimesByOne | modules/geo-layers/src/h3-layers/h3-hexagon-layer.js:252-255 | With factor 1, interpolation leaves a coordinate unchanged however many times it is applied. |
| Geometry.LerpTimesByZero | modules/geo-layers/src/h3-layers/h3-hexagon-layer.js:252-255 | With factor 0, one or more interpolations put the coordinate on the centroid's. |
| Geometry.ScaledVertices | modules/geo-layers/src/h3-layers/h3-hexagon-layer.js:250-251 | The processed prefix is the whole list, or the list without its last entry. |
| Geometry.ClosedRingScaledOnce | modules/geo-layers/src/h3-layers/h3-hexagon-layer.js:248-255 | Take a ring whose last entry is the first object and whose other entries are distinct. Every object in it is interpolated exactly once. The first object is normalised twice, the others once. |
| Geometry.OpenRingScaledOnce | modules/geo-layers/src/h3-layers/h3-hexagon-layer.js:248-255 | In a list of at least two distinct vertices, nothing is skipped and each vertex is interpolated once. |
| Geometry.ScalePolygon | modules/geo-layers/src/h3-layers/h3-hexagon-layer.js:242-256 | Each vertex is first normalised against the centroid longitude, once per occurrence. Its longitude and latitude are then interpolated towards the centroid once per occurrence in the processed prefix. |
| Geometry.Scaled | modules/geo-layers/src/h3-layers/h3-hexagon-layer.js:242-256 | Scaling distinct vertices keeps their number. |
| Geometry.ScaledByOne | modules/geo-layers/src/h3-layers/h3-hexagon-layer.js:242-256 | Factor 1 leaves the ring normalised against the centroid longitude and otherwise unchanged. |
| Geometry.ScaledByZero | modules/geo-layers/src/h3-layers/h3-hexagon-layer.js:242-256 | Factor 0 puts every vertex on the centroid. |
| Geometry.PolygonValues | modules/geo-layers/src/h3-layers/h3-hexagon-layer.js:264-273 | The ring `h3ToPolygon` computes has one entry per boundary vertex. |
| Geometry.CopyVertices | modules/geo-layers/src/h3-layers/h3-hexagon-layer.js:148-151 | The copy holds fresh, pairwise distinct vertex objects with the boundary's values, so for two or more vertices first and last are never aliased. |
| Geometry.Flatten | modules/geo-layers/src/h3-layers/h3-hexagon-layer.js:275-283 | The buffer has length 2n, with `positions[2i]` the longitude and `positions[2i+1]` the latitude of vertex i. |
| Geometry.H3ToPolygon | modules/geo-layers/src/h3-layers/h3-hexagon-layer.js:264-286 | The result is flat exactly when `flatten` is set. With coverage 1 it is the boundary normalised against its first vertex. Otherwise it is the boundary scaled towards the centroid. The flat form is that ring interleaved into a fresh buffer of length 2n. |
| Rotation.Deg2Rad | modules/geo-layers/src/h3-layers/h3-hexagon-layer.js:43-45 | `deg2rad` keeps the sign, and 180 degrees is `Math.PI`. |
| Rotation.Rad2Deg | modules/geo-layers/src/h3-layers/h3-hexagon-layer.js:47-49 | `rad2deg` keeps the sign, and `Math.PI` is 180 degrees. |
| Rotation.DegRadRoundTrip | modules/geo-layers/src/h3-layers/h3-hexagon-layer.js:43-49 | `deg2rad` and `rad2deg` are inverse to each other in both directions. |
| Rotation.ReverseGeo | modules/geo-layers/src/h3-layers/h3-hexagon-layer.js:144-146 | `reverse_geo` keeps the two coordinates, as a multiset. It leaves a pair unchanged exactly when the coordinates are equal. |
| Rotation.ReverseGeoInvolution | modules/geo-layers/src/h3-layers/h3-hexagon-layer.js:144-146 | `reverse_geo` is its own inverse, so it converts `[lat, lng]` to `[lng, lat]` and back. |
| Rotation.MatMulVector | modules/geo-layers/src/h3-layers/h3-hexagon-layer.js:51-61 | The result is the matrix-vector product. |
| Rotation.MatMulMatrix | modules/geo-layers/src/h3-layers/h3-hexagon-layer.js:63-79 | The result is the matrix product, `res[i][k] = Σ_j a[i][j]·b[j][k]`. |
| Rotation.MatMulEntry | modules/geo-layers/src/h3-layers/h3-hexagon-layer.js:71-76 | The inner loop leaves the (i, k) entry of the product in `res[i][k]` and changes no other entry. |
| Rotation.ScaleMatrix | modules/geo-layers/src/h3-layers/h3-hexagon-layer.js:81-93 | The result is `s` times the matrix, entry by entry. |
| Rotation.AddMatrix | modules/geo-layers/src/h3-layers/h3-hexagon-layer.js:95-107 | The result is the entrywise sum. |
| Rotation.ApplyProduct | modules/geo-layers/src/h3-layers/h3-hexagon-layer.js:51-79 | Multiplying by a product is multiplying by its factors, the right one first. |
| Rotation.ProductAssociative | modules/geo-layers/src/h3-layers/h3-hexagon-layer.js:63-79 | The matrix product is associative. |
| Rotation.OrthonormalProduct | modules/geo-layers/src/h3-layers/h3-hexagon-layer.js:217-218 | A product of orthonormal matrices is orthonormal. |
| Rotation.LatLngToXyzOnUnitSphere | modules/geo-layers/src/h3-layers/h3-hexagon-layer.js:109-119 | If sine and cosine satisfy the Pythagorean identity at both angles, `latlngToXyz` yields a unit vector. |
| Rotation.RotatePoint | modules/geo-layers/src/h3-layers/h3-hexagon-layer.js:131-135 | A point becomes the lat/lng of the rotated unit vector of the point. |
| Rotation.Skew | modules/geo-layers/src/h3-layers/h3-hexagon-layer.js:163-170 | The matrix is antisymmetric with a zero diagonal. |
| Rotation.SkewIsCrossProduct | modules/geo-layers/src/h3-layers/h3-hexagon-layer.js:163-170 | Multiplying by `skew(p)` is taking the cross product with `p`. |
| Rotation.RotationAxisAngle | modules/geo-layers/src/h3-layers/h3-hexagon-layer.js:172-184 | The result is Rodrigues' matrix `I + sK + (1-c)K²` of the axis's skew matrix. |
| Rotation.AxisAngleTerms | modules/geo-layers/src/h3-layers/h3-hexagon-layer.js:177-180 | The result is `sK + (1-c)K²`. |
| Rotation.RodriguesFixesAxis | modules/geo-layers/src/h3-layers/h3-hexagon-layer.js:172-184 | Whatever the angle, the axis-angle rotation leaves its axis in place. |
| Rotation.RotationX | modules/geo-layers/src/h3-layers/h3-hexagon-layer.js:186-194 | `rotation3D_x` has the x axis as its first row and first column, so the x axis stays in place. |
| Rotation.RotationXOrthonormal | modules/geo-layers/src/h3-layers/h3-hexagon-layer.js:186-194 | `rotation3D_x` is orthonormal when cos² + sin² = 1, and it maps the x unit vector to itself. |
| Rotation.RotationZ | modules/geo-layers/src/h3-layers/h3-hexagon-layer.js:196-204 | `rotation3D_z` has the z axis as its last row and last column, so the z axis stays in place. |
| Rotation.RotationZOrthonormal | modules/geo-layers/src/h3-layers/h3-hexagon-layer.js:196-204 | `rotation3D_z` is orthonormal when cos² + sin² = 1, and it maps the z unit vector to itself. |
| Rotation.ResetFactors | modules/geo-layers/src/h3-layers/h3-hexagon-layer.js:207-216 | The three factors are the axis-angle rotation about the centroid by the azimuth, then rotations about z and x by the centroid's offsets from the centre of face 5. |
| Rotation.ComposeReset | modules/geo-layers/src/h3-layers/h3-hexagon-layer.js:207-219 | The forward matrix is the product of the three factors in the source's order. |
| Rotation.ResetIsRotation | modules/geo-layers/src/h3-layers/h3-hexagon-layer.js:206-226 | Take the axis-angle factor as orthonormal, and the z and x angles as satisfying the Pythagorean identity. Then the reset's product is orthonormal and its transpose undoes it on every vector. |
| Rotation.TransposeUndoesRotation | modules/geo-layers/src/h3-layers/h3-hexagon-layer.js:220-225 | Keeping the transpose as the inverse is sound: for an orthonormal matrix it undoes the rotation. |
| Rotation.RotationFrames.constructor | modules/geo-layers/src/h3-layers/h3-hexagon-layer.js:32-41 | Both module-level matrices start as the identity, in distinct arrays. |
| Rotation.RotationFrames.ResetByCentroidAndAzimuth | modules/geo-layers/src/h3-layers/h3-hexagon-layer.js:206-226 | The forward matrix becomes a fresh array holding the product. The inverse array is overwritten with `R_amap_to_h3[i][j] == R_h3_to_amap[j][i]`, and the pair stays valid. |
| Rotation.RotationFrames.InstallTranspose | modules/geo-layers/src/h3-layers/h3-hexagon-layer.js:220-225 | The inverse array, and nothing else, becomes the transpose of the forward matrix. |
| Rotation.RotationFrames.H3GeoToAmapGeo | modules/geo-layers/src/h3-layers/h3-hexagon-layer.js:140-142 | The point is rotated by the forward matrix. |
| Rotation.RotationFrames.AmapGeoToH3Geo | modules/geo-layers/src/h3-layers/h3-hexagon-layer.js:137-139 | The point is rotated by the transpose of the forward matrix. |
| HexagonLayer.CalculateH3DataProps | modules/geo-layers/src/h3-layers/h3-hexagon-layer.js:343-373 | Empty data gives resolution -1, edge length 0 and no flags. Otherwise the resolution and edge length are the first cell's. Each flag holds iff `highPrecision` is not `false` and its stop condition is met first. The flags are never both set, and both stay false for `highPrecision === false`. |
| HexagonLayer.ScanFlagsExclusive | modules/geo-layers/src/h3-layers/h3-hexagon-layer.js:355-364 | The two stop conditions cannot both be met first. |
| HexagonLayer.UniformPrefix | modules/geo-layers/src/h3-layers/h3-hexagon-layer.js:350-365 | When neither stop condition is met, every prefix has the first cell's resolution throughout and no pentagon. |
| HexagonLayer.ScanSafety | modules/geo-layers/src/h3-layers/h3-hexagon-layer.js:350-365 | A full scan that meets neither stop condition means one resolution and no pentagon. |
| HexagonLayer.UseHighPrecision | modules/geo-layers/src/h3-layers/h3-hexagon-layer.js:375-385 | `true` and `false` are returned as given. In `'auto'` mode, a truthy `viewport.resolution` or either scan flag forces exact rendering. |
| HexagonLayer.ApproximateOnlyOnUniformData | modules/geo-layers/src/h3-layers/h3-hexagon-layer.js:375-385 | In `'auto'` mode after a scan, approximate rendering is chosen only when every cell has the same resolution, finer than 5, and none is a pentagon. |
| HexagonLayer.AutoSelectorOnScannedData | modules/geo-layers/src/h3-layers/h3-hexagon-layer.js:375-385 | In `'auto'` mode after a scan, approximate rendering is chosen iff `viewport.resolution` is falsy and the data is empty, or is all of one resolution finer than 5 with no pentagon. |
| HexagonLayer.LocalVertices | modules/geo-layers/src/h3-layers/h3-hexagon-layer.js:415-422 | There is one offset per vertex. |
| HexagonLayer.CenterIsOrigin | modules/geo-layers/src/h3-layers/h3-hexagon-layer.js:415-422 | Offsets are relative to the projected centroid, which maps to (0, 0). |
| HexagonLayer.HexagonShape | modules/geo-layers/src/h3-layers/h3-hexagon-layer.js:412-422 | The cached shape has one entry per boundary vertex. |
| HexagonLayer.ShapeInMeters | modules/geo-layers/src/h3-layers/h3-hexagon-layer.js:410-422 | The shape is `h3ToPolygon(hex)` (coverage 1, not flat). Each vertex is projected and taken relative to the projected centroid, divided by `unitsPerMeter`. |
| HexagonLayer.KeepsCache | modules/geo-layers/src/h3-layers/h3-hexagon-layer.js:388-408 | When the cache is not kept, approximate rendering is on, the resolution is known and the candidate differs from the cached centre. |
| HexagonLayer.CacheKeptOnlyOnSmallDrift | modules/geo-layers/src/h3-layers/h3-hexagon-layer.js:401-407 | Suppose the first three guards pass. Then the cache is kept iff there is a previous centre at a nonnegative `h3Distance` whose drift `distance·edgeLengthKM` is under 10 km. No previous centre, or a negative distance, always recomputes. |
| HexagonLayer.H3HexagonLayer.UpdateVertices | modules/geo-layers/src/h3-layers/h3-hexagon-layer.js:387-425 | When the guards keep the cache (high precision, a negative resolution, the same centre, or a drift under 10 km at a nonnegative distance), `centerHex` and `vertices` are unchanged. Otherwise `centerHex` becomes the candidate cell (the truthy `centerHexagon`, else the cell under the viewport centre, lines 395-397) and `vertices` that cell's shape in metres. Props and scan results are untouched, and the guards keep the new cache afterwards. |
| HexagonLayer.H3HexagonLayer.UpdateState | modules/geo-layers/src/h3-layers/h3-hexagon-layer.js:330-341 | The scan runs iff `highPrecision !== true` and the data or the `getHexagon` trigger changed, and its result is stored. Otherwise the scan state is kept. The cache is then judged against the new props and scan state: kept as it was when the guards hold, otherwise recentred on the candidate with that cell's shape in metres. An `'auto'` layer left in approximate rendering after a scan has uniform, non-pentagon data finer than resolution 5. |
| HexagonLayer.Rescans | modules/geo-layers/src/h3-layers/h3-hexagon-layer.js:331-335 | `highPrecision === true` never rescans, and neither does an update where neither the data nor the `getHexagon` trigger changed. |
| HexagonLayer.StaleScanAfterSwitchToAuto | modules/geo-layers/src/h3-layers/h3-hexagon-layer.js:331-381 | A scan under `highPrecision: false` stops after the first cell and records no pentagon (line 356). Switching the prop to `'auto'` with the same data does not rescan (lines 331-335), so `'auto'` picks approximate rendering even when that first cell is a pentagon at a resolution finer than 5. |

## Left out

- Trigonometry and floating point. `Math.sin`, `Math.cos`, `Math.asin` and `Math.atan2` are uninterpreted, and all arithmetic is exact over the reals.
  - The round trip of `rotate_point` through the forward and inverse matrices is stated only at the vector level (`TransposeUndoesRotation`). Without trig identities, `xyzToLatlng` cannot be shown to invert `latlngToXyz`.
  - Rotation.ResetIsRotation: takes the orthonormality of the axis-angle factor as a hypothesis. Proving it would need a unit-length axis and the Pythagorean identity, and that is not proved here.
- The h3-js library (`h3ToGeoBoundary`, `h3ToGeo`, `geoToH3`, `h3Distance`, `edgeLength`, `h3IsPentagon`, `h3GetResolution`) is a parameter (`HexagonLayer.H3`).
  - The layer reads the boundary, the centroid and the cell under a point after the rotation (`idToPolygonRotated`, `idToCenterRotated`, `centerToIdRotated`, lines 148-161). The model takes these composed functions as given and does not link them to `RotationFrames`.
  - Resolutions are natural numbers, and every boundary has at least one vertex.
- Geometry.H3ToPolygon: its copy of the boundary gives every vertex a new object (the `.map` in `idToPolygonRotated`). For two or more vertices, first and last are therefore never the same object, and the closed-ring skip of `scalePolygon` does not fire. For a one-vertex boundary, `vertices[0] === vertices[0]`, so the skip fires and the vertex is only normalised (`PolygonValues`). The skip of a closed ring is modelled and proved in `ScalePolygon` and `ClosedRingScaledOnce`.
- The `Float64Array` is an `array<real>`.
- The deck.gl framework: `shouldUpdateState`, `renderLayers` (including its reset with fixed constants), `_renderPolygonLayer`, `_renderColumnLayer`, `_getForwardProps`, `getHexagonCentroid`, `mergeTriggers`, `setState` and the default props. These only forward properties and depend on JavaScript dynamic typing.
  - `createIterable` and the `getHexagon` accessor are replaced by a list of cell ids, one per data object, in iteration order.
  - The `updateTriggers` change flag is a boolean.
- HexagonLayer.H3HexagonLayer.constructor: the source's initial state is empty, so `resolution`, `hasMultipleRes` and `hasPentagon` are `undefined`. The model starts at -1 and `false`. The two agree while the layer has scanned at least once. They part when no scan has run yet. For example, a layer created with `highPrecision: true` skips the scan. If the prop then changes to `'auto'` or `false` while the data and the `getHexagon` trigger stay the same, `updateState` still skips it (lines 331-335). `_updateVertices` then meets an `undefined` resolution. The source's `undefined < 0` is false, so it goes on to `centerToIdRotated(…, undefined)` and caches whatever h3-js returns for an undefined resolution. The model's -1 stops at the second guard and keeps the cache (`vertices == []`). In `'auto'` both select approximate rendering (unless `viewport.resolution` is truthy), over data that has not been scanned. What h3-js does with an undefined resolution is outside this model.
- `viewport.resolution` is modelled by its truthiness. `distanceScales.unitsPerMeter` is a pair of positive numbers.
