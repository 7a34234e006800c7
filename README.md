# Bike routes: route metrics, upload handler, API client and upload form

This project models the computing core of a small bike-route web application.
The server accepts a GPX file upload, converts it to GeoJSON, and derives three
summary values from the first LineString: distance in miles, elevation gain in
feet, and the start point. It then stores a route record. The browser client
builds API URLs and shows an upload form.

The model has four parts, one module per source file:

- `GeoUtils` (`api/src/util/geoUtils.ts`). Both metrics are loops over
  consecutive pairs of positions. They are modelled as methods whose loop
  invariants tie the accumulator to a recursive pair sum, `PairSum`.
  - Elevation gain is exact over `real`. A missing third entry reads as 0,
    only rises are added, and the result is metres × 3.28084 rounded with
    JavaScript's `Math.round` (floor of x + 0.5).
  - Distance keeps its summation and its rounding to tenths. The per-segment
    Haversine distance is a function parameter.
- `BikeRoutes` (`api/src/routes/bikeRoutes.ts`). The POST, GET-by-id and list
  handlers are pure functions. Each maps the request's relevant parts, and
  what the converter and the store did, to the response.
- `ApiClient` (`src/util/apiClient.ts`). Path normalisation (one leading `//`
  becomes `/`), the full URL, and the rule that a non-ok response raises
  "Network error". `fetch` is a function parameter.
- `UploadRoute` (`src/components/UploadRoute.tsx`). A class with the form's
  four state cells and a `Submit(outcome)` method. The network result is the
  `outcome` parameter.

`Wrappers` holds `Option` and `Result`.

Facts about the code that the model makes explicit:

- Elevations 100, 50, 120 climb 70 m, which is stored as 230 ft (`WorkedTracks`).
- `Math.round` rounds halves up (`JsRound`).
- An empty LineString makes `coords[0].slice` throw (api/src/routes/bikeRoutes.ts:71),
  so the handler answers 500 and the store is never asked to create a record.
- All three POST tests send JSON with no file. Two expect 201 and one expects
  500 from a failing store. The handler as written answers 400 "GPX file is
  required" to each of them.

## Model

| member | source | states |
|---|---|---|
| GeoUtils.Elevation | api/src/util/geoUtils.ts:24 | `coords[i][2] \|\| 0`: the third entry of a position, or 0 when the position has only two entries (definition; its consequences are `MissingElevationIsZero` and `ClimbOnlyReadsElevation`) |
| GeoUtils.PairSum | api/src/util/geoUtils.ts:5-16 | the in-order sum of a term over each consecutive pair, built from the back as both loops accumulate it (definition; the loops are proved against it) |
| GeoUtils.ClimbTotal | api/src/util/geoUtils.ts:22-26 | the metre accumulator `gain`: the pair sum of `Climb` (definition) |
| GeoUtils.JsRound | api/src/util/geoUtils.ts:17 | `Math.round` gives the integer r with x − 0.5 < r ≤ x + 0.5, so halves round up |
| GeoUtils.Climb | api/src/util/geoUtils.ts:24-25 | one pair adds max(0, rise): the result is ≥ 0, ≥ the rise, and equals either 0 or the rise |
| GeoUtils.ElevationGainFeet | api/src/util/geoUtils.ts:21-28 | the stored gain is a non-negative integer; it is 0 for fewer than 2 points; it is metres climbed × 3.28084 rounded to within ½ |
| GeoUtils.DistanceMiles | api/src/util/geoUtils.ts:2-18 | the distance is 0 for fewer than 2 points; it is a whole number of tenths; it is within 0.05 of the pair sum of segment distances |
| GeoUtils.CalculateDistance | api/src/util/geoUtils.ts:2-18 | the loop's result equals `DistanceMiles`; the invariant is that `total` is the pair sum over the prefix visited so far |
| GeoUtils.CalculateElevationGain | api/src/util/geoUtils.ts:21-28 | the loop's result equals `ElevationGainFeet`; the invariant is that `gain` is the metres climbed over the prefix visited so far |
| GeoUtils.PairSumNonNegative | api/src/util/geoUtils.ts:5-16 | a pair sum of non-negative terms is non-negative |
| GeoUtils.ClimbTotalNonNegative | api/src/util/geoUtils.ts:23-26 | descents are never subtracted, so the metres climbed are ≥ 0 |
| GeoUtils.PairSumAppend | api/src/util/geoUtils.ts:5-16 | appending a point adds exactly the term for the new last pair |
| GeoUtils.ClimbAppend | api/src/util/geoUtils.ts:23-26 | appending a point no higher than the last leaves the gain unchanged; a higher one adds exactly the rise |
| GeoUtils.PairSumConcat | api/src/util/geoUtils.ts:5-16 | the sum over a + b splits into the sum over a, the joining pair, and the sum over b |
| GeoUtils.PairSumCons | api/src/util/geoUtils.ts:5-16 | summing from the front agrees with the loop's summing from the back |
| GeoUtils.Reverse | api/src/util/geoUtils.ts:5-16 | helper, not in the source: the reversed path that `PairSumReverse` is stated over; same length, and position i is position n − 1 − i of the original |
| GeoUtils.PairSumReverse | api/src/util/geoUtils.ts:5-16 | for a symmetric segment distance, a reversed track has the same total |
| GeoUtils.PairSumDuplicate | api/src/util/geoUtils.ts:5-16 | for a segment distance that is 0 between identical points, repeating a point in place adds nothing |
| GeoUtils.ClimbTelescopes | api/src/util/geoUtils.ts:23-26 | on a path that never descends, the metres climbed telescope to the last elevation minus the first |
| GeoUtils.ClimbAtLeastNetRise | api/src/util/geoUtils.ts:23-26 | the metres climbed are at least the net rise from start to finish |
| GeoUtils.ClimbOnlyReadsElevation | api/src/util/geoUtils.ts:24 | the gain depends on the points only through their elevations |
| GeoUtils.MissingElevationIsZero | api/src/util/geoUtils.ts:24 | a point without a third entry counts as a point at elevation 0 |
| GeoUtils.WorkedTracks | api/src/util/geoUtils.ts:21-28 | a 100 m climb is stored as 328 ft; down 50 m then up 70 m is 70 m, stored as 230 ft |
| BikeRoutes.Truthy | api/src/routes/bikeRoutes.ts:48 | JavaScript truthiness of the `name` field: present and not the empty string (definition) |
| BikeRoutes.PassedOver | api/src/routes/bikeRoutes.ts:58 | a feature for which the `find` callback returns false: its geometry is present and its type is not `LineString` (definition) |
| BikeRoutes.FindLineString | api/src/routes/bikeRoutes.ts:58 | `find` returns the first LineString, and every feature before it has a geometry of another type. A null geometry met first makes the callback throw. No result means every feature was passed over, and the converse holds |
| BikeRoutes.StartPointOf | api/src/routes/bikeRoutes.ts:69-72 | the start point is a Point whose coordinates are the first two entries of the first position (fewer if it is shorter) |
| BikeRoutes.CreateRoute | api/src/routes/bikeRoutes.ts:42-89 | no file gives 400 "GPX file is required" before the name is checked; a falsy name gives 400 "Name is required"; no LineString gives 400 "No LineString found in GPX"; 400 happens exactly in these cases. The store is asked to create a record exactly when every guard passes and the first LineString has a position, so nothing is created on any 400 path or on a 500 raised before the create call. That record holds the name, the description, the document, and the distance, gain and start point of the first LineString. 201 happens exactly when the store accepts it, and the body is then the record the store returns; every other case is 500 "Internal server error" |
| BikeRoutes.LaterFeaturesIgnored | api/src/routes/bikeRoutes.ts:58 | features after the first LineString do not change the search result |
| BikeRoutes.LaterFeaturesIgnoredByCreate | api/src/routes/bikeRoutes.ts:58-62 | with a LineString found, adding later features changes neither whether the answer is 400 nor whether a record is created, nor the distance, gain and start point of that record |
| BikeRoutes.GetRoute | api/src/routes/bikeRoutes.ts:26-39 | 200 with the route exactly when the store finds it; null gives 404 "Route not found"; a store failure gives 500 |
| BikeRoutes.ListRoutes | api/src/routes/bikeRoutes.ts:13-23 | 200 with the store's list exactly when the store answers; a failure gives 500 |
| ApiClient.StartsWithDoubleSlash | src/util/apiClient.ts:6 | the anchor `^\/\/`: the path has at least two characters and its first two are `//` (definition) |
| ApiClient.NormalizePath | src/util/apiClient.ts:6 | a path starting with `//` loses exactly one of its leading slashes (so it is one shorter and still starts with `/`); any other path is unchanged |
| ApiClient.NormalizeIdempotentUnlessTripleSlash | src/util/apiClient.ts:6 | normalising twice equals normalising once exactly when the path does not start with `///` |
| ApiClient.NormalizeNotIdempotent | src/util/apiClient.ts:6 | `///x` normalises to `//x`, and normalising again gives `/x` |
| ApiClient.Client.FullUrl | src/util/apiClient.ts:6 | the URL is the base URL followed by the normalised path |
| ApiClient.Client.Get | src/util/apiClient.ts:5-10 | the client fetches exactly the full URL; a rejection propagates; a non-ok response fails with "Network error"; an ok response yields its decoded body |
| ApiClient.NewClient | src/util/apiClient.ts:3 | a development build uses `' http://localhost:3001/api'` (leading space included); any other build uses no base, so the URL is the normalised path |
| UploadRoute.FormBody | src/components/UploadRoute.tsx:16-19 | the request carries exactly the keys name, description and gpxFile, in that order, with the current values |
| UploadRoute.RefusalMessage | src/components/UploadRoute.tsx:32 | a truthy server `error` is shown as is; otherwise "Upload failed." |
| UploadRoute.UploadForm.constructor | src/components/UploadRoute.tsx:5-8 | the form starts with an empty name and description, no file and no status |
| UploadRoute.UploadForm.EditName | src/components/UploadRoute.tsx:44 | typing sets the name and nothing else |
| UploadRoute.UploadForm.EditDescription | src/components/UploadRoute.tsx:48 | typing sets the description and nothing else |
| UploadRoute.UploadForm.ChooseFiles | src/components/UploadRoute.tsx:52 | the chosen file is the first of the picked files, or none |
| UploadRoute.UploadForm.Submit | src/components/UploadRoute.tsx:10-37 | with no file, it sets "Please select a GPX file.", sends nothing and keeps the other fields. Otherwise it sends the current form. Success sets the success message and clears the fields. A refusal shows the server's message or "Upload failed." and keeps the fields. An exception shows "Network error." and keeps the fields |

## Left out

- The Haversine trigonometry (geoUtils.ts lines 3, 6-15) is out of reach. The per-segment distance is the `segment` parameter, so the Earth radius 3958.8 miles does not appear. The symmetry and zero-on-identical-points facts are stated as requirements of the lemmas that use them.
- IEEE floating point is not modelled: all arithmetic is over `real`. So rounding error is absent, and so is NaN. In the source, `|| 0` also turns a NaN elevation into 0, and a missing longitude or latitude makes the distance NaN.
- GPX parsing (JSDOM and `@tmcw/togeojson`) is a foreign library. Its result is the `parsed` input, and `None` stands for a parse that threw.
- The database is a collaborator: its answers are the `store`, `lookup` and `listing` inputs. The list's newest-first order is the store's.
- Express routing, multer, CORS, app setup, server start and shutdown are not modelled. Neither is the test setup.
- The PUT and DELETE handlers only pass data through to the database, then map success to 200/204 and failure to 500. They are not modelled.
- In `ApiClient.Client.Get` and `UploadRoute.UploadForm.Submit`, `fetch`, `async`/`await` and JSON decoding are abstracted. The client's network is the `fetch` parameter, and the form's network is the `outcome` parameter.
- UploadRoute.UploadForm.Submit runs as one atomic step. So the model has no edits made while the upload is in flight, which the success branch would clear in the source. It also has no second submit started during the first.
- `UploadRoute.UploadForm.Submit` does not model a non-string `error` field in the server's reply; the field is an optional string.
- The `console.error` logging in the catch blocks (api/src/routes/bikeRoutes.ts:20, 36, 86, 110, 123) is not modelled; no response depends on it.
- The React rendering is not modelled: JSX, the status `<div>`, routing, the home page and the route card. The `BikeRoute` interface in src/types/bikeRoute.ts only shaped the record datatypes.
