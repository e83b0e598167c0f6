# AgriSense store: a Dafny model

AgriSense is a farm-monitoring dashboard. Its server side is a set of Convex
queries and mutations over a document store of farms, fields, sensor readings,
spectral (satellite) records, alerts and plant photos. Every datum belongs to
a user through a chain: an alert, reading or photo belongs to a field, the
field to a farm, and the farm to its owner. Every handler first resolves the
signed-in user and walks that chain. Queries that fail the check degrade to an
empty list or null. Mutations that fail it throw.

This project models that store and its handlers:

- `Schema` holds the records and the string enumerations of
  `src/convex/schema.ts`, each with a name function and a parser that inverts it.
- `Database` holds the tables as `map<Id, T>` with one monotone id counter.
  Id order stands in for Convex's `_creationTime`, which breaks ties inside
  every index. It also holds the ascending and descending index scans, the
  `OwnsFarm`/`OwnsField` ownership predicates every handler shares, and the
  error ladders with their exact messages.
- `DataStore.Store` is a class whose fields are the tables. It holds every
  mutation as a method that either fails with the store untouched or makes
  exactly one insert or patch. The methods keep the invariant that ids are
  below the counter and that fields, readings and photos point at existing
  parents.
- `SensorData`, `Alerts`, `Farms`, `Fields`, `PlantImages` and `Maps` hold
  the queries as functions of a store snapshot, one module per Convex file.
- `Scenarios` holds the cross-query tenant-isolation lemma and three client
  walk-throughs proved from the contracts alone.

The signed-in user (`getCurrentUser(ctx)` from `./users`, whose `_id` the
handlers compare with `ownerId`) is the parameter `caller: Option<UserId>`.
`Date.now()` is the parameter `now`, and `ctx.storage.getUrl` is the function
parameter `storageUrl`.

## Model

| member | source | states |
|---|---|---|
| Schema.ParseRole | src/convex/schema.ts:6-16 | the three role literals are the only accepted strings, and parsing is the exact inverse of `RoleName` |
| Schema.Ordinal | src/convex/schema.ts:69-78 | each of the eight sensor categories has one position in the category list, and no two categories share it |
| Schema.ParseSensorType | src/convex/schema.ts:69-78 | a string is accepted exactly when it is one of the eight category literals, and it parses back to that category |
| Schema.ParseAlertType | src/convex/schema.ts:115-122 | a string is accepted exactly when it is one of the six alert-type literals, and it parses back to that type |
| Schema.ParseSeverity | src/convex/schema.ts:123-128 | a string is accepted exactly when it is one of the four severity literals, and it parses back to that severity |
| Schema.ParseProcessingStatus | src/convex/schema.ts:99-104 | a string is accepted exactly when it is one of the four processing-status literals, and it parses back to that status |
| Database.ScanAsc | src/convex/farms.ts:43-46 | an index scan in creation order: exactly the stored documents that match the index key, and nothing else, each once, by strictly ascending id |
| Database.ScanDesc | src/convex/plantImages.ts:51-55 | an `order("desc")` index scan: exactly the stored matching documents, each once, by strictly descending id |
| Database.Filter | src/convex/alerts.ts:64-66 | a document survives the filter exactly when it was in the input and satisfies the predicate |
| Database.FilterKeepsDescending | src/convex/alerts.ts:64-68 | filtering a newest-first list keeps it newest first |
| Database.FilterKeepsAscending | src/convex/sensorData.ts:99-105 | filtering a list in creation order keeps it in creation order, so no document appears twice |
| Database.Message | src/convex/sensorData.ts:29-40 | every error has a non-empty text, the string its handler throws; that no two texts coincide is `Database.MessagesDistinct` |
| Database.MessagesDistinct | src/convex/alerts.ts:77-93 | two errors have the same text exactly when they are the same error, so the thrown messages tell the four failure causes apart |
| Database.CheckFarm | src/convex/farms.ts:75-83 | the farm guard succeeds exactly when the caller owns the farm. Without a caller it fails with "User must be authenticated", and otherwise with "Farm not found or access denied", so a missing farm and a foreign farm look the same |
| Database.CheckField | src/convex/sensorData.ts:27-41 | the field guard succeeds exactly when the caller owns the field's farm. The errors come in the source's order: unauthenticated, then field not found, then access denied |
| DataStore.Store.constructor | src/convex/schema.ts:19-145 | the store starts with every table empty and satisfies its invariant |
| DataStore.Store.CreateFarm | src/convex/farms.ts:5-33 | any signed-in caller inserts exactly one farm, owned by the caller, under a fresh id. Without a caller nothing changes |
| DataStore.Store.UpdateFarm | src/convex/farms.ts:67-88 | succeeds exactly for the owner and then patches only name, crop type and description. Otherwise the store is untouched, and ownership is kept |
| DataStore.Store.CreateField | src/convex/fields.ts:5-32 | succeeds exactly when the caller owns the target farm, and then inserts the field as given under a fresh id. The new field is owned by the caller |
| DataStore.Store.AddSensorReading | src/convex/sensorData.ts:5-48 | succeeds exactly when the caller owns the field, and then inserts one reading stamped with its own timestamp, or `now` when that is absent or 0. On failure it raises the three errors in order and leaves the store unchanged |
| DataStore.Store.CreateAlert | src/convex/alerts.ts:5-35 | always inserts one alert, unacknowledged and unresolved (state Active), with no identity or ownership check, and leaves every resolved alert resolved |
| DataStore.Store.AcknowledgeAlert | src/convex/alerts.ts:72-101 | succeeds exactly when the alert exists and the caller owns its field, raising the four errors in the source's order. It overwrites only the acknowledger and its time, and never un-resolves an alert |
| DataStore.Store.ResolveAlert | src/convex/alerts.ts:103-132 | same guard as acknowledging. It marks the alert resolved at `now` from any state, keeps the acknowledger, and leaves the alert in state Resolved |
| DataStore.Store.SavePlantImage | src/convex/plantImages.ts:5-37 | any signed-in caller may save a photo, and a named field must exist and be the caller's. The photo is stored with status "uploaded"; on failure nothing changes |
| SensorData.ChooseIndex | src/convex/sensorData.ts:84-96 | the type-specific index is used exactly when a sensor type is given |
| SensorData.IndexScan | src/convex/sensorData.ts:84-96 | the chosen index yields exactly the field's readings, restricted to the type when one is given, each once, in creation order |
| SensorData.ApplyWindow | src/convex/sensorData.ts:99-105 | a reading survives the window exactly when it lies within each inclusive bound that is given and non-zero, and the survivors keep their creation order |
| SensorData.InsertNewestFirst | src/convex/sensorData.ts:107 | inserting one reading into a list gives a permutation of the list plus that reading |
| SensorData.InsertKeepsSorted | src/convex/sensorData.ts:107 | inserting into a newest-first list keeps it newest first |
| SensorData.InsertKeepsDistinctIds | src/convex/sensorData.ts:107 | inserting a reading whose id the list does not hold keeps every id in the list distinct |
| SensorData.SortKeepsDistinctIds | src/convex/sensorData.ts:107 | sorting a list with distinct ids never lists a reading twice |
| SensorData.SortNewestFirst | src/convex/sensorData.ts:107 | the stable sort by descending timestamp yields a permutation of its input that is newest first, with ties in creation order |
| SensorData.GetSensorReadings | src/convex/sensorData.ts:50-109 | empty unless the caller owns the field. Otherwise exactly the field's readings of the given type (if any) inside the window, each exactly once, sorted newest first, and a permutation of the windowed index scan |
| SensorData.IndexEquivalence | src/convex/sensorData.ts:84-96 | a typed query returns only readings of that type, and the untyped query returns exactly the union of the eight typed queries |
| SensorData.FilterCongruent | src/convex/sensorData.ts:99-105 | two window predicates that agree on every reading filter a list identically |
| SensorData.ZeroStartIgnored | src/convex/sensorData.ts:99-101 | a start bound of 0 filters exactly like no start bound |
| SensorData.ZeroEndIgnored | src/convex/sensorData.ts:99-102 | an end bound of 0 filters exactly like no end bound |
| SensorData.ZeroBoundIgnored | src/convex/sensorData.ts:99-105 | the whole query with a bound of 0 returns the same list as the query without that bound |
| SensorData.LatestOfType | src/convex/sensorData.ts:137-148 | per category, there is a result exactly when the field has a reading of that category, and the result is the most recently inserted one |
| SensorData.GetLatestSensorReadings | src/convex/sensorData.ts:111-153 | empty unless the caller owns the field. Otherwise at most one reading per category, in the order of the category list, each the latest of its category, and every category that has readings is present |
| SensorData.CollectLatest | src/convex/sensorData.ts:135-151 | the per-category loop: at most one reading per category, in list order, each the latest of its category, and every category that has a reading is present |
| SensorData.LatestIsNotLargestTimestamp | src/convex/sensorData.ts:137-148 | a store in which the reported latest reading is not the one with the largest timestamp |
| Alerts.NewAlert | src/convex/alerts.ts:30-33 | the new alert copies its inputs, is unresolved and unacknowledged, and so is Active |
| Alerts.Acknowledge | src/convex/alerts.ts:96-99 | sets the acknowledger and time and keeps the resolution. The state becomes Acknowledged, or stays Resolved |
| Alerts.Resolve | src/convex/alerts.ts:127-130 | sets resolved and its time and keeps the acknowledger. The state becomes Resolved |
| Alerts.PatchesAreLegalSteps | src/components/AlertsPanel.tsx:119-155 | each of the two patches is a legal lifecycle step (Active, then Acknowledged, then Resolved, with repeats allowed) from any state |
| Alerts.ReplayMonotone | src/convex/alerts.ts:96-130 | over any run of acknowledge and resolve patches, the lifecycle state never moves back, an acknowledger is never cleared, a resolved alert stays resolved, and any non-empty run leaves Active |
| Alerts.CheckAlert | src/convex/alerts.ts:75-94 | the alert guard succeeds exactly when the alert exists and the caller owns its field. The errors come in the source's order: unauthenticated, alert not found, field not found, access denied |
| Alerts.GetFieldAlerts | src/convex/alerts.ts:37-70 | empty unless the caller owns the field. Otherwise exactly the field's alerts, with resolved ones kept only when `includeResolved` is true, newest first |
| Farms.OwnedBy | src/convex/farms.ts:23-31 | the stored farm is the input with the caller as owner |
| Farms.ApplyFarmPatch | src/convex/farms.ts:85-86 | owner, location, box and area are unchanged, and each of name, crop type and description is replaced only when supplied |
| Farms.ApplyFarmPatchIdempotent | src/convex/farms.ts:85-86 | applying the same patch twice equals applying it once, and the empty patch changes nothing |
| Farms.GetUserFarms | src/convex/farms.ts:35-48 | empty without a caller. Otherwise exactly the caller's farms, in creation order, each owned by the caller |
| Farms.GetFarmById | src/convex/farms.ts:50-65 | returns the stored farm exactly when the caller owns it, and otherwise throws the authentication or the combined not-found/denied error |
| Farms.GetFarmByIdHidesExistence | src/convex/farms.ts:58-61 | a missing farm and another tenant's farm give the same answer |
| Fields.GetFieldsByFarm | src/convex/fields.ts:34-53 | empty unless the caller owns the farm. Otherwise exactly the farm's fields, in creation order, each owned by the caller |
| Fields.GetFieldById | src/convex/fields.ts:55-76 | returns the stored field exactly when the caller owns it, and otherwise one of three distinct errors in the source's order |
| Fields.ListedIffReadable | src/convex/fields.ts:34-76 | a field appears in its farm's listing exactly when `getFieldById` returns it |
| PlantImages.NewPlantImage | src/convex/plantImages.ts:26-33 | the saved photo carries the caller, the blob id, status "uploaded", and the optional field, title and notes as given |
| PlantImages.WithUrls | src/convex/plantImages.ts:58-63 | one entry per document, in the same order, each paired with its blob's URL |
| PlantImages.ListForField | src/convex/plantImages.ts:39-67 | empty unless the caller owns the field. Otherwise every photo of the field, newest first, each with its URL |
| Maps.LatestSpectralBelow | src/convex/maps.ts:17-23 | the last record in `by_field_and_date` order: a record of the field that no other record of the field comes after, by capture date and then by creation, and none only when the field has no records |
| Maps.GetFieldMapDetails | src/convex/maps.ts:5-33 | null exactly when the caller does not own the field. Otherwise the farm's bounding box, the field's geometry, crop and area, and its latest spectral record by capture date |
| Scenarios.TenantIsolation | src/convex/sensorData.ts:67-81 | for a caller who does not own a field, every field-scoped query is empty or null and `getFieldById` throws |

## Left out

- The React components, the landing page, `mockData.ts` and `uploads.ts` are not part of this model. The alert lifecycle states are taken from the alert panel's display branches.
- `uploads.ts` (`generateUploadUrl`) and the blob store are not modelled. `ctx.storage.getUrl` is an arbitrary function parameter.
- `getCurrentUser` (defined in `users.ts`, which is not part of this model) and `Date.now()` become the parameters `caller` and `now`. The model has no users table, so the role of a user is only a parsed enumeration.
- The `processingJobs` and `reports` tables have no handler among the modelled files and are left out.
- No modelled handler inserts spectral records. The `spectral` table is only read, and only `getFieldMapDetails` reads it.
- Convex's transactions and concurrency are not modelled. Each handler is one atomic step on the store.
- Numbers that are only stored (coordinates, areas, sensor values, spectral indices) are `real` values that nothing computes on. Timestamps are unbounded `int`s, so double-precision limits are not modelled.
- Inside the `by_field_and_timestamp` index, readings of a field are scanned in creation order. The final sort makes the query's result independent of that choice.
- The plant-photo table is not declared in `schema.ts`. Its shape comes from the fields that `plantImages.ts` writes and reads.
- SensorData.GetLatestSensorReadings: "latest" is the most recently inserted reading of a category, which is what `order("desc").first()` on `by_field_and_type` returns. It is not the reading with the largest timestamp, and `SensorData.LatestIsNotLargestTimestamp` shows the two differ.
- DataStore.Store.CreateAlert: the handler checks neither the caller nor that the field exists, so alerts may point at missing fields. The store invariant therefore does not link alerts to fields.
