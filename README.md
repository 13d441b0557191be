# Asset enrichment service, modelled in Dafny

This project models the core of an asset-inventory API: the service class
`AssetsServiceOptimized` (`services/assetsService.js`). On a request for all
assets it reads the asset collection, collects the distinct employee and
location ids the assets reference, reads those employees and locations and
all inventory sessions, and enriches every asset record in place:

- employee keys (`employee_id`, `employee_name = name + " " + lastName`);
- location keys (`location_Name`, `location_Level`);
- the `SOC.` and `STATUS` custom fields copied to `soc` and `SelectedStatus`, with `customFieldsTab` deleted;
- a `lastSession` object taken from the newest inventory session that lists the asset, or `{Status: "N/A"}`.

The result `{total, assets}` is kept in a single-key cache (`'allAssets'`)
for five minutes. `clearCache` empties the cache and resets its timestamp.

Modules, one per file:

- `Wrappers`: `Option` and `Result`.
- `Records`: the documents (employee, location, session, asset) as datatypes.
- `UniqueIds`: the `Set`-based id deduplication.
- `LookupMaps`: `createEmployeeMap` and `createLocationMap`, plus the id-filtered reads.
- `SessionOrder`: `createSessionMap`, a stable newest-first insertion sort done in place on an array.
- `SessionLookup`: the `find`/`some` searches, and `MostRecent`, an independent one-pass definition of "most recent session".
- `AssetProcessing`: the mutable asset record (`AssetDoc`) and `processAsset`, `processCustomFields` and `addLastSessionInfo`.
- `AssetsService`: the reads, the enrichment of a whole snapshot, and the cache class.

The database, the clock and the date parser are parameters:

- The four reads are a `Stores` value. Each read either answers with the documents of its collection in natural order, or throws with a message.
- `Date.now()` is the `now: int` argument.
- `moment(creation, 'DD/MM/YYYY HH:mm:ss')` is a total function `parse: string -> Option<int>`. `None` stands for an invalid date, which the service replaces by epoch 0.

The model follows these choices of `services/assetsService.js`:

- `lastSession` uses the keys `sessionId`, `Status`, `UserAF` and `SessionDate`.
- A failure is an `Error` whose message is `"Error al obtener assets: "` followed by the cause's message. There is no separate error type.
- Unresolved employee or location ids leave the enriched keys as they were. They are not removed.
- The returned payload is the cached payload itself. Its `assets` are the same records, so a caller who mutates them changes what later cache hits return. The model keeps this: `Payload.assets` holds references to `AssetDoc` objects.
- The custom-field step runs only when `customFieldsTab` is truthy, and it deletes the key whether or not a field matched. A falsy value (`null`, `false`, `0`, `""`) stays on the record.
- `location_Level` is copied from the location's `profileLevel` as read. A `lean()` read does not apply the schema default, so a location without the key leaves `location_Level` undefined.

## Model

| member | source | states |
|---|---|---|
| `UniqueIds.TruthyValues` | services/assetsService.js:52-53 | the `filter`/`map` result holds exactly the truthy values of the input |
| `UniqueIds.Distinct` | services/assetsService.js:52-53 | spreading the `Set` keeps exactly the input's values, and none of them twice |
| `UniqueIds.EmployeeIds` | services/assetsService.js:52 | `employeeIds` holds every truthy `assigned` value of some asset, nothing else, and no duplicates |
| `UniqueIds.LocationIds` | services/assetsService.js:53 | `locationIds` holds every truthy `location` value of some asset, nothing else, and no duplicates |
| `LookupMaps.IndexByIdKeys` | services/assetsService.js:125-142 | the dictionary has exactly the items' ids as keys |
| `LookupMaps.IndexByIdLastWins` | services/assetsService.js:125-142 | an item that no later item shares its id with is the one its id maps to, so of duplicates the last is kept |
| `LookupMaps.FilterByIdsMembers` | services/assetsService.js:94-97 | the `$in` read returns only documents of the collection whose id is requested, and every such document |
| `LookupMaps.IndexOfFiltered` | services/assetsService.js:91-110 | for a requested id, the dictionary over the `$in`-filtered read equals the dictionary over the whole collection |
| `LookupMaps.CreateEmployeeMap` | services/assetsService.js:125-131 | the `forEach` loop builds exactly the last-wins dictionary of the employees |
| `LookupMaps.CreateLocationMap` | services/assetsService.js:136-142 | the `forEach` loop builds exactly the last-wins dictionary of the locations |
| `SessionOrder.SortDescPermutes` | services/assetsService.js:156 | the sort returns a permutation of its input |
| `SessionOrder.SortDescSorted` | services/assetsService.js:156 | the sort returns its input with `creationDate` non-increasing |
| `SessionOrder.SortDescStable` | services/assetsService.js:156 | sessions with equal `creationDate` keep their input order |
| `SessionOrder.ShiftOlder` | services/assetsService.js:156 | the elements strictly older than `a[i]` just before it move one place back; everything else stays; the slot returned sits after the first element not older than `a[i]` |
| `SessionOrder.InsertAt` | services/assetsService.js:156 | one step of the in-place sort inserts `a[i]` into the sorted prefix and leaves the rest of the array alone |
| `SessionOrder.SortByCreationDesc` | services/assetsService.js:156 | the array sorted in place holds the stable newest-first order of its old contents |
| `SessionOrder.CreateSessionMap` | services/assetsService.js:147-159 | the list holds every session with its parsed `creationDate` (0 when unparsable), is a permutation of the input, newest first, with ties in input order |
| `SessionLookup.FindItem` | services/assetsService.js:218 | `find` over a session's items returns nothing exactly when no item has the asset's id, else the first item that has it |
| `SessionLookup.FindSession` | services/assetsService.js:213-215 | `find`/`some` returns nothing exactly when no session lists the asset, else the first session that lists it |
| `SessionLookup.MostRecent` | services/assetsService.js:213-215 | the one-pass reference only ever picks a session that lists the asset |
| `SessionLookup.MostRecentIsNewestEarliest` | services/assetsService.js:147-159 | the reference picks a session whenever one lists the asset; that session is the newest such session, and every earlier-fetched one listing the asset is strictly older |
| `SessionLookup.FindSessionInsert` | services/assetsService.js:156 | inserting a session into a newest-first list changes the first match only when the new session lists the asset and is strictly newer than the old match |
| `SessionLookup.FindSortedIsMostRecent` | services/assetsService.js:147-159 | the first match in the sorted list equals the one-pass reference on every input: newest session listing the asset, earliest fetched among ties |
| `AssetProcessing.LastValueIsLastMatch` | services/assetsService.js:194-203 | the value copied to `soc`/`SelectedStatus` is the `initialValue` of the last field with that exact name, in tab and field order |
| `AssetProcessing.LastValueNoMatch` | services/assetsService.js:194-203 | without a field of that name the old value is kept |
| `AssetProcessing.LastValueAppend` | services/assetsService.js:194-203 | scanning two field lists one after the other ends at the same value as scanning their concatenation |
| `AssetProcessing.CopyNamedFields` | services/assetsService.js:196-202 | the inner loop over one tab's fields leaves `soc`/`SelectedStatus` at the last matching field's value and touches no other key |
| `AssetProcessing.LastSessionOf` | services/assetsService.js:212-232 | `{Status: "N/A"}` exactly when no session lists the asset; otherwise the `sessionId`, `UserAF` and `SessionDate` of the first session listing it, and the `Status` of its first matching item |
| `AssetProcessing.AssetDoc.constructor` | services/assetsService.js:48 | a new record holds the document's keys |
| `AssetProcessing.ProcessCustomFields` | services/assetsService.js:191-207 | the nested loops leave `soc`/`SelectedStatus` at the last matching field's value and delete `customFieldsTab`; without the key, or with a falsy value, nothing changes |
| `AssetProcessing.AddLastSessionInfo` | services/assetsService.js:212-232 | the record's `lastSession` is always set, to the info of the first session listing the asset or `{Status: "N/A"}`; the inner guard can never fail |
| `AssetProcessing.ProcessAsset` | services/assetsService.js:164-186 | the same record is returned, enriched in place: employee keys, then location keys, then custom fields, then last session |
| `AssetsService.GetEmployeesByIds` | services/assetsService.js:91-98 | an empty id list answers `[]` without reading; otherwise a failing read is passed on, and a successful one holds exactly the requested employees |
| `AssetsService.GetLocationsByIds` | services/assetsService.js:103-110 | an empty id list answers `[]` without reading; otherwise a failing read is passed on, and a successful one holds exactly the requested locations |
| `AssetsService.ReadAll` | services/assetsService.js:48-59 | the reads succeed exactly when the asset read, every read that is actually made, and the session read answer; the first failing read in the order assets, employees, locations, sessions is the one reported; the snapshot holds the asset and session collections as read and the `$in` reads of employees and locations |
| `AssetsService.Enrich` | services/assetsService.js:67-69 | one processed asset per input asset, in input order, with `_id`, `assigned` and `location` unchanged |
| `AssetsService.EnrichedEmployee` | services/assetsService.js:52-62 | a truthy `assigned` means the employee read was made and answered; the keys come from the last employee with that `_id` in the collection; a falsy or dangling id leaves them unchanged |
| `AssetsService.EnrichedLocation` | services/assetsService.js:53-63 | a truthy `location` means the location read was made and answered; the keys come from the last location with that `_id`; otherwise they are unchanged |
| `AssetsService.EnrichedCustomFields` | services/assetsService.js:180 | with a tab object, the processed asset no longer carries `customFieldsTab` and `soc`/`SelectedStatus` follow the last matching custom field; a missing or falsy `customFieldsTab` leaves all three keys as they were |
| `AssetsService.EnrichedLastSession` | services/assetsService.js:64-68 | `lastSession` is `{Status: "N/A"}` for an asset no session lists, else taken from the newest session listing it, the earliest fetched among ties |
| `AssetsService.LaterSessionWins` | services/assetsService.js:147-159 | of two sessions listing an asset, the later-created one supplies `lastSession`, whichever was fetched first |
| `AssetsService.UnparsableSortsLast` | services/assetsService.js:149-152 | a session whose `creation` does not parse gets date 0 and sorts behind one created after the epoch |
| `AssetsService.FreshnessBoundary` | services/assetsService.js:18 | an entry exactly one TTL old is stale; one a millisecond younger is fresh |
| `AssetsService.LoadDocuments` | services/assetsService.js:48 | the read hands out one new, distinct record per asset document |
| `AssetsService.ProcessAll` | services/assetsService.js:67-69 | the `map` returns the same records in the same order, each enriched in place by `processAsset` |
| `AssetsService.Recompute` | services/assetsService.js:48-69 | a recomputation yields one new record per asset document, each equal to the enriched asset |
| `AssetsService.AssetsServiceOptimized.constructor` | services/assetsService.js:8-10 | the service starts with an empty cache and `lastCacheUpdate = 0` |
| `AssetsService.AssetsServiceOptimized.GetAllAssetsWithDetails` | services/assetsService.js:15-86 | a fresh entry is returned unchanged and the state is untouched. On a miss with a failing read, the error carries the service's prefix and the state is untouched. On a successful miss the returned payload is what is cached, `lastCacheUpdate = now`, `total` is the number of assets, and the records are the enriched assets |
| `AssetsService.AssetsServiceOptimized.ClearCache` | services/assetsService.js:237-241 | the cache is empty, `lastCacheUpdate = 0`, and the state is EMPTY for every `now` |
| `AssetsService.ReadTwiceWithinTtl` | services/assetsService.js:17-21 | after a successful recomputation, a read less than one TTL later returns the same payload whatever the collections hold |
| `AssetsService.ReadAfterClear` | services/assetsService.js:237-241 | a read right after `clearCache` always recomputes from the collections |

## Left out

- HTTP routing, the response envelope and headers (`routes/assets.js`): plumbing around the service.
- Process bootstrap, the database connection, schema and index declarations, and the build configuration: no logic to model.
- The database queries themselves are not modelled. Each read is a given answer or a given error. `$in` matching is string equality on the ids' `toString()` form. Field projections are not represented.
- `Promise.all` concurrency is not modelled. When several reads fail, the model reports the first failing one in array order (employees, locations, sessions). The real rejection depends on timing.
- `moment` parsing, `Date` and `isNaN` are abstracted into the `parse` function.
- `console.log` is dropped, and `Date.now()` becomes the `now` argument.
- The descriptive asset keys (`name`, `brand`, `serial`, `EPC`, ...) are not represented. No step reads or writes them.
- A malformed custom-field tab is not modelled. A tab without a `left` array, or a field without `values`, throws a `TypeError` that the service rethrows with its prefix. The asset schema is not part of this model, so the tab shape is taken as given.
- Dictionary lookups use a `map`. The source indexes a plain object, where an inherited key such as `constructor` would also match, but ObjectId strings never take such a key.
- Interleaving is not modelled: every call runs to completion before the next starts. So concurrent cache misses are not captured. Nor is a `clearCache` (lines 237-241, synchronous) that runs while a miss awaits its reads (lines 48 and 55-59). That clear is undone when the miss stores its result at lines 77-78, and the cache then holds data read before the clear, stamped with the earlier `now`.
- EmployeeIds, LocationIds: ids are modelled as strings. If `assigned` or `location` held ObjectId instances, the `Set` at lines 52-53 would compare them by identity and keep repeated ids, so `NoDuplicates` holds only for string ids. The `$in` reads and the dictionary lookups go through `toString()` and are unaffected.
- Timestamps are unbounded integers, not IEEE doubles.
- A session item without `_id` is not modelled. The session schema does not require the key, and `item._id.toString()` would throw a `TypeError` that the service rethrows with its prefix. The model gives every item an id.
- GetAllAssetsWithDetails: "nothing is recomputed" on a cache hit is stated as "the payload returned is the cached one and the state is unchanged". A method's contract cannot say that no read happened.
