# MartinAI vessel pipeline in Dafny

This project models the server core of MartinAI, a maritime monitoring service, and proves properties of that model. The service:

- polls a position provider for the vessels inside each active geofence;
- stores their reports with a bounded position history;
- flags three kinds of anomaly: AIS shutoff, route deviation and geofence violation;
- serves the anomalies through a small REST API.

Everything sits on an in-memory document store. That store is a table of named collections of plain objects, plus an id counter.

The model has one module per part of the code. Each module takes the form of its source: a class where the source updates state in place, functions where it only computes.

- `Values` (`values.dfy`): the JavaScript values the core handles.
  - Types: `undefined`, `null`, booleans, numbers as reals, strings, Dates as epoch milliseconds, arrays and plain objects.
  - The language rules the code relies on: truthiness, `||` defaulting, property reads that throw on `undefined` and `null`, relational comparison (which reads a string as a number when the other side is not a string), and integer-to-string conversion.
- `MemoryStore` (`memory_store.dfy`): the store of `services/memoryStore.js`.
  - A class `Store` holds the `collections` map and the `idCounter`.
  - `InsertOne`, `UpdateOne`, `DeleteOne`, `ClearCollection` and `GenerateId` change them in place.
  - `Find`, `FindOne` and `CountDocuments` are functions on a copy: filter, a stable sort by one key, then skip, then limit.
- `Models` (`models.dfy`): the classes `Vessel`, `Anomaly` and `Geofence`.
  - Each has its constructor defaults and its `save`.
  - `Vessel.save` is an upsert keyed by mmsi. The anomaly and geofence saves only ever update by `_id`.
  - The shared static lookups `findById` and `deleteOne` are here too.
- `VesselIngest` (`ingest.dfy`): `storeVesselData` of the Datalastic and VesselFinder services.
  - Reports with a falsy mmsi, lat or lon are skipped.
  - A known vessel is refreshed in place, and its history is pushed and trimmed to the last 100 entries.
  - An unknown vessel is created with a one-point history.
  - The pure functions `Upsert` and `IngestAll` state what one report and a whole batch do. The methods `StoreReport` and `StoreVesselData` do it on the store and are proved against them.
- `Datalastic` (`datalastic.dfy`): `transformDatalasticData`, the mapping from provider records to reports.
- `AnomalyDetection` (`anomaly.dfy`): the three detectors and `processVesselData`.
  - Each detector is a method on the store, proved equal to a specification function.
  - Lemmas about those functions give the window, the threshold, the first-match rule, freshness, result order and "nothing else changes".
- `DataPoller` (`poller.dfy`): `dataPoller.js`.
  - `calculateBoundingBox` is a method with a min/max loop.
  - `pollData` loops over the active zones, and each zone's `try`/`catch` isolates its failure.
  - The start/stop state machine is a class `Poller` driven by explicit elapsed time.
- `AnomalyRoutes` (`anomaly_routes.dfy`): the logic of `routes/anomalies.js`.
  - `parseInt` of the page parameters, the filter `GET /` builds, the skip and total-page arithmetic, and the page a listing returns.
  - The 404 of `GET /:id`, `PUT /:id` and `DELETE /:id`, the 400 of `POST /`, and the partial update of `PUT /:id`.

A few external inputs are parameters:

- the time (`now`, in milliseconds);
- the position feed (`Fetch`);
- the turf geometry calls (`Geometry`);
- date parsing (`DateParser`).

Where the system's design description and the code differ, the model follows the code:

- `anomaly.save()` updates only. A detected anomaly whose id is not already stored is therefore never inserted; the design expects new anomaly records.
- The route check receives the vessel's history after the current point has been appended.
- The route type is `ROUTE_DEVIATION`.
- The poller stores through the VesselFinder service, not the Datalastic one.

## Model

| member | source | states |
|---|---|---|
| Values.StrCompareAntisymmetric | martinai/server/services/memoryStore.js:55-56 | string comparison is total, `a < b` exactly when `b > a`, and it says "equal" only for equal strings |
| Values.StrCompareTransitive | martinai/server/services/memoryStore.js:55-56 | `<=` on strings is transitive |
| Values.CompareAntisymmetric | martinai/server/services/memoryStore.js:37-40 | JavaScript's `<` holds exactly when the swapped `>` holds, and two values are comparable in one order exactly when they are in the other |
| Values.CompareTransitive | martinai/server/services/memoryStore.js:37-40 | `<=` is transitive among values of one kind: all strings, or no strings |
| Values.CompareMixedNotTransitive | martinai/server/services/memoryStore.js:37-40 | across kinds `<=` is not transitive: when numeric texts `s <= t` as text but `t`'s value is below a number `x` that is below `s`'s value (`"10"`, `"9"`, `9.5`), `t <= x` holds and `s <= x` does not |
| Values.TextAgainstNumber | martinai/server/services/memoryStore.js:37-40 | a string against a number compares the number the text denotes: `t <= x` exactly when its value is at most `x` |
| Values.TrimStart | martinai/server/routes/anomalies.js:23 | `parseInt` and `Number` skip exactly the leading white space |
| Values.WholeInText | martinai/server/services/memoryStore.js:37-40 | the digits a comparison reads before a decimal point denote their decimal value |
| Values.ScanDigits | martinai/server/services/memoryStore.js:37-40 | once `Number` is in the digits of a literal, digits up to the end of the text finish it: the value is those digits, negated after a minus sign |
| Values.NumericText | martinai/server/services/memoryStore.js:37-40 | a comparison reads a counter's text as that counter |
| Values.NegativeText | martinai/server/services/memoryStore.js:37-40 | and a minus sign in front as its negation |
| Values.DecimalDigits | martinai/server/services/memoryStore.js:14 | a counter's text has only decimal digits and no leading zero |
| Values.OrLaws | martinai/server/models/Vessel.js:63-64 | `a \|\| b` is truthy exactly when one operand is, groups either way, and `a \|\| a` is `a` |
| Values.IntDecimalInjective | martinai/server/services/datalastic.js:55 | distinct integers, negative ones included, have distinct texts |
| Values.IntegerText | martinai/server/services/datalastic.js:55 | `toString()` of an integer below 10^21 in size is its signed decimal text |
| Values.NumberTextRoundTrip | martinai/server/services/datalastic.js:55 | for an integer below 10^21 in size, `toString()` gives its signed decimal text and `Number` of that text gives the integer back |
| Values.Decimal | martinai/server/services/memoryStore.js:14 | the text of a counter is never empty, and it has at least two digits from 10 on |
| Values.DecimalRoundTrip | martinai/server/services/memoryStore.js:13-14 | reading a counter's text back as a number gives the counter |
| Values.DecimalInjective | martinai/server/services/memoryStore.js:13-14 | distinct counters give distinct id strings |
| MemoryStore.Filtered | martinai/server/services/memoryStore.js:31-47 | the kept items are exactly the stored items that pass every filter entry; none is added; with every item passing, all are kept in order |
| MemoryStore.FilteredAppend | martinai/server/services/memoryStore.js:31-47 | filtering a concatenation filters each part and concatenates the results, so the kept items keep their stored order and multiplicity |
| MemoryStore.FilteredCons | martinai/server/services/memoryStore.js:31-47 | one item in front is kept exactly when it passes, ahead of what the rest keeps |
| MemoryStore.PassingWithCount | martinai/server/services/memoryStore.js:31-47 | for each entry `j` of the result there is a passing stored item with exactly `j` passing items before it |
| MemoryStore.FilteredPosition | martinai/server/services/memoryStore.js:31-47 | entry `j` of the result is a stored item, and the stored items before it filter to exactly the entries before `j` |
| MemoryStore.FirstMatch | martinai/server/services/memoryStore.js:79-82 | either no item matches, or the result is a matching position with no match before it |
| MemoryStore.FilteredHead | martinai/server/services/memoryStore.js:79-82 | the filtered list is non-empty exactly when there is a first match, and its head is that item |
| MemoryStore.EmptyFilterKeepsAll | martinai/server/services/memoryStore.js:31 | an empty filter keeps every item in stored order |
| MemoryStore.IdIndex | martinai/server/services/memoryStore.js:117-121 | either no item has the id, or the result is the first position holding it |
| MemoryStore.Merged | martinai/server/services/memoryStore.js:123-127 | the merged record has the old keys, the new keys and `updatedAt`; new values win over old ones; `updatedAt` is now |
| MemoryStore.UpdateItems | martinai/server/services/memoryStore.js:117-127 | the length is kept; an absent id changes nothing; otherwise only the first item with the id becomes its merge with the data |
| MemoryStore.UpdatedTable | martinai/server/services/memoryStore.js:112-127 | an update touches only the named collection, and a missing collection is left missing |
| MemoryStore.WithoutId | martinai/server/services/memoryStore.js:143-146 | delete keeps exactly the items with a different id, and the length drops exactly when some item has the id |
| MemoryStore.InsertedItem | martinai/server/services/memoryStore.js:95-99 | the new item keeps a truthy `_id` and `createdAt` or takes the fresh id and now; every other field is the data's |
| MemoryStore.InsertedItemKeys | martinai/server/services/memoryStore.js:95-99 | an inserted item has the data's keys plus `_id` and `createdAt` |
| MemoryStore.PrecedesAsymmetric | martinai/server/services/memoryStore.js:54-58 | the comparator never orders two items both ways |
| MemoryStore.Insert | martinai/server/services/memoryStore.js:54-58 | one insertion step of the sort is a permutation of the list plus the new item |
| MemoryStore.LocallySortedSnoc | martinai/server/services/memoryStore.js:54-58 | appending an item that does not precede the last one keeps a list locally sorted |
| MemoryStore.InsertLocallySorted | martinai/server/services/memoryStore.js:54-58 | inserting into a locally sorted list keeps it locally sorted |
| MemoryStore.SortBy | martinai/server/services/memoryStore.js:50-59 | the sort output is a permutation of its input |
| MemoryStore.SortByLocallySorted | martinai/server/services/memoryStore.js:50-59 | in the sort output no item is preceded by the item right after it |
| MemoryStore.NotPrecedesTransitive | martinai/server/services/memoryStore.js:54-58 | on comparable keys of one kind "does not precede" is transitive |
| MemoryStore.TextBoundedByNumber | martinai/server/services/memoryStore.js:37 | a `$gt` bound on a number admits a string whose numeric value exceeds it, as `"10" > 5` does |
| MemoryStore.LocallyToGlobally | martinai/server/services/memoryStore.js:50-59 | with mutually comparable keys a locally sorted list is sorted |
| MemoryStore.LocallyToGloballyAt | martinai/server/services/memoryStore.js:50-59 | in such a list no later item precedes an earlier one |
| MemoryStore.SortByOrdered | martinai/server/services/memoryStore.js:50-59 | with comparable keys of one kind (all strings or no strings) the result is ordered by the key: ascending, or descending for direction -1 |
| MemoryStore.SliceFrom | martinai/server/services/memoryStore.js:62-64 | `slice(start)` drops the first `start` items, or keeps the last `-start` when negative, and adds nothing |
| MemoryStore.SliceTo | martinai/server/services/memoryStore.js:66-68 | `slice(0, end)` is a prefix of length `end` (clamped), or drops `-end` items when negative |
| MemoryStore.FindIn | martinai/server/services/memoryStore.js:23-71 | every result is a stored item that matches; a positive limit bounds the count; without options the result is the filtered list |
| MemoryStore.SortedMembers | martinai/server/services/memoryStore.js:50-59 | a permutation keeps the length and the members |
| MemoryStore.PageWindow | martinai/server/services/memoryStore.js:62-68 | skip then limit is the window `[skip, skip + limit)`, clamped to the list |
| MemoryStore.FindInPage | martinai/server/services/memoryStore.js:23-71 | a find with a sort, skip `s` and limit `l` returns the sorted matches from position `s`, at most `l` of them |
| MemoryStore.FindInEntry | martinai/server/services/memoryStore.js:62-68 | entry `m` of such a page is sorted match `s + m` |
| MemoryStore.WindowEntry | martinai/server/services/memoryStore.js:62-68 | entry `m` of a skip/limit window is item `skip + m` |
| MemoryStore.Store.constructor | martinai/server/services/memoryStore.js:6-13 | the store starts with empty vessels, anomalies and geofences collections and the counter at 1 |
| MemoryStore.Store.Find | martinai/server/services/memoryStore.js:23-28 | an unknown collection gives `[]`; every result is a stored matching item; the store is only read |
| MemoryStore.Store.FindOne | martinai/server/services/memoryStore.js:79-82 | null exactly when nothing matches, otherwise the first match in stored order |
| MemoryStore.Store.CountDocuments | martinai/server/services/memoryStore.js:155-157 | the count is the length of the unpaged find; it is zero exactly when nothing matches |
| MemoryStore.Store.GenerateId | martinai/server/services/memoryStore.js:13-14 | the id is the counter's text, the counter goes up by one, and no collection changes |
| MemoryStore.Store.InsertOne | martinai/server/services/memoryStore.js:90-103 | exactly one item is appended to the collection, which is created when missing; the counter moves only when no truthy `_id` was given |
| MemoryStore.Store.UpdateOne | martinai/server/services/memoryStore.js:112-130 | null and no change when the collection or id is absent; otherwise the first item with the id is merged and returned |
| MemoryStore.Store.DeleteOne | martinai/server/services/memoryStore.js:138-147 | every item with the id is removed; the result is true exactly when some item had it; a missing collection gives false |
| MemoryStore.Store.ClearCollection | martinai/server/services/memoryStore.js:163-174 | a name empties only that collection when it exists; no name empties all; the counter is kept |
| Models.VesselDefaults | martinai/server/models/Vessel.js:59-69 | a new vessel keeps its supplied fields, defaults `lastSeen` to now and `history` to `[]`, and always has a truthy `_id` |
| Models.VesselDefaultsKeys | martinai/server/models/Vessel.js:59-69 | the constructor adds exactly `lastSeen`, `history` and `_id` |
| Models.AnomalyDefaults | martinai/server/models/Anomaly.js:59-70 | `timestamp` defaults to now; `confirmed` and `resolved` default to false unless supplied; `_id` is always set; other fields are kept |
| Models.AnomalyDefaultsKeys | martinai/server/models/Anomaly.js:59-70 | the constructor adds exactly `timestamp`, `confirmed`, `resolved` and `_id` |
| Models.AnomalyDefaultsFresh | martinai/server/models/Anomaly.js:59-70 | data without those four fields gives an unconfirmed, unresolved anomaly stamped now, with the clock's id |
| Models.GeofenceDefaults | martinai/server/models/Geofence.js:59-69 | `active` defaults to true but keeps an explicit false; `createdAt` defaults to now; `_id` is always set |
| Models.GeofenceDefaultsKeys | martinai/server/models/Geofence.js:59-69 | the constructor adds exactly `active`, `createdAt` and `_id` |
| Models.KeyFilterMatches | martinai/server/services/memoryStore.js:41 | a one-property filter on a non-object value is strict equality on that property |
| Models.KeyFilterFirst | martinai/server/models/Anomaly.js:30-32 | `findOne({ _id: id })` finds the same position as the update's id search |
| Models.FindById | martinai/server/models/Vessel.js:30-32 | `findById` gives null exactly when no record has the id, otherwise the first record with it |
| Models.DeleteFirstMatch | martinai/server/models/Vessel.js:48-53 | false and no change when nothing matches; otherwise every record with the first match's id is removed |
| Models.ActiveGeofences | martinai/server/models/Geofence.js:12-14 | `find({ active: true })` returns exactly the stored zones whose `active` is the boolean true, and it is the filtered list whose stored order `MemoryStore.FilteredAppend` and `MemoryStore.FilteredPosition` state |
| Models.SavedVessels | martinai/server/models/Vessel.js:75-86 | a known mmsi keeps the count and merges the new fields into the first record carrying the `_id` of the first record with that mmsi, which is that record itself when ids are unique; every other record is unchanged; an unknown mmsi appends exactly the inserted record |
| Models.SaveKeepsMmsiUnique | martinai/server/models/Vessel.js:75-86 | saving keeps mmsi values unique for a plain-valued mmsi when the stored ids are unique |
| Models.SameMillisecondIdsBreakSave | martinai/server/models/Vessel.js:66-67 | two vessels built without an id in the same millisecond share an `_id`; after both are stored, saving the second again gives two records with its mmsi |
| Models.SharedIdSave | martinai/server/models/Vessel.js:77-80 | when two stored records share an `_id`, saving a vessel with the second one's mmsi leaves two records with that mmsi |
| Models.Vessel.constructor | martinai/server/models/Vessel.js:59-69 | `new Vessel(data)` holds the defaulted record |
| Models.Vessel.Save | martinai/server/models/Vessel.js:75-86 | the store's vessels become the upserted list, and the counter moves only for an insert without an id |
| Models.SaveById | martinai/server/models/Anomaly.js:76-85 | a truthy `_id` takes the update path, which leaves the store unchanged for an unstored id; otherwise one record is inserted |
| Models.Anomaly.constructor | martinai/server/models/Anomaly.js:59-70 | `new Anomaly(data)` holds the defaulted record |
| Models.Anomaly.Save | martinai/server/models/Anomaly.js:76-85 | save updates by `_id`, so an anomaly whose id is not stored leaves the store unchanged |
| Models.Geofence.constructor | martinai/server/models/Geofence.js:59-69 | `new Geofence(data)` holds the defaulted record |
| Models.Geofence.Save | martinai/server/models/Geofence.js:75-84 | save updates by `_id`, so an unstored new zone is not inserted |
| Models.EmptyStaysEmpty | martinai/server/models/Anomaly.js:76-85 | saving into an empty collection leaves it empty |
| VesselIngest.Appended | martinai/server/services/datalastic.js:111-120 | after push and trim the history holds 1 to 100 entries and ends with the new point; under the cap it is the old history plus the point, at the cap the oldest entries are dropped |
| VesselIngest.AppendedEvictsOldest | martinai/server/services/datalastic.js:118-120 | at exactly 100 entries the oldest one is evicted and the rest move up by one |
| VesselIngest.CopyKeysGet | martinai/server/services/datalastic.js:94-99 | after the field copies, a listed key holds the report's value and any other key is unchanged |
| VesselIngest.OverwritesDisjoint | martinai/server/services/datalastic.js:94-108 | the assigned fields, the extended fields and `lastSeen` are distinct |
| VesselIngest.OverwrittenAssigned | martinai/server/services/datalastic.js:94-99 | a known vessel takes the report's `lat`, `lon`, `course`, `speed`, `destination` and `eta` |
| VesselIngest.OverwrittenLastSeen | martinai/server/services/datalastic.js:100 | a known vessel's `lastSeen` becomes now |
| VesselIngest.OverwrittenExtended | martinai/server/services/datalastic.js:103-108 | an extended field takes the report's value only when it is truthy and the service copies extended fields |
| VesselIngest.OverwrittenKeeps | martinai/server/services/datalastic.js:94-108 | every other field of a known vessel is left as it was |
| VesselIngest.NewVesselDataBasic | martinai/server/services/datalastic.js:126-134 | a new vessel gets the report's mmsi, name, position, course, speed, destination and eta |
| VesselIngest.NewVesselDataExtended | martinai/server/services/datalastic.js:135-140 | the extended fields are copied as they are in the Datalastic service and absent in the VesselFinder one |
| VesselIngest.NewVesselDataHistory | martinai/server/services/datalastic.js:141-147 | a new vessel starts with a one-point history at the report's position |
| VesselIngest.NewVesselDataNothingElse | martinai/server/services/datalastic.js:126-148 | no other field is set |
| VesselIngest.NewVesselFields | martinai/server/services/vfinder.js:76-92 | a new vessel has the report's mmsi and position, a one-point history, `lastSeen` now, and the clock's id |
| VesselIngest.Upsert | martinai/server/services/datalastic.js:85-87 | a report with a falsy mmsi, lat or lon changes nothing and is skipped, and any other report is not skipped |
| VesselIngest.KnownVesselRefreshed | martinai/server/services/datalastic.js:92-123 | a known vessel with an array history is replaced in place by its refreshed record; only that record changes; the corrected loop returns it and the loop as written throws a TypeError |
| VesselIngest.BasicReportKeepsExtendedFields | martinai/server/services/vfinder.js:52-58 | the VesselFinder service leaves a known vessel's extended fields alone |
| VesselIngest.KnownVesselBadHistory | martinai/server/services/datalastic.js:111 | a non-array history makes the push throw, after the field assignments have landed in the store |
| VesselIngest.NewVesselCreated | martinai/server/services/datalastic.js:124-151 | an unknown mmsi appends exactly one vessel, which the loop returns, stored with `createdAt` now |
| VesselIngest.UpsertCount | martinai/server/services/vfinder.js:48-96 | the vessel count grows by one exactly when an accepted report's mmsi is new |
| VesselIngest.UpsertMmsis | martinai/server/services/vfinder.js:48-95 | no stored mmsi changes; a new record and a returned record both carry the report's mmsi |
| VesselIngest.UnknownMmsiAbsent | martinai/server/services/vfinder.js:48 | when the lookup finds nothing, no stored vessel has that mmsi |
| VesselIngest.UpsertKeepsUnique | martinai/server/services/vfinder.js:48-95 | one report keeps mmsi values unique |
| VesselIngest.UpsertKeepsBounded | martinai/server/services/vfinder.js:61-70 | one report keeps every history an array of 1 to 100 entries, and the corrected loop never fails on it |
| VesselIngest.IngestErrSticky | martinai/server/services/datalastic.js:156-158 | once a prefix of the batch has thrown, the whole batch ends with that throw |
| VesselIngest.AcceptedOf | martinai/server/services/datalastic.js:85-87 | the accepted reports are exactly those that pass the falsy test |
| VesselIngest.AlignedByMmsiExtend | martinai/server/services/datalastic.js:123 | pushing a record with the report's mmsi keeps results and reports aligned |
| VesselIngest.IngestAllAligned | martinai/server/services/datalastic.js:81-155 | over a batch the collection keeps one record per mmsi; the returned records match the accepted reports one for one, in input order, by mmsi |
| VesselIngest.IngestAllBounded | martinai/server/services/vfinder.js:39-99 | over a batch every history stays an array of 1 to 100 entries, and the corrected loop stores the whole batch |
| VesselIngest.AsWrittenFailsOnKnownVessel | martinai/server/services/datalastic.js:122 | as written, any accepted report for a stored mmsi ends the batch with a TypeError |
| VesselIngest.AsWrittenCounterexample | martinai/server/services/vfinder.js:72 | one stored vessel and one report for it: the batch as written throws |
| VesselIngest.CorrectedCounterexample | martinai/server/services/vfinder.js:72-73 | the same batch, corrected, stores and returns the one refreshed vessel |
| VesselIngest.InsertedItemIdIrrelevant | martinai/server/services/memoryStore.js:97 | a record that already has a truthy `_id` is stored the same whatever id the counter would give |
| VesselIngest.IngestAllAdvance | martinai/server/services/datalastic.js:83-153 | one more report extends the batch: a throw ends it, a stored record is pushed, a skip adds nothing |
| VesselIngest.RefreshKnown | martinai/server/services/datalastic.js:92-123 | the store's vessels and the step become those of the corrected upsert for a known vessel, and the counter is kept |
| VesselIngest.PushHistory | martinai/server/services/datalastic.js:111-120 | not an array: a TypeError and no change; otherwise only that record's history becomes the pushed and trimmed one |
| VesselIngest.AddNew | martinai/server/services/datalastic.js:124-151 | the store's vessels and step become those of the upsert for an unknown mmsi, and the counter is kept |
| VesselIngest.StoreReport | martinai/server/services/datalastic.js:83-153 | one iteration of the loop leaves the store and gives the step exactly as `Upsert` says |
| VesselIngest.StoreVesselData | martinai/server/services/datalastic.js:79-160 | the corrected `storeVesselData` leaves the vessels and returns the result `IngestAll` gives |
| Datalastic.TransformOne | martinai/server/services/datalastic.js:54-55 | a record that is not an object, or whose mmsi is undefined or null, throws a TypeError; a string mmsi always maps |
| Datalastic.Transform | martinai/server/services/datalastic.js:50-52 | anything but an array gives `[]` |
| Datalastic.TransformAllOk | martinai/server/services/datalastic.js:54-71 | the mapping succeeds exactly when every record maps |
| Datalastic.TransformAllPointwise | martinai/server/services/datalastic.js:54-71 | one output per input, in order: output `i` is record `i` mapped |
| Datalastic.TransformAllFirstError | martinai/server/services/datalastic.js:54-71 | a failing mapping reports the first record that throws |
| Datalastic.TransformOneMmsi | martinai/server/services/datalastic.js:55 | a record maps exactly when it is an object whose mmsi has a text, and the output mmsi is that string |
| Datalastic.TransformOneName | martinai/server/services/datalastic.js:56 | `name` is `shipname`, defaulting to 'Unknown' |
| Datalastic.TransformOnePosition | martinai/server/services/datalastic.js:57-58 | `lat` and `lon` are copied unchanged |
| Datalastic.TransformOneMotion | martinai/server/services/datalastic.js:59-60 | `course` and `speed` are copied unchanged |
| Datalastic.TransformOneDefaults | martinai/server/services/datalastic.js:61-69 | `destination` defaults to '', `eta` and `atd` to null, and the timestamp to the current time |
| Datalastic.TransformOneExtended | martinai/server/services/datalastic.js:63-70 | `imo`, `callsign`, `shipType`, `draft`, `vesselType` and `navStatus` are renamed from the provider's fields and default to '' |
| Datalastic.TransformPlainMmsis | martinai/server/services/datalastic.js:55 | every transformed report has a string mmsi, so the store's lookup by mmsi is plain equality |
| AnomalyDetection.DetectedIsConstructed | martinai/server/models/Anomaly.js:59-70 | the detector's anomaly is exactly what `new Anomaly` makes of its data |
| AnomalyDetection.DetectedFields | martinai/server/services/anomaly.js:28-43 | a detected anomaly names the vessel's mmsi and name, its type, location and details, is unconfirmed and unresolved, and is stamped now with the clock's id |
| AnomalyDetection.SavedKeepsOthers | martinai/server/models/Anomaly.js:78-79 | saving an anomaly touches only the anomalies collection |
| AnomalyDetection.SavedUnstored | martinai/server/models/Anomaly.js:78-79 | saving an anomaly whose id is not stored changes nothing |
| AnomalyDetection.SaveDetected | martinai/server/services/anomaly.js:28-45 | the method builds the anomaly and leaves the store as one update-only save does |
| AnomalyDetection.ShutoffFilterWindow | martinai/server/services/anomaly.js:20-22 | the query keeps exactly the vessels whose `lastSeen` lies in the shutoff window |
| AnomalyDetection.ShutoffWindowBounds | martinai/server/services/anomaly.js:17-22 | for a `lastSeen` with a numeric value (a number, a Date, numeric text) the window is the open interval (now - 24h, now - 30min); a missing `lastSeen` is never in it |
| AnomalyDetection.WindowIsSilent | martinai/server/services/anomaly.js:26 | a vessel the query returns always passes the loop's re-check |
| AnomalyDetection.ShutoffsAllSilent | martinai/server/services/anomaly.js:24-48 | when every vessel passes the re-check, each one gives its own anomaly, in order |
| AnomalyDetection.AisShutoffsExactly | martinai/server/services/anomaly.js:13-55 | `detectAisShutoff` flags exactly the stored vessels in the window, anomaly `i` being that of entry `i` of the filtered vessels, which keep stored order and multiplicity (`MemoryStore.FilteredAppend`) |
| AnomalyDetection.ShutoffAnomalyFields | martinai/server/services/anomaly.js:28-43 | a shutoff anomaly has type `AIS_SHUTOFF`, the vessel's position as location, and `details.lastSeen`/`lastPosition` |
| AnomalyDetection.DetectAisShutoff | martinai/server/services/anomaly.js:13-55 | the method returns the shutoff anomalies of the stored vessels and saves each in turn |
| AnomalyDetection.RoutePositionsPointwise | martinai/server/services/anomaly.js:71 | the route keeps the history's order, and building it fails exactly when an entry is undefined or null |
| AnomalyDetection.HistoryPositionOfObject | martinai/server/services/anomaly.js:71 | an object entry gives its own `[lon, lat]` |
| AnomalyDetection.ShortHistoryNoDeviation | martinai/server/services/anomaly.js:66-68 | fewer than three history points never make a deviation |
| AnomalyDetection.DeviationIffFarOff | martinai/server/services/anomaly.js:71-99 | a deviation is reported exactly when the distance is strictly above 5 nautical miles; the anomaly carries the distance, the route and the current point, and starts unconfirmed |
| AnomalyDetection.ShortLengthObjectNoDeviation | martinai/server/services/anomaly.js:66-68 | an object history whose `length` property compares below 3 gives null, as `vesselHistory.length < 3` does for any value |
| AnomalyDetection.ShortLengthExamples | martinai/server/services/anomaly.js:66-68 | `{ length: 0 }`, `{ length: null }` and `{ length: "2" }` are such short histories |
| AnomalyDetection.NonArrayHistoryThrows | martinai/server/services/anomaly.js:66-71 | a history that is not an array, a string or an object whose `length` is below 3 throws a TypeError: undefined or null at `.length`, anything else at `.map` |
| AnomalyDetection.RouteFailurePropagates | martinai/server/services/anomaly.js:71-78 | a failure to build the route or to measure the distance is the call's error |
| AnomalyDetection.DetectRouteDeviation | martinai/server/services/anomaly.js:63-106 | the method returns what `RouteDeviation` gives, null for a short history of any kind, and saves the deviation when there is one |
| AnomalyDetection.ViolationFrom | martinai/server/services/anomaly.js:118-143 | a zone found is one of the zones searched |
| AnomalyDetection.ViolationIsFirst | martinai/server/services/anomaly.js:118-142 | the zone found contains the point, and every zone before it was checked and does not |
| AnomalyDetection.NoViolationIffOutsideAll | martinai/server/services/anomaly.js:118-145 | no violation exactly when every zone was checked and none contains the point |
| AnomalyDetection.GeofenceViolationFields | martinai/server/services/anomaly.js:116-141 | a violation names the first of the active zones that contains the vessel; its details name that zone, and it starts unconfirmed |
| AnomalyDetection.GeofenceViolationStored | martinai/server/services/anomaly.js:116-141 | the violating zone is, in store order, the first stored geofence whose `active` is true and that contains the vessel: every active geofence stored before it was checked and does not contain it |
| AnomalyDetection.StoredFirstHit | martinai/server/services/anomaly.js:116-125 | the first hit among the queried active zones is a stored geofence, and every active one stored before it was checked and missed |
| AnomalyDetection.DetectGeofenceViolation | martinai/server/services/anomaly.js:113-150 | the method returns the violation for the active zones and saves it when there is one |
| AnomalyDetection.CheckAllErrSticky | martinai/server/services/anomaly.js:160-177 | once an earlier vessel's check has thrown, the pass has thrown with it |
| AnomalyDetection.CheckAllAdvance | martinai/server/services/anomaly.js:160-177 | the pass over one more vessel adds that vessel's results after the earlier ones |
| AnomalyDetection.UnknownVesselSkipped | martinai/server/services/anomaly.js:162-164 | a vessel not found in the store is skipped, with no anomaly and no change |
| AnomalyDetection.RouteAnomalyFresh | martinai/server/services/anomaly.js:82-95 | a route deviation is an unconfirmed, unresolved `ROUTE_DEVIATION` |
| AnomalyDetection.ZoneAnomalyFresh | martinai/server/services/anomaly.js:126-138 | a geofence violation is an unconfirmed, unresolved `GEOFENCE_VIOLATION` |
| AnomalyDetection.CheckVesselResult | martinai/server/services/anomaly.js:162-176 | a found vessel gives its route result followed by its geofence result |
| AnomalyDetection.RouteThenZoneOf | martinai/server/services/anomaly.js:166-175 | a route result followed by a zone result is in route-then-zone order |
| AnomalyDetection.CheckVesselOrder | martinai/server/services/anomaly.js:166-175 | per vessel there is at most one route deviation, and it comes before at most one geofence violation |
| AnomalyDetection.FreshOf | martinai/server/services/anomaly.js:166-175 | two fresh results together are fresh |
| AnomalyDetection.CheckVesselFresh | martinai/server/services/anomaly.js:166-175 | every anomaly one vessel's check returns is unconfirmed and unresolved |
| AnomalyDetection.CheckVesselKeepsOthers | martinai/server/services/anomaly.js:162-176 | a vessel's check changes only the anomalies collection |
| AnomalyDetection.CheckAllKeepsOthers | martinai/server/services/anomaly.js:160-177 | the loop changes only the anomalies collection |
| AnomalyDetection.SavedAllKeepsOthers | martinai/server/services/anomaly.js:45 | saving the shutoff anomalies changes only the anomalies collection |
| AnomalyDetection.ProcessAllKeepsOthers | martinai/server/services/anomaly.js:157-184 | `processVesselData` never changes the vessels or the geofences |
| AnomalyDetection.ShutoffsLast | martinai/server/services/anomaly.js:179-183 | the shutoff anomalies come last, after all per-vessel results, and are those of the vessels as stored before the pass |
| AnomalyDetection.CheckAllFresh | martinai/server/services/anomaly.js:160-177 | every anomaly of the loop is fresh |
| AnomalyDetection.ShutoffsFresh | martinai/server/services/anomaly.js:28-43 | every shutoff anomaly is fresh |
| AnomalyDetection.ProcessAllFresh | martinai/server/services/anomaly.js:157-184 | every anomaly a pass reports starts unconfirmed and unresolved |
| AnomalyDetection.SavedAllUnstored | martinai/server/models/Anomaly.js:78-79 | saving anomalies whose id is not stored leaves the table as it was |
| AnomalyDetection.CheckVesselUnstored | martinai/server/services/anomaly.js:162-176 | such a vessel check leaves the table as it was |
| AnomalyDetection.CheckAllUnstored | martinai/server/services/anomaly.js:160-177 | such a loop leaves the table as it was |
| AnomalyDetection.PassStoresNothing | martinai/server/services/anomaly.js:157-184 | because the save only updates, a pass whose detection time is not an id already stored changes nothing |
| AnomalyDetection.CheckOne | martinai/server/services/anomaly.js:162-176 | the method does one vessel's checks on the store exactly as `CheckVessel` says |
| AnomalyDetection.ProcessVesselData | martinai/server/services/anomaly.js:157-184 | the method returns and stores what `ProcessAll` gives |
| DataPoller.LowestIsLeast | martinai/server/services/dataPoller.js:102-104 | the min fold is at most the start and every vertex, and it equals one of them |
| DataPoller.HighestIsGreatest | martinai/server/services/dataPoller.js:103-105 | the max fold is at least the start and every vertex, and it equals one of them |
| DataPoller.BoxContainsRing | martinai/server/services/dataPoller.js:87-114 | every vertex lies strictly inside the padded box, so minLat < maxLat and minLon < maxLon |
| DataPoller.BoxIsTight | martinai/server/services/dataPoller.js:98-112 | for coordinates on the globe each side of the box is exactly 0.1 beyond the extreme vertex |
| DataPoller.UnitSquareBox | martinai/server/tests/services/dataPoller.test.js:34-46 | the unit square gives the box -0.1,-0.1,1.1,1.1 |
| DataPoller.UnitSquareRing | martinai/server/services/dataPoller.js:98-101 | the unit square's ring reads as its five vertices |
| DataPoller.VerticesPointwise | martinai/server/services/dataPoller.js:98-101 | reading the ring succeeds exactly when every vertex reads, and it keeps length and order |
| DataPoller.UnitSquarePadded | martinai/server/services/dataPoller.js:92-112 | the padded box of the unit square's vertices is -0.1,-0.1,1.1,1.1 |
| DataPoller.VerticesSnoc | martinai/server/services/dataPoller.js:98-101 | one more readable vertex extends the ring by its value |
| DataPoller.EmptyRingBox | martinai/server/services/dataPoller.js:92-112 | an empty ring leaves the initial extremes, so its box is inverted |
| DataPoller.MissingGeometryThrows | martinai/server/services/dataPoller.js:89 | a zone without a geometry or coordinates throws a TypeError |
| DataPoller.VerticesErrSticky | martinai/server/services/dataPoller.js:98-101 | a bad vertex fails the whole walk |
| DataPoller.CalculateBoundingBox | martinai/server/services/dataPoller.js:87-119 | the min/max loop returns the box `BoundingBox` specifies |
| DataPoller.PollZones | martinai/server/services/dataPoller.js:56-76 | every zone gets exactly one outcome |
| DataPoller.NoActiveZonesNoFetch | martinai/server/services/dataPoller.js:48-53 | with no active geofence a poll fetches nothing and changes nothing |
| DataPoller.OutcomesPrefix | martinai/server/services/dataPoller.js:56-76 | polling a prefix of the zones gives the matching prefix of the outcomes |
| DataPoller.ZoneOutcome | martinai/server/services/dataPoller.js:57-75 | outcome `i` is zone `i` run on the table the earlier zones left |
| DataPoller.EveryZoneRuns | martinai/server/services/dataPoller.js:57-76 | every zone runs whatever the earlier zones did, since a failure is caught |
| DataPoller.FetchesEveryBox | martinai/server/services/dataPoller.js:59-62 | a poll fetches once per zone with a computable box, in zone order |
| DataPoller.FailedFetchChangesNothing | martinai/server/services/dataPoller.js:62 | a zone whose fetch fails leaves the table unchanged and reports that error |
| DataPoller.PollZoneKeepsOthers | martinai/server/services/dataPoller.js:59-68 | a zone's run changes only the vessels and the anomalies |
| DataPoller.PollKeepsZones | martinai/server/services/dataPoller.js:56-76 | a poll leaves the geofences alone |
| DataPoller.PollOne | martinai/server/services/dataPoller.js:57-75 | the method runs one zone (box, fetch, store, detect) on the store as `PollZone` says |
| DataPoller.PollData | martinai/server/services/dataPoller.js:43-80 | the method leaves the store, the fetched boxes and the outcomes as `PollAll` says |
| DataPoller.PollNext | martinai/server/services/dataPoller.js:56-76 | one turn of the loop extends the poll of the zones so far by the next zone |
| DataPoller.TicksInWindow | martinai/server/services/dataPoller.js:6 | between `ms / 30000` and one more interval ticks fall in any window of `ms` milliseconds |
| DataPoller.TicksSplit | martinai/server/services/dataPoller.js:23 | splitting a time span splits its ticks |
| DataPoller.Poller.constructor | martinai/server/services/dataPoller.js:5 | the poller starts stopped, with no polls |
| DataPoller.Poller.StartPolling | martinai/server/services/dataPoller.js:11-24 | a start while running is a no-op; otherwise it polls once at once and runs from time 0 |
| DataPoller.Poller.StopPolling | martinai/server/services/dataPoller.js:29-38 | a stop leaves the poller stopped; a stop while stopped is a no-op |
| DataPoller.Poller.Elapse | martinai/server/services/dataPoller.js:23 | a running poller polls once per interval tick, and a stopped one never does |
| DataPoller.StartThenOneInterval | martinai/server/tests/services/dataPoller.test.js:142-151 | one poll at start, two after 30 seconds |
| DataPoller.StartTwice | martinai/server/services/dataPoller.js:12-15 | a second start adds no poll and no second interval |
| DataPoller.StopHaltsPolling | martinai/server/services/dataPoller.js:29-38 | after a stop, time passing causes no polls, and stopping again is a no-op |
| AnomalyRoutes.DigitRun | martinai/server/routes/anomalies.js:23 | the digit run is the longest all-digit prefix |
| AnomalyRoutes.RunValueDecimal | martinai/server/routes/anomalies.js:23 | a run of decimal digits reads as its decimal value |
| AnomalyRoutes.DigitRunPrefix | martinai/server/routes/anomalies.js:23 | the digit run ends at the first position that is not a digit |
| AnomalyRoutes.ParseUnsignedDecimal | martinai/server/routes/anomalies.js:23 | unsigned decimal text reads back as its number, whatever non-digit follows |
| AnomalyRoutes.ParseIntDecimal | martinai/server/routes/anomalies.js:23 | `parseInt` of a page number's text is that number |
| AnomalyRoutes.ParseIntUnsigned | martinai/server/routes/anomalies.js:23 | text that starts with a digit is read with no sign and no white space skipped |
| AnomalyRoutes.ParseIntNegative | martinai/server/routes/anomalies.js:23 | a minus sign gives the negation |
| AnomalyRoutes.ParseIntHexadecimal | martinai/server/routes/anomalies.js:23 | after a `0x` or `0X` prefix the longest run of hexadecimal digits is read in base 16, and no digit at all is NaN |
| AnomalyRoutes.ParseUnsignedHexadecimal | martinai/server/routes/anomalies.js:23 | after the `0x` prefix the digit run is read in base 16, and an empty run is NaN |
| AnomalyRoutes.ParseIntNaN | martinai/server/routes/anomalies.js:23 | text with no digit, sign or space up front is NaN |
| AnomalyRoutes.SkipSteps | martinai/server/routes/anomalies.js:23 | page 1 skips nothing, and consecutive pages start `limit` apart |
| AnomalyRoutes.DefaultsSkipNothing | martinai/server/routes/anomalies.js:12-23 | page defaults to 1 and limit to 20, so the default skip is 0 |
| AnomalyRoutes.QueryFilterEntries | martinai/server/routes/anomalies.js:26-37 | type and mmsi appear only when truthy; confirmed and resolved become `=== 'true'` whenever supplied; timestamp appears exactly when a date is given; no other key appears |
| AnomalyRoutes.FlagFilterEntries | martinai/server/routes/anomalies.js:26-30 | the four plain entries are present exactly when their tests pass, holding the values the handler sets |
| AnomalyRoutes.QueryFilterMatches | martinai/server/routes/anomalies.js:26-37 | an anomaly passes exactly when it agrees with each given type, mmsi, confirmed and resolved, and its timestamp meets each given bound |
| AnomalyRoutes.FlagFilterMatches | martinai/server/routes/anomalies.js:26-30 | the plain entries accept an anomaly exactly when it agrees with each of them |
| AnomalyRoutes.TimestampMatches | martinai/server/routes/anomalies.js:33-37 | the timestamp entry accepts a time exactly when it is at or after a start date and at or before an end date that are given |
| AnomalyRoutes.MatchesWith | martinai/server/routes/anomalies.js:26-37 | one more entry adds its own test and keeps the others |
| AnomalyRoutes.InvalidDateMatchesNothing | martinai/server/routes/anomalies.js:35 | a start date that does not parse lets no anomaly through |
| AnomalyRoutes.BuildFilters | martinai/server/routes/anomalies.js:26-37 | the filter built entry by entry is exactly `QueryFilter` |
| AnomalyRoutes.TotalPagesCover | martinai/server/routes/anomalies.js:48 | for a positive limit `totalPages` is the fewest whole pages that hold every match |
| AnomalyRoutes.Newest | martinai/server/routes/anomalies.js:39-40 | the listing order is a permutation of the matches, newest first |
| AnomalyRoutes.PageWindow | martinai/server/routes/anomalies.js:39-51 | page `p` holds the newest-first matches from position `(p - 1) * l`, at most `l` of them, and reports the match count |
| AnomalyRoutes.PageOfPosition | martinai/server/routes/anomalies.js:23 | page `k / l + 1` skips exactly the matches before its first entry |
| AnomalyRoutes.PagesPartition | martinai/server/routes/anomalies.js:23-42 | match `k` of the newest-first order is entry `k % l` of page `k / l + 1` |
| AnomalyRoutes.PageEntry | martinai/server/routes/anomalies.js:39-42 | entry `m` of the page that skips `s` matches is match `s + m` |
| AnomalyRoutes.ListingDefaults | martinai/server/routes/anomalies.js:12-42 | without page and limit the reply holds the newest 20 matches |
| AnomalyRoutes.ListAnomalies | martinai/server/routes/anomalies.js:10-51 | the handler's reply is the specified listing, and it changes nothing |
| AnomalyRoutes.GetAnomaly | martinai/server/routes/anomalies.js:62-75 | 404 when no anomaly has the id, otherwise 200 with the first anomaly that has it |
| AnomalyRoutes.DeleteAnomaly | martinai/server/routes/anomalies.js:134-148 | 404 and no change for a missing id; otherwise every anomaly with it is removed and the reply confirms it |
| AnomalyRoutes.PostedAnomaly | martinai/server/routes/anomalies.js:83-95 | a posted anomaly carries the five posted fields and nothing else of the body, starts unconfirmed and unresolved at now, and takes the clock's id |
| AnomalyRoutes.CreateAnomaly | martinai/server/routes/anomalies.js:81-103 | 400 and no change unless mmsi and type are both truthy; otherwise 201 with the new anomaly, saved by update |
| AnomalyRoutes.PostStoresNothingNew | martinai/server/routes/anomalies.js:97 | a posted anomaly is not stored unless one with the same id is already stored |
| AnomalyRoutes.PatchedFields | martinai/server/routes/anomalies.js:118-120 | `confirmed` and `resolved` change only when not undefined, `feedback` only when truthy; every other field is kept |
| AnomalyRoutes.EmptyPatchKeepsAnomaly | martinai/server/routes/anomalies.js:118-120 | a body without the three fields changes nothing |
| AnomalyRoutes.UpdatedStore | martinai/server/routes/anomalies.js:109-128 | 404 and no change for a missing id; otherwise only the first anomaly with it is patched; as written the reply is 500, corrected it is 200 with the patched anomaly; both leave the store the same |
| AnomalyRoutes.PutAsWrittenCounterexample | martinai/server/routes/anomalies.js:122 | as written, the client is told the update failed, yet the anomaly is confirmed |
| AnomalyRoutes.UpdateAnomaly | martinai/server/routes/anomalies.js:109-128 | the corrected handler replies and leaves the store as `Updated` says |

## Left out

- The `getVessels` network calls of both provider services are left out: URL building, `fetch`, HTTP status, JSON parsing, API keys. The poller receives the provider as a `Fetch` function from a box to reports or an error.
- The turf geometry calls are parameters: line string, point, point-to-line distance and point-in-polygon. So are their failures. The five-mile threshold and everything around the calls are modelled.
- Timers: `setInterval` and `clearInterval` become the `running` flag and elapsed milliseconds of `Poller`, and a tick is every 30 000 ms after the start. Each `pollData` call is counted by `Poller`; its effect is `PollData`.
- Async and promises are not modelled. Awaits run in order, and no two polls overlap.
- Time: `Date.now()` and `new Date()` are one `now` parameter per operation. A whole pass sees one time, so the model does not capture the clock moving between steps of a pass.
- `new Date(text)` in `GET /` is the `DateParser` parameter.
- Numbers are reals: no NaN, no infinities, no rounding.
- `Values.ToJsString`: spells out the text of booleans, strings, plain objects and integers below 10^21 in size. Fractional numbers, larger numbers, Dates and arrays give an `Unmodelled` error instead of their text. That is enough for mmsi values, but not for a fractional mmsi or an array-valued one.
- `Values.StringToNumber`: reads decimal text with an optional sign and point. Exponent forms (`"1e3"`), `"Infinity"` and the `0x`/`0o`/`0b` forms are NaN in the model, while JavaScript reads them as numbers.
- `Values.StrCompare`, `AnomalyDetection.RouteDeviation`: strings are sequences of Unicode code points, so text order and a string history's length are taken on code points. JavaScript takes both on UTF-16 code units: `"😀" < "\uFFFF"` is true there but not here, and a history `"😀😀"` has length 4 there and 2 here. This matters only for characters outside the Basic Multilingual Plane.
- `Values.Compare`: arrays and plain objects count as NaN, so every comparison with them is false. JavaScript first turns them into text: `[5] < 6` is true, and an object compared with a string compares `"[object Object]"` as text.
- `AnomalyRoutes.ListAnomalies`: the chained `.sort({ timestamp: -1 }).skip(skip).limit(limit)` is modelled as find options with that sort, skip and limit. As written the chain calls `.sort` on the promise `Anomaly.find` returns. A promise has no `.sort`, so the handler would answer 500.
- `AnomalyRoutes.ParseInt`: `parseInt` is modelled for the text a query string carries: white space, a sign, decimal or `0x` digits. Exponent forms and precision loss on very long digit strings are not modelled.
- `AnomalyRoutes.QueryInt`: a query parameter that Express hands as an array or an object gives an `Unmodelled` error. JavaScript joins an array into text, so `?page=2&page=3` reads `"2,3"` and gives page 2.
- The JSON serialization of replies (`res.json`) and the Express routing are left out. A reply is its status and a JSON value. Dates stay Dates rather than ISO strings.
- Console logging is left out.
- `twilio.js`, the AI agent and its route, the geofence and vessel routes, `app.js`, `index.js` and the client are not part of this model.
- `DataPoller.PollZone` stores through the corrected `storeVesselData`. As written the loop throws on the first known vessel; `VesselIngest.AsWrittenFailsOnKnownVessel` states that, and the zone's `catch` would log it.
- The sort is modelled as a stable insertion sort. JavaScript's `Array.prototype.sort` is stable, but its comparator is inconsistent where the keys are not totally ordered. Keys that are missing or objects are unordered, and mixed strings and numbers are compared but not transitively (`Values.CompareMixedNotTransitive`). There the model gives one of the orders an engine may give, and `MemoryStore.SortByOrdered` claims the full order only for comparable keys of one kind.
- `VesselIngest.StoreVesselData`, `VesselIngest.IngestAll`, `DataPoller.PollZone`: the list of stored vessels a batch returns holds each record's value when it was stored. JavaScript returns, for a known vessel, the stored object itself. When a batch repeats a stored mmsi, the returned list then holds that one object twice, and both places show its final values; the model shows each report's own state. The store's contents after the batch are the same in both. A new vessel aliases too: `insertOne` stores a shallow copy (`{ ...data }`), so the stored record and the returned `newVessel` share one `history` array. A later report for that mmsi in the same batch pushes onto it, so the returned record's history also grows, until the 100-entry trim replaces the array; the model returns the one-point history.
- `Models.SaveKeepsMmsiUnique`: holds only when the stored `_id`s are distinct. Ids from `Date.now()` collide for vessels built in the same millisecond (`Models.SameMillisecondIdsBreakSave`); the invariant then needs distinct construction times.

## Findings

| source | as written | input that shows it | evidently intended | confidence | as-written member | corrected member |
|---|---|---|---|---|---|---|
| martinai/server/services/datalastic.js:122 (also martinai/server/services/vfinder.js:72) | `await existingVessel.save()` is called on the plain object `Vessel.findOne` returns from the store; it has no `save`, so each report for a known vessel throws a TypeError. The field and history updates have already landed in the store, and the rest of the batch is abandoned | a store holding `{ _id: "7", mmsi: "1", history: [null] }` and the batch `[{ mmsi: "1", lat: 1, lon: 2 }]` | the known vessel is refreshed in place and returned, and the batch goes on | not executed | VesselIngest.AsWrittenCounterexample | VesselIngest.StoreVesselData |
| martinai/server/routes/anomalies.js:122 | `await anomaly.save()` is called on the plain stored object `Anomaly.findById` returned, so every update answers 500. The assignments to `confirmed`, `resolved` and `feedback` have already changed the stored anomaly | a stored `{ _id: "1", confirmed: false }` and `PUT /1` with `{ confirmed: true }`: the reply is 500, yet the anomaly is confirmed | the handler answers 200 with the updated anomaly | not executed | AnomalyRoutes.PutAsWrittenCounterexample | AnomalyRoutes.UpdateAnomaly |
