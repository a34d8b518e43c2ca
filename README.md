# OpenSkiMap feature API core in Dafny

A model of the two parts of the OpenSkiMap feature API (`api.openskimap.org`) that carry logic. The rest of the service is HTTP and import plumbing around them.

- **Rank calculation** (`src/RankCalculator.ts`). This computes the total run length of a ski area, lift or run. The length is read from `properties.statistics.runs.byActivity.*.byDifficulty.*.lengthInKm`, and any absent level counts as 0. The total is then mapped onto a saturating logarithmic score in [0, 5].
- **The feature store** (`src/Repository.ts`). This is a collection of documents keyed by `_key`. `upsert` writes a whole document tagged with an import identifier. `removeExceptImport` purges every document with another tag. `has` and `get` look up by key. `search` filters by a text match and a feature type, then truncates to a limit. Two pure helpers sit beside it. `getSearchableText` builds the indexed strings. `documentToFeature` projects a document back to a GeoJSON Feature.

Files:

- `wrappers.dfy`: the `Option` and `Result` datatypes.
- `features.dfy`: the feature shapes the core reads (`Properties`, the statistics records, `Location`, `Geometry`, `Feature`).
- `rank_calculator.dfy`: module `RankCalculator`.
  - The nested loop of `calculateTotalRunLength` is a method.
  - That method is proved against a recursive sum, `TotalRunLength`.
  - The recursive sum is proved equal to an independent definition: the sum over the flattened list of all buckets.
- `repository.dfy`: module `Repository`.
  - Class `Repository` holds `collection: map<string, Document>`.
  - Its methods state the new collection through the specification functions `Upserted` and `KeptImport`.
  - The lemmas about the store are stated on those two functions.

Modelling choices:

- JavaScript objects iterated with `Object.values` are sequences of (key, value) pairs, in iteration order.
- Lengths are `real`.
- `Math.log10` is the parameter `log10: real -> real`, and nothing is assumed about it. The bound [0, 5] follows from the clamp alone. Lemmas that need more of `log10` (monotonicity, `log10(1001) >= 2`) say so in their `requires`.
- The database's edge-n-gram analyzer (`TOKENS(text, ...) ALL == searchableText`) is the parameter `analyzerMatch(text, searchableText)`.
- The search query has no ORDER clause. The model therefore visits matching documents in an arbitrary order, and promises nothing about which ones survive the LIMIT.
- `type` is a Dafny keyword, so the `type` attribute is called `featureType` throughout.

Three facts about the code shape the model:

- The stored document has no `rank` field.
- The searchable text is the name for every feature, plus locality, region and country for ski areas only. It is not deduplicated and includes no parent ski-area names.
- `search` takes `(text, type, limit)` and does not order or score its results. Its callers in `src/app.ts:54` and `src/test/integration/features.test.ts:17` call `search(text, 10)`, which does not match this signature.

## Model

| member | source | states |
|---|---|---|
| RankCalculator.CalculateTotalRunLength | src/RankCalculator.ts:17-38 | The nested loop returns `TotalRunLength(feature)`. This is the in-order sum over activities, where an activity without `byDifficulty` adds 0. It also equals the sum of `lengthInKm` (0 when absent) over every bucket of every activity. |
| RankCalculator.AbsentStatisticsMeanZero | src/RankCalculator.ts:18-20 | If `statistics`, `runs` or `byActivity` is absent, the total is 0. |
| RankCalculator.MissingByDifficultyAddsNothing | src/RankCalculator.ts:27-30 | An activity without `byDifficulty`, at any position, leaves the total of the activities around it unchanged. The iteration goes on past it. |
| RankCalculator.MissingLengthAddsNothing | src/RankCalculator.ts:32-34 | A difficulty bucket without `lengthInKm`, at any position, leaves the bucket sum unchanged. |
| RankCalculator.BucketsLengthAppend | src/RankCalculator.ts:32-34 | The in-order bucket sum of a concatenation is the sum of the two parts. |
| RankCalculator.ActivitiesLengthAppend | src/RankCalculator.ts:27-35 | The in-order activity sum of a concatenation is the sum of the two parts. |
| RankCalculator.ActivitiesLengthIsSumOverAllBuckets | src/RankCalculator.ts:26-37 | The loop's accumulation order gives the same total as summing `lengthInKm` over the flattened list of every bucket of every activity. |
| RankCalculator.TotalRunLengthNonNegative | src/RankCalculator.ts:26-37 | If no bucket has a negative length, the total is not negative. |
| RankCalculator.NormalizeToRank | src/RankCalculator.ts:40-49 | The rank is always in [0, 5], whatever `log10` yields. A length of 0 or less gives exactly 0. For a positive length, a score of at least 5 gives exactly 5, a score of 0 or less gives 0, and a score in [0, 5] is returned unchanged. |
| RankCalculator.RankIsNearestInRange | src/RankCalculator.ts:47-48 | For a positive length, the rank is the point of [0, 5] nearest to `log10(length + 1) * 2.5`. |
| RankCalculator.NormalizeToRankMonotonic | src/RankCalculator.ts:45-48 | If `log10` is monotonic, a longer run network never gets a lower rank. |
| RankCalculator.ThousandKilometresCapped | src/test/unit/RankCalculator.test.ts:145-148 | For any `log10` with `log10(1001) >= 2`, 1000 km gives exactly 5. |
| RankCalculator.CalculateRank | src/RankCalculator.ts:51-54 | The rank is `NormalizeToRank` of the total run length. It is in [0, 5], and a feature without statistics has rank 0. |
| RankCalculator.TwoActivitiesAddUp | src/test/unit/RankCalculator.test.ts:75-99 | Two activities with 10.5 km and 5.0 km give a total of 15.5 km. |
| RankCalculator.MissingLengthInKmIsSkipped | src/test/unit/RankCalculator.test.ts:101-121 | A bucket with only a `count`, next to a 10 km bucket, gives a total of 10 km. |
| Repository.Present | src/Repository.ts:105 | The falsy filter drops absent and empty strings. Its result is no longer than its input and contains no empty string. A string is in the result exactly when it is non-empty and present in the input. |
| Repository.PresentAppend | src/Repository.ts:105 | The filter keeps order: filtering a concatenation gives the concatenation of the filtered parts. |
| Repository.SearchableText | src/Repository.ts:103-106 | At most 4 strings, none empty. A present, non-empty name comes first. For lifts and runs, and for ski areas without a location, the result is `[name]` or `[]`: only a ski area's location is read. |
| Repository.SkiAreaWithoutLocation | src/Repository.ts:104-105 | A ski area whose `location` is absent is indexed by its present, non-empty name alone, or by nothing. |
| Repository.SkiAreaSearchableText | src/Repository.ts:103-106 | For a ski area with a location, the result is its present, non-empty name, locality, region and country, in that order. |
| Repository.DocumentToFeature | src/Repository.ts:108-114 | Projects a stored document to `{type: "Feature", properties, geometry}`. Its behaviour is stated by `DocumentToFeatureKeepsOnlyPayload` (only `properties` and `geometry` reach the caller) and by the round-trip ensures of `StoredDocument` (an upserted feature projects back to itself). |
| Repository.DocumentToFeatureKeepsOnlyPayload | src/Repository.ts:108-114 | Two documents project to the same Feature exactly when their `properties` and `geometry` agree. `_key`, `type`, `searchableText` and `importID` are dropped. |
| Repository.StoredDocument | src/Repository.ts:71-100 | The upserted document has `_key` = id, `type` = `properties.type`, the computed searchable text, and the given `importID`. Projecting it back with `documentToFeature` gives the feature that was upserted. |
| Repository.Upserted | src/Repository.ts:60-100 | After an upsert, `properties.id` is present and carries the given `importID`. Its document projects back to the feature. Every other key is present and unchanged exactly as before. The invariant that each document sits under its own key is kept. |
| Repository.KeptImport | src/Repository.ts:51-58 | After the purge, every remaining document has the given `importID`, and every document that had it is still present and unchanged. No new key appears. |
| Repository.UpsertIdempotent | src/Repository.ts:79-96 | Upserting the same feature under the same import twice gives the same collection as upserting it once. |
| Repository.PurgeIdempotent | src/Repository.ts:51-58 | Purging twice by the same import gives the same collection as purging once. |
| Repository.UpsertAllThenPurgeKeys | src/Repository.ts:51-69 | Upserting a batch under an import and then purging by it keeps exactly the batch's ids plus the keys that already carried that import. |
| Repository.UpsertedAllUntouched | src/Repository.ts:71-100 | A key that no feature of a batch carries is neither added nor changed by upserting the batch. |
| Repository.UpsertedAllLastWins | src/Repository.ts:71-100 | After upserting a batch, the id of a feature that is the batch's last with that id holds exactly that feature's stored document, tagged with the import. |
| Repository.ImportCutover | src/Repository.ts:51-69 | Suppose no document carries the import yet. Upserting a batch under it and then purging by it leaves exactly the batch's ids, all tagged with that import. Each id holds the stored document of the batch's last feature with that id, so no earlier document survives under a batch id. |
| Repository.Repository.constructor | src/Repository.ts:15-18 | The repository is opened over the documents already in the collection. These are assumed to have been written by `upsertData`, the only writer in the source, so each sits under its own `_key` and its `type` equals `properties.type`. |
| Repository.Repository.Has | src/Repository.ts:20-22 | True exactly when the key is in the collection. A missing key is not an error. |
| Repository.Repository.Get | src/Repository.ts:24-30 | On a present key, `get` returns `{type: "Feature", properties, geometry}` of the stored document. On an absent key it fails with not-found and returns no value. |
| Repository.Repository.Search | src/Repository.ts:32-49 | There are at most `limit` results, with no key twice. Each result is a stored document that passes the analyzer match and has the requested type, projected to a Feature. If fewer than `limit` results come back, every matching document is among them. |
| Repository.Repository.RemoveExceptImport | src/Repository.ts:51-58 | The collection becomes `KeptImport(old collection, importID)`. |
| Repository.Repository.Upsert | src/Repository.ts:60-69 | The collection becomes `Upserted(old collection, feature, importID)`, and the feature's id is present afterwards. |
| Repository.Repository.UpsertData | src/Repository.ts:71-100 | The document under `id` is replaced by `StoredDocument(id, feature, importID)`, whether or not it existed. Nothing else changes. |

## Left out

- Floating point is not modelled. Lengths and ranks are exact reals. `Math.log10` is an arbitrary function, so the approximate values in the unit tests (about 2.6 at 10 km, about 4.3 at 50 km, about 5 at 100 km) are not stated. NaN, which `lengthInKm || 0` would turn into 0, does not exist in the model.
- A GeoJSON feature whose `properties` is null cannot be represented: the typed ski-area, lift and run features always carry properties. Null entries inside `byActivity` or `byDifficulty`, which would make the source throw, cannot be represented either.
- Only the attributes the core reads (`id`, `type`, `name`, `location`, `statistics`) are spelled out in `Properties`. The rest of the properties object is copied as a whole by the source, and the model has no field for it.
- Repository.Repository.UpsertData: the UPDATE branch is modelled as a full replacement of the document. The database's merge semantics are not modelled: nested objects are merged, and attributes absent from the new document are kept.
- The analyzer's tokenisation, the index hint and the search view are left out. The `exclusive` write lock and `async`/Promise scheduling are also left out: every operation is a single atomic step.
- Data-access failures (unreachable database, rejected query) are not modelled. Every operation succeeds, except `get` on an absent key.
- `get` can fail for reasons other than a missing document. All failures are reported as not-found here, because the source's only caller turns every failure into a 404.
- Any ordering or combined score in search results is left out, because the query has no ORDER clause.
- The constructor's database handle and the collection name from `src/Config.ts` are left out. The constructor takes the documents already stored.
- The HTTP layer (`src/app.ts`, `src/Middleware.ts`, `src/index.ts`) is not part of this model.
- `src/DataImporter.ts` and `src/StreamTransforms.ts` are not part of this model. They are stream plumbing: `upsert` there is called without an import identifier, and `purgeOldData` is an empty stub. The effect of a full import followed by a purge is stated instead on the store functions, in `UpsertAllThenPurgeKeys` and `ImportCutover`.
- Index and view creation (`src/RepositoryFactory.ts`), the scripts and the test fixtures are not part of this model.
