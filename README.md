# PVEnhancerFeed cache coordination, modelled in Dafny

PVEnhancerFeed fetches solar-irradiance climatology (a location's coordinates and three
month-keyed irradiance maps) from a remote JSON API and caches it locally for seven days.
This project models the part with real invariants:

- **`LocalFeedLoader`**, the cache coordinator (`local_feed_loader.dfy`, module `FeedCache`).
  `save` asks the store to delete and inserts only after a successful deletion. `load`
  retrieves and delivers the cached feed while it is valid, the empty feed otherwise.
  `validateCache` retrieves and deletes on a failed retrieval or an expired cache. Every
  store completion is dropped once the loader is gone (`[weak self]`).
  The loader is a class driving a store double shaped like the tests' `FeedStoreSpy`. The
  double logs each message it receives and keeps each completion handed to it; the
  environment fires those completions by index. A closure handed to the store is a datatype
  value (`DeletionCompletion`, `InsertionCompletion`, `RetrievalCompletion`). Firing it runs
  the loader method holding that closure's body, which checks the loader's `alive` flag first.
  A caller's completion handler is a `Completion` object that logs every result it receives.
- **The freshness rule** `FeedCachePolicy.validate`, in its static form (`cache_policy.dfy`)
  and its instance form reading the injected clock (`FeedCache.FeedCachePolicy`).
- **`FeedItemsMapper.map`** (`feed_items_mapper.dfy`): the status-200 gate and the
  all-or-nothing decode to `invalidData`.
- **The persisted-string codecs** of `ManagedParameter` (`"key:value,key:value"`, read back
  by a loop that skips malformed pieces and lets later keys win) and `ManagedGeometry`
  (comma-joined coordinates), in `managed_parameter.dfy` and `managed_geometry.dfy`, over the
  `split`/`joined`/`compactMap` helpers of `text.dfy`.
- `cache_use_cases.dfy` runs each use case end to end on a fresh store double, for all inputs.

Modelling choices:

- A `Date` is a whole number of seconds since Foundation's reference date. A calendar day is
  86400 seconds. When the calendar's addition returns nil, `validate` returns false. The model
  stands that nil in with a sum outside `Date.distantPast`..`Date.distantFuture`; this range is
  an assumption of the model, since Foundation's calendar computes dates beyond both.
- `Double` is an abstract type. The codecs take the number-to-text function `show` and the
  parser `parse` as parameters. Their round trips require, for each number stored, that its
  text parses back to it, is non-empty, and holds neither `,` nor `:` (`FeedModel.Reparses`).
- Swift leaves a dictionary's iteration order unspecified, so `toString` takes that order as
  an argument: any listing of the keys, each once.
- The JSON decoder is a parameter `decode: Data -> Option<Root>`.
- The clock injected as `currentDate` is a `Clock` object whose time the environment sets.

## Model

| member | source | states |
|---|---|---|
| `FeedCache.FeedCachePolicy.Validate` | PVEnhancerFeed/FeedCache/LocalFeedLoader.swift:28-36 | the instance rule gives the same verdict as the static rule taken at `currentDate()`, including false when the seven-day addition fails |
| `FeedCache.FeedCachePolicy.constructor` | PVEnhancerFeed/FeedCache/LocalFeedLoader.swift:18-20 | the policy reads the clock it is given |
| `FeedCache.LocalFeedLoader.constructor` | PVEnhancerFeed/FeedCache/LocalFeedLoader.swift:47-51 | the loader keeps the store and clock, its policy reads the same clock, and the store receives no message |
| `FeedCache.LocalFeedLoader.Release` | PVEnhancerFeedTests/FeedCache/LoadFeedFromCacheUseCaseTests.swift:144 | after the owner lets go, the loader is no longer alive |
| `FeedCache.LocalFeedLoader.Save` | PVEnhancerFeed/FeedCache/LocalFeedLoader.swift:60-61 | `save` sends exactly one deletion request and nothing else, handing the store the deletion closure |
| `FeedCache.LocalFeedLoader.DeletionCompleted` | PVEnhancerFeed/FeedCache/LocalFeedLoader.swift:61-69 | a released loader does nothing; a failed deletion is passed to the caller and nothing is inserted; a successful one leads to exactly one insertion of the stored form stamped with `currentDate()` and no result yet |
| `FeedCache.LocalFeedLoader.Cache` | PVEnhancerFeed/FeedCache/LocalFeedLoader.swift:73-74 | one insertion request of `toLocal(item)` stamped with the current date, and nothing else |
| `FeedCache.LocalFeedLoader.InsertionCompleted` | PVEnhancerFeed/FeedCache/LocalFeedLoader.swift:74-78 | the insertion's error or nil is exactly the save's result, unless the loader is gone, when nothing is delivered |
| `FeedCache.LocalFeedLoader.Load` | PVEnhancerFeed/FeedCache/LocalFeedLoader.swift:88-89 | `load` sends exactly one retrieval request and nothing else |
| `FeedCache.LocalFeedLoader.LoadRetrievalCompleted` | PVEnhancerFeed/FeedCache/LocalFeedLoader.swift:89-102 | exactly one result for a live loader: the retrieval's error, the cached feed as a domain value when valid, the empty feed when empty or expired; nothing once released |
| `FeedCache.LocalFeedLoader.ValidateCache` | PVEnhancerFeed/FeedCache/LocalFeedLoader.swift:109-110 | `validateCache` sends exactly one retrieval request and nothing else |
| `FeedCache.LocalFeedLoader.ValidationRetrievalCompleted` | PVEnhancerFeed/FeedCache/LocalFeedLoader.swift:110-122 | one deletion, result ignored, exactly when the loader is alive and the retrieval failed or found an expired cache; otherwise the store receives nothing |
| `FeedCache.FeedStoreSpy.constructor` | PVEnhancerFeedTests/Helpers/FeedStoreSpy.swift:21-25 | a new store double has received nothing and holds no completion |
| `FeedCache.FeedStoreSpy.DeleteCachedFeed` | PVEnhancerFeedTests/Helpers/FeedStoreSpy.swift:28-31 | logs one deletion message and keeps its completion; nothing else changes |
| `FeedCache.FeedStoreSpy.Insert` | PVEnhancerFeedTests/Helpers/FeedStoreSpy.swift:44-47 | logs one insertion message with its feed and timestamp and keeps its completion; nothing else changes |
| `FeedCache.FeedStoreSpy.Retrieve` | PVEnhancerFeedTests/Helpers/FeedStoreSpy.swift:60-63 | logs one retrieval message and keeps its completion; nothing else changes |
| `FeedCache.FeedStoreSpy.CompleteDeletion` | PVEnhancerFeedTests/Helpers/FeedStoreSpy.swift:34-41 | firing a deletion completion: no effect for an ignored deletion or a released loader, the error to the save's caller, or the follow-up insertion |
| `FeedCache.FeedStoreSpy.CompleteInsertion` | PVEnhancerFeedTests/Helpers/FeedStoreSpy.swift:50-57 | firing an insertion completion delivers its outcome to a live loader's caller and nothing otherwise |
| `FeedCache.FeedStoreSpy.CompleteRetrieval` | PVEnhancerFeedTests/Helpers/FeedStoreSpy.swift:66-78 | firing a retrieval completion delivers the load result, or leads to the validation's deletion exactly when the cache is invalid, or nothing once the loader is gone |
| `CacheUseCases.InitDoesNotMessageStore` | PVEnhancerFeed/FeedCache/LocalFeedLoader.swift:47-51 | creating a loader leaves the store's log empty |
| `CacheUseCases.SaveFailsOnDeletionError` | PVEnhancerFeed/FeedCache/LocalFeedLoader.swift:60-70 | `save` first sends only a deletion; a failed deletion completes the save with that same error and no insertion is ever sent |
| `CacheUseCases.SaveInsertsAfterDeletion` | PVEnhancerFeed/FeedCache/LocalFeedLoader.swift:60-79 | after a successful deletion the log is deletion then one insertion of the stored form at the current date; the save's only result is the insertion's outcome |
| `CacheUseCases.LoadDeliversRetrieval` | PVEnhancerFeed/FeedCache/LocalFeedLoader.swift:88-103 | for every retrieval outcome the log is just the retrieval; the single result fails exactly on a failed retrieval, with its error; a valid cache gives its feed; empty or expired gives the empty feed |
| `CacheUseCases.LoadJudgesAtCompletion` | PVEnhancerFeed/FeedCache/LocalFeedLoader.swift:89-100 | freshness is judged by the clock's time when the retrieval completes: the cached feed if valid then, the empty feed otherwise |
| `CacheUseCases.LoadAroundExpiry` | PVEnhancerFeedTests/FeedCache/LoadFeedFromCacheUseCaseTests.swift:48-78 | seven days minus one second old: the feed; exactly seven days or one second more: the empty feed |
| `CacheUseCases.ValidateCacheDeletesInvalidCache` | PVEnhancerFeed/FeedCache/LocalFeedLoader.swift:109-123 | the log is retrieval then deletion on a failed retrieval or expired cache, and the retrieval alone on an empty or valid cache |
| `CacheUseCases.LoadAfterRelease` | PVEnhancerFeed/FeedCache/LocalFeedLoader.swift:89-90 | a load whose loader is gone before retrieval completes delivers nothing and sends nothing more |
| `CacheUseCases.ValidateCacheAfterRelease` | PVEnhancerFeed/FeedCache/LocalFeedLoader.swift:110-111 | a validation whose loader is gone sends no deletion, whatever the retrieval yields |
| `CacheUseCases.SaveReleasedBeforeDeletion` | PVEnhancerFeed/FeedCache/LocalFeedLoader.swift:61-62 | a save whose loader is gone before the deletion completes delivers nothing and sends no insertion |
| `CacheUseCases.SaveReleasedBeforeInsertion` | PVEnhancerFeed/FeedCache/LocalFeedLoader.swift:74-75 | a save whose loader is gone before the insertion completes delivers nothing |
| `CacheUseCases.SaveThenLoad` | PVEnhancerFeed/FeedCache/LocalFeedLoader.swift:60-123 | loading what was saved gives back the same feed within seven days; afterwards load gives the empty feed and validation sends one deletion request |
| `CachePolicy.AddingDays` | PVEnhancerFeed/FeedCache/FeedCachePolicy.swift:23 | adding days succeeds exactly inside the representable range, and then moves the date by whole days |
| `CachePolicy.Validate` | PVEnhancerFeed/FeedCache/FeedCachePolicy.swift:22-27 | valid iff the seven-day addition succeeds and the reference date is strictly before timestamp + 7 days |
| `CachePolicy.FailedAdditionIsInvalid` | PVEnhancerFeed/FeedCache/FeedCachePolicy.swift:23-25 | when the calendar yields no date, the verdict is false |
| `CachePolicy.ExpiresAtBoundary` | PVEnhancerFeed/FeedCache/FeedCachePolicy.swift:26 | the boundary is exclusive: invalid exactly at timestamp + 7 days, valid one second before |
| `CachePolicy.SevenDaysBack` | PVEnhancerFeedTests/FeedCache/LoadFeedFromCacheUseCaseTests.swift:48-78 | against `now`: the timestamp seven days back is invalid, one second newer valid, one second older invalid |
| `CachePolicy.ValidEarlier` | PVEnhancerFeed/FeedCache/FeedCachePolicy.swift:26 | valid at a date implies valid at every earlier date |
| `CachePolicy.NewerStaysValid` | PVEnhancerFeed/FeedCache/FeedCachePolicy.swift:22-27 | a newer timestamp with a computable expiry is valid wherever an older one is |
| `FeedItemsMapper.Root.Item` | IrradianceFeedAPI/FeedItemsMapper.swift:19-21 | the feed holds the root's geometry and properties unchanged |
| `FeedItemsMapper.Map` | IrradianceFeedAPI/FeedItemsMapper.swift:28-36 | success iff status is 200 and the body decodes; the only failure is `invalidData`; on success both parts are copied unchanged |
| `FeedItemsMapper.RejectsNon200` | IrradianceFeedAPI/FeedItemsMapper.swift:29 | any status but 200 gives `invalidData`, whatever the body |
| `FeedItemsMapper.RejectsUndecodable` | IrradianceFeedAPI/FeedItemsMapper.swift:30-32 | status 200 with an undecodable body gives `invalidData` |
| `FeedItemsMapper.DeliversDecodedFeed` | IrradianceFeedAPI/FeedItemsMapper.swift:35 | status 200 with a decodable body gives the feed of its geometry and properties |
| `ManagedGeometryCodec.Local` | PVEnhancerFeed/FeedCache/Infrastructure/CoreData/ManagedClasses/ManagedGeometry.swift:22-26 | nil text reads as nil coordinates; otherwise never more coordinates than non-empty comma-separated pieces |
| `ManagedGeometryCodec.Insert` | PVEnhancerFeed/FeedCache/Infrastructure/CoreData/ManagedClasses/ManagedGeometry.swift:29-38 | nil geometry gives no object; nil coordinates are stored as nil text |
| `ManagedGeometryCodec.StoredPieces` | PVEnhancerFeed/FeedCache/Infrastructure/CoreData/ManagedClasses/ManagedGeometry.swift:35 | the stored text splits back into each coordinate's text, in list order |
| `ManagedGeometryCodec.CompactMapOfTexts` | PVEnhancerFeed/FeedCache/Infrastructure/CoreData/ManagedClasses/ManagedGeometry.swift:23 | parsing the coordinates' texts gives the coordinates back, in order |
| `ManagedGeometryCodec.LocalInsert` | PVEnhancerFeed/FeedCache/Infrastructure/CoreData/ManagedClasses/ManagedGeometry.swift:22-38 | round trip: `local(insert(g)) == g` when every coordinate's text parses back to it; nil and empty lists included |
| `ManagedParameterCodec.EntryTexts` | PVEnhancerFeed/FeedCache/Infrastructure/CoreData/ManagedClasses/ManagedParameter.swift:53 | one `key:value` piece per entry, in iteration order |
| `ManagedParameterCodec.ToString` | PVEnhancerFeed/FeedCache/Infrastructure/CoreData/ManagedClasses/ManagedParameter.swift:52-54 | the empty dictionary gives the empty string |
| `ManagedParameterCodec.Entry` | PVEnhancerFeed/FeedCache/Infrastructure/CoreData/ManagedClasses/ManagedParameter.swift:61-65 | a piece is kept iff it splits on `:` into exactly two parts and the second parses; the key is then non-empty and `:`-free |
| `ManagedParameterCodec.ToDictionary` | PVEnhancerFeed/FeedCache/Infrastructure/CoreData/ManagedClasses/ManagedParameter.swift:60-71 | never nil; the loop's dictionary is the left-to-right reading of the comma-separated pieces |
| `ManagedParameterCodec.EmptyStringIsEmptyDictionary` | PVEnhancerFeed/FeedCache/Infrastructure/CoreData/ManagedClasses/ManagedParameter.swift:60-70 | the empty string reads as the empty dictionary |
| `ManagedParameterCodec.KeptKeys` | PVEnhancerFeed/FeedCache/Infrastructure/CoreData/ManagedClasses/ManagedParameter.swift:64-67 | a key is present iff some piece is a well-formed entry for it |
| `ManagedParameterCodec.LastEntryWins` | PVEnhancerFeed/FeedCache/Infrastructure/CoreData/ManagedClasses/ManagedParameter.swift:64-67 | a key occurring in several well-formed pieces gets the value of the last one |
| `ManagedParameterCodec.EntryOfEntryText` | PVEnhancerFeed/FeedCache/Infrastructure/CoreData/ManagedClasses/ManagedParameter.swift:53-65 | a written entry with a storable key and value reads back as that entry |
| `ManagedParameterCodec.ParsedOfEntryTexts` | PVEnhancerFeed/FeedCache/Infrastructure/CoreData/ManagedClasses/ManagedParameter.swift:62-67 | reading back a run of written entries gives the map of those keys to their values |
| `ManagedParameterCodec.RoundTrip` | PVEnhancerFeed/FeedCache/Infrastructure/CoreData/ManagedClasses/ManagedParameter.swift:52-70 | round trip: `toDictionary(toString(d)) == d` in any iteration order, when keys are non-empty and free of `,` and `:` and values reparse |
| `ManagedParameterCodec.Decoded` | PVEnhancerFeed/FeedCache/Infrastructure/CoreData/ManagedClasses/ManagedParameter.swift:26-28 | a nil stored text reads as a nil map, a present one as a present map |
| `ManagedParameterCodec.Encoded` | PVEnhancerFeed/FeedCache/Infrastructure/CoreData/ManagedClasses/ManagedParameter.swift:41-43 | a nil map is stored as nil text, a present one as present text |
| `ManagedParameterCodec.DecodedEncoded` | PVEnhancerFeed/FeedCache/Infrastructure/CoreData/ManagedClasses/ManagedParameter.swift:24-46 | one optional map stored and read back is unchanged, nil included |
| `ManagedParameterCodec.Field` | PVEnhancerFeed/FeedCache/Infrastructure/CoreData/ManagedClasses/ManagedParameter.swift:26 | optional chaining through `toDictionary` reads the stored text, nil staying nil |
| `ManagedParameterCodec.ManagedParameter.constructor` | PVEnhancerFeed/FeedCache/Infrastructure/CoreData/ManagedClasses/ManagedParameter.swift:40 | a new object has all three fields unset |
| `ManagedParameterCodec.ManagedParameter.Local` | PVEnhancerFeed/FeedCache/Infrastructure/CoreData/ManagedClasses/ManagedParameter.swift:24-32 | each of the three fields read back independently through `toDictionary` |
| `ManagedParameterCodec.ManagedParameter.Insert` | PVEnhancerFeed/FeedCache/Infrastructure/CoreData/ManagedClasses/ManagedParameter.swift:35-46 | nil gives no object; otherwise a new object with each map written independently and nil maps left nil |
| `ManagedParameterCodec.InsertThenLocal` | PVEnhancerFeed/FeedCache/Infrastructure/CoreData/ManagedClasses/ManagedParameter.swift:24-46 | round trip: `local(insert(p)) == p` when every present map is storable |
| `FeedModel.ToModelToLocal` | PVEnhancerFeed/FeedCache/LocalFeedLoader.swift:74 | a feed with both parts present survives conversion to its stored form and back |
| `Text.SplitJoin` | PVEnhancerFeed/FeedCache/Infrastructure/CoreData/ManagedClasses/ManagedGeometry.swift:23-35 | splitting a join of non-empty, separator-free parts gives the parts back, in order; the empty list included |

## Left out

- Network transport: `RemoteFeedLoader`, `HTTPClient` and `URLSessionHTTPClient` only forward a request to an HTTP client; the `connectivity` error belongs to them.
- JSON decoding: the decoder is a parameter of `FeedItemsMapper.Map`, and key renaming is not modelled.
- The concrete stores (`CodableFeedStore`, both `CoreDataFeedStore` files, `CoreDataIrradiancesStore`) and the Core Data classes `ManagedCache`, `ManagedIrradiancesFeed` and `ManagedProperties`: file I/O and `NSManagedObjectContext` calls. The loader is modelled against the store double instead.
- The serial execution of store operations on a queue: a concurrency property; the model fires completions one at a time, in the order the environment chooses.
- Calendar arithmetic: a day is always 86400 seconds, so daylight-saving transitions are not modelled.
- `CachePolicy.AddingDays`: the calendar's nil result is assumed to occur exactly when the sum falls outside `Date.distantPast`..`Date.distantFuture`. Foundation's Gregorian calendar computes dates beyond both, so for a timestamp within seven days of `distantFuture` the model's `validate` answers false where the app compares against a computed date.
- `ManagedParameterCodec.RoundTrip`: strings are sequences of Unicode scalars, while Swift's `split(separator:)` compares Characters (grapheme clusters). A `,` or `:` followed by a combining mark, a zero-width joiner or a spacing mark is not a separator in Swift. So a key whose first scalar extends the previous grapheme (for example `"\u{301}B"`) round-trips in the model, but not in the app, where its piece merges with the previous one and is dropped.
- `ManagedGeometryCodec.LocalInsert`: the same scalar-versus-Character difference applies to number texts that begin with a grapheme-extending scalar; the model does not capture it.
- `Text.SplitJoin`: stated over Unicode scalars; Swift's Character-based `split` agrees only when no part begins with a scalar that joins the separator into one grapheme.
- Floating point: numbers are an abstract type; their text form and parsing are parameters.
- Swift's memory management: a released loader is an object whose `alive` flag is false. The model does not capture that the caller's closures are dropped with it.
- The definitions of `IrradiancesFeed.toLocal()`, `LocalIrradiancesFeed.toModel()`, `Geometry.empty` and `Properties.empty` are not part of this model. They are taken as field copies (an absent part is stored with its fields absent), an empty coordinate list and three empty maps.
- `ManagedClasses.swift`, an older single-file copy whose codec bodies are the same as `ManagedParameter.swift` and `ManagedGeometry.swift`, is modelled once through those.
- `FeedStoreProtocol.swift`, `LocalIrradiancesFeedItem.swift` and the record types of `IrradiancesFeed.swift` and `LocalIrradiancesFeed.swift` carry no behaviour; the records are datatypes in `feed_model.dfy`.
- `ManagedParameterCodec.ToString`: the dictionary's iteration order is an argument, since Swift leaves it unspecified; the contract holds for every such order.
