/**
 * The cache coordinator's use cases run end to end against a fresh store double, for all
 * inputs: what the store receives, in which order, and what the caller's completion receives.
 */
module CacheUseCases {
  import opened Wrappers
  import opened FeedModel
  import CachePolicy
  import opened FeedCache

  /** Creating a loader sends no message to the store. */
  method InitDoesNotMessageStore(now: Date) returns (received: seq<ReceivedMessage>)
    ensures received == []
  {
    var clock := new Clock(now);
    var store := new FeedStoreSpy();
    var sut := new LocalFeedLoader(store, clock);
    received := store.receivedMessages;
  }

  /** A failed deletion is the save's result, and nothing is inserted. */
  method SaveFailsOnDeletionError(item: IrradiancesFeed, now: Date, deletionError: Error)
    returns (beforeDeletion: seq<ReceivedMessage>, received: seq<ReceivedMessage>, results: seq<SaveResult>)
    ensures beforeDeletion == [DeleteCachedFeed]
    ensures received == [DeleteCachedFeed]
    ensures results == [Some(deletionError)]
  {
    var clock := new Clock(now);
    var store := new FeedStoreSpy();
    var sut := new LocalFeedLoader(store, clock);
    var completion := new Completion<SaveResult>();
    sut.Save(item, completion);
    beforeDeletion := store.receivedMessages;
    store.CompleteDeletion(Some(deletionError), 0);
    received, results := store.receivedMessages, completion.received;
  }

  /**
   * After a successful deletion, exactly one insertion of the feed's stored form stamped with
   * the current date follows, and its outcome, failure or success, is the save's result.
   */
  method SaveInsertsAfterDeletion(item: IrradiancesFeed, now: Date, insertionResult: SaveResult)
    returns (beforeInsertion: seq<SaveResult>, received: seq<ReceivedMessage>, results: seq<SaveResult>)
    ensures beforeInsertion == []
    ensures received == [DeleteCachedFeed, Insert(ToLocal(item), now)]
    ensures results == [insertionResult]
  {
    var clock := new Clock(now);
    var store := new FeedStoreSpy();
    var sut := new LocalFeedLoader(store, clock);
    var completion := new Completion<SaveResult>();
    sut.Save(item, completion);
    store.CompleteDeletion(None, 0);
    beforeInsertion := completion.received;
    store.CompleteInsertion(insertionResult, 0);
    received, results := store.receivedMessages, completion.received;
  }

  /**
   * `load` sends one retrieval and nothing else, whatever the retrieval yields. A failure is
   * passed on with its error; a valid cache gives its feed; an empty or expired one gives the
   * empty feed. No other failure occurs.
   */
  method LoadDeliversRetrieval(retrieval: RetrieveCachedFeedResult, now: Date)
    returns (received: seq<ReceivedMessage>, results: seq<LoadResult>)
    ensures received == [Retrieve]
    ensures |results| == 1
    ensures results[0].Failure? <==> retrieval.Failed?
    ensures retrieval.Failed? ==> results[0] == Failure(retrieval.error)
    ensures retrieval.Found? && CachePolicy.Validate(retrieval.timestamp, now) ==>
              results[0] == Success(ToModel(retrieval.feed))
    ensures retrieval.Empty? || (retrieval.Found? && !CachePolicy.Validate(retrieval.timestamp, now)) ==>
              results[0] == Success(EmptyFeed)
  {
    var clock := new Clock(now);
    var store := new FeedStoreSpy();
    var sut := new LocalFeedLoader(store, clock);
    var completion := new Completion<LoadResult>();
    sut.Load(completion);
    store.CompleteRetrieval(retrieval, 0);
    received, results := store.receivedMessages, completion.received;
  }

  /**
   * The freshness check reads `currentDate()` when the retrieval completes, not when `load` is
   * called: a clock moved on by `elapsed` seconds in between decides the outcome.
   */
  method LoadJudgesAtCompletion(cached: LocalIrradiancesFeed, timestamp: Date, now: Date, elapsed: int)
    returns (results: seq<LoadResult>)
    ensures CachePolicy.Validate(timestamp, now + elapsed) ==> results == [Success(ToModel(cached))]
    ensures !CachePolicy.Validate(timestamp, now + elapsed) ==> results == [Success(EmptyFeed)]
  {
    var clock := new Clock(now);
    var store := new FeedStoreSpy();
    var sut := new LocalFeedLoader(store, clock);
    var completion := new Completion<LoadResult>();
    sut.Load(completion);
    clock.Advance(elapsed);
    store.CompleteRetrieval(Found(cached, timestamp), 0);
    results := completion.received;
  }

  /**
   * Around the seven-day boundary: a cache one second newer than seven days is delivered;
   * one exactly seven days old, or one second older, gives the empty feed.
   */
  method LoadAroundExpiry(feed: LocalIrradiancesFeed, now: Date, expiration: Date)
    returns (valid: seq<LoadResult>, expired: seq<LoadResult>, older: seq<LoadResult>)
    requires CachePolicy.AddingDays(now, -CachePolicy.MaxCacheAgeInDays) == Some(expiration)
    requires now < CachePolicy.DistantFuture
    ensures valid == [Success(ToModel(feed))]
    ensures expired == [Success(EmptyFeed)]
    ensures older == [Success(EmptyFeed)]
  {
    CachePolicy.SevenDaysBack(now, expiration);
    var received;
    received, valid := LoadDeliversRetrieval(Found(feed, expiration + 1), now);
    received, expired := LoadDeliversRetrieval(Found(feed, expiration), now);
    received, older := LoadDeliversRetrieval(Found(feed, expiration - 1), now);
  }

  /**
   * `validateCache` deletes after a failed retrieval or an expired cache, and only then; after
   * an empty or valid cache the store has received the retrieval alone.
   */
  method ValidateCacheDeletesInvalidCache(retrieval: RetrieveCachedFeedResult, now: Date)
    returns (received: seq<ReceivedMessage>)
    ensures retrieval.Failed? || (retrieval.Found? && !CachePolicy.Validate(retrieval.timestamp, now)) ==>
              received == [Retrieve, DeleteCachedFeed]
    ensures retrieval.Empty? || (retrieval.Found? && CachePolicy.Validate(retrieval.timestamp, now)) ==>
              received == [Retrieve]
  {
    var clock := new Clock(now);
    var store := new FeedStoreSpy();
    var sut := new LocalFeedLoader(store, clock);
    sut.ValidateCache();
    store.CompleteRetrieval(retrieval, 0);
    received := store.receivedMessages;
  }

  /** Once the loader is gone, a load's retrieval delivers nothing and sends nothing more. */
  method LoadAfterRelease(retrieval: RetrieveCachedFeedResult, now: Date)
    returns (received: seq<ReceivedMessage>, results: seq<LoadResult>)
    ensures received == [Retrieve]
    ensures results == []
  {
    var clock := new Clock(now);
    var store := new FeedStoreSpy();
    var sut := new LocalFeedLoader(store, clock);
    var completion := new Completion<LoadResult>();
    sut.Load(completion);
    sut.Release();
    store.CompleteRetrieval(retrieval, 0);
    received, results := store.receivedMessages, completion.received;
  }

  /** Once the loader is gone, `validateCache`'s retrieval leads to no deletion, even on failure. */
  method ValidateCacheAfterRelease(retrieval: RetrieveCachedFeedResult, now: Date)
    returns (received: seq<ReceivedMessage>)
    ensures received == [Retrieve]
  {
    var clock := new Clock(now);
    var store := new FeedStoreSpy();
    var sut := new LocalFeedLoader(store, clock);
    sut.ValidateCache();
    sut.Release();
    store.CompleteRetrieval(retrieval, 0);
    received := store.receivedMessages;
  }

  /** Once the loader is gone, a save's deletion delivers nothing and leads to no insertion. */
  method SaveReleasedBeforeDeletion(item: IrradiancesFeed, now: Date, deletionResult: Option<Error>)
    returns (received: seq<ReceivedMessage>, results: seq<SaveResult>)
    ensures received == [DeleteCachedFeed]
    ensures results == []
  {
    var clock := new Clock(now);
    var store := new FeedStoreSpy();
    var sut := new LocalFeedLoader(store, clock);
    var completion := new Completion<SaveResult>();
    sut.Save(item, completion);
    sut.Release();
    store.CompleteDeletion(deletionResult, 0);
    received, results := store.receivedMessages, completion.received;
  }

  /** Once the loader is gone, a save's insertion delivers nothing. */
  method SaveReleasedBeforeInsertion(item: IrradiancesFeed, now: Date, insertionResult: Option<Error>)
    returns (received: seq<ReceivedMessage>, results: seq<SaveResult>)
    ensures received == [DeleteCachedFeed, Insert(ToLocal(item), now)]
    ensures results == []
  {
    var clock := new Clock(now);
    var store := new FeedStoreSpy();
    var sut := new LocalFeedLoader(store, clock);
    var completion := new Completion<SaveResult>();
    sut.Save(item, completion);
    store.CompleteDeletion(None, 0);
    sut.Release();
    store.CompleteInsertion(insertionResult, 0);
    received, results := store.receivedMessages, completion.received;
  }

  /**
   * Save, then load what the store was asked to insert, `elapsed` seconds later: the saved
   * feed comes back unchanged while the cache is valid, and the empty feed once seven days
   * have passed, when `validateCache` also deletes the entry.
   */
  method SaveThenLoad(item: IrradiancesFeed, now: Date, elapsed: nat)
    returns (loaded: seq<LoadResult>, validation: seq<ReceivedMessage>)
    requires item.geometry.Some? && item.properties.Some?
    requires CachePolicy.AddingDays(now, CachePolicy.MaxCacheAgeInDays).Some?
    ensures elapsed < 7 * 86400 ==> loaded == [Success(item)] && validation == [Retrieve]
    ensures elapsed >= 7 * 86400 ==> loaded == [Success(EmptyFeed)] && validation == [Retrieve, DeleteCachedFeed]
  {
    var beforeInsertion, saved, results := SaveInsertsAfterDeletion(item, now, None);
    var inserted := saved[1];
    var cached := Found(inserted.feed, inserted.timestamp);
    var received;
    received, loaded := LoadDeliversRetrieval(cached, now + elapsed);
    validation := ValidateCacheDeletesInvalidCache(cached, now + elapsed);
    ToModelToLocal(item);
  }
}
