/**
 * `LocalFeedLoader`, the cache coordinator, driving a store double shaped like the tests'
 * `FeedStoreSpy`: the store logs each message it receives and keeps each completion it is
 * handed, and the environment later fires a completion by its index.
 *
 * The closures the loader hands to the store are the datatypes `DeletionCompletion`,
 * `InsertionCompletion` and `RetrievalCompletion`; firing one runs the loader method that holds
 * that closure's body. Those bodies start with the `[weak self]` guard, modelled by the
 * loader's `alive` flag. A caller's completion is a `Completion` object that logs what it receives.
 */
module FeedCache {
  import opened Wrappers
  import opened FeedModel
  import CachePolicy

  /** The injected `currentDate` function: it answers with whatever time the environment has set. */
  class Clock {
    var now: Date

    constructor (now: Date)
      ensures this.now == now
    {
      this.now := now;
    }

    method Advance(seconds: int)
      modifies this
      ensures now == old(now) + seconds
    {
      now := now + seconds;
    }
  }

  /** The instance form of the freshness rule, reading the injected clock. */
  class FeedCachePolicy {
    const currentDate: Clock
    const maxCacheAgeInDays: int := 7

    constructor (currentDate: Clock)
      ensures this.currentDate == currentDate
    {
      this.currentDate := currentDate;
    }

    /** `FeedCachePolicy.validate(_:)`: the same verdict as the static rule, taken at `currentDate()`. */
    function Validate(timestamp: Date): (valid: bool)
      reads currentDate
      ensures valid <==> CachePolicy.Validate(timestamp, currentDate.now)
    {
      match CachePolicy.AddingDays(timestamp, maxCacheAgeInDays)
      case None => false
      case Some(maxCacheAge) => currentDate.now < maxCacheAge
    }
  }

  /** What the store spy logs: `FeedStoreSpy.ReceivedIrradiances`. */
  datatype ReceivedMessage =
    | DeleteCachedFeed
    | Insert(feed: LocalIrradiancesFeed, timestamp: Date)
    | Retrieve

  /** What a retrieval completes with. */
  datatype RetrieveCachedFeedResult =
    | Failed(error: Error)
    | Empty
    | Found(feed: LocalIrradiancesFeed, timestamp: Date)

  /** `SaveResult`: nil on success. */
  type SaveResult = Option<Error>

  type LoadResult = Result<IrradiancesFeed, Error>

  /** A caller's completion handler: it records every result it is called with. */
  class Completion<T> {
    var received: seq<T>

    constructor ()
      ensures received == []
    {
      received := [];
    }

    method Call(result: T)
      modifies this
      ensures received == old(received) + [result]
    {
      received := received + [result];
    }
  }

  /** The closures handed to `deleteCachedFeed`. */
  datatype DeletionCompletion =
    | SaveAfterDeletion(loader: LocalFeedLoader, item: IrradiancesFeed, completion: Completion<SaveResult>)
    | IgnoreDeletion
  {
    function Completions(): set<object> {
      if SaveAfterDeletion? then {completion} else {}
    }
  }

  /** The closure handed to `insert`. */
  datatype InsertionCompletion =
    | ReportInsertion(loader: LocalFeedLoader, completion: Completion<SaveResult>)
  {
    function Completions(): set<object> {
      {completion}
    }
  }

  /** The closures handed to `retrieve`. */
  datatype RetrievalCompletion =
    | LoadAfterRetrieval(loader: LocalFeedLoader, completion: Completion<LoadResult>)
    | ValidateAfterRetrieval(loader: LocalFeedLoader)
  {
    function Completions(): set<object> {
      if LoadAfterRetrieval? then {completion} else {}
    }
  }

  /** The store double: a log of received messages and the pending completions, in arrival order. */
  class FeedStoreSpy {
    var receivedMessages: seq<ReceivedMessage>
    var deletionCompletions: seq<DeletionCompletion>
    var insertionCompletions: seq<InsertionCompletion>
    var retrievalCompletions: seq<RetrievalCompletion>

    /** Every pending completion belongs to a well-formed loader that drives this store. */
    ghost predicate Valid()
      reads this
    {
      && (forall c <- deletionCompletions :: c.SaveAfterDeletion? ==> c.loader.store == this && c.loader.Valid())
      && (forall c <- insertionCompletions :: c.loader.store == this && c.loader.Valid())
      && (forall c <- retrievalCompletions :: c.loader.store == this && c.loader.Valid())
    }

    constructor ()
      ensures Valid()
      ensures receivedMessages == [] && deletionCompletions == []
      ensures insertionCompletions == [] && retrievalCompletions == []
    {
      receivedMessages, deletionCompletions := [], [];
      insertionCompletions, retrievalCompletions := [], [];
    }

    method DeleteCachedFeed(completion: DeletionCompletion)
      modifies this
      ensures receivedMessages == old(receivedMessages) + [ReceivedMessage.DeleteCachedFeed]
      ensures deletionCompletions == old(deletionCompletions) + [completion]
      ensures insertionCompletions == old(insertionCompletions)
      ensures retrievalCompletions == old(retrievalCompletions)
    {
      deletionCompletions := deletionCompletions + [completion];
      receivedMessages := receivedMessages + [ReceivedMessage.DeleteCachedFeed];
    }

    method Insert(feed: LocalIrradiancesFeed, timestamp: Date, completion: InsertionCompletion)
      modifies this
      ensures receivedMessages == old(receivedMessages) + [ReceivedMessage.Insert(feed, timestamp)]
      ensures insertionCompletions == old(insertionCompletions) + [completion]
      ensures deletionCompletions == old(deletionCompletions)
      ensures retrievalCompletions == old(retrievalCompletions)
    {
      insertionCompletions := insertionCompletions + [completion];
      receivedMessages := receivedMessages + [ReceivedMessage.Insert(feed, timestamp)];
    }

    method Retrieve(completion: RetrievalCompletion)
      modifies this
      ensures receivedMessages == old(receivedMessages) + [ReceivedMessage.Retrieve]
      ensures retrievalCompletions == old(retrievalCompletions) + [completion]
      ensures deletionCompletions == old(deletionCompletions)
      ensures insertionCompletions == old(insertionCompletions)
    {
      retrievalCompletions := retrievalCompletions + [completion];
      receivedMessages := receivedMessages + [ReceivedMessage.Retrieve];
    }

    /** `completeDeletion(with:at:)` (`error` present) and `completeDeletionSuccessfully(at:)` (`error` nil). */
    method CompleteDeletion(error: Option<Error>, index: nat)
      requires Valid() && index < |deletionCompletions|
      modifies this, deletionCompletions[index].Completions()
      ensures Valid()
      ensures deletionCompletions == old(deletionCompletions)
      ensures retrievalCompletions == old(retrievalCompletions)
      ensures var c := deletionCompletions[index];
              c.IgnoreDeletion? || !c.loader.alive || error.Some? ==>
                receivedMessages == old(receivedMessages) && insertionCompletions == old(insertionCompletions)
      ensures var c := deletionCompletions[index];
              c.SaveAfterDeletion? && !c.loader.alive ==> c.completion.received == old(c.completion.received)
      ensures var c := deletionCompletions[index];
              c.SaveAfterDeletion? && c.loader.alive && error.Some? ==>
                c.completion.received == old(c.completion.received) + [error]
      ensures var c := deletionCompletions[index];
              c.SaveAfterDeletion? && c.loader.alive && error.None? ==>
                && c.completion.received == old(c.completion.received)
                && receivedMessages == old(receivedMessages) + [ReceivedMessage.Insert(ToLocal(c.item), c.loader.currentDate.now)]
                && insertionCompletions == old(insertionCompletions) + [ReportInsertion(c.loader, c.completion)]
    {
      match deletionCompletions[index] {
        case IgnoreDeletion =>
        case SaveAfterDeletion(loader, item, completion) =>
          loader.DeletionCompleted(item, completion, error);
      }
    }

    /** `completeInsertion(with:at:)` (`error` present) and `completeInsertionSuccessfully(at:)` (`error` nil). */
    method CompleteInsertion(error: Option<Error>, index: nat)
      requires Valid() && index < |insertionCompletions|
      modifies insertionCompletions[index].Completions()
      ensures var c := insertionCompletions[index];
              c.loader.alive ==> c.completion.received == old(c.completion.received) + [error]
      ensures var c := insertionCompletions[index];
              !c.loader.alive ==> c.completion.received == old(c.completion.received)
    {
      var c := insertionCompletions[index];
      c.loader.InsertionCompleted(c.completion, error);
    }

    /** `completeRetrieval(with:at:)`, `completeRetrievalWithEmptyCache(at:)` and `completeRetrieval(with:timestamp:at:)`. */
    method CompleteRetrieval(result: RetrieveCachedFeedResult, index: nat)
      requires Valid() && index < |retrievalCompletions|
      modifies this, retrievalCompletions[index].Completions()
      ensures Valid()
      ensures retrievalCompletions == old(retrievalCompletions)
      ensures insertionCompletions == old(insertionCompletions)
      ensures var c := retrievalCompletions[index];
              c.LoadAfterRetrieval? || !c.loader.alive ==>
                receivedMessages == old(receivedMessages) && deletionCompletions == old(deletionCompletions)
      ensures var c := retrievalCompletions[index];
              c.LoadAfterRetrieval? ==> c.completion.received == old(c.completion.received) + c.loader.Delivered(result)
      ensures var c := retrievalCompletions[index];
              c.ValidateAfterRetrieval? && c.loader.alive ==>
                if c.loader.Invalidates(result) then
                  && receivedMessages == old(receivedMessages) + [ReceivedMessage.DeleteCachedFeed]
                  && deletionCompletions == old(deletionCompletions) + [IgnoreDeletion]
                else
                  && receivedMessages == old(receivedMessages)
                  && deletionCompletions == old(deletionCompletions)
    {
      match retrievalCompletions[index] {
        case LoadAfterRetrieval(loader, completion) =>
          loader.LoadRetrievalCompleted(completion, result);
        case ValidateAfterRetrieval(loader) =>
          loader.ValidationRetrievalCompleted(result);
      }
    }
  }

  class LocalFeedLoader {
    const store: FeedStoreSpy
    const currentDate: Clock
    const cachePolicy: FeedCachePolicy
    /** False once the loader's owner has let go of it: every `[weak self]` then finds nil. */
    var alive: bool

    /** The policy reads the loader's own clock. */
    ghost predicate Valid() {
      cachePolicy.currentDate == currentDate
    }

    /** `init(store:currentDate:)`: sends nothing to the store. */
    constructor (store: FeedStoreSpy, currentDate: Clock)
      ensures this.store == store && this.currentDate == currentDate
      ensures Valid() && alive
      ensures store.receivedMessages == old(store.receivedMessages)
    {
      this.store := store;
      this.currentDate := currentDate;
      this.cachePolicy := new FeedCachePolicy(currentDate);
      this.alive := true;
    }

    /** The owner drops its last strong reference (`sut = nil`). */
    method Release()
      modifies this
      ensures !alive
    {
      alive := false;
    }

    /** True when the `load` retrieved `result` delivers the cached feed (lines 96-97). */
    ghost predicate Delivers(result: RetrieveCachedFeedResult)
      reads currentDate
    {
      result.Found? && CachePolicy.Validate(result.timestamp, currentDate.now)
    }

    /** What the caller of `load` receives once the retrieval completes with `result`: nothing once released. */
    ghost function Delivered(result: RetrieveCachedFeedResult): (r: seq<LoadResult>)
      reads this, currentDate
    {
      if !alive then []
      else match result
        case Failed(error) => [Failure(error)]
        case Found(feed, timestamp) =>
          if CachePolicy.Validate(timestamp, currentDate.now) then [Success(ToModel(feed))] else [Success(EmptyFeed)]
        case Empty => [Success(EmptyFeed)]
    }

    /** True when `validateCache` deletes after a retrieval that completed with `result`. */
    ghost predicate Invalidates(result: RetrieveCachedFeedResult)
      reads currentDate
    {
      result.Failed? || (result.Found? && !CachePolicy.Validate(result.timestamp, currentDate.now))
    }

    /** `save(_:completion:)`: first and only a deletion request. */
    method Save(item: IrradiancesFeed, completion: Completion<SaveResult>)
      requires alive && Valid() && store.Valid()
      modifies store
      ensures store.Valid()
      ensures store.receivedMessages == old(store.receivedMessages) + [ReceivedMessage.DeleteCachedFeed]
      ensures store.deletionCompletions == old(store.deletionCompletions) + [SaveAfterDeletion(this, item, completion)]
      ensures store.insertionCompletions == old(store.insertionCompletions)
      ensures store.retrievalCompletions == old(store.retrievalCompletions)
    {
      store.DeleteCachedFeed(SaveAfterDeletion(this, item, completion));
    }

    /**
     * The deletion closure of `save`: a failed deletion is the save's result and nothing is
     * inserted; a successful one leads to the insertion.
     */
    method DeletionCompleted(item: IrradiancesFeed, completion: Completion<SaveResult>, error: Option<Error>)
      requires Valid() && store.Valid()
      modifies store, completion
      ensures store.Valid()
      ensures store.deletionCompletions == old(store.deletionCompletions)
      ensures store.retrievalCompletions == old(store.retrievalCompletions)
      ensures !alive || error.Some? ==>
                && store.receivedMessages == old(store.receivedMessages)
                && store.insertionCompletions == old(store.insertionCompletions)
      ensures !alive ==> completion.received == old(completion.received)
      ensures alive && error.Some? ==> completion.received == old(completion.received) + [error]
      ensures alive && error.None? ==>
                && completion.received == old(completion.received)
                && store.receivedMessages == old(store.receivedMessages) + [ReceivedMessage.Insert(ToLocal(item), currentDate.now)]
                && store.insertionCompletions == old(store.insertionCompletions) + [ReportInsertion(this, completion)]
    {
      if !alive {
        return;
      }
      if error.Some? {
        completion.Call(error);
      } else {
        Cache(item, completion);
      }
    }

    /** `cache(_:with:)`: inserts the feed's stored form, stamped with `currentDate()`. */
    method Cache(item: IrradiancesFeed, completion: Completion<SaveResult>)
      requires Valid() && store.Valid()
      modifies store
      ensures store.Valid()
      ensures store.receivedMessages == old(store.receivedMessages) + [ReceivedMessage.Insert(ToLocal(item), currentDate.now)]
      ensures store.insertionCompletions == old(store.insertionCompletions) + [ReportInsertion(this, completion)]
      ensures store.deletionCompletions == old(store.deletionCompletions)
      ensures store.retrievalCompletions == old(store.retrievalCompletions)
    {
      store.Insert(ToLocal(item), currentDate.now, ReportInsertion(this, completion));
    }

    /** The insertion closure of `cache`: the insertion's outcome is the save's result. */
    method InsertionCompleted(completion: Completion<SaveResult>, error: Option<Error>)
      modifies completion
      ensures alive ==> completion.received == old(completion.received) + [error]
      ensures !alive ==> completion.received == old(completion.received)
    {
      if alive {
        completion.Call(error);
      }
    }

    /** `load(completion:)`: one retrieval request and nothing else. */
    method Load(completion: Completion<LoadResult>)
      requires alive && Valid() && store.Valid()
      modifies store
      ensures store.Valid()
      ensures store.receivedMessages == old(store.receivedMessages) + [ReceivedMessage.Retrieve]
      ensures store.retrievalCompletions == old(store.retrievalCompletions) + [LoadAfterRetrieval(this, completion)]
      ensures store.deletionCompletions == old(store.deletionCompletions)
      ensures store.insertionCompletions == old(store.insertionCompletions)
    {
      store.Retrieve(LoadAfterRetrieval(this, completion));
    }

    /**
     * The retrieval closure of `load`: a failure is passed on, a valid cache is delivered as
     * the domain feed, and an empty or expired one as the empty feed. It sends the store nothing.
     */
    method LoadRetrievalCompleted(completion: Completion<LoadResult>, result: RetrieveCachedFeedResult)
      requires Valid()
      modifies completion
      ensures completion.received == old(completion.received) + Delivered(result)
      ensures alive ==> |Delivered(result)| == 1
      ensures alive && result.Failed? ==> Delivered(result) == [Failure(result.error)]
      ensures alive && Delivers(result) ==> Delivered(result) == [Success(ToModel(result.feed))]
      ensures alive && !result.Failed? && !Delivers(result) ==> Delivered(result) == [Success(EmptyFeed)]
    {
      if !alive {
        return;
      }
      match result {
        case Failed(error) =>
          completion.Call(Failure(error));
        case Found(feed, timestamp) =>
          if cachePolicy.Validate(timestamp) {
            completion.Call(Success(ToModel(feed)));
          } else {
            completion.Call(Success(EmptyFeed));
          }
        case Empty =>
          completion.Call(Success(EmptyFeed));
      }
    }

    /** `validateCache()`: one retrieval request. */
    method ValidateCache()
      requires alive && Valid() && store.Valid()
      modifies store
      ensures store.Valid()
      ensures store.receivedMessages == old(store.receivedMessages) + [ReceivedMessage.Retrieve]
      ensures store.retrievalCompletions == old(store.retrievalCompletions) + [ValidateAfterRetrieval(this)]
      ensures store.deletionCompletions == old(store.deletionCompletions)
      ensures store.insertionCompletions == old(store.insertionCompletions)
    {
      store.Retrieve(ValidateAfterRetrieval(this));
    }

    /**
     * The retrieval closure of `validateCache`: a failed retrieval or an expired cache leads to
     * one deletion whose outcome is ignored; an empty or valid cache to nothing.
     */
    method ValidationRetrievalCompleted(result: RetrieveCachedFeedResult)
      requires Valid() && store.Valid()
      modifies store
      ensures store.Valid()
      ensures store.insertionCompletions == old(store.insertionCompletions)
      ensures store.retrievalCompletions == old(store.retrievalCompletions)
      ensures alive && Invalidates(result) ==>
                && store.receivedMessages == old(store.receivedMessages) + [ReceivedMessage.DeleteCachedFeed]
                && store.deletionCompletions == old(store.deletionCompletions) + [IgnoreDeletion]
      ensures !alive || !Invalidates(result) ==>
                && store.receivedMessages == old(store.receivedMessages)
                && store.deletionCompletions == old(store.deletionCompletions)
    {
      if !alive {
        return;
      }
      match result {
        case Failed(_) =>
          store.DeleteCachedFeed(IgnoreDeletion);
        case Found(_, timestamp) =>
          if !cachePolicy.Validate(timestamp) {
            store.DeleteCachedFeed(IgnoreDeletion);
          }
        case Empty =>
      }
    }
  }
}
