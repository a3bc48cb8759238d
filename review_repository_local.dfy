/** The browser-storage review repository: the reviews of each listing
    live under a key of their own, newest first. */
module ReviewRepositoryLocal {
  import opened Wrappers
  import opened Text
  import opened LocalRecords
  import opened StorageClient
  import PromptRepositoryLocal
  import PurchaseRepositoryLocal
  import SalesDataService

  const KEY_PREFIX := "reviews_"

  /** `getStorageKey(promptId)`: `reviews_${promptId}`. */
  function StorageKey(promptId: string): (r: string)
    ensures StartsWith(r, KEY_PREFIX)
    ensures r[|KEY_PREFIX|..] == promptId
  {
    KEY_PREFIX + promptId
  }

  /** Distinct listings get distinct keys. */
  lemma StorageKeyInjective(a: string, b: string)
    requires StorageKey(a) == StorageKey(b)
    ensures a == b
  {
    assert a == StorageKey(a)[|KEY_PREFIX|..];
  }

  /** No review key is the key of the listing list, the purchase history or
      the sales table. */
  lemma StorageKeyIsNotFixedKey(promptId: string)
    ensures StorageKey(promptId) != PromptRepositoryLocal.STORAGE_KEY
    ensures StorageKey(promptId) != PurchaseRepositoryLocal.STORAGE_KEY
    ensures StorageKey(promptId) != SalesDataService.STORAGE_KEY
  {
    var k := StorageKey(promptId);
    assert k[0] == 'r';
    assert PromptRepositoryLocal.STORAGE_KEY[0] == 'a';
    assert PurchaseRepositoryLocal.STORAGE_KEY[0] == 'p';
    assert SalesDataService.STORAGE_KEY[0] == 's';
  }

  /** `storageClient.get(key) || []`. */
  function StoredReviews(stored: Option<Value>): (r: seq<Review>)
    ensures stored.None? ==> r == []
    ensures stored.Some? && stored.value.ReviewList? ==> r == stored.value.reviews
  {
    match stored
    case Some(ReviewList(rs)) => rs
    case _ => []
  }

  class ReviewRepository {
    const storage: LocalStorageClient<Value>

    constructor (storage: LocalStorageClient<Value>)
      ensures this.storage == storage
    {
      this.storage := storage;
    }

    /** `getByPromptId(promptId)`: the stored reviews, or `[]` when none are stored. */
    function GetByPromptId(promptId: string): (r: seq<Review>)
      reads storage
      ensures storage.Get(StorageKey(promptId)).None? ==> r == []
    {
      StoredReviews(storage.Get(StorageKey(promptId)))
    }

    /** `create(promptId, review)`: the review goes first, the earlier reviews
        follow in their order; no other listing's reviews and no other key change. */
    method Create(promptId: string, review: Review)
      modifies storage
      ensures storage.available ==> GetByPromptId(promptId) == [review] + old(GetByPromptId(promptId))
      ensures storage.available ==> |GetByPromptId(promptId)| == |old(GetByPromptId(promptId))| + 1
      ensures !storage.available ==> storage.items == old(storage.items)
      ensures forall other :: other != promptId ==> GetByPromptId(other) == old(GetByPromptId(other))
      ensures forall k :: k != StorageKey(promptId) ==> storage.Get(k) == old(storage.Get(k))
    {
      var reviews := GetByPromptId(promptId);
      var updatedReviews := [review] + reviews;
      var key := StorageKey(promptId);
      storage.Set(key, ReviewList(updatedReviews));
      forall other | other != promptId
        ensures StorageKey(other) != key
      {
        if StorageKey(other) == key {
          StorageKeyInjective(other, promptId);
        }
      }
    }
  }
}
