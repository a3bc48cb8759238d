/** The browser-storage purchase repository: the whole purchase history
    lives under one key and every write replaces it. */
module PurchaseRepositoryLocal {
  import opened Wrappers
  import opened Seqs
  import opened LocalRecords
  import opened StorageClient

  const STORAGE_KEY := "purchases"

  /** The `find` callback `p => p.id === id`. */
  function HasId(id: string): Purchase -> bool {
    (p: Purchase) => p.id == id
  }

  /** `storageClient.get(STORAGE_KEY) || []`. */
  function StoredPurchases(stored: Option<Value>): (r: seq<Purchase>)
    ensures stored.None? ==> r == []
    ensures stored.Some? && stored.value.PurchaseList? ==> r == stored.value.purchases
  {
    match stored
    case Some(PurchaseList(ps)) => ps
    case _ => []
  }

  class PurchaseRepository {
    const storage: LocalStorageClient<Value>

    constructor (storage: LocalStorageClient<Value>)
      ensures this.storage == storage
    {
      this.storage := storage;
    }

    /** `getAll()`: the stored history, or `[]` when nothing is stored. */
    function GetAll(): (r: seq<Purchase>)
      reads storage
      ensures storage.Get(STORAGE_KEY).None? ==> r == []
    {
      StoredPurchases(storage.Get(STORAGE_KEY))
    }

    /** `getById(id)`: the first purchase with that id, or `null`. */
    function GetById(id: string): (r: Option<Purchase>)
      reads storage
      ensures r.None? <==> forall i :: 0 <= i < |GetAll()| ==> GetAll()[i].id != id
      ensures r.Some? ==> exists i :: 0 <= i < |GetAll()| && GetAll()[i] == r.value && r.value.id == id &&
                                      forall j :: 0 <= j < i ==> GetAll()[j].id != id
    {
      Find(GetAll(), HasId(id))
    }

    /** `saveAll(purchases)`: replaces the stored history; nothing else changes. */
    method SaveAll(purchases: seq<Purchase>)
      modifies storage
      ensures storage.items == if storage.available
                               then old(storage.items)[STORAGE_KEY := Encoded(PurchaseList(purchases))]
                               else old(storage.items)
      ensures storage.available ==> GetAll() == purchases
      ensures forall k :: k != STORAGE_KEY ==> storage.Get(k) == old(storage.Get(k))
    {
      storage.Set(STORAGE_KEY, PurchaseList(purchases));
    }

    /** `create(purchase)`: the purchase is appended after the stored ones and
        can then be found by its id. */
    method Create(purchase: Purchase)
      modifies storage
      ensures storage.available ==> GetAll() == old(GetAll()) + [purchase]
      ensures storage.available ==> GetById(purchase.id).Some?
      ensures !storage.available ==> storage.items == old(storage.items)
      ensures forall k :: k != STORAGE_KEY ==> storage.Get(k) == old(storage.Get(k))
    {
      var purchases := GetAll();
      purchases := purchases + [purchase];
      SaveAll(purchases);
      if storage.available {
        assert GetAll()[|GetAll()| - 1] == purchase;
      }
    }
  }

  /** Finding by id in a history that ends with `p` always finds something
      with `p`'s id, and finds an earlier purchase when one has that id. */
  lemma FindAfterAppend(ps: seq<Purchase>, p: Purchase)
    ensures Find(ps + [p], HasId(p.id)).Some?
    ensures Find(ps + [p], HasId(p.id)).value.id == p.id
    ensures Find(ps, HasId(p.id)).Some? ==> Find(ps + [p], HasId(p.id)) == Find(ps, HasId(p.id))
    ensures Find(ps, HasId(p.id)).None? ==> Find(ps + [p], HasId(p.id)) == Some(p)
  {
    var qs := ps + [p];
    assert qs[|ps|] == p;
    var k := FindIndex(ps, HasId(p.id));
    var k' := FindIndex(qs, HasId(p.id));
    if k == -1 {
      assert k' == |ps|;
    } else {
      assert qs[k] == ps[k];
      assert k' == k;
    }
  }
}
