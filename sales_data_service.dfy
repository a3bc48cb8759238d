/** The sales-figure service: one table of figures by listing id, kept in
    browser storage and filled with random figures the first time it is
    read empty. */
module SalesDataService {
  import opened Wrappers
  import opened LocalRecords
  import opened StorageClient

  const STORAGE_KEY := "sales_data"

  /** The `Math.random()` results drawn for one listing, and the ISO text of
      the sale time computed from the third draw and the clock. */
  datatype Draw = Draw(revenue: real, weekly: real, lastSale: string)

  /** `Math.random()` returns a value in [0, 1). */
  predicate ValidDraw(d: Draw) {
    0.0 <= d.revenue < 1.0 && 0.0 <= d.weekly < 1.0
  }

  predicate ValidDraws(draws: seq<Draw>) {
    forall i :: 0 <= i < |draws| ==> ValidDraw(draws[i])
  }

  /** The figures generated from one draw:
      `Math.floor(Math.random() * 500000)` and `Math.floor(Math.random() * 50)`. */
  function EntryFor(d: Draw): (e: SalesEntry)
    requires ValidDraw(d)
    ensures 0 <= e.monthlyRevenue < 500000
    ensures 0 <= e.weeklySales < 50
    ensures e.lastSale == Some(d.lastSale)
  {
    SalesEntry((d.revenue * 500000.0).Floor, (d.weekly * 50.0).Floor, Some(d.lastSale))
  }

  /** The figures generated for every listing in range, each in its range. */
  predicate InRange(data: SalesData) {
    forall id :: id in data ==>
      0 <= data[id].monthlyRevenue < 500000 && 0 <= data[id].weeklySales < 50
  }

  /** The ids of a listing list. */
  function Ids(prompts: seq<Prompt>): set<string> {
    set i | 0 <= i < |prompts| :: prompts[i].id
  }

  /** The ids of a non-empty list are those of all but its last listing,
      together with the last listing's id. */
  lemma IdsOfPrefix(prompts: seq<Prompt>)
    requires |prompts| > 0
    ensures Ids(prompts) == Ids(prompts[..|prompts| - 1]) + {prompts[|prompts| - 1].id}
  {
    var n := |prompts| - 1;
    forall x | x in Ids(prompts) ensures x in Ids(prompts[..n]) + {prompts[n].id} {
      var i :| 0 <= i < |prompts| && prompts[i].id == x;
      if i < n { assert prompts[..n][i] == prompts[i]; }
    }
    forall x | x in Ids(prompts[..n]) ensures x in Ids(prompts) {
      var i :| 0 <= i < n && prompts[..n][i].id == x;
      assert prompts[i] == prompts[..n][i];
    }
  }

  /** The table the `forEach` over `prompts` builds, one assignment per
      listing in order, so a later listing with the same id overwrites an
      earlier one: its keys are exactly the listing ids and every figure
      lies in its range. */
  function Generated(prompts: seq<Prompt>, draws: seq<Draw>): (r: SalesData)
    requires |draws| == |prompts| && ValidDraws(draws)
    ensures r.Keys == Ids(prompts)
    ensures InRange(r)
    decreases |prompts|
  {
    if |prompts| == 0 then map[]
    else
      var n := |prompts| - 1;
      IdsOfPrefix(prompts);
      Generated(prompts[..n], draws[..n])[prompts[n].id := EntryFor(draws[n])]
  }

  /** The entry for an id comes from the draw of the last listing with that id. */
  lemma {:induction false} GeneratedLastWins(prompts: seq<Prompt>, draws: seq<Draw>, i: nat)
    requires |draws| == |prompts| && ValidDraws(draws)
    requires i < |prompts|
    requires forall j :: i < j < |prompts| ==> prompts[j].id != prompts[i].id
    ensures prompts[i].id in Generated(prompts, draws)
    ensures Generated(prompts, draws)[prompts[i].id] == EntryFor(draws[i])
    decreases |prompts|
  {
    var n := |prompts| - 1;
    if i < n {
      forall j | i < j < n ensures prompts[..n][j].id != prompts[..n][i].id {
        assert prompts[..n][j] == prompts[j];
      }
      assert draws[..n][i] == draws[i];
      GeneratedLastWins(prompts[..n], draws[..n], i);
    }
  }

  /** `storageClient.get(STORAGE_KEY) || {}`. */
  function StoredSales(stored: Option<Value>): (r: SalesData)
    ensures stored.None? ==> r == map[]
    ensures stored.Some? && stored.value.SalesTable? ==> r == stored.value.sales
  {
    match stored
    case Some(SalesTable(d)) => d
    case _ => map[]
  }

  class SalesDataService {
    const storage: LocalStorageClient<Value>

    constructor (storage: LocalStorageClient<Value>)
      ensures this.storage == storage
    {
      this.storage := storage;
    }

    /** `getAll()`: the stored table, or `{}` when nothing is stored. */
    function GetAll(): (r: SalesData)
      reads storage
      ensures storage.Get(STORAGE_KEY).None? ==> r == map[]
    {
      StoredSales(storage.Get(STORAGE_KEY))
    }

    /** `saveAll(data)`: replaces the stored table; nothing else changes. */
    method SaveAll(data: SalesData)
      modifies storage
      ensures storage.items == if storage.available
                               then old(storage.items)[STORAGE_KEY := Encoded(SalesTable(data))]
                               else old(storage.items)
      ensures storage.available ==> GetAll() == data
      ensures forall k :: k != STORAGE_KEY ==> storage.Get(k) == old(storage.Get(k))
    {
      storage.Set(STORAGE_KEY, SalesTable(data));
    }

    /** `initializeForPrompts(prompts)`: fills a fresh table one listing at a
        time, stores it and returns it. `draws[i]` holds the random values
        drawn for `prompts[i]`. */
    method InitializeForPrompts(prompts: seq<Prompt>, draws: seq<Draw>) returns (salesData: SalesData)
      requires |draws| == |prompts| && ValidDraws(draws)
      modifies storage
      ensures salesData == Generated(prompts, draws)
      ensures salesData.Keys == Ids(prompts)
      ensures InRange(salesData)
      ensures storage.available ==> GetAll() == salesData
      ensures !storage.available ==> storage.items == old(storage.items)
      ensures forall k :: k != STORAGE_KEY ==> storage.Get(k) == old(storage.Get(k))
    {
      salesData := map[];
      var i := 0;
      while i < |prompts|
        invariant 0 <= i <= |prompts|
        invariant salesData == Generated(prompts[..i], draws[..i])
      {
        assert prompts[..i + 1][..i] == prompts[..i];
        assert draws[..i + 1][..i] == draws[..i];
        salesData := salesData[prompts[i].id := EntryFor(draws[i])];
        i := i + 1;
      }
      assert prompts[..i] == prompts && draws[..i] == draws;
      SaveAll(salesData);
    }

    /** `getOrInitialize(prompts)`: a non-empty stored table is returned as it
        is and nothing is written; an empty one is generated afresh. */
    method GetOrInitialize(prompts: seq<Prompt>, draws: seq<Draw>) returns (data: SalesData)
      requires |draws| == |prompts| && ValidDraws(draws)
      modifies storage
      ensures |old(GetAll())| != 0 ==> data == old(GetAll()) && storage.items == old(storage.items)
      ensures |old(GetAll())| == 0 ==> data == Generated(prompts, draws)
      ensures |old(GetAll())| == 0 && storage.available ==> GetAll() == data
      ensures forall k :: k != STORAGE_KEY ==> storage.Get(k) == old(storage.Get(k))
    {
      var existing := GetAll();
      if |existing| == 0 {
        data := InitializeForPrompts(prompts, draws);
        return;
      }
      data := existing;
    }
  }
}
