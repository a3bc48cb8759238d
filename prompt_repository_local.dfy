/** The browser-storage prompt repository: the whole listing list lives
    under one key and every write replaces it. */
module PromptRepositoryLocal {
  import opened Wrappers
  import opened Seqs
  import opened LocalRecords
  import opened StorageClient

  const STORAGE_KEY := "admin_prompts"

  /** The `find`/`findIndex`/`filter` callback `p => p.id === id`. */
  function HasId(id: string): Prompt -> bool {
    (p: Prompt) => p.id == id
  }

  /** The callback of `delete`: `p => p.id !== id`. */
  function LacksId(id: string): Prompt -> bool {
    (p: Prompt) => p.id != id
  }

  /** `storageClient.get(STORAGE_KEY) || []`. */
  function StoredPrompts(stored: Option<Value>): (r: seq<Prompt>)
    ensures stored.None? ==> r == []
    ensures stored.Some? && stored.value.PromptList? ==> r == stored.value.prompts
  {
    match stored
    case Some(PromptList(ps)) => ps
    case _ => []
  }

  class PromptRepository {
    const storage: LocalStorageClient<Value>

    constructor (storage: LocalStorageClient<Value>)
      ensures this.storage == storage
    {
      this.storage := storage;
    }

    /** `getAll()`: the stored list, or `[]` when nothing is stored. */
    function GetAll(): (r: seq<Prompt>)
      reads storage
      ensures storage.Get(STORAGE_KEY).None? ==> r == []
    {
      StoredPrompts(storage.Get(STORAGE_KEY))
    }

    /** `getById(id)`: the first listing with that id, or `null`. */
    function GetById(id: string): (r: Option<Prompt>)
      reads storage
      ensures r.None? <==> forall i :: 0 <= i < |GetAll()| ==> GetAll()[i].id != id
      ensures r.Some? ==> exists i :: 0 <= i < |GetAll()| && GetAll()[i] == r.value && r.value.id == id &&
                                      forall j :: 0 <= j < i ==> GetAll()[j].id != id
    {
      Find(GetAll(), HasId(id))
    }

    /** `saveAll(prompts)`: replaces the stored list; nothing else changes. */
    method SaveAll(prompts: seq<Prompt>)
      modifies storage
      ensures storage.items == if storage.available
                               then old(storage.items)[STORAGE_KEY := Encoded(PromptList(prompts))]
                               else old(storage.items)
      ensures storage.available ==> GetAll() == prompts
      ensures forall k :: k != STORAGE_KEY ==> storage.Get(k) == old(storage.Get(k))
    {
      storage.Set(STORAGE_KEY, PromptList(prompts));
    }

    /** `create(prompt)`: the listing is appended after the stored ones. */
    method Create(prompt: Prompt)
      modifies storage
      ensures storage.available ==> GetAll() == old(GetAll()) + [prompt]
      ensures !storage.available ==> storage.items == old(storage.items)
      ensures forall k :: k != STORAGE_KEY ==> storage.Get(k) == old(storage.Get(k))
    {
      var prompts := GetAll();
      prompts := prompts + [prompt];
      SaveAll(prompts);
    }

    /** `update(id, updates)`: without a listing of that id nothing is written;
        otherwise only the first such listing is replaced by its merge with
        `updates`. */
    method Update(id: string, updates: PromptPatch)
      modifies storage
      ensures var k := FindIndex(old(GetAll()), HasId(id));
              k == -1 ==> storage.items == old(storage.items)
      ensures var k := FindIndex(old(GetAll()), HasId(id));
              k != -1 && storage.available ==>
                GetAll() == old(GetAll())[k := Merge(old(GetAll())[k], updates)]
      ensures !storage.available ==> storage.items == old(storage.items)
      ensures forall k :: k != STORAGE_KEY ==> storage.Get(k) == old(storage.Get(k))
    {
      var prompts := GetAll();
      var index := FindIndex(prompts, HasId(id));
      if index != -1 {
        prompts := prompts[index := Merge(prompts[index], updates)];
        SaveAll(prompts);
      }
    }

    /** `delete(id)`: every listing with that id is dropped, the others keep
        their order. The list is written back even when nothing matched. */
    method Delete(id: string)
      modifies storage
      ensures storage.available ==> GetAll() == Filter(old(GetAll()), LacksId(id))
      ensures storage.available ==> forall p :: p in GetAll() <==> p in old(GetAll()) && p.id != id
      ensures !storage.available ==> storage.items == old(storage.items)
      ensures forall k :: k != STORAGE_KEY ==> storage.Get(k) == old(storage.Get(k))
    {
      var prompts := GetAll();
      var filtered := Filter(prompts, LacksId(id));
      SaveAll(filtered);
    }
  }

  /** An update through a matched index replaces that one listing and keeps
      every other listing and position. */
  lemma UpdateTouchesOnlyMatch(ps: seq<Prompt>, id: string, u: PromptPatch)
    requires FindIndex(ps, HasId(id)) != -1
    ensures var k := FindIndex(ps, HasId(id));
            var qs := ps[k := Merge(ps[k], u)];
            |qs| == |ps| && qs[k] == Merge(ps[k], u) &&
            (forall j :: 0 <= j < |ps| && j != k ==> qs[j] == ps[j]) &&
            (forall j :: 0 <= j < k ==> qs[j].id != id)
  {
  }

  /** Deleting an id that no listing has leaves the list as it is. */
  lemma DeleteAbsentIsNoOp(ps: seq<Prompt>, id: string)
    requires forall i :: 0 <= i < |ps| ==> ps[i].id != id
    ensures Filter(ps, LacksId(id)) == ps
  {
    FilterKeepsAll(ps, LacksId(id));
  }

  /** Deleting keeps the order of the remaining listings. */
  lemma DeleteKeepsOrder(a: seq<Prompt>, b: seq<Prompt>, id: string)
    ensures Filter(a + b, LacksId(id)) == Filter(a, LacksId(id)) + Filter(b, LacksId(id))
  {
    FilterConcat(a, b, LacksId(id));
  }
}
