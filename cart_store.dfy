/** The client cart store (`useCart`): one flat list of product ids and the
    three actions that replace it. */
module CartStore {
  import opened Seqs

  /** The list `addToCart(id)` installs: unchanged when `id` is already in
      the cart, otherwise `id` appended at the end. */
  function AddedItems(items: seq<string>, id: string): (r: seq<string>)
    ensures id in r
    ensures id in items ==> r == items
    ensures id !in items ==> |r| == |items| + 1 && r[..|items|] == items && r[|items|] == id
  {
    if id in items then items else items + [id]
  }

  /** The filter callback of `removeFromCart(id)`: keep every item but `id`. */
  function Other(id: string): string -> bool {
    item => item != id
  }

  /** The list `removeFromCart(id)` installs: every other item, in order. */
  function RemovedItems(items: seq<string>, id: string): (r: seq<string>)
    ensures id !in r
    ensures forall x :: x != id ==> (x in r <==> x in items)
  {
    Filter(items, Other(id))
  }

  /** The store itself: `cartItems` is the only state. */
  class Cart {
    var cartItems: seq<string>

    /** The cart starts empty. */
    constructor ()
      ensures cartItems == []
    {
      cartItems := [];
    }

    method AddToCart(id: string)
      modifies this
      ensures cartItems == AddedItems(old(cartItems), id)
      ensures NoDuplicates(old(cartItems)) ==> NoDuplicates(cartItems)
    {
      if id in cartItems {
        return;
      }
      cartItems := cartItems + [id];
    }

    method RemoveFromCart(id: string)
      modifies this
      ensures cartItems == RemovedItems(old(cartItems), id)
      ensures NoDuplicates(old(cartItems)) ==> NoDuplicates(cartItems)
    {
      if NoDuplicates(cartItems) {
        FilterNoDuplicates(cartItems, Other(id));
      }
      cartItems := Filter(cartItems, Other(id));
    }

    method ClearCart()
      modifies this
      ensures cartItems == []
    {
      cartItems := [];
    }
  }

  /** Adding an id twice is the same as adding it once. */
  lemma AddIdempotent(items: seq<string>, id: string)
    ensures AddedItems(AddedItems(items, id), id) == AddedItems(items, id)
  {
  }

  /** Adding keeps the cart free of duplicates. */
  lemma AddKeepsNoDuplicates(items: seq<string>, id: string)
    requires NoDuplicates(items)
    ensures NoDuplicates(AddedItems(items, id))
  {
  }

  /** Removing an id that is not in the cart changes nothing. */
  lemma RemoveAbsentIsNoOp(items: seq<string>, id: string)
    requires id !in items
    ensures RemovedItems(items, id) == items
  {
    FilterKeepsAll(items, Other(id));
  }

  /** Removing keeps the relative order of the other items: it distributes
      over any split of the list. */
  lemma RemoveKeepsOrder(a: seq<string>, b: seq<string>, id: string)
    ensures RemovedItems(a + b, id) == RemovedItems(a, id) + RemovedItems(b, id)
  {
    FilterConcat(a, b, Other(id));
  }

  /** For an id not in the cart, adding then removing it restores the list. */
  lemma AddThenRemoveRestores(items: seq<string>, id: string)
    requires id !in items
    ensures RemovedItems(AddedItems(items, id), id) == items
  {
    FilterConcat(items, [id], Other(id));
    FilterKeepsAll(items, Other(id));
  }
}
