/** `LocalStorageClient`: browser key-value storage behind an availability
    check. JSON encoding is an exact round trip, so an entry holds either
    an encoded value or text that does not parse. */
module StorageClient {
  import opened Wrappers

  /** The text stored under one key: the encoding of a value, or text that
      `JSON.parse` rejects (written by something else). */
  datatype Entry<V> = Encoded(value: V) | Unparseable

  class LocalStorageClient<V> {
    /** `isAvailable()`: a browser window with `localStorage` exists. */
    const available: bool
    /** The contents of `window.localStorage`. */
    var items: map<string, Entry<V>>

    /** A client over storage whose contents at page load are `items`. */
    constructor (available: bool, items: map<string, Entry<V>>)
      ensures this.available == available && this.items == items
    {
      this.available := available;
      this.items := items;
    }

    /** `get(key)`: the decoded value, or `null` when storage is unavailable,
        the key was never set, or the stored text does not parse. */
    function Get(key: string): (r: Option<V>)
      reads this
      ensures !available ==> r.None?
      ensures key !in items ==> r.None?
      ensures r.Some? <==> available && key in items && items[key].Encoded?
      ensures r.Some? ==> items[key] == Encoded(r.value)
    {
      if !available then None
      else if key !in items then None
      else match items[key]
        case Encoded(v) => Some(v)
        case Unparseable => None
    }

    /** `set(key, value)`: a no-op without storage; otherwise `key` now holds
        `value` and every other key is untouched. */
    method Set(key: string, value: V)
      modifies this
      ensures items == if available then old(items)[key := Encoded(value)] else old(items)
      ensures available ==> Get(key) == Some(value)
      ensures forall k :: k != key ==> Get(k) == old(Get(k))
    {
      if !available {
        return;
      }
      items := items[key := Encoded(value)];
    }

    /** `remove(key)`: a no-op without storage; otherwise `key` is gone and
        every other key is untouched. */
    method Remove(key: string)
      modifies this
      ensures items == if available then old(items) - {key} else old(items)
      ensures Get(key).None?
      ensures forall k :: k != key ==> Get(k) == old(Get(k))
    {
      if !available {
        return;
      }
      items := items - {key};
    }

    /** `clear()`: a no-op without storage; otherwise every key is gone. */
    method Clear()
      modifies this
      ensures items == if available then map[] else old(items)
      ensures forall k :: Get(k).None?
    {
      if !available {
        return;
      }
      items := map[];
    }
  }
}
