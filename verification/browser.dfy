/** The browser state the pages touch: `localStorage` (a map from key to
    string; a missing key reads as null) and the current location. */
module Browser {
  import opened Js

  type Storage = map<string, string>

  /** `localStorage.getItem(key)`. */
  function GetItem(st: Storage, key: string): (v: Option<string>)
    ensures v.Some? <==> key in st
    ensures v.Some? ==> v.value == st[key]
  {
    if key in st then Some(st[key]) else None
  }

  class Window {
    var storage: Storage
    var location: string

    constructor (st: Storage, at: string)
      ensures storage == st && location == at
    {
      storage, location := st, at;
    }

    /** `localStorage.setItem(key, value)`. */
    method SetItem(key: string, value: string)
      modifies this
      ensures storage == old(storage)[key := value]
      ensures location == old(location)
    {
      storage := storage[key := value];
    }

    /** `localStorage.removeItem(key)`; removing a missing key is a no-op. */
    method RemoveItem(key: string)
      modifies this
      ensures storage == old(storage) - {key}
      ensures location == old(location)
    {
      storage := storage - {key};
    }

    /** `window.location.href = path`, or the router's `navigate(path)`. */
    method Navigate(path: string)
      modifies this
      ensures location == path
      ensures storage == old(storage)
    {
      location := path;
    }
  }
}
