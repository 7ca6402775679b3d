/** The browser state the client reads and writes: `localStorage` (string
    keys to string values) and the current location (`window.location.href`).
    Assigning a new location reloads the page, which re-runs the whole client
    from its durable storage. */
module Web {

  class Browser {
    var storage: map<string, string>
    var href: string

    constructor (storage: map<string, string>, href: string)
      ensures this.storage == storage && this.href == href
    {
      this.storage := storage;
      this.href := href;
    }

    /** `localStorage.getItem(key)`, with "" standing for a missing key, which
        is falsy exactly as `null` is. */
    function GetItem(key: string): (v: string)
      reads this
      ensures key !in storage ==> v == ""
      ensures key in storage ==> v == storage[key]
    {
      if key in storage then storage[key] else ""
    }

    method SetItem(key: string, value: string)
      modifies this
      ensures storage == old(storage)[key := value] && href == old(href)
    {
      storage := storage[key := value];
    }

    method RemoveItem(key: string)
      modifies this
      ensures storage == old(storage) - {key} && href == old(href)
    {
      storage := storage - {key};
    }

    /** `localStorage.clear()` */
    method Clear()
      modifies this
      ensures storage == map[] && href == old(href)
    {
      storage := map[];
    }

    /** `window.location.href = target` */
    method Assign(target: string)
      modifies this
      ensures href == target && storage == old(storage)
    {
      href := target;
    }
  }
}
