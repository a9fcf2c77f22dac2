/** The browser's `localStorage`: one string-to-string store shared by every
    object of the page, updated in place. */
module Browser {
  import opened JsValues

  class LocalStorage {
    var items: map<string, string>

    constructor (items: map<string, string>)
      ensures this.items == items
    {
      this.items := items;
    }

    /** `localStorage.getItem(key)`: the stored text, or null. */
    function GetItem(key: string): (o: Option<string>)
      reads this
      ensures o.Some? <==> key in items
      ensures o.Some? ==> o.value == items[key]
    {
      if key in items then Some(items[key]) else None
    }
  }
}
