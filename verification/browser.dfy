/** The two pieces of browser state the admin pages touch: `localStorage`,
    which holds the session (`token`, `user`, `role`), and the router. */
module Browser {
  import opened Wrappers

  /** What a handler asks the router to do. */
  datatype Navigation = Stay | GoBack | Push(route: string) | Replace(route: string)

  /** `!token` in a handler: a missing item and the empty string are both falsy. */
  predicate Present(item: Option<string>)
  {
    item.Some? && item.value != ""
  }

  class LocalStorage {
    var items: map<string, string>

    constructor()
      ensures items == map[]
    {
      items := map[];
    }

    /** `localStorage.getItem(key)`, None standing for `null`. */
    function Get(key: string): Option<string>
      reads this
    {
      if key in items then Some(items[key]) else None
    }

    method SetItem(key: string, value: string)
      modifies this
      ensures items == old(items)[key := value]
    {
      items := items[key := value];
    }

    method RemoveItem(key: string)
      modifies this
      ensures items == old(items) - {key}
    {
      items := items - {key};
    }
  }
}
