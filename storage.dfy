/** Browser storage as the session and the theme use it: a map from the keys
    they write to the text stored under each, held by the one `localStorage`
    object both providers share. */
module Storage {
  import opened Wrappers

  /** The storage keys the application reads and writes:
      'id', 'name', 'profile_img', 'auth_token', 'max_age', 'user', 'theme'. */
  datatype Key = Id | Name | ProfileImg | AuthToken | MaxAge | UserKey | ThemeKey

  type Store = map<Key, string>

  /** `localStorage.getItem(key)`. */
  function Get(store: Store, key: Key): (r: Option<string>)
    ensures r.Some? <==> key in store
    ensures r.Some? ==> r.value == store[key]
  {
    if key in store then Some(store[key]) else None
  }

  /** The page's `localStorage`: one object that every provider reads and
      writes, so a `clear()` by one erases what the other stored. */
  class LocalStorage {
    var items: Store

    constructor (saved: Store)
      ensures items == saved
    {
      items := saved;
    }
  }
}
