/**
 * Android's SharedPreferences, reduced to what the Hoccer code uses: named
 * string-to-string stores, read with a default and written through an editor.
 */
module Preferences {

  /** The state of one named preference store after a get-or-insert-default lookup. */
  datatype Lookup = Lookup(value: string, after: map<string, string>)

  /**
   * The lookup pattern shared by all preference getters: read `key` with `default`
   * as fallback and, when the value read equals `default`, store `default` under `key`.
   */
  function GetOrStoreDefault(store: map<string, string>, key: string, default: string): (l: Lookup)
    ensures key in store ==> l.value == store[key] && l.after == store
    ensures key !in store ==> l.value == default && l.after == store[key := default]
    ensures key in l.after && l.after[key] == l.value
    ensures forall k :: k != key ==> (k in l.after <==> k in store)
    ensures forall k :: k != key && k in store ==> l.after[k] == store[k]
  {
    var stored := if key in store then store[key] else default;
    if default == stored then Lookup(stored, store[key := default])
    else Lookup(stored, store)
  }

  /** A repeated lookup, whatever its default, returns the same value and leaves the store as it is. */
  lemma GetOrStoreDefaultIdempotent(store: map<string, string>, key: string, default: string, default': string)
    ensures var l := GetOrStoreDefault(store, key, default);
            GetOrStoreDefault(l.after, key, default') == l
  {
  }

  /** The preference stores of an Android context, by file name. */
  class Context {
    var files: map<string, map<string, string>>

    constructor (files: map<string, map<string, string>>)
      ensures this.files == files
    {
      this.files := files;
    }

    /** `getSharedPreferences(name, ...)`: a store that does not exist yet reads as empty. */
    function Store(name: string): map<string, string>
      reads this
    {
      if name in files then files[name] else map[]
    }

    /**
     * Reads `key` from store `name` with `default` as fallback, writing `default`
     * back when that is what was read. Only that store's `key` can change.
     */
    method GetStringOrStoreDefault(name: string, key: string, default: string) returns (value: string)
      modifies this
      ensures var l := GetOrStoreDefault(old(Store(name)), key, default);
              value == l.value && files == old(files)[name := l.after]
    {
      var prefs := Store(name);
      var stored := if key in prefs then prefs[key] else default;
      if default == stored {
        files := files[name := prefs[key := default]];
      }
      value := stored;
    }
  }
}
