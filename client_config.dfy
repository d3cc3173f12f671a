/**
 * AndroidClientConfig's three server-name lookups. Each reads one key of the
 * shared "com.artcom.hoccer_preferences" store and, when the key holds no value
 * (or holds the default), stores the built-in default under it.
 */
module ClientConfig {
  import opened Preferences

  const PREFERENCES_NAME: string := "com.artcom.hoccer_preferences"

  const SERVER_KEY: string := "hoccer_server"
  const DEFAULT_SERVER: string := "https://linccer.hoccer.com/v3"

  const FILECACHE_SERVER_KEY: string := "hoccer_filecache_server"
  const DEFAULT_FILECACHE_SERVER: string := "https://filecache.hoccer.com/v3"

  const HOCLET_SERVER_KEY: string := "hoccer_hoclet_server"
  const DEFAULT_HOCLET_SERVER: string := "https://hoclet-experimental.hoccer.com/v3"

  /** `store` and `store'` agree on `key`: both lack it, or both hold the same value. */
  predicate SameEntry(store: map<string, string>, store': map<string, string>, key: string)
  {
    (key in store <==> key in store') && (key in store ==> store[key] == store'[key])
  }

  /**
   * The three lookups use three different keys, so none of them disturbs the entry
   * another lookup reads: each keeps the other two keys' entries as they were.
   */
  lemma LookupsDoNotInterfere(store: map<string, string>)
    ensures var after := GetOrStoreDefault(store, SERVER_KEY, DEFAULT_SERVER).after;
            SameEntry(store, after, FILECACHE_SERVER_KEY) && SameEntry(store, after, HOCLET_SERVER_KEY)
    ensures var after := GetOrStoreDefault(store, FILECACHE_SERVER_KEY, DEFAULT_FILECACHE_SERVER).after;
            SameEntry(store, after, SERVER_KEY) && SameEntry(store, after, HOCLET_SERVER_KEY)
    ensures var after := GetOrStoreDefault(store, HOCLET_SERVER_KEY, DEFAULT_HOCLET_SERVER).after;
            SameEntry(store, after, SERVER_KEY) && SameEntry(store, after, FILECACHE_SERVER_KEY)
  {
    assert SERVER_KEY[7] != FILECACHE_SERVER_KEY[7];
    assert SERVER_KEY[7] != HOCLET_SERVER_KEY[7];
    assert FILECACHE_SERVER_KEY[7] != HOCLET_SERVER_KEY[7];
  }

  /** `getServerNameFromSharedPreferences` */
  method GetServerName(ctx: Context) returns (serverName: string)
    modifies ctx
    ensures var store := old(ctx.Store(PREFERENCES_NAME));
            SERVER_KEY in store ==> (serverName == store[SERVER_KEY] && ctx.files == old(ctx.files))
    ensures var store := old(ctx.Store(PREFERENCES_NAME));
            SERVER_KEY !in store ==>
              (serverName == DEFAULT_SERVER && ctx.files == old(ctx.files)[PREFERENCES_NAME := store[SERVER_KEY := DEFAULT_SERVER]])
  {
    serverName := ctx.GetStringOrStoreDefault(PREFERENCES_NAME, SERVER_KEY, DEFAULT_SERVER);
  }

  /** `getFileCacheServerNameFromSharedPreferences` */
  method GetFileCacheServerName(ctx: Context) returns (serverName: string)
    modifies ctx
    ensures var store := old(ctx.Store(PREFERENCES_NAME));
            FILECACHE_SERVER_KEY in store ==> (serverName == store[FILECACHE_SERVER_KEY] && ctx.files == old(ctx.files))
    ensures var store := old(ctx.Store(PREFERENCES_NAME));
            FILECACHE_SERVER_KEY !in store ==>
              (serverName == DEFAULT_FILECACHE_SERVER && ctx.files == old(ctx.files)[PREFERENCES_NAME := store[FILECACHE_SERVER_KEY := DEFAULT_FILECACHE_SERVER]])
  {
    serverName := ctx.GetStringOrStoreDefault(PREFERENCES_NAME, FILECACHE_SERVER_KEY, DEFAULT_FILECACHE_SERVER);
  }

  /** `getHocletServerNameFromSharedPreferences` */
  method GetHocletServerName(ctx: Context) returns (serverName: string)
    modifies ctx
    ensures var store := old(ctx.Store(PREFERENCES_NAME));
            HOCLET_SERVER_KEY in store ==> (serverName == store[HOCLET_SERVER_KEY] && ctx.files == old(ctx.files))
    ensures var store := old(ctx.Store(PREFERENCES_NAME));
            HOCLET_SERVER_KEY !in store ==>
              (serverName == DEFAULT_HOCLET_SERVER && ctx.files == old(ctx.files)[PREFERENCES_NAME := store[HOCLET_SERVER_KEY := DEFAULT_HOCLET_SERVER]])
  {
    serverName := ctx.GetStringOrStoreDefault(PREFERENCES_NAME, HOCLET_SERVER_KEY, DEFAULT_HOCLET_SERVER);
  }

  /**
   * Calling a lookup twice returns the same name both times and the second call
   * leaves every store as the first call left it.
   */
  method GetServerNameTwice(ctx: Context) returns (first: string, second: string)
    modifies ctx
    ensures first == second
    ensures ctx.files == old(ctx.files)[PREFERENCES_NAME := GetOrStoreDefault(old(ctx.Store(PREFERENCES_NAME)), SERVER_KEY, DEFAULT_SERVER).after]
  {
    first := GetServerName(ctx);
    ghost var between := ctx.files;
    second := GetServerName(ctx);
    assert ctx.files == between;
  }
}
