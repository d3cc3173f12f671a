# Hoccer Android API: peer discovery and small rules, modelled in Dafny

This project models the Android side of the Hoccer/Linccer client API. Its main
component is `LocalDiscovery`. That class announces this client over mDNS/DNS-SD and
keeps the set of peer IDs that the zero-configuration provider reports. Whenever that
set changes, it notifies the registered listeners. Beside it the project models the
small pure rules of the other core classes:

- how `LinccLocationManager` trims an address line and names its mDNS record;
- how `AsyncLinccer` turns share and receive outcomes into handler message codes;
- the BSSID list built from Wi-Fi scan results;
- the persisted client UUID;
- the server-name preference lookups of `AndroidClientConfig`;
- the level-to-priority mapping of `AndroidLogHandler`;
- both versions of `AndroidStreamableContent`.

Files and modules:

| file | module | models |
|---|---|---|
| wrappers.dfy | `Wrappers` | Java null (`Option`) and thrown exceptions (`Result`) |
| zeroconf.dfy | `ZeroConf` | the mDNS record, its service-type string, and the calls the provider receives |
| local_discovery.dfy | `Discovery` | `LocalDiscovery`: record classification, the peer-set rules, listener fan-out, and the `LocalDiscovery` class |
| lincc_location_manager.dfy | `LocationManager` | `trimAddress` and the mDNS part of `LinccLocationManager` |
| async_linccer.dfy | `Linccer` | `AsyncLinccer` message codes, Wi-Fi scan mapping, client UUID |
| preferences.dfy | `Preferences` | the SharedPreferences stores of a context, and the get-or-store-default lookup they share |
| client_config.dfy | `ClientConfig` | the three `AndroidClientConfig` server-name lookups |
| log_handler.dfy | `LogHandler` | `AndroidLogHandler.publish` |
| content.dfy | `Content` | URI, resolver and exception types shared by both content versions |
| guarded_streamable_content.dfy | `GuardedStreamableContent` | `src/main/java/.../AndroidStreamableContent.java` |
| unguarded_streamable_content.dfy | `UnguardedStreamableContent` | `src/com/.../AndroidStreamableContent.java` |

How the model represents the source:

- **Provider.** The zero-configuration provider is a sink. Each class keeps `providerCalls`, the sequence of calls the provider has received.
- **Listeners.** A listener is an opaque handle. A callback that ends in notification takes the set of listeners that throw on this round as a parameter. Every invocation is recorded in `notifications`: which listener, which copy of the peer set, and whether it threw.
- **Atomic steps.** Each method body is one atomic step.
- **Inputs.** Random UUIDs, the client name held by the linccer, the superclass's content type and the outcome of the network calls `share` and `receive` are all parameters.

Behaviour modelled as written, where it differs from what one might expect:

- The self-check in `extractId` compares against the `id` property set by the most recent `publishAnnouncement`, not against the record's client key. Before the first publish there is no such property, so every `id` counts as a peer (`Discovery.ExtractIdBeforePublish`).
- An ID that was already visible as a peer before this client published that same ID cannot leave the peer set while it stays our published ID. Both callbacks then classify it as "self" (`Discovery.ReplayKeepsOwnId` proves both directions for a fixed record). A later `publishAnnouncement` with a different ID releases it, and a removal callback carrying it then takes it out (`Discovery.RepublishReleasesId`).
- `publishAnnouncement` and `revokeAnnouncement` call the provider directly; the class keeps no announcement state of its own.
- `ZeroConf.ServiceTypeInjective` and the lemmas it rests on prove a property of the service-type string alone: with dot-free application and protocol names, distinct application, protocol or domain names give distinct types. No code in this core reads a record's type or filters records by it; `extractId` looks only at the `id` property.
- `getVisibleIds` returns `Collections.unmodifiableCollection(mVisibleIds)`. That is a read-only live view, not a copy. The model returns the current set value.
- The get-or-store-default lookups write the default back whenever the value read equals the default. That includes a stored value that happens to equal it. Such a write changes nothing, and the contracts state the resulting store.
- `asyncShare`/`asyncReceive` catch `Exception`, not `Throwable`. A thrown `java.lang.Error` therefore ends the worker thread after SEARCHING, with no final message (`Linccer.FinalMessage`).
- `isFileSchemeUri` dereferences the data URI without a check in both versions. With no URI set it throws a NullPointerException.
- The two `AndroidStreamableContent` versions differ:
  - the src/main/java version rejects a null resolver;
  - it checks for a URI before every stream or length call;
  - it prefers the superclass's content type over the resolver's;
  - the src/com version does none of these checks, and prefers the resolver's type over its stored `mContentType`;
  - in the src/com version, `getStreamLength` logs a missing URI and then passes it to the resolver anyway.

## Model

| member | source | states |
|---|---|---|
| `ZeroConf.NewRecord` | src/com/hoccer/api/android/LocalDiscovery.java:61-68 | a prepared record has domain "local", protocol "tcp", application "hoccer", service type "_hoccer._tcp.local.", the given port and client key, no name and no properties |
| `ZeroConf.ServiceType` | src/com/hoccer/api/android/LocalDiscovery.java:67 | the type string is "_", the application name, "._", the protocol name, ".", the domain name and a final ".", each at its fixed position; its length is the three names' lengths plus the five separator characters (the same expression is at LinccLocationManager.java:80) |
| `ZeroConf.ServiceTypeInjective` | src/com/hoccer/api/android/LinccLocationManager.java:77-80 | with dot-free application and protocol names, two service types are equal exactly when application, protocol and domain agree |
| `Discovery.ExtractId` | src/com/hoccer/api/android/LocalDiscovery.java:186-204 | no `id` property gives null; an `id` equal to our own record's `id` property gives null; any other `id` is returned |
| `Discovery.ExtractIdIsNeverOwn` | src/com/hoccer/api/android/LocalDiscovery.java:196-201 | once our record carries an `id`, classification never yields that `id` |
| `Discovery.ExtractIdBeforePublish` | src/com/hoccer/api/android/LocalDiscovery.java:196-197 | before our record has an `id`, every record's `id` is returned as a peer |
| `Discovery.Sighted` | src/com/hoccer/api/android/LocalDiscovery.java:255-266 | the changed flag is set exactly when the peer set actually changed |
| `Discovery.Vanished` | src/com/hoccer/api/android/LocalDiscovery.java:282-293 | the changed flag is set exactly when the peer set actually changed |
| `Discovery.SightedNewPeer` | src/com/hoccer/api/android/LocalDiscovery.java:261-265 | a peer ID not yet visible is added, exactly it, and a change is reported |
| `Discovery.SightedNoChange` | src/com/hoccer/api/android/LocalDiscovery.java:255-266 | a null ID or an already visible ID leaves the set unchanged and reports no change |
| `Discovery.SightedIdempotent` | src/com/hoccer/api/android/LocalDiscovery.java:259-266 | a second sighting of the same ID changes nothing and reports no change |
| `Discovery.VanishedFrame` | src/com/hoccer/api/android/LocalDiscovery.java:286-293 | removal leaves every other ID's membership as it was, and the removed ID is absent afterwards |
| `Discovery.VanishedUndoesSighted` | src/com/hoccer/api/android/LocalDiscovery.java:255-293 | removing a peer just sighted for the first time restores the previous set, with a change reported |
| `Discovery.ReplayKeepsOwnId` | src/com/hoccer/api/android/LocalDiscovery.java:186-204 | after any sequence of provider callbacks, while our record stays the same, our published `id` is in the peer set exactly when it was before |
| `Discovery.RepublishReleasesId` | src/com/hoccer/api/android/LocalDiscovery.java:196-200 | a visible ID that is no longer our published `id` is removed by a removal callback carrying it, which reports a change |
| `Discovery.ReplayAppend` | src/com/hoccer/api/android/LocalDiscovery.java:244-300 | delivering a sequence and then one more callback is delivering that callback to the set the sequence left, so successive callbacks compose into one `Replay` |
| `Discovery.ReplayOnlyAddsSightedIds` | src/com/hoccer/api/android/LocalDiscovery.java:244-300 | every ID in the peer set after a sequence of callbacks was visible already or is the `id` of some record reported as updated |
| `Discovery.LocalDiscovery.constructor` | src/com/hoccer/api/android/LocalDiscovery.java:51-69 | no peers, no listeners, the listener registered with the provider, and the record prepared with port 0 and the given client key |
| `Discovery.LocalDiscovery.PublishAnnouncement` | src/com/hoccer/api/android/LocalDiscovery.java:82-98 | the record gets the name and `id` property, and exactly one register call with the updated record follows; peers and listeners are untouched |
| `Discovery.LocalDiscovery.RevokeAnnouncement` | src/com/hoccer/api/android/LocalDiscovery.java:103-111 | exactly one unregister call for our client key |
| `Discovery.LocalDiscovery.Connect` | src/com/hoccer/api/android/LocalDiscovery.java:117-125 | exactly one connect call |
| `Discovery.LocalDiscovery.Disconnect` | src/com/hoccer/api/android/LocalDiscovery.java:130-138 | exactly one disconnect call |
| `Discovery.LocalDiscovery.GetVisibleIds` | src/com/hoccer/api/android/LocalDiscovery.java:141-147 | returns the current peer set |
| `Discovery.LocalDiscovery.AddListener` | src/com/hoccer/api/android/LocalDiscovery.java:150-156 | the registry gains the listener; adding one already present changes nothing |
| `Discovery.LocalDiscovery.RemoveListener` | src/com/hoccer/api/android/LocalDiscovery.java:159-165 | the registry loses the listener; removing an absent one changes nothing |
| `Discovery.LocalDiscovery.NotifyVisiblePeersChanged` | src/com/hoccer/api/android/LocalDiscovery.java:209-231 | every registered listener is called exactly once, each with the same copy of the peer set; throwing listeners do not stop the rest; earlier notifications are kept |
| `Discovery.LocalDiscovery.ServiceUpdated` | src/com/hoccer/api/android/LocalDiscovery.java:244-273 | the peer set becomes `Sighted` of the classified ID; listeners are notified once when it changed and not at all otherwise; our own published `id` neither enters nor leaves; the new set is `Replay` of the single `Updated` callback |
| `Discovery.LocalDiscovery.ServiceRemoved` | src/com/hoccer/api/android/LocalDiscovery.java:276-300 | the peer set becomes `Vanished` of the classified ID; listeners are notified once when it changed and not at all otherwise; our own published `id` neither enters nor leaves; the new set is `Replay` of the single `Removed` callback |
| `LocationManager.TrimAddress` | src/com/hoccer/api/android/LinccLocationManager.java:224-232 | a line of fewer than 27 characters is unchanged; a longer one becomes its first 18 characters, "..." and its last 5 characters, 26 characters in all |
| `LocationManager.TrimAddressIdempotent` | src/com/hoccer/api/android/LinccLocationManager.java:224-232 | trimming a trimmed line changes nothing |
| `LocationManager.LinccLocationManager.constructor` | src/com/hoccer/api/android/LinccLocationManager.java:74-84 | the record has type "_hoccer._tcp.local." and port 8033, and the listener is registered with the provider |
| `LocationManager.LinccLocationManager.ConnectedToService` | src/com/hoccer/api/android/LinccLocationManager.java:214-220 | the record is named "Hoccer Client " + client name, then exactly one register call with it follows |
| `LocationManager.LinccLocationManager.ServiceUpdated` | src/com/hoccer/api/android/LinccLocationManager.java:210-212 | no state changes |
| `LocationManager.LinccLocationManager.ServiceRemoved` | src/com/hoccer/api/android/LinccLocationManager.java:206-208 | no state changes |
| `Linccer.MessageCodesDistinct` | src/com/hoccer/api/android/AsyncLinccer.java:56-66 | the nine codes are pairwise distinct; result codes are non-negative and error codes negative |
| `Linccer.FinalMessage` | src/com/hoccer/api/android/AsyncLinccer.java:76-102 | non-null result gives SHARED/RECEIVED with the result as obj; null gives NOTHING_SHARED/NOTHING_RECEIVED; the three known exceptions give -1, -2, -3 and any other Exception -4, with the exception as obj; a non-Exception throwable gives no final message |
| `Linccer.HandlerMessages` | src/com/hoccer/api/android/AsyncLinccer.java:72-105 | the handler first receives SEARCHING, then at most one final message, which is the classified `FinalMessage` of the outcome and is never SEARCHING |
| `Linccer.FinalCodeIdentifiesOutcome` | src/com/hoccer/api/android/AsyncLinccer.java:107-141 | for a share or a receive, the final code tells the handler which kind of outcome occurred |
| `Linccer.OnWifiScanResults` | src/com/hoccer/api/android/AsyncLinccer.java:143-152 | a null scan list makes no call; otherwise the list handed on has the scans' BSSIDs, same length and order |
| `Linccer.GetClientIdFromSharedPreferences` | src/com/hoccer/api/android/AsyncLinccer.java:166-178 | a stored "client_uuid" is returned with every store unchanged; otherwise the fresh UUID is stored under that key and returned |
| `Linccer.ClientIdIsStable` | src/com/hoccer/api/android/AsyncLinccer.java:169-177 | two successive calls return the same ID whatever fresh UUIDs they draw |
| `Preferences.GetOrStoreDefault` | src/com/hoccer/api/android/AndroidClientConfig.java:20-28 | a present key's value is returned with the store unchanged; an absent key yields the default, which is stored; afterwards the key maps to the returned value, and no other key changes |
| `Preferences.GetOrStoreDefaultIdempotent` | src/com/hoccer/api/android/AndroidClientConfig.java:21-28 | a repeated lookup with any default returns the same value and leaves the store as it is |
| `Preferences.Context.GetStringOrStoreDefault` | src/com/hoccer/api/android/AndroidClientConfig.java:16-28 | the value and the new state of the named store are those of `GetOrStoreDefault`; every other store is unchanged |
| `ClientConfig.LookupsDoNotInterfere` | src/com/hoccer/api/android/AndroidClientConfig.java:20-65 | each of the three lookups leaves the entries of the other two keys as they were: absent stays absent, a stored value stays the same |
| `ClientConfig.GetServerName` | src/com/hoccer/api/android/AndroidClientConfig.java:14-29 | stored "hoccer_server" is returned with nothing changed; otherwise "https://linccer.hoccer.com/v3" is returned and stored under that key |
| `ClientConfig.GetFileCacheServerName` | src/com/hoccer/api/android/AndroidClientConfig.java:31-48 | same, for "hoccer_filecache_server" and "https://filecache.hoccer.com/v3" |
| `ClientConfig.GetHocletServerName` | src/com/hoccer/api/android/AndroidClientConfig.java:50-66 | same, for "hoccer_hoclet_server" and "https://hoclet-experimental.hoccer.com/v3" |
| `ClientConfig.GetServerNameTwice` | src/com/hoccer/api/android/AndroidClientConfig.java:20-28 | two calls return the same name, and the second leaves the stores as the first left them |
| `LogHandler.Publish` | src/com/hoccer/api/android/AndroidLogHandler.java:56-83 | at most one log call, tagged with the logger name and carrying the message; ALL, FINEST, FINER give verbose; FINE gives debug; CONFIG gives info; WARNING gives warn; every other level gives nothing (both directions) |
| `LogHandler.UnforwardedLevels` | src/com/hoccer/api/android/AndroidLogHandler.java:81-82 | INFO, SEVERE and OFF produce no log call |
| `Content.IsFileScheme` | src/main/java/com/hoccer/api/android/AndroidStreamableContent.java:138-141 | true exactly when a URI is present and its scheme is "file"; returns normally (false for any other scheme) for every present URI; a missing URI throws NullPointerException |
| `GuardedStreamableContent.AndroidStreamableContent.constructor` | src/main/java/com/hoccer/api/android/AndroidStreamableContent.java:44-52 | stores the resolver; no URI is set |
| `GuardedStreamableContent.AndroidStreamableContent.Create` | src/main/java/com/hoccer/api/android/AndroidStreamableContent.java:46-51 | a null resolver is rejected with IllegalArgumentException; otherwise a fresh object with that resolver and no URI |
| `GuardedStreamableContent.AndroidStreamableContent.SetDataUri` | src/main/java/com/hoccer/api/android/AndroidStreamableContent.java:129-136 | a null URI throws BadContentResolverUriException and leaves the URI unchanged; any other URI is stored |
| `GuardedStreamableContent.AndroidStreamableContent.Guarded` | src/main/java/com/hoccer/api/android/AndroidStreamableContent.java:145-151 | without a URI: IllegalStateException and no resolver call; with one: the resolver call goes ahead |
| `GuardedStreamableContent.AndroidStreamableContent.OpenRawInputStream` | src/main/java/com/hoccer/api/android/AndroidStreamableContent.java:56-62 | throws IllegalStateException exactly when no URI is set; otherwise opens an input stream on the data URI |
| `GuardedStreamableContent.AndroidStreamableContent.OpenRawOutputStream` | src/main/java/com/hoccer/api/android/AndroidStreamableContent.java:64-70 | throws IllegalStateException exactly when no URI is set; otherwise opens an output stream on the data URI |
| `GuardedStreamableContent.AndroidStreamableContent.OpenNewInputStream` | src/main/java/com/hoccer/api/android/AndroidStreamableContent.java:78-82 | behaves as `OpenRawInputStream` |
| `GuardedStreamableContent.AndroidStreamableContent.OpenNewOutputStream` | src/main/java/com/hoccer/api/android/AndroidStreamableContent.java:72-76 | behaves as `OpenRawOutputStream` |
| `GuardedStreamableContent.AndroidStreamableContent.GetNewStreamLength` | src/main/java/com/hoccer/api/android/AndroidStreamableContent.java:100-108 | throws IllegalStateException exactly when no URI is set; otherwise asks for the data URI's asset file descriptor in mode "r" |
| `GuardedStreamableContent.AndroidStreamableContent.GetRawStreamLength` | src/main/java/com/hoccer/api/android/AndroidStreamableContent.java:118-125 | throws IllegalStateException exactly when no URI is set; otherwise asks for the data URI's asset file descriptor in mode "r" |
| `GuardedStreamableContent.AndroidStreamableContent.GetContentType` | src/main/java/com/hoccer/api/android/AndroidStreamableContent.java:84-98 | the superclass's type if non-null; else the resolver's type for a set URI; else null |
| `GuardedStreamableContent.AndroidStreamableContent.IsFileSchemeUri` | src/main/java/com/hoccer/api/android/AndroidStreamableContent.java:138-141 | true exactly when the URI's scheme is "file", false for any other set URI; throws NullPointerException when no URI is set |
| `UnguardedStreamableContent.AndroidStreamableContent.constructor` | src/com/hoccer/api/android/AndroidStreamableContent.java:48-50 | stores the resolver, even a null one; no URI and no content type |
| `UnguardedStreamableContent.AndroidStreamableContent.SetDataUri` | src/com/hoccer/api/android/AndroidStreamableContent.java:56-62 | a null URI throws BadContentResolverUriException and leaves the URI unchanged; any other URI is stored |
| `UnguardedStreamableContent.AndroidStreamableContent.OnResolver` | src/com/hoccer/api/android/AndroidStreamableContent.java:66-74 | a call on a null resolver throws NullPointerException; otherwise it goes ahead |
| `UnguardedStreamableContent.AndroidStreamableContent.OpenOutputStream` | src/com/hoccer/api/android/AndroidStreamableContent.java:64-68 | the resolver is asked for an output stream on the data URI, even when none is set |
| `UnguardedStreamableContent.AndroidStreamableContent.OpenInputStream` | src/com/hoccer/api/android/AndroidStreamableContent.java:70-74 | the resolver is asked for an input stream on the data URI, even when none is set |
| `UnguardedStreamableContent.AndroidStreamableContent.GetContentType` | src/com/hoccer/api/android/AndroidStreamableContent.java:76-87 | the resolver's type when a URI is set and the resolver knows a type for it, otherwise the stored `mContentType` |
| `UnguardedStreamableContent.AndroidStreamableContent.GetStreamLength` | src/com/hoccer/api/android/AndroidStreamableContent.java:89-97 | a missing URI is only logged; the resolver is asked for the asset file descriptor of the data URI in every case, and a null resolver throws NullPointerException |
| `UnguardedStreamableContent.AndroidStreamableContent.IsFileSchemeUri` | src/com/hoccer/api/android/AndroidStreamableContent.java:99-101 | true exactly when the URI's scheme is "file", false for any other set URI; throws NullPointerException when no URI is set |

## Left out

- Concurrency. This covers the `synchronized` blocks of `LocalDiscovery` and the thread started by `publishAnnouncement`. It also covers the worker threads of `asyncShare`/`asyncReceive`. Every method is one atomic step, so lock discipline and interleavings are not modelled.
- `LocalDiscovery.finalize`. It is garbage-collector teardown that only calls the provider.
- Listener side effects. In the source every listener of one round receives the same mutable `HashSet` copy, so a listener that changes it changes what later listeners see; a listener may also call `addListener`/`removeListener` while being notified. The model's listeners have no side effects, and `Discovery.LocalDiscovery.NotifyVisiblePeersChanged` promises the same, unchanged copy to every listener only under that assumption.
- `LocalDiscovery`'s debug logging. This includes the per-property dump in `serviceUpdated` and the `Log.e` of a throwing listener. It is output only.
- `ZeroConfListener.connectedToService` in `LocalDiscovery`. It only logs.
- The `ZeroConfClient` and `ZeroConfRecord` library. Its internals are foreign code. The model assumes a new record starts with no name and no properties. Records are values, so aliasing of the one `mRecord` object is not modelled.
- `Discovery.LocalDiscovery.GetVisibleIds`: returns the current value of the set, not the source's live read-only view. A caller that keeps the result does not see later changes.
- Notification order. Java's `HashSet` iteration order is hidden. The model picks listeners in an unspecified order and promises only "each exactly once".
- `LinccLocationManager` sensing and geocoding. These are `refreshLocation`, `activate`, `deactivate`, the location callbacks, `getAddress` and `getDisplayableAddress`: Android location, Wi-Fi and Geocoder I/O, with a branch on a float accuracy.
- `LocationManager.TrimAddress`: counts Dafny characters (Unicode scalar values), not Java's UTF-16 code units, and takes a non-null line. In the source, a null line ends in an exception that `getDisplayableAddress` catches.
- `AsyncLinccer.onNetworkChanged`/`onGpsChanged`. They convert float coordinates into the Linccer superclass, which is not part of this model. `share` and `receive` are network calls of that superclass, and their outcome is an input here.
- `Linccer.FinalMessage`: the exception classes are treated as unrelated. Their hierarchy is defined outside this model, so the catch order is assumed not to matter. An exception thrown by the handler while it processes SEARCHING is not modelled.
- `AndroidClientConfig.useSettingsServers` and its constructors. They delegate to `ClientConfig`, which is not part of this model. The store's access-mode flags are not modelled either.
- Stream opening in both `AndroidStreamableContent` versions. This is `ContentResolver` and file-descriptor I/O. The model returns the request the resolver would receive instead of a stream or a length.
- The superclass's content type (`GenericStreamableContent`) is an input, `superType`.
- `FileCacheService`. It delegates to `FileCache` and to the Android `Service` lifecycle.
- `BadContentResolverUriException`. It contains only constructors.
