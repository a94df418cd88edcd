# Atlantis service control core, modelled in Dafny

`AtlantisService` (atlantis-extra) is an Android service that owns one
instance of the Atlantis mock-HTTP engine. It turns the engine on and off,
builds it from a configuration located by a loosely typed descriptor string,
forwards two recording switches to it, persists the desired state in four
shared-preference keys, replays that state when the service is created, and
accepts the same commands as `startService` intents.

This project models the non-Android logic of that service:

- `wrappers.dfy`, module `Wrappers`: the `Option` type standing for Java's nullable references.
- `config_resolver.dfy`, module `ConfigResolver`: `getConfigurationInputStream` as the pure function `Resolve`.
  - The asset store, the file system and the HTTP endpoint are oracles (`Sources`: what each can open).
  - The result carries the stream and the ordered list of collaborator calls made (`probes`).
  - The regular expression `^(http|https)://.*$` is modelled twice: as a scan and as the pattern's language, proved equal.
- `toggle_state.dfy`, module `ToggleState`: the service state as a value.
  - The state is the engine handle plus the four preference keys.
  - Every operation is a function from state to state, with the lemmas that state what it promises.
  - `Consistent` is the invariant: while an engine runs, the enable key is true and the configuration key holds a descriptor that resolves, in some world, to the engine's stream.
- `commands.dfy`, module `Commands`: `onStartCommand` decoding and dispatch, plus delivery of any series of intents.
- `service.dfy`, module `Service`: the imperative model.
  - Class `Atlantis` is the engine as the service sees it.
  - Class `AtlantisService` holds the `atlantis` handle and the preference store.
  - `OnCreate`, `OnDestroy`, `OnStartCommand`, `SetAtlantisEnabled` and the two recording setters are proved to move `View()` exactly as the matching function of `ToggleState`/`Commands` says.
  - `OnCreate`, `OnDestroy` and `SetAtlantisEnabled` establish `Valid()` from any prior state. `OnStartCommand` and the two recording setters keep it when it held before.
  - `SetAtlantisEnabled` also states that the previous engine ends stopped and no longer held, and that any engine held afterwards is freshly allocated. The two recording setters state that the handle is unchanged.
  - The `Update*Preference` writers state which key they write. The `Atlantis` methods state which engine field they change.

The engine is driven by oracles too, all predicates on the resolved stream:
`Host.constructs` (the constructor does not throw), `Host.starts` (`start()`
returns without throwing) and `Host.runs` (the engine then reports itself
running). The code writes the preferences once `start()` returns, so a
returned start and a running engine are kept apart. The world (`Host`) is a
parameter of each call, so it may differ from one call to the next.

The code's quirks are kept as written and stated as lemmas:

- `onCreate` enables the engine from the boolean stored under the record-failures key (line 207).
- `setRecordMissingFailuresEnabled` persists under the record key (line 321).
- No method of the service ever writes the record-failures key.
- A failed enable writes no key at all.
- The handle is assigned before `start()`, so a failed start leaves an idle engine held (lines 283-284).

## Model

| member | source | states |
|---|---|---|
| `ConfigResolver.Resolve` | library/src/main/java/com/echsylon/atlantis/extra/AtlantisService.java:463-519 | null consults nobody and gives null; the first successful probe wins; a successful last probe supplies the stream; null comes only from null or a failed explicit scheme after one probe; literal content only when every guess failed |
| `ConfigResolver.AssetSchemeConsultsOnlyAssets` | library/src/main/java/com/echsylon/atlantis/extra/AtlantisService.java:467-475 | an `asset://` descriptor makes exactly one asset-store call, for the descriptor minus its first 8 characters; failure gives null with no further guess |
| `ConfigResolver.FileSchemeConsultsOnlyFiles` | library/src/main/java/com/echsylon/atlantis/extra/AtlantisService.java:477-485 | a `file://` descriptor makes exactly one file-system call, for the descriptor minus its first 7 characters; failure gives null |
| `ConfigResolver.OnlineSchemeConsultsOnlyHttp` | library/src/main/java/com/echsylon/atlantis/extra/AtlantisService.java:487-496 | an online descriptor makes exactly one HTTP call, with the whole descriptor as URL; failure gives null |
| `ConfigResolver.NoLineTerminatorIsLineFree` | library/src/main/java/com/echsylon/atlantis/extra/AtlantisService.java:488 | the scan for Java line terminators agrees with "no character of the rest is a line terminator" (what `.*` matches) |
| `ConfigResolver.OnlineResourceIsPattern` | library/src/main/java/com/echsylon/atlantis/extra/AtlantisService.java:488 | a descriptor is online exactly when it is `http://` or `https://` followed by a line-terminator-free rest, both directions |
| `ConfigResolver.GuessingOrder` | library/src/main/java/com/echsylon/atlantis/extra/AtlantisService.java:498-518 | without a scheme: asset first, file only if the asset failed, otherwise the descriptor's own text; never null; an asset that is also a file wins |
| `ConfigResolver.ResolveConsultsOnlyItsProbes` | library/src/main/java/com/echsylon/atlantis/extra/AtlantisService.java:463-519 | two worlds that agree on the calls the resolver made give the same result: nothing else is consulted |
| `ToggleState.SetAtlantisEnabled` | library/src/main/java/com/echsylon/atlantis/extra/AtlantisService.java:273-295 | disabling drops the handle and writes only enable=false; enabled afterwards iff construction and start succeed and the engine reports running; a start that returns writes the descriptor and enable=true; a construction or start that throws writes nothing; a failed construction leaves no handle, a failed start leaves the constructed idle instance held |
| `ToggleState.SetRecordMissingRequestsEnabled` | library/src/main/java/com/echsylon/atlantis/extra/AtlantisService.java:304-309 | no handle: nothing changes; with a handle: the flag reaches the engine and the record key |
| `ToggleState.SetRecordMissingFailuresEnabled` | library/src/main/java/com/echsylon/atlantis/extra/AtlantisService.java:318-323 | no handle: nothing changes; with a handle: the failures flag reaches the engine and is written under the record key |
| `ToggleState.Startup` | library/src/main/java/com/echsylon/atlantis/extra/AtlantisService.java:206-211 | start-up leaves the configuration and record-failures keys as stored |
| `ToggleState.Teardown` | library/src/main/java/com/echsylon/atlantis/extra/AtlantisService.java:216-219 | teardown releases the handle, writes no key, and both queries become false |
| `ToggleState.SetAtlantisEnabledIsConsistent` | library/src/main/java/com/echsylon/atlantis/extra/AtlantisService.java:279-294 | after any enable or disable, a running engine is matched by enable=true and by a persisted descriptor that resolves, in some world, to the engine's stream; no precondition on the prior state |
| `ToggleState.RecordingSettersKeepConsistent` | library/src/main/java/com/echsylon/atlantis/extra/AtlantisService.java:304-323 | both recording setters preserve that invariant |
| `ToggleState.StartupIsConsistent` | library/src/main/java/com/echsylon/atlantis/extra/AtlantisService.java:206-211 | the state after start-up satisfies the invariant |
| `ToggleState.SetAtlantisEnabledDropsPreviousHandle` | library/src/main/java/com/echsylon/atlantis/extra/AtlantisService.java:273-277 | the outcome does not depend on the engine held before: any previous handle is discarded, even when re-enabling |
| `ToggleState.SetAtlantisEnabledIsIdempotent` | library/src/main/java/com/echsylon/atlantis/extra/AtlantisService.java:263-295 | repeating a call restarts the engine but leaves the same observable state |
| `ToggleState.StartupEnablesFromRecordingFailuresKey` | library/src/main/java/com/echsylon/atlantis/extra/AtlantisService.java:206-209 | start-up enables iff the record-failures boolean is true, a configuration is stored, and the engine builds, starts and runs; the enable key is never consulted |
| `ToggleState.StartupReplaysRecording` | library/src/main/java/com/echsylon/atlantis/extra/AtlantisService.java:209-211 | with a handle, the record flag is replayed from its key, failures recording is on and the record key ends up true; without one, at most enable=false is written |
| `ToggleState.FailuresSetterOverwritesRecordingKey` | library/src/main/java/com/echsylon/atlantis/extra/AtlantisService.java:318-323 | recording on then failures off leaves the engine recording while the record key says false |
| `ToggleState.ReturnedStartPersistsEvenWhenIdle` | library/src/main/java/com/echsylon/atlantis/extra/AtlantisService.java:283-286 | a `start()` that returns but leaves the engine not running still writes enable=true and the descriptor, while isAtlantisEnabled is false |
| `ToggleState.EnableAssetThenDisable` | library/src/main/java/com/echsylon/atlantis/extra/AtlantisService.java:273-295 | enabling from an accepted `asset://config.json` runs the engine and persists the descriptor; disabling then releases it and keeps the descriptor |
| `Commands.ParseCommand` | library/src/main/java/com/echsylon/atlantis/extra/AtlantisService.java:226-258 | a command only for the SET action with feature ATLANTIS, RECORD or RECORD_FAILURES; a missing boolean or descriptor extra is taken from the persisted key; anything else is ignored |
| `Commands.Dispatch` | library/src/main/java/com/echsylon/atlantis/extra/AtlantisService.java:226-258 | an ignored intent changes nothing, and no command writes the record-failures key |
| `Commands.DispatchKeepsConsistent` | library/src/main/java/com/echsylon/atlantis/extra/AtlantisService.java:226-258 | every command preserves the invariant |
| `Commands.DeliverKeepsConsistent` | library/src/main/java/com/echsylon/atlantis/extra/AtlantisService.java:226-261 | over any series of intents the invariant holds and the record-failures key is never written |
| `Commands.DocumentedEnableIntent` | library/src/main/java/com/echsylon/atlantis/extra/AtlantisService.java:42-46 | the documented intent (ATLANTIS, true, `asset://config.json`) asks to enable from that asset |
| `Service.Atlantis.constructor` | library/src/main/java/com/echsylon/atlantis/extra/AtlantisService.java:283 | a new engine holds its stream, is not running and records nothing |
| `Service.Atlantis.Start` | library/src/main/java/com/echsylon/atlantis/extra/AtlantisService.java:284 | reports whether `start()` returned without throwing; only the running flag changes, to true only when it returned and the engine reports running |
| `Service.Atlantis.Stop` | library/src/main/java/com/echsylon/atlantis/extra/AtlantisService.java:275 | stop leaves the engine not running and changes nothing else |
| `Service.Atlantis.SetRecordMissingRequestsEnabled` | library/src/main/java/com/echsylon/atlantis/extra/AtlantisService.java:306 | only the missing-requests flag changes |
| `Service.Atlantis.SetRecordMissingFailuresEnabled` | library/src/main/java/com/echsylon/atlantis/extra/AtlantisService.java:320 | only the missing-failures flag changes |
| `Service.AtlantisService.OnCreate` | library/src/main/java/com/echsylon/atlantis/extra/AtlantisService.java:196-212 | the created service is in the start-up state of its stored keys and satisfies the invariant |
| `Service.AtlantisService.OnDestroy` | library/src/main/java/com/echsylon/atlantis/extra/AtlantisService.java:215-223 | from any prior state: the previous engine is stopped, the state is the teardown state, and the invariant holds |
| `Service.AtlantisService.OnStartCommand` | library/src/main/java/com/echsylon/atlantis/extra/AtlantisService.java:226-261 | always returns START_STICKY, moves the state as the decoded command says, and keeps the invariant when it held before |
| `Service.AtlantisService.SetAtlantisEnabled` | library/src/main/java/com/echsylon/atlantis/extra/AtlantisService.java:273-295 | the previous engine is stopped and no longer held; any held engine is new; the state moves as the enable function says; the invariant holds afterwards from any prior state |
| `Service.AtlantisService.SetRecordMissingRequestsEnabled` | library/src/main/java/com/echsylon/atlantis/extra/AtlantisService.java:304-309 | the handle is unchanged and the state moves as the record setter function says |
| `Service.AtlantisService.SetRecordMissingFailuresEnabled` | library/src/main/java/com/echsylon/atlantis/extra/AtlantisService.java:318-323 | the handle is unchanged and the state moves as the failures setter function says |
| `Service.AtlantisService.IsAtlantisEnabled` | library/src/main/java/com/echsylon/atlantis/extra/AtlantisService.java:331-333 | true iff an engine is held and running |
| `Service.AtlantisService.IsRecordMissingRequestsEnabled` | library/src/main/java/com/echsylon/atlantis/extra/AtlantisService.java:341-343 | true iff an engine is held and records missing requests |
| `Service.AtlantisService.UpdateConfigurationPreference` | library/src/main/java/com/echsylon/atlantis/extra/AtlantisService.java:351-355 | writes the configuration key (null removes it) and nothing else |
| `Service.AtlantisService.UpdateEnabledPreference` | library/src/main/java/com/echsylon/atlantis/extra/AtlantisService.java:362-366 | writes the enable key and nothing else |
| `Service.AtlantisService.UpdateRecordingPreference` | library/src/main/java/com/echsylon/atlantis/extra/AtlantisService.java:373-377 | writes the record key and nothing else |
| `Service.AtlantisService.UpdateRecordingFailuresPreference` | library/src/main/java/com/echsylon/atlantis/extra/AtlantisService.java:384-388 | writes the record-failures key and nothing else; no method of the service calls it |

## Left out

- Android host plumbing has no stateable logic and is not modelled: foreground promotion and the notification (lines 395-408), the notification's pending intent and its manifest meta-data lookup (lines 421-452), `Binder` and `onBind` (lines 168-193).
- Real I/O is reduced to success or failure: the asset manager, `FileInputStream`, `HttpURLConnection` and `closeSilently` (lines 527-534). A stream records only where its bytes come from.
- `description.getBytes()` depends on the platform charset. A literal stream holds the descriptor text and leaves the encoding abstract.
- Exception types are not distinguished. A collaborator either opens or does not. The guessing path's narrower `catch` clauses (lines 504, 512) are not modelled, and neither are runtime exceptions that would escape the resolver.
- The Atlantis engine is external. It is reduced to the construction and start oracles, the running flag and the two recording flags.
  - A new instance is taken to record nothing until told otherwise.
  - `isRecordingMissingRequests` is taken to report the last flag set.
  - The start and running oracles are functions of the stream, so the reasons a real start fails or lags (a busy port, timing) are folded into them.
  - `Service.Atlantis.Start` / `ToggleState.SetAtlantisEnabled`: an instance whose `start()` threw is taken to report not running afterwards. The source's `isAtlantisEnabled` (line 332) asks such an instance anyway, and the invariant `Consistent` relies on this assumption. An engine left running by a failed start, with the enable key unwritten, is outside the model.
  - Whether a returned engine is running is fixed at the moment `start()` returns. An engine that comes up later, which the settings screen's delayed read-back allows for, is not modelled.
- The order of calls within one operation is not recorded, only the resulting state. For example, the model does not record that the old engine's `stop()` happens before the new engine's `start()`. It does state that the old engine ends stopped and that any held engine is new.
- The service's methods are taken to run one at a time, each as a single step. `onCreate`, `onDestroy` and `onStartCommand` run on the main thread, while the settings screen calls `setAtlantisEnabled` and the two recording setters from a worker thread, and nothing locks the engine field. Interleavings between the two threads are not modelled.
- `SharedPreferences.apply()` is asynchronous. The store is modelled as in-memory values that are read back immediately.
- Logging (`Log.i`) is not modelled.
- `onStartCommand` dereferences its intent. The null intent Android delivers when it restarts a sticky service is not modelled: `Intent` is a non-null value.
- The code never reads the `flags` and `startId` arguments of `onStartCommand`, so the model does not take them.
- The settings screen's preference widgets also write the keys, between calls to the service. These writes are not operations of the model. The service's methods accept any prior key state, including a running engine whose enable key was just turned off. `SetAtlantisEnabled` and `OnDestroy` restore the invariant from such a state. The recording setters and `OnStartCommand` keep it only when it held before.
- AtlantisSettingsFragment.java is not part of this model. It is UI and concurrency: one `AsyncTask` per change, a 200 ms delayed read-back and the rollback dialog. It only calls the three setters in order and then `isAtlantisEnabled`.
- AtlantisSettingsActivity.java is not part of this model. It is UI bootstrap only.
