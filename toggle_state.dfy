/**
 * The state of AtlantisService as a value, and each of its operations as
 * a function from the state before to the state after. The service class
 * in module Service is proved to follow these functions; the lemmas here
 * state what the operations promise.
 *
 * The state is the owned engine handle (`atlantis`) and the four keys of
 * the preference store. A key that was never written reads as None.
 */
module ToggleState {
  import opened Wrappers
  import opened ConfigResolver

  /** The four persisted keys: configuration, enable, record and record-failures. */
  datatype Preferences = Preferences(
    configuration: Option<string>,
    enabled: Option<bool>,
    recording: Option<bool>,
    recordingFailures: Option<bool>)

  /** `SharedPreferences.getBoolean(key, default)`. */
  function BoolOr(stored: Option<bool>, default: bool): bool {
    stored.GetOr(default)
  }

  /** The world outside the service: what the resolver's collaborators can
      open, whether the Atlantis engine can be built from a stream, whether
      its `start()` returns without throwing, and whether it then reports
      itself running (a normal return does not promise that). A null stream
      is left to the engine oracles, as the code does. */
  datatype Host = Host(
    sources: Sources,
    constructs: Option<Stream> -> bool,
    starts: Option<Stream> -> bool,
    runs: Option<Stream> -> bool)

  /** What the service can observe of an Atlantis engine instance. */
  datatype EngineState = EngineState(
    source: Option<Stream>,
    running: bool,
    recordingMissingRequests: bool,
    recordingMissingFailures: bool)

  /** A freshly constructed engine: not yet started, recording nothing. */
  function Constructed(source: Option<Stream>): EngineState {
    EngineState(source, false, false, false)
  }

  datatype State = State(handle: Option<EngineState>, prefs: Preferences)

  /** isAtlantisEnabled: a handle is held and reports itself running. */
  predicate IsAtlantisEnabled(s: State) {
    s.handle.Some? && s.handle.value.running
  }

  /** isRecordMissingRequestsEnabled: a handle is held and records missing requests. */
  predicate IsRecordMissingRequestsEnabled(s: State) {
    s.handle.Some? && s.handle.value.recordingMissingRequests
  }

  /** The stream the engine is built from when enabling with `configuration`. */
  function ConfigurationStream(host: Host, configuration: Option<string>): Option<Stream> {
    Resolve(host.sources, configuration).stream
  }

  /** Enabling with `configuration` gets through construction and `start()`
      without an exception, so the try block reaches its preference writes. */
  predicate EnableCompletes(host: Host, configuration: Option<string>) {
    var stream := ConfigurationStream(host, configuration);
    host.constructs(stream) && host.starts(stream)
  }

  /** setAtlantisEnabled. Any held engine is stopped and dropped first. */
  function SetAtlantisEnabled(s: State, host: Host, enable: bool, configuration: Option<string>): (r: State)
    // disabling: no handle, enable key false, nothing else written
    ensures !enable ==> r.handle.None? && r.prefs == s.prefs.(enabled := Some(false))
    // enabled afterwards exactly when construction and start both succeed
    // and the engine then reports itself running
    ensures IsAtlantisEnabled(r) <==>
              enable && EnableCompletes(host, configuration) &&
              host.runs(ConfigurationStream(host, configuration))
    // a start() that returns persists the descriptor and the enable flag,
    // whether or not the engine reports itself running
    ensures enable && EnableCompletes(host, configuration) ==>
              r.prefs == s.prefs.(configuration := configuration, enabled := Some(true))
    // a construction or start that throws writes no key at all
    ensures enable && !EnableCompletes(host, configuration) ==> r.prefs == s.prefs
    // any handle held afterwards is new, built from the resolved descriptor
    ensures r.handle.Some? ==>
              enable && host.constructs(ConfigurationStream(host, configuration)) &&
              r.handle.value == Constructed(ConfigurationStream(host, configuration)).(running := IsAtlantisEnabled(r))
    // a failed construction leaves no handle
    ensures enable && !host.constructs(ConfigurationStream(host, configuration)) ==> r.handle.None?
    // a failed start keeps the constructed, idle instance
    ensures enable && host.constructs(ConfigurationStream(host, configuration)) &&
            !host.starts(ConfigurationStream(host, configuration)) ==>
              r.handle == Some(Constructed(ConfigurationStream(host, configuration)))
    ensures r.prefs.recording == s.prefs.recording && r.prefs.recordingFailures == s.prefs.recordingFailures
  {
    if enable then
      var stream := ConfigurationStream(host, configuration);
      if !host.constructs(stream) then State(None, s.prefs)
      else if !host.starts(stream) then State(Some(Constructed(stream)), s.prefs)
      else State(Some(Constructed(stream).(running := host.runs(stream))),
                 s.prefs.(configuration := configuration).(enabled := Some(true)))
    else
      State(None, s.prefs.(enabled := Some(false)))
  }

  /** setRecordMissingRequestsEnabled: forwarded and persisted only while a handle is held. */
  function SetRecordMissingRequestsEnabled(s: State, enable: bool): (r: State)
    ensures s.handle.None? ==> r == s
    ensures s.handle.Some? ==>
              r.handle == Some(s.handle.value.(recordingMissingRequests := enable)) &&
              r.prefs == s.prefs.(recording := Some(enable))
    ensures IsAtlantisEnabled(r) == IsAtlantisEnabled(s)
  {
    match s.handle
    case None => s
    case Some(engine) =>
      State(Some(engine.(recordingMissingRequests := enable)), s.prefs.(recording := Some(enable)))
  }

  /** setRecordMissingFailuresEnabled: forwarded only while a handle is held,
      and then persisted under the record key, not the record-failures key. */
  function SetRecordMissingFailuresEnabled(s: State, enable: bool): (r: State)
    ensures s.handle.None? ==> r == s
    ensures s.handle.Some? ==>
              r.handle == Some(s.handle.value.(recordingMissingFailures := enable)) &&
              r.prefs == s.prefs.(recording := Some(enable))
    ensures IsAtlantisEnabled(r) == IsAtlantisEnabled(s)
    ensures IsRecordMissingRequestsEnabled(r) == IsRecordMissingRequestsEnabled(s)
  {
    match s.handle
    case None => s
    case Some(engine) =>
      State(Some(engine.(recordingMissingFailures := enable)), s.prefs.(recording := Some(enable)))
  }

  /** onCreate: enable from the persisted configuration when the boolean
      read under the record-failures key is true, then replay both
      recording setters from their keys, each read when it is called. */
  function Startup(stored: Preferences, host: Host): (r: State)
    ensures r.prefs.recordingFailures == stored.recordingFailures
    ensures r.prefs.configuration == stored.configuration
  {
    var configuration := stored.configuration;
    var doEnable := BoolOr(stored.recordingFailures, false);
    var s1 := SetAtlantisEnabled(State(None, stored), host, doEnable && configuration.Some?, configuration);
    var s2 := SetRecordMissingRequestsEnabled(s1, BoolOr(s1.prefs.recording, false));
    SetRecordMissingFailuresEnabled(s2, BoolOr(s2.prefs.recordingFailures, false))
  }

  /** onDestroy: the engine is stopped and released; no key is written. */
  function Teardown(s: State): (r: State)
    ensures r.handle.None? && r.prefs == s.prefs
    ensures !IsAtlantisEnabled(r) && !IsRecordMissingRequestsEnabled(r)
  {
    State(None, s.prefs)
  }

  /** Some world resolves `configuration` to `source`: the persisted
      descriptor accounts for the stream the engine was built from. */
  ghost predicate Explains(configuration: Option<string>, source: Option<Stream>) {
    exists src :: Resolve(src, configuration).stream == source
  }

  /** Write-through for the engine: while an engine runs, the enable key is
      true and the configuration key holds a descriptor that resolves, in
      some world, to the engine's stream. */
  ghost predicate Consistent(s: State) {
    IsAtlantisEnabled(s) ==>
      s.prefs.enabled == Some(true) && Explains(s.prefs.configuration, s.handle.value.source)
  }

  lemma SetAtlantisEnabledIsConsistent(s: State, host: Host, enable: bool, configuration: Option<string>)
    ensures Consistent(SetAtlantisEnabled(s, host, enable, configuration))
  {
  }

  lemma RecordingSettersKeepConsistent(s: State, enable: bool)
    requires Consistent(s)
    ensures Consistent(SetRecordMissingRequestsEnabled(s, enable))
    ensures Consistent(SetRecordMissingFailuresEnabled(s, enable))
  {
  }

  lemma StartupIsConsistent(stored: Preferences, host: Host)
    ensures Consistent(Startup(stored, host))
  {
  }

  /** Enabling always restarts: the outcome does not depend on the engine
      held before, only on the persisted keys and the world. */
  lemma SetAtlantisEnabledDropsPreviousHandle(s1: State, s2: State, host: Host, enable: bool, configuration: Option<string>)
    requires s1.prefs == s2.prefs
    ensures SetAtlantisEnabled(s1, host, enable, configuration) == SetAtlantisEnabled(s2, host, enable, configuration)
  {
  }

  /** Repeating a call with the same arguments restarts the engine again but
      leaves the same observable state (idempotent on the persisted keys). */
  lemma SetAtlantisEnabledIsIdempotent(s: State, host: Host, enable: bool, configuration: Option<string>)
    ensures var once := SetAtlantisEnabled(s, host, enable, configuration);
            SetAtlantisEnabled(once, host, enable, configuration) == once
  {
  }

  /** At startup the engine comes up only when the boolean stored under the
      record-failures key is true and a configuration is stored; the enable
      key plays no part. */
  lemma StartupEnablesFromRecordingFailuresKey(stored: Preferences, host: Host)
    ensures var stream := ConfigurationStream(host, stored.configuration);
            IsAtlantisEnabled(Startup(stored, host)) <==>
              BoolOr(stored.recordingFailures, false) && stored.configuration.Some? &&
              host.constructs(stream) && host.starts(stream) && host.runs(stream)
    ensures forall flag: Option<bool> :: Startup(stored.(enabled := flag), host).handle == Startup(stored, host).handle
  {
  }

  /** What startup leaves behind. With a handle: the record flag is
      replayed from its key, the record-failures flag is on, and the record
      key ends up true because the failures replay overwrites it. Without
      one: at most the enable key is written, and only to false. */
  lemma StartupReplaysRecording(stored: Preferences, host: Host)
    ensures var r := Startup(stored, host);
            r.handle.Some? ==>
              r.handle.value.recordingMissingRequests == BoolOr(stored.recording, false) &&
              r.handle.value.recordingMissingFailures &&
              r.prefs.recording == Some(true)
    ensures var r := Startup(stored, host);
            r.handle.None? ==>
              r.prefs == stored || r.prefs == stored.(enabled := Some(false))
  {
  }

  /** The failures setter persists under the record key, so after turning
      recording on and failures off the engine records missing requests
      while the record key says it does not. */
  lemma FailuresSetterOverwritesRecordingKey(s: State)
    requires s.handle.Some?
    ensures var t := SetRecordMissingFailuresEnabled(SetRecordMissingRequestsEnabled(s, true), false);
            IsRecordMissingRequestsEnabled(t) && t.prefs.recording == Some(false)
  {
  }

  /** Enabling from a bundled asset the engine accepts turns the engine on
      and persists the descriptor; disabling afterwards releases it. */
  lemma EnableAssetThenDisable(s: State, host: Host)
    requires "config.json" in host.sources.assets
    requires host.constructs(Some(AssetStream("config.json")))
    requires host.starts(Some(AssetStream("config.json")))
    requires host.runs(Some(AssetStream("config.json")))
    ensures var on := SetAtlantisEnabled(s, host, true, Some("asset://config.json"));
            IsAtlantisEnabled(on) && on.prefs.configuration == Some("asset://config.json") &&
            on.handle.value.source == Some(AssetStream("config.json"))
    ensures var off := SetAtlantisEnabled(SetAtlantisEnabled(s, host, true, Some("asset://config.json")), host, false, None);
            !IsAtlantisEnabled(off) && off.handle.None? &&
            off.prefs.configuration == Some("asset://config.json") && off.prefs.enabled == Some(false)
  {
  }

  /** A `start()` that returns normally is enough for the writes: if the
      engine then does not report itself running, the enable key says true
      while isAtlantisEnabled says false. */
  lemma ReturnedStartPersistsEvenWhenIdle(s: State, host: Host, configuration: Option<string>)
    requires EnableCompletes(host, configuration)
    requires !host.runs(ConfigurationStream(host, configuration))
    ensures var r := SetAtlantisEnabled(s, host, true, configuration);
            !IsAtlantisEnabled(r) && r.handle.Some? &&
            r.prefs.enabled == Some(true) && r.prefs.configuration == configuration
  {
  }
}
