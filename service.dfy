/**
 * AtlantisService as an object: it owns at most one Atlantis engine and
 * writes the preference store in place. Each operation of the service is
 * proved to take it from `View()` to the state the matching function of
 * module ToggleState (or Commands) prescribes. `OnCreate`, `OnDestroy` and
 * `SetAtlantisEnabled` establish `Valid()` from any prior state;
 * `OnStartCommand` and the two recording setters keep it when it held
 * before. The `Update*Preference` writers state only the key they write.
 */
module Service {
  import opened Wrappers
  import opened ConfigResolver
  import opened ToggleState
  import opened Commands

  /** The Atlantis mock engine, seen from the service: it is built from a
      stream, started, stopped, and told whether to record. */
  class Atlantis {
    const source: Option<Stream>
    var running: bool
    var recordingMissingRequests: bool
    var recordingMissingFailures: bool

    /** `new Atlantis(context, inputStream)`, once construction succeeded. */
    constructor (source: Option<Stream>)
      ensures this.source == source
      ensures !running && !recordingMissingRequests && !recordingMissingFailures
    {
      this.source := source;
      running, recordingMissingRequests, recordingMissingFailures := false, false, false;
    }

    function Snapshot(): EngineState
      reads this
    {
      EngineState(source, running, recordingMissingRequests, recordingMissingFailures)
    }

    /** `start()`. `started` says it returned without throwing; a start
        that throws is taken to leave the engine idle, and one that returns leaves it
        running only if the engine says so. */
    method Start(host: Host) returns (started: bool)
      modifies this
      ensures started == host.starts(source)
      ensures Snapshot() == old(Snapshot()).(running := started && host.runs(source))
    {
      started := host.starts(source);
      running := started && host.runs(source);
    }

    method Stop()
      modifies this
      ensures Snapshot() == old(Snapshot()).(running := false)
    {
      running := false;
    }

    method SetRecordMissingRequestsEnabled(enable: bool)
      modifies this
      ensures Snapshot() == old(Snapshot()).(recordingMissingRequests := enable)
    {
      recordingMissingRequests := enable;
    }

    method SetRecordMissingFailuresEnabled(enable: bool)
      modifies this
      ensures Snapshot() == old(Snapshot()).(recordingMissingFailures := enable)
    {
      recordingMissingFailures := enable;
    }
  }

  class AtlantisService {
    /** The owned engine handle; null when none is held. */
    var atlantis: Atlantis?
    /** The preference store's four keys. */
    var prefs: Preferences

    function View(): State
      reads this, atlantis
    {
      State(if atlantis == null then None else Some(atlantis.Snapshot()), prefs)
    }

    ghost predicate Valid()
      reads this, atlantis
    {
      Consistent(View())
    }

    /** onCreate: seeded from the persisted keys, then the startup replay. */
    constructor OnCreate(stored: Preferences, host: Host)
      ensures Valid()
      ensures View() == Startup(stored, host)
      ensures atlantis != null ==> fresh(atlantis)
    {
      atlantis := null;
      prefs := stored;
      new;
      var configuration := prefs.configuration;
      var doEnable := BoolOr(prefs.recordingFailures, false);
      SetAtlantisEnabled(host, doEnable && configuration.Some?, configuration);
      SetRecordMissingRequestsEnabled(BoolOr(prefs.recording, false));
      SetRecordMissingFailuresEnabled(BoolOr(prefs.recordingFailures, false));
      StartupIsConsistent(stored, host);
    }

    /** onDestroy: stop and release the engine. */
    method OnDestroy()
      modifies this, atlantis
      ensures Valid()
      ensures View() == Teardown(old(View()))
      ensures old(atlantis) != null ==> !old(atlantis).running
    {
      if atlantis != null {
        atlantis.Stop();
        atlantis := null;
      }
    }

    /** onStartCommand: run the command the intent asks for, if any. */
    method OnStartCommand(host: Host, intent: Intent) returns (result: int)
      modifies this, atlantis
      ensures old(Valid()) ==> Valid()
      ensures result == StartSticky
      ensures View() == Dispatch(old(View()), host, intent)
      ensures atlantis != null && atlantis != old(atlantis) ==> fresh(atlantis)
    {
      match ParseCommand(intent, prefs) {
        case EnableAtlantis(enable, configuration) => SetAtlantisEnabled(host, enable, configuration);
        case RecordMissingRequests(enable) => SetRecordMissingRequestsEnabled(enable);
        case RecordMissingFailures(enable) => SetRecordMissingFailuresEnabled(enable);
        case NoCommand => // an unknown or missing feature is ignored
      }
      result := StartSticky;
    }

    /** setAtlantisEnabled: stop and drop any engine, then either build and
        start a new one from the resolved descriptor or persist "disabled". */
    method SetAtlantisEnabled(host: Host, enable: bool, configuration: Option<string>)
      modifies this, atlantis
      ensures Valid()
      ensures View() == ToggleState.SetAtlantisEnabled(old(View()), host, enable, configuration)
      ensures old(atlantis) != null ==> !old(atlantis).running && atlantis != old(atlantis)
      ensures atlantis != null ==> fresh(atlantis)
    {
      ghost var before := View();
      if atlantis != null {
        atlantis.Stop();
        atlantis := null;
      }
      if enable {
        var stream := Resolve(host.sources, configuration).stream;
        if host.constructs(stream) {
          // the handle is assigned before start() is attempted
          atlantis := new Atlantis(stream);
          var started := atlantis.Start(host);
          if started {
            UpdateConfigurationPreference(configuration);
            UpdateEnabledPreference(true);
          }
        }
      } else {
        UpdateEnabledPreference(false);
      }
      SetAtlantisEnabledIsConsistent(before, host, enable, configuration);
    }

    /** setRecordMissingRequestsEnabled: a no-op without an engine. */
    method SetRecordMissingRequestsEnabled(enable: bool)
      modifies this, atlantis
      ensures old(Valid()) ==> Valid()
      ensures View() == ToggleState.SetRecordMissingRequestsEnabled(old(View()), enable)
      ensures atlantis == old(atlantis)
    {
      ghost var before := View();
      if atlantis != null {
        atlantis.SetRecordMissingRequestsEnabled(enable);
        UpdateRecordingPreference(enable);
      }
      if Consistent(before) { RecordingSettersKeepConsistent(before, enable); }
    }

    /** setRecordMissingFailuresEnabled: a no-op without an engine; it
        persists under the record key. */
    method SetRecordMissingFailuresEnabled(enable: bool)
      modifies this, atlantis
      ensures old(Valid()) ==> Valid()
      ensures View() == ToggleState.SetRecordMissingFailuresEnabled(old(View()), enable)
      ensures atlantis == old(atlantis)
    {
      ghost var before := View();
      if atlantis != null {
        atlantis.SetRecordMissingFailuresEnabled(enable);
        UpdateRecordingPreference(enable);
      }
      if Consistent(before) { RecordingSettersKeepConsistent(before, enable); }
    }

    /** isAtlantisEnabled. */
    function IsAtlantisEnabled(): (enabled: bool)
      reads this, atlantis
      ensures enabled == ToggleState.IsAtlantisEnabled(View())
    {
      atlantis != null && atlantis.running
    }

    /** isRecordMissingRequestsEnabled. */
    function IsRecordMissingRequestsEnabled(): (recording: bool)
      reads this, atlantis
      ensures recording == ToggleState.IsRecordMissingRequestsEnabled(View())
    {
      atlantis != null && atlantis.recordingMissingRequests
    }

    method UpdateConfigurationPreference(newConfiguration: Option<string>)
      modifies this`prefs
      ensures prefs == old(prefs).(configuration := newConfiguration)
    {
      prefs := prefs.(configuration := newConfiguration);
    }

    method UpdateEnabledPreference(newEnabledState: bool)
      modifies this`prefs
      ensures prefs == old(prefs).(enabled := Some(newEnabledState))
    {
      prefs := prefs.(enabled := Some(newEnabledState));
    }

    method UpdateRecordingPreference(newRecordingState: bool)
      modifies this`prefs
      ensures prefs == old(prefs).(recording := Some(newRecordingState))
    {
      prefs := prefs.(recording := Some(newRecordingState));
    }

    /** Declared by the service but called by none of its methods. */
    method UpdateRecordingFailuresPreference(newRecordingState: bool)
      modifies this`prefs
      ensures prefs == old(prefs).(recordingFailures := Some(newRecordingState))
    {
      prefs := prefs.(recordingFailures := Some(newRecordingState));
    }
  }
}
