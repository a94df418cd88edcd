/**
 * onStartCommand: the intent-driven command surface of AtlantisService.
 * An intent is decoded into at most one call of a setter; missing
 * arguments are filled from the persisted keys. The reply is always
 * START_STICKY.
 */
module Commands {
  import opened Wrappers
  import opened ConfigResolver
  import opened ToggleState

  const ActionSet: string := "echsylon.atlantis.action.SET"
  const ExtraFeature: string := "echsylon.atlantis.extra.FEATURE"
  const ExtraState: string := "echsylon.atlantis.extra.ENABLE"
  const ExtraData: string := "echsylon.atlantis.extra.DATA"

  const FeatureAtlantis: string := "ATLANTIS"
  const FeatureRecordMissingRequests: string := "RECORD"
  const FeatureRecordMissingFailures: string := "RECORD_FAILURES"

  /** Android's `Service.START_STICKY`. */
  const StartSticky: int := 1

  /** A value stored in an intent's extras bundle. */
  datatype Extra = StringExtra(text: Option<string>) | BooleanExtra(flag: bool) | OtherExtra

  datatype Intent = Intent(action: Option<string>, extras: map<string, Extra>)

  /** The string under `key`, None when missing, null or of another type
      (`getStringExtra`). */
  function StringExtraOf(intent: Intent, key: string): Option<string> {
    if key in intent.extras && intent.extras[key].StringExtra? then intent.extras[key].text else None
  }

  /** The boolean under `key`, None when missing or of another type. */
  function BooleanExtraOf(intent: Intent, key: string): Option<bool> {
    if key in intent.extras && intent.extras[key].BooleanExtra? then Some(intent.extras[key].flag) else None
  }

  /** The setter call an intent asks for. */
  datatype Command =
    | EnableAtlantis(enable: bool, configuration: Option<string>)
    | RecordMissingRequests(enable: bool)
    | RecordMissingFailures(enable: bool)
    | NoCommand

  /** The `ACTION_SET` switch of onStartCommand. `Bundle.getBoolean` and
      `Bundle.getString` fall back to their default for a missing, null or
      mistyped extra; the defaults are the persisted values. */
  function ParseCommand(intent: Intent, prefs: Preferences): (c: Command)
    ensures c.NoCommand? <==>
              intent.action != Some(ActionSet) ||
              StringExtraOf(intent, ExtraFeature) !in
                {Some(FeatureAtlantis), Some(FeatureRecordMissingRequests), Some(FeatureRecordMissingFailures)}
    ensures c.EnableAtlantis? <==>
              intent.action == Some(ActionSet) && StringExtraOf(intent, ExtraFeature) == Some(FeatureAtlantis)
    ensures c.RecordMissingRequests? <==>
              intent.action == Some(ActionSet) &&
              StringExtraOf(intent, ExtraFeature) == Some(FeatureRecordMissingRequests)
    ensures c.EnableAtlantis? ==>
              c.enable == BooleanExtraOf(intent, ExtraState).GetOr(BoolOr(prefs.enabled, false)) &&
              c.configuration == (if StringExtraOf(intent, ExtraData).Some?
                                  then StringExtraOf(intent, ExtraData) else prefs.configuration)
    ensures c.RecordMissingRequests? ==>
              c.enable == BooleanExtraOf(intent, ExtraState).GetOr(BoolOr(prefs.recording, false))
    ensures c.RecordMissingFailures? ==>
              c.enable == BooleanExtraOf(intent, ExtraState).GetOr(BoolOr(prefs.recordingFailures, false))
  {
    if intent.action != Some(ActionSet) then NoCommand
    else
      match StringExtraOf(intent, ExtraFeature)
      case None => NoCommand
      case Some(feature) =>
        if feature == FeatureAtlantis then
          var configuration := StringExtraOf(intent, ExtraData);
          EnableAtlantis(BooleanExtraOf(intent, ExtraState).GetOr(BoolOr(prefs.enabled, false)),
                         if configuration.Some? then configuration else prefs.configuration)
        else if feature == FeatureRecordMissingRequests then
          RecordMissingRequests(BooleanExtraOf(intent, ExtraState).GetOr(BoolOr(prefs.recording, false)))
        else if feature == FeatureRecordMissingFailures then
          RecordMissingFailures(BooleanExtraOf(intent, ExtraState).GetOr(BoolOr(prefs.recordingFailures, false)))
        else NoCommand
  }

  /** The state after onStartCommand has run the decoded command. */
  function Dispatch(s: State, host: Host, intent: Intent): (r: State)
    ensures ParseCommand(intent, s.prefs).NoCommand? ==> r == s
    ensures r.prefs.recordingFailures == s.prefs.recordingFailures
  {
    match ParseCommand(intent, s.prefs)
    case EnableAtlantis(enable, configuration) => SetAtlantisEnabled(s, host, enable, configuration)
    case RecordMissingRequests(enable) => SetRecordMissingRequestsEnabled(s, enable)
    case RecordMissingFailures(enable) => SetRecordMissingFailuresEnabled(s, enable)
    case NoCommand => s
  }

  lemma DispatchKeepsConsistent(s: State, host: Host, intent: Intent)
    requires Consistent(s)
    ensures Consistent(Dispatch(s, host, intent))
  {
  }

  /** A series of intents delivered one after another. */
  function Deliver(s: State, host: Host, intents: seq<Intent>): State
    decreases |intents|
  {
    if intents == [] then s else Deliver(Dispatch(s, host, intents[0]), host, intents[1..])
  }

  /** However many commands arrive, the record-failures key is never
      written and the engine and the persisted keys stay consistent. */
  lemma {:induction false} DeliverKeepsConsistent(s: State, host: Host, intents: seq<Intent>)
    requires Consistent(s)
    ensures Consistent(Deliver(s, host, intents))
    ensures Deliver(s, host, intents).prefs.recordingFailures == s.prefs.recordingFailures
    decreases |intents|
  {
    if intents != [] {
      DispatchKeepsConsistent(s, host, intents[0]);
      DeliverKeepsConsistent(Dispatch(s, host, intents[0]), host, intents[1..]);
    }
  }

  /** The intent the service's documentation shows: feature ATLANTIS,
      enable true, data "asset://config.json" asks to enable Atlantis from
      that asset whatever is persisted. */
  lemma DocumentedEnableIntent(prefs: Preferences)
    ensures var intent := Intent(Some(ActionSet), map[
              ExtraFeature := StringExtra(Some(FeatureAtlantis)),
              ExtraState := BooleanExtra(true),
              ExtraData := StringExtra(Some("asset://config.json"))]);
            ParseCommand(intent, prefs) == EnableAtlantis(true, Some("asset://config.json"))
  {
  }
}
