/** CreativeExperienceAdSettings: the timing of one stage (main ad or end card) of an ad experience. */
module AdSettings {
  import opened Wrappers
  import opened JsonValues
  import opened ValidatedValue

  datatype CreativeExperienceAdSettings = CreativeExperienceAdSettings(
    minTimeUntilNextAction: real,
    countdownTimerDelay: real,
    showCountdownTimer: bool)
  {
    predicate Valid() { minTimeUntilNextAction >= 0.0 && countdownTimerDelay >= 0.0 }
  }

  const MinNextActionKey: string := "min_next_action_secs"
  const CountdownDelayKey: string := "cd_delay_secs"
  const ShowCountdownKey: string := "show_cd"

  /** `{0, 0, true}` for ordinary ads; `{30, 0, true}` for rewarded ones. */
  function Default(isRewarded: bool): (a: CreativeExperienceAdSettings)
    ensures a.Valid() && a.showCountdownTimer
    ensures a.countdownTimerDelay == 0.0
    ensures a.minTimeUntilNextAction == (if isRewarded then 30.0 else 0.0)
  {
    if isRewarded then CreativeExperienceAdSettings(30.0, 0.0, true)
    else CreativeExperienceAdSettings(0.0, 0.0, true)
  }

  /**
   * `show_cd` is sent by the server as the integer 0 or 1 but re-encoded as a
   * boolean, so both forms are read; any other integer, a string or anything
   * else is rejected.
   */
  function AsCountdownFlag(v: Json): (r: Option<bool>)
    ensures r == Some(false) <==> v == JBool(false) || v == JNumber(0.0)
    ensures r == Some(true) <==> v == JBool(true) || v == JNumber(1.0)
  {
    match v
    case JBool(b) => Some(b)
    case JNumber(n) => if n == 0.0 then Some(false) else if n == 1.0 then Some(true) else None
    case _ => None
  }

  function Decode(j: Json, isRewarded: bool): (r: Option<CreativeExperienceAdSettings>)
    ensures r.Some? <==> j.JObject?
    ensures r.Some? ==> r.value.Valid()
    ensures j == JObject(map[]) ==> r == Some(Default(isRewarded))
    // only an explicit false or 0 switches the countdown off
    ensures r.Some? ==> (!r.value.showCountdownTimer <==>
              Lookup(j, ShowCountdownKey) in {Some(JBool(false)), Some(JNumber(0.0))})
    ensures r.Some? ==>
      var d := Default(isRewarded);
      && IsDurationField(j, MinNextActionKey, d.minTimeUntilNextAction, r.value.minTimeUntilNextAction)
      && IsDurationField(j, CountdownDelayKey, d.countdownTimerDelay, r.value.countdownTimerDelay)
  {
    if j.JObject? then
      var d := Default(isRewarded);
      Some(CreativeExperienceAdSettings(
        NonNegativeOr(j, MinNextActionKey, d.minTimeUntilNextAction),
        NonNegativeOr(j, CountdownDelayKey, d.countdownTimerDelay),
        DecodeOr(j, ShowCountdownKey, AsCountdownFlag, d.showCountdownTimer)))
    else
      None
  }

  /** Emits the canonical boolean form of `show_cd`. */
  function Encode(a: CreativeExperienceAdSettings): (j: Json)
    ensures j.JObject? && j.fields.Keys == {MinNextActionKey, CountdownDelayKey, ShowCountdownKey}
    ensures j.fields[ShowCountdownKey].JBool?
    ensures Lookup(j, MinNextActionKey) == Some(JNumber(a.minTimeUntilNextAction))
    ensures Lookup(j, CountdownDelayKey) == Some(JNumber(a.countdownTimerDelay))
    ensures Lookup(j, ShowCountdownKey) == Some(JBool(a.showCountdownTimer))
  {
    JObject(map[
      MinNextActionKey := JNumber(a.minTimeUntilNextAction),
      CountdownDelayKey := JNumber(a.countdownTimerDelay),
      ShowCountdownKey := JBool(a.showCountdownTimer)])
  }

  /** A rejected value under any of the three keys decodes exactly as if that key were absent. */
  lemma RejectedFieldActsAsAbsent(fields: map<string, Json>, key: string, v: Json, isRewarded: bool)
    requires key in {MinNextActionKey, CountdownDelayKey} ==> AsNonNegative(v).None?
    requires key == ShowCountdownKey ==> AsCountdownFlag(v).None?
    requires key in {MinNextActionKey, CountdownDelayKey, ShowCountdownKey}
    ensures Decode(JObject(fields[key := v]), isRewarded) == Decode(JObject(fields - {key}), isRewarded)
  {
  }

  /** An accepted duration under either key sets that field and leaves the other two as they were. */
  lemma AcceptedDurationIsKept(fields: map<string, Json>, x: real, isRewarded: bool)
    requires x >= 0.0
    ensures Decode(JObject(fields[MinNextActionKey := JNumber(x)]), isRewarded).value
         == Decode(JObject(fields), isRewarded).value.(minTimeUntilNextAction := x)
    ensures Decode(JObject(fields[CountdownDelayKey := JNumber(x)]), isRewarded).value
         == Decode(JObject(fields), isRewarded).value.(countdownTimerDelay := x)
  {
  }

  /** An accepted `show_cd` sets the countdown flag and leaves both durations as they were. */
  lemma AcceptedFlagIsKept(fields: map<string, Json>, v: Json, show: bool, isRewarded: bool)
    requires AsCountdownFlag(v) == Some(show)
    ensures Decode(JObject(fields[ShowCountdownKey := v]), isRewarded).value
         == Decode(JObject(fields), isRewarded).value.(showCountdownTimer := show)
  {
  }

  lemma RoundTrip(a: CreativeExperienceAdSettings, isRewarded: bool)
    requires a.Valid()
    ensures Decode(Encode(a), isRewarded) == Some(a)
  {
  }

  /** The payloads of the ad-settings tests and what each decodes to. */
  lemma DecodeExamples()
    ensures Decode(JObject(map["min_next_action_secs" := JNumber(10.0), "cd_delay_secs" := JNumber(5.0),
                               "show_cd" := JNumber(0.0)]), false)
         == Some(CreativeExperienceAdSettings(10.0, 5.0, false))
    ensures Decode(JObject(map[]), false) == Some(CreativeExperienceAdSettings(0.0, 0.0, true))
    ensures Decode(JObject(map["min_next_action_secs" := JNumber(-1.0), "cd_delay_secs" := JNumber(-1.0)]), false)
         == Some(CreativeExperienceAdSettings(0.0, 0.0, true))
    ensures Decode(JObject(map["min_next_action_secs" := JString("hello"), "cd_delay_secs" := JString("world")]), false)
         == Some(CreativeExperienceAdSettings(0.0, 0.0, true))
    ensures Decode(JObject(map["show_cd" := JBool(false)]), false) == Some(CreativeExperienceAdSettings(0.0, 0.0, false))
    ensures Decode(JObject(map["show_cd" := JNumber(2.0)]), false) == Some(CreativeExperienceAdSettings(0.0, 0.0, true))
    ensures Decode(JObject(map["show_cd" := JString("0")]), false) == Some(CreativeExperienceAdSettings(0.0, 0.0, true))
    ensures Decode(JObject(map[]), true) == Some(CreativeExperienceAdSettings(30.0, 0.0, true))
  {
  }
}
