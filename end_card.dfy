/** EndCardDurations: how long each kind of end card keeps the experience open, and its minimum dwell. */
module EndCard {
  import opened Wrappers
  import opened JsonValues
  import opened ValidatedValue

  datatype EndCardDurations = EndCardDurations(
    staticEndCardExperienceDuration: real,
    interactiveEndCardExperienceDuration: real,
    minStaticEndCardDuration: real,
    minInteractiveEndCardDuration: real)
  {
    predicate Valid() {
      && staticEndCardExperienceDuration >= 0.0
      && interactiveEndCardExperienceDuration >= 0.0
      && minStaticEndCardDuration >= 0.0
      && minInteractiveEndCardDuration >= 0.0
    }
  }

  const StaticKey: string := "static"
  const InteractiveKey: string := "interactive"
  const MinStaticKey: string := "min_static"
  const MinInteractiveKey: string := "min_interactive"

  /** All zero for ordinary ads; `{5, 10, 0, 0}` for rewarded ones. */
  function Default(isRewarded: bool): (d: EndCardDurations)
    ensures d.Valid()
    // neither table imposes a minimum dwell on the end card
    ensures d.minStaticEndCardDuration == 0.0 && d.minInteractiveEndCardDuration == 0.0
    ensures !isRewarded ==> d.staticEndCardExperienceDuration == 0.0 && d.interactiveEndCardExperienceDuration == 0.0
    ensures isRewarded ==> d.staticEndCardExperienceDuration == 5.0 && d.interactiveEndCardExperienceDuration == 10.0
  {
    if isRewarded then EndCardDurations(5.0, 10.0, 0.0, 0.0) else EndCardDurations(0.0, 0.0, 0.0, 0.0)
  }

  /** Each of the four fields falls back to its own default; only a non-object fails. */
  function Decode(j: Json, isRewarded: bool): (r: Option<EndCardDurations>)
    ensures r.Some? <==> j.JObject?
    ensures r.Some? ==> r.value.Valid()
    ensures j == JObject(map[]) ==> r == Some(Default(isRewarded))
    ensures r.Some? ==>
      var d := Default(isRewarded);
      && IsDurationField(j, StaticKey, d.staticEndCardExperienceDuration, r.value.staticEndCardExperienceDuration)
      && IsDurationField(j, InteractiveKey, d.interactiveEndCardExperienceDuration,
                         r.value.interactiveEndCardExperienceDuration)
      && IsDurationField(j, MinStaticKey, d.minStaticEndCardDuration, r.value.minStaticEndCardDuration)
      && IsDurationField(j, MinInteractiveKey, d.minInteractiveEndCardDuration, r.value.minInteractiveEndCardDuration)
  {
    if j.JObject? then
      var d := Default(isRewarded);
      Some(EndCardDurations(
        NonNegativeOr(j, StaticKey, d.staticEndCardExperienceDuration),
        NonNegativeOr(j, InteractiveKey, d.interactiveEndCardExperienceDuration),
        NonNegativeOr(j, MinStaticKey, d.minStaticEndCardDuration),
        NonNegativeOr(j, MinInteractiveKey, d.minInteractiveEndCardDuration)))
    else
      None
  }

  /** All four fields are emitted as numbers under their own keys. */
  function Encode(d: EndCardDurations): (j: Json)
    ensures j.JObject? && j.fields.Keys == {StaticKey, InteractiveKey, MinStaticKey, MinInteractiveKey}
    ensures Lookup(j, StaticKey) == Some(JNumber(d.staticEndCardExperienceDuration))
    ensures Lookup(j, InteractiveKey) == Some(JNumber(d.interactiveEndCardExperienceDuration))
    ensures Lookup(j, MinStaticKey) == Some(JNumber(d.minStaticEndCardDuration))
    ensures Lookup(j, MinInteractiveKey) == Some(JNumber(d.minInteractiveEndCardDuration))
  {
    JObject(map[
      StaticKey := JNumber(d.staticEndCardExperienceDuration),
      InteractiveKey := JNumber(d.interactiveEndCardExperienceDuration),
      MinStaticKey := JNumber(d.minStaticEndCardDuration),
      MinInteractiveKey := JNumber(d.minInteractiveEndCardDuration)])
  }

  lemma RoundTrip(d: EndCardDurations, isRewarded: bool)
    requires d.Valid()
    ensures Decode(Encode(d), isRewarded) == Some(d)
  {
  }

  /** A rejected value under any of the four keys decodes exactly as if that key were absent. */
  lemma RejectedFieldActsAsAbsent(fields: map<string, Json>, key: string, v: Json, isRewarded: bool)
    requires key in {StaticKey, InteractiveKey, MinStaticKey, MinInteractiveKey}
    requires AsNonNegative(v).None?
    ensures Decode(JObject(fields[key := v]), isRewarded) == Decode(JObject(fields - {key}), isRewarded)
  {
  }

  /** An accepted value under one key sets that field and leaves the other three as they were. */
  lemma AcceptedFieldIsKept(fields: map<string, Json>, x: real, isRewarded: bool)
    requires x >= 0.0
    ensures Decode(JObject(fields[StaticKey := JNumber(x)]), isRewarded).value
         == Decode(JObject(fields), isRewarded).value.(staticEndCardExperienceDuration := x)
    ensures Decode(JObject(fields[InteractiveKey := JNumber(x)]), isRewarded).value
         == Decode(JObject(fields), isRewarded).value.(interactiveEndCardExperienceDuration := x)
    ensures Decode(JObject(fields[MinStaticKey := JNumber(x)]), isRewarded).value
         == Decode(JObject(fields), isRewarded).value.(minStaticEndCardDuration := x)
    ensures Decode(JObject(fields[MinInteractiveKey := JNumber(x)]), isRewarded).value
         == Decode(JObject(fields), isRewarded).value.(minInteractiveEndCardDuration := x)
  {
  }

  /** The payloads of the end-card duration tests and what each decodes to. */
  lemma DecodeExamples()
    ensures Decode(JObject(map["static" := JNumber(1.0), "interactive" := JNumber(2.0),
                               "min_static" := JNumber(3.0), "min_interactive" := JNumber(4.0)]), false)
         == Some(EndCardDurations(1.0, 2.0, 3.0, 4.0))
    ensures Decode(JObject(map[]), false) == Some(EndCardDurations(0.0, 0.0, 0.0, 0.0))
    ensures Decode(JObject(map["static" := JNumber(-1.0), "interactive" := JNumber(-1.0),
                               "min_static" := JNumber(-1.0), "min_interactive" := JNumber(-1.0)]), false)
         == Some(EndCardDurations(0.0, 0.0, 0.0, 0.0))
    ensures Decode(JObject(map["static" := JString("1"), "interactive" := JString("2"),
                               "min_static" := JString("3"), "min_interactive" := JString("4")]), false)
         == Some(EndCardDurations(0.0, 0.0, 0.0, 0.0))
    ensures Decode(JObject(map[]), true) == Some(EndCardDurations(5.0, 10.0, 0.0, 0.0))
  {
  }
}
