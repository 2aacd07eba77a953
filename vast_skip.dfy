/** VASTSkipThreshold: once a video lasts at least `skipMin` seconds it may be skipped `skipAfter` seconds in. */
module VastSkip {
  import opened Wrappers
  import opened JsonValues
  import opened ValidatedValue

  datatype VastSkipThreshold = VastSkipThreshold(skipMin: real, skipAfter: real)
  {
    /** The range every decoded threshold lies in. */
    predicate Valid() { skipMin >= 0.0 && skipAfter >= 0.0 }
  }

  const MinKey: string := "min"
  const AfterKey: string := "after"

  /** `{16, 5}` for ordinary ads, `{0, 30}` for rewarded ones. */
  function Default(isRewarded: bool): (t: VastSkipThreshold)
    ensures t.Valid()
    ensures !isRewarded ==> t.skipMin == 16.0 && t.skipAfter == 5.0
    // every rewarded video is governed: skippable after 30 seconds or at its end, whichever is first
    ensures isRewarded ==> t.skipMin == 0.0 && t.skipAfter == 30.0
  {
    if isRewarded then VastSkipThreshold(0.0, 30.0) else VastSkipThreshold(16.0, 5.0)
  }

  /**
   * Decoding never rejects an object: each field independently falls back to
   * the default table chosen by `isRewarded`. Anything but an object fails.
   */
  function Decode(j: Json, isRewarded: bool): (r: Option<VastSkipThreshold>)
    ensures r.Some? <==> j.JObject?
    ensures r.Some? ==> r.value.Valid()
    ensures j == JObject(map[]) ==> r == Some(Default(isRewarded))
    ensures r.Some? ==> IsDurationField(j, MinKey, Default(isRewarded).skipMin, r.value.skipMin)
    ensures r.Some? ==> IsDurationField(j, AfterKey, Default(isRewarded).skipAfter, r.value.skipAfter)
  {
    if j.JObject? then
      var d := Default(isRewarded);
      Some(VastSkipThreshold(NonNegativeOr(j, MinKey, d.skipMin), NonNegativeOr(j, AfterKey, d.skipAfter)))
    else
      None
  }

  /** Both fields are emitted as numbers under their own keys. */
  function Encode(t: VastSkipThreshold): (j: Json)
    ensures j.JObject? && j.fields.Keys == {MinKey, AfterKey}
    ensures Lookup(j, MinKey) == Some(JNumber(t.skipMin)) && Lookup(j, AfterKey) == Some(JNumber(t.skipAfter))
  {
    JObject(map[MinKey := JNumber(t.skipMin), AfterKey := JNumber(t.skipAfter)])
  }

  /** Encoding then decoding (under either flag) gives back every field. */
  lemma RoundTrip(t: VastSkipThreshold, isRewarded: bool)
    requires t.Valid()
    ensures Decode(Encode(t), isRewarded) == Some(t)
  {
  }

  /** A rejected value under either key decodes exactly as if that key were absent. */
  lemma RejectedFieldActsAsAbsent(fields: map<string, Json>, key: string, v: Json, isRewarded: bool)
    requires key == MinKey || key == AfterKey
    requires AsNonNegative(v).None?
    ensures Decode(JObject(fields[key := v]), isRewarded) == Decode(JObject(fields - {key}), isRewarded)
  {
  }

  /** An accepted value under one key sets that field and leaves the other as it was. */
  lemma AcceptedFieldIsKept(fields: map<string, Json>, x: real, isRewarded: bool)
    requires x >= 0.0
    ensures Decode(JObject(fields[MinKey := JNumber(x)]), isRewarded).value
         == Decode(JObject(fields), isRewarded).value.(skipMin := x)
    ensures Decode(JObject(fields[AfterKey := JNumber(x)]), isRewarded).value
         == Decode(JObject(fields), isRewarded).value.(skipAfter := x)
  {
  }

  /** The payloads of the threshold tests and what each decodes to. */
  lemma DecodeExamples()
    ensures Decode(JObject(map["min" := JNumber(30.0), "after" := JNumber(15.0)]), false)
         == Some(VastSkipThreshold(30.0, 15.0))
    ensures Decode(JObject(map[]), false) == Some(VastSkipThreshold(16.0, 5.0))
    ensures Decode(JObject(map["min" := JNumber(-1.0), "after" := JNumber(-1.0)]), false)
         == Some(VastSkipThreshold(16.0, 5.0))
    ensures Decode(JObject(map["min" := JString("5"), "after" := JString("10")]), false)
         == Some(VastSkipThreshold(16.0, 5.0))
    ensures Decode(JObject(map[]), true) == Some(VastSkipThreshold(0.0, 30.0))
  {
  }
}
