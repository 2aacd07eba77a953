/**
 * CreativeExperienceSettings: the aggregate decoded once per ad-unit payload.
 * The rewarded flag travels beside the payload, never inside it.
 */
module ExperienceSettings {
  import opened Wrappers
  import opened JsonValues
  import opened ValidatedValue
  import VastSkip
  import EndCard
  import AdSettings

  type VastSkipThreshold = VastSkip.VastSkipThreshold
  type EndCardDurations = EndCard.EndCardDurations
  type CreativeExperienceAdSettings = AdSettings.CreativeExperienceAdSettings

  /**
   * The memberwise form takes the main ad's and the end card's settings
   * separately; they are seen as `AdSettings()[0]` and `AdSettings()[1]`.
   * Construction accepts any threshold list, an empty one included.
   */
  datatype CreativeExperienceSettings = CreativeExperienceSettings(
    settingsHash: Option<string>,
    maxAdExperienceTime: real,
    vastSkipThresholds: seq<VastSkipThreshold>,
    endCardDurations: EndCardDurations,
    mainAd: CreativeExperienceAdSettings,
    endCard: CreativeExperienceAdSettings)
  {
    function AdSettings(): (r: seq<CreativeExperienceAdSettings>)
      ensures |r| == 2 && r[0] == mainAd && r[1] == endCard
    {
      [mainAd, endCard]
    }

    /** Every field in the range decoding produces; a value built memberwise may have no thresholds. */
    predicate InRange() {
      && maxAdExperienceTime >= 0.0
      && (forall i :: 0 <= i < |vastSkipThresholds| ==> vastSkipThresholds[i].Valid())
      && endCardDurations.Valid()
      && mainAd.Valid()
      && endCard.Valid()
    }

    /** What decoding guarantees: every field in range, at least one threshold. */
    predicate Valid() {
      InRange() && |vastSkipThresholds| >= 1
    }
  }

  const HashKey: string := "hash"
  const MaxAdTimeKey: string := "max_ad_time_secs"
  const ThresholdsKey: string := "video_skip_thresholds_secs"
  const EndCardDurationsKey: string := "ec_durs_secs"
  const MainAdKey: string := "main_ad"
  const EndCardKey: string := "end_card"

  /** 0 for ordinary ads, 30 seconds for rewarded ones. */
  function DefaultMaxAdExperienceTime(isRewarded: bool): (t: real)
    ensures t >= 0.0
    // an ordinary ad has no experience cap unless the payload sets one
    ensures !isRewarded ==> t == 0.0
    ensures isRewarded ==> t == 30.0
  {
    if isRewarded then 30.0 else 0.0
  }

  /** Decodes every element of a threshold array; fails if any element is not an object. */
  function DecodeThresholdList(items: seq<Json>, isRewarded: bool): (r: Option<seq<VastSkipThreshold>>)
    ensures r.Some? <==> forall i :: 0 <= i < |items| ==> items[i].JObject?
    ensures r.Some? ==> |r.value| == |items|
    ensures r.Some? ==> forall i :: 0 <= i < |items| ==> Some(r.value[i]) == VastSkip.Decode(items[i], isRewarded)
  {
    if items == [] then Some([])
    else
      match (VastSkip.Decode(items[0], isRewarded), DecodeThresholdList(items[1..], isRewarded))
      case (Some(t), Some(ts)) => Some([t] + ts)
      case _ => None
  }

  /** The thresholds key accepts only a non-empty array of objects. */
  function AsThresholds(v: Json, isRewarded: bool): (r: Option<seq<VastSkipThreshold>>)
    ensures r.Some? <==> v.JArray? && |v.items| > 0 && DecodeThresholdList(v.items, isRewarded).Some?
    ensures r.Some? ==> r == DecodeThresholdList(v.items, isRewarded)
    ensures r.Some? ==> |r.value| >= 1 && forall i :: 0 <= i < |r.value| ==> r.value[i].Valid()
  {
    if v.JArray? && |v.items| > 0 then DecodeThresholdList(v.items, isRewarded) else None
  }

  function AsHash(v: Json): (r: Option<Option<string>>)
    ensures r.Some? <==> v.JString?
    ensures r.Some? ==> r.value == Some(v.s)
  {
    if v.JString? then Some(Some(v.s)) else None
  }

  /** `hash`: any string; no hash otherwise. */
  function DecodeHash(j: Json): (r: Option<string>)
    ensures r.Some? <==> Lookup(j, HashKey).Some? && Lookup(j, HashKey).value.JString?
    ensures r.Some? ==> Lookup(j, HashKey).value == JString(r.value)
  {
    DecodeOr(j, HashKey, AsHash, None)
  }

  /** `video_skip_thresholds_secs`: a non-empty array of objects, else the one default threshold. */
  function DecodeThresholds(j: Json, isRewarded: bool): (r: seq<VastSkipThreshold>)
    ensures |r| >= 1 && forall i :: 0 <= i < |r| ==> r[i].Valid()
    ensures (Lookup(j, ThresholdsKey).Some? && AsThresholds(Lookup(j, ThresholdsKey).value, isRewarded).Some?)
            || r == [VastSkip.Default(isRewarded)]
    ensures Lookup(j, ThresholdsKey).Some? && AsThresholds(Lookup(j, ThresholdsKey).value, isRewarded).Some? ==>
              r == AsThresholds(Lookup(j, ThresholdsKey).value, isRewarded).value
  {
    DecodeOr(j, ThresholdsKey, v => AsThresholds(v, isRewarded), [VastSkip.Default(isRewarded)])
  }

  /** `ec_durs_secs`: an object decoded field by field, else the default durations. */
  function DecodeEndCardDurations(j: Json, isRewarded: bool): (r: EndCardDurations)
    ensures r.Valid()
    ensures Lookup(j, EndCardDurationsKey).Some? && Lookup(j, EndCardDurationsKey).value.JObject? ==>
              Some(r) == EndCard.Decode(Lookup(j, EndCardDurationsKey).value, isRewarded)
    ensures !(Lookup(j, EndCardDurationsKey).Some? && Lookup(j, EndCardDurationsKey).value.JObject?) ==>
              r == EndCard.Default(isRewarded)
  {
    DecodeOr(j, EndCardDurationsKey, v => EndCard.Decode(v, isRewarded), EndCard.Default(isRewarded))
  }

  /** `main_ad` or `end_card`: an object decoded field by field, else the default ad settings. */
  function DecodeStage(j: Json, key: string, isRewarded: bool): (r: CreativeExperienceAdSettings)
    ensures r.Valid()
    ensures Lookup(j, key).Some? && Lookup(j, key).value.JObject? ==>
              Some(r) == AdSettings.Decode(Lookup(j, key).value, isRewarded)
    ensures !(Lookup(j, key).Some? && Lookup(j, key).value.JObject?) ==> r == AdSettings.Default(isRewarded)
  {
    DecodeOr(j, key, v => AdSettings.Decode(v, isRewarded), AdSettings.Default(isRewarded))
  }

  /**
   * Never fails on an object: every field resolves on its own to the payload's
   * value or to the default the rewarded flag selects, except the end card's
   * ad settings, which always use the ordinary (non-rewarded) table.
   */
  function Decode(j: Json, isRewarded: bool): (r: Option<CreativeExperienceSettings>)
    ensures r.Some? <==> j.JObject?
    ensures r.Some? ==> r.value.Valid()
    ensures r.Some? ==> r.value.settingsHash == DecodeHash(j)
    ensures r.Some? ==> IsDurationField(j, MaxAdTimeKey, DefaultMaxAdExperienceTime(isRewarded),
                                        r.value.maxAdExperienceTime)
    ensures r.Some? ==> r.value.vastSkipThresholds == DecodeThresholds(j, isRewarded)
    ensures r.Some? ==> r.value.endCardDurations == DecodeEndCardDurations(j, isRewarded)
    ensures r.Some? ==> r.value.mainAd == DecodeStage(j, MainAdKey, isRewarded)
    ensures r.Some? ==> r.value.endCard == DecodeStage(j, EndCardKey, false)
  {
    if j.JObject? then
      Some(CreativeExperienceSettings(
        DecodeHash(j),
        NonNegativeOr(j, MaxAdTimeKey, DefaultMaxAdExperienceTime(isRewarded)),
        DecodeThresholds(j, isRewarded),
        DecodeEndCardDurations(j, isRewarded),
        DecodeStage(j, MainAdKey, isRewarded),
        DecodeStage(j, EndCardKey, false)))
    else
      None
  }

  /** Every threshold as an object, in list order. */
  function EncodeThresholdList(ts: seq<VastSkipThreshold>): (items: seq<Json>)
    ensures |items| == |ts|
    ensures forall i :: 0 <= i < |ts| ==> items[i] == VastSkip.Encode(ts[i])
  {
    if ts == [] then [] else [VastSkip.Encode(ts[0])] + EncodeThresholdList(ts[1..])
  }

  /** Emits every field under its payload key; an absent hash is left out. */
  function Encode(s: CreativeExperienceSettings): (j: Json)
    ensures j.JObject?
    ensures HashKey in j.fields <==> s.settingsHash.Some?
  {
    var fields := map[
      MaxAdTimeKey := JNumber(s.maxAdExperienceTime),
      ThresholdsKey := JArray(EncodeThresholdList(s.vastSkipThresholds)),
      EndCardDurationsKey := EndCard.Encode(s.endCardDurations),
      MainAdKey := AdSettings.Encode(s.mainAd),
      EndCardKey := AdSettings.Encode(s.endCard)];
    match s.settingsHash
    case Some(h) => JObject(fields[HashKey := JString(h)])
    case None => JObject(fields)
  }

  lemma ThresholdListRoundTrip(ts: seq<VastSkipThreshold>, isRewarded: bool)
    requires forall i :: 0 <= i < |ts| ==> ts[i].Valid()
    ensures DecodeThresholdList(EncodeThresholdList(ts), isRewarded) == Some(ts)
  {
    var items := EncodeThresholdList(ts);
    assert forall i :: 0 <= i < |items| ==> items[i].JObject?;
    var r := DecodeThresholdList(items, isRewarded).value;
    forall i | 0 <= i < |ts|
      ensures r[i] == ts[i]
    {
      VastSkip.RoundTrip(ts[i], isRewarded);
    }
    assert r == ts;
  }

  /** Where the hash, the maximum and the thresholds sit in the encoding of `s`. */
  lemma EncodeLookupsScalars(s: CreativeExperienceSettings)
    ensures s.settingsHash.Some? ==> Lookup(Encode(s), HashKey) == Some(JString(s.settingsHash.value))
    ensures s.settingsHash.None? ==> Lookup(Encode(s), HashKey) == None
    ensures Lookup(Encode(s), MaxAdTimeKey) == Some(JNumber(s.maxAdExperienceTime))
    ensures Lookup(Encode(s), ThresholdsKey) == Some(JArray(EncodeThresholdList(s.vastSkipThresholds)))
  {
  }

  /** Where the end card durations and the two stages' settings sit in the encoding of `s`. */
  lemma EncodeLookupsObjects(s: CreativeExperienceSettings)
    ensures Lookup(Encode(s), EndCardDurationsKey) == Some(EndCard.Encode(s.endCardDurations))
    ensures Lookup(Encode(s), MainAdKey) == Some(AdSettings.Encode(s.mainAd))
    ensures Lookup(Encode(s), EndCardKey) == Some(AdSettings.Encode(s.endCard))
  {
  }

  /** Encoding a decodable value and decoding it again, under either flag, gives it back. */
  lemma RoundTrip(s: CreativeExperienceSettings, isRewarded: bool)
    requires s.Valid()
    ensures Decode(Encode(s), isRewarded) == Some(s)
  {
    var j := Encode(s);
    EncodeLookupsScalars(s);
    EncodeLookupsObjects(s);
    ThresholdListRoundTrip(s.vastSkipThresholds, isRewarded);
    assert DecodeThresholds(j, isRewarded) == s.vastSkipThresholds;
    EndCard.RoundTrip(s.endCardDurations, isRewarded);
    assert DecodeEndCardDurations(j, isRewarded) == s.endCardDurations;
    AdSettings.RoundTrip(s.mainAd, isRewarded);
    assert DecodeStage(j, MainAdKey, isRewarded) == s.mainAd;
    AdSettings.RoundTrip(s.endCard, false);
    assert DecodeStage(j, EndCardKey, false) == s.endCard;
    assert DecodeHash(j) == s.settingsHash;
    assert NonNegativeOr(j, MaxAdTimeKey, DefaultMaxAdExperienceTime(isRewarded)) == s.maxAdExperienceTime;
  }

  /** Re-encoding what was decoded changes nothing. */
  lemma DecodeEncodeIdempotent(j: Json, isRewarded: bool, redecodeRewarded: bool)
    requires j.JObject?
    ensures Decode(Encode(Decode(j, isRewarded).value), redecodeRewarded) == Decode(j, isRewarded)
  {
    RoundTrip(Decode(j, isRewarded).value, redecodeRewarded);
  }

  /** The end card's ad settings never depend on the rewarded flag. */
  lemma EndCardIgnoresRewarded(j: Json)
    requires j.JObject?
    ensures Decode(j, true).value.endCard == Decode(j, false).value.endCard
  {
  }

  /** The rewarded flag changes only defaults: a fully specified payload decodes the same under both. */
  lemma FlagOnlySelectsDefaults(s: CreativeExperienceSettings)
    requires s.Valid()
    ensures Decode(Encode(s), true) == Decode(Encode(s), false)
  {
    RoundTrip(s, true);
    RoundTrip(s, false);
  }

  /** The threshold array of the valid-data test decodes element by element, in payload order. */
  lemma ThresholdArrayExample(thresholds: seq<Json>)
    requires thresholds == [JObject(map["min" := JNumber(5.0), "after" := JNumber(10.0)]),
                            JObject(map["min" := JNumber(15.0), "after" := JNumber(20.0)])]
    ensures DecodeThresholdList(thresholds, false)
         == Some([VastSkip.VastSkipThreshold(5.0, 10.0), VastSkip.VastSkipThreshold(15.0, 20.0)])
  {
    var decoded := DecodeThresholdList(thresholds, false);
    assert thresholds[0].JObject? && thresholds[1].JObject?;
    assert Some(decoded.value[0]) == VastSkip.Decode(thresholds[0], false);
    assert Some(decoded.value[1]) == VastSkip.Decode(thresholds[1], false);
    assert decoded.value == [VastSkip.VastSkipThreshold(5.0, 10.0), VastSkip.VastSkipThreshold(15.0, 20.0)];
  }

  /** The payload of the aggregate's valid-data test, assembled from its parts. */
  predicate IsValidTestPayload(thresholds: seq<Json>, durations: Json, mainAd: Json, endCard: Json, payload: Json)
  {
    && thresholds == [JObject(map["min" := JNumber(5.0), "after" := JNumber(10.0)]),
                      JObject(map["min" := JNumber(15.0), "after" := JNumber(20.0)])]
    && durations == JObject(map["static" := JNumber(1.0), "interactive" := JNumber(2.0),
                                "min_static" := JNumber(3.0), "min_interactive" := JNumber(4.0)])
    && mainAd == JObject(map["min_next_action_secs" := JNumber(10.0), "cd_delay_secs" := JNumber(5.0),
                             "show_cd" := JNumber(0.0)])
    && endCard == JObject(map["min_next_action_secs" := JNumber(20.0), "cd_delay_secs" := JNumber(15.0),
                              "show_cd" := JNumber(0.0)])
    && payload == JObject(map["hash" := JString("1234"), "max_ad_time_secs" := JNumber(30.0),
                              "video_skip_thresholds_secs" := JArray(thresholds), "ec_durs_secs" := durations,
                              "main_ad" := mainAd, "end_card" := endCard])
  }

  lemma ValidExampleScalars(thresholds: seq<Json>, durations: Json, mainAd: Json, endCard: Json, payload: Json)
    requires IsValidTestPayload(thresholds, durations, mainAd, endCard, payload)
    ensures DecodeHash(payload) == Some("1234")
    ensures NonNegativeOr(payload, MaxAdTimeKey, DefaultMaxAdExperienceTime(false)) == 30.0
    ensures DecodeThresholds(payload, false)
         == [VastSkip.VastSkipThreshold(5.0, 10.0), VastSkip.VastSkipThreshold(15.0, 20.0)]
  {
    ThresholdArrayExample(thresholds);
    assert Lookup(payload, ThresholdsKey) == Some(JArray(thresholds));
  }

  lemma ValidExampleDurations(thresholds: seq<Json>, durations: Json, mainAd: Json, endCard: Json, payload: Json)
    requires IsValidTestPayload(thresholds, durations, mainAd, endCard, payload)
    ensures DecodeEndCardDurations(payload, false) == EndCard.EndCardDurations(1.0, 2.0, 3.0, 4.0)
  {
    assert Lookup(payload, EndCardDurationsKey) == Some(durations);
    assert EndCard.Decode(durations, false) == Some(EndCard.EndCardDurations(1.0, 2.0, 3.0, 4.0));
  }

  lemma ValidExampleMainAd(thresholds: seq<Json>, durations: Json, mainAd: Json, endCard: Json, payload: Json)
    requires IsValidTestPayload(thresholds, durations, mainAd, endCard, payload)
    ensures DecodeStage(payload, MainAdKey, false) == AdSettings.CreativeExperienceAdSettings(10.0, 5.0, false)
  {
    assert Lookup(payload, MainAdKey) == Some(mainAd);
    assert AdSettings.Decode(mainAd, false) == Some(AdSettings.CreativeExperienceAdSettings(10.0, 5.0, false));
  }

  lemma ValidExampleEndCard(thresholds: seq<Json>, durations: Json, mainAd: Json, endCard: Json, payload: Json)
    requires IsValidTestPayload(thresholds, durations, mainAd, endCard, payload)
    ensures DecodeStage(payload, EndCardKey, false) == AdSettings.CreativeExperienceAdSettings(20.0, 15.0, false)
  {
    assert Lookup(payload, EndCardKey) == Some(endCard);
    assert AdSettings.Decode(endCard, false) == Some(AdSettings.CreativeExperienceAdSettings(20.0, 15.0, false));
  }

  /** The aggregate payload of the valid-data test decodes every field, thresholds in payload order. */
  lemma DecodeValidExample(thresholds: seq<Json>, durations: Json, mainAd: Json, endCard: Json, payload: Json)
    requires IsValidTestPayload(thresholds, durations, mainAd, endCard, payload)
    ensures Decode(payload, false) == Some(CreativeExperienceSettings(
      Some("1234"), 30.0,
      [VastSkip.VastSkipThreshold(5.0, 10.0), VastSkip.VastSkipThreshold(15.0, 20.0)],
      EndCard.EndCardDurations(1.0, 2.0, 3.0, 4.0),
      AdSettings.CreativeExperienceAdSettings(10.0, 5.0, false),
      AdSettings.CreativeExperienceAdSettings(20.0, 15.0, false)))
  {
    ValidExampleScalars(thresholds, durations, mainAd, endCard, payload);
    ValidExampleDurations(thresholds, durations, mainAd, endCard, payload);
    ValidExampleMainAd(thresholds, durations, mainAd, endCard, payload);
    ValidExampleEndCard(thresholds, durations, mainAd, endCard, payload);
  }

  /** Encoding the decoded valid-data payload and decoding it again reproduces every field. */
  lemma EncodeDecodeExample(thresholds: seq<Json>, durations: Json, mainAd: Json, endCard: Json, payload: Json)
    requires IsValidTestPayload(thresholds, durations, mainAd, endCard, payload)
    ensures Decode(Encode(Decode(payload, false).value), false) == Decode(payload, false)
  {
    DecodeEncodeIdempotent(payload, false, false);
  }

  /** Only the end card is sent: the main ad takes the default and the end card is still read. */
  lemma DecodeMissingMainAdExample()
    ensures
      var stage := JObject(map["min_next_action_secs" := JNumber(20.0), "cd_delay_secs" := JNumber(15.0),
                               "show_cd" := JNumber(0.0)]);
      var r := Decode(JObject(map["end_card" := stage]), false).value;
      && |r.AdSettings()| == 2
      && r.mainAd == AdSettings.Default(false)
      && r.endCard == AdSettings.CreativeExperienceAdSettings(20.0, 15.0, false)
  {
    var stage := JObject(map["min_next_action_secs" := JNumber(20.0), "cd_delay_secs" := JNumber(15.0),
                             "show_cd" := JNumber(0.0)]);
    assert AdSettings.Decode(stage, false) == Some(AdSettings.CreativeExperienceAdSettings(20.0, 15.0, false));
  }

  /** Only the main ad is sent: it is read and the end card takes the default. */
  lemma DecodeMissingEndCardExample()
    ensures
      var stage := JObject(map["min_next_action_secs" := JNumber(10.0), "cd_delay_secs" := JNumber(5.0),
                               "show_cd" := JNumber(0.0)]);
      var r := Decode(JObject(map["main_ad" := stage]), false).value;
      && |r.AdSettings()| == 2
      && r.mainAd == AdSettings.CreativeExperienceAdSettings(10.0, 5.0, false)
      && r.endCard == AdSettings.Default(false)
  {
    var stage := JObject(map["min_next_action_secs" := JNumber(10.0), "cd_delay_secs" := JNumber(5.0),
                             "show_cd" := JNumber(0.0)]);
    assert AdSettings.Decode(stage, false) == Some(AdSettings.CreativeExperienceAdSettings(10.0, 5.0, false));
  }

  /** An empty payload, an empty threshold array and a negative maximum all fall back to the defaults. */
  lemma DecodeEmptyExamples()
    ensures Decode(JObject(map[]), false) == Some(CreativeExperienceSettings(
      None, 0.0, [VastSkip.Default(false)], EndCard.Default(false), AdSettings.Default(false), AdSettings.Default(false)))
    ensures Decode(JObject(map["video_skip_thresholds_secs" := JArray([])]), false).value.vastSkipThresholds
         == [VastSkip.Default(false)]
    ensures Decode(JObject(map["max_ad_time_secs" := JNumber(-1.0)]), false).value.maxAdExperienceTime == 0.0
  {
  }

  /** Every key with the wrong type decodes as if the payload were empty. */
  lemma DecodeWrongTypesExample()
    ensures
      var wrongTypes := JObject(map[
        "hash" := JNumber(1234.0), "max_ad_time_secs" := JString("30"),
        "video_skip_thresholds_secs" := JArray([JString("test")]), "ec_durs_secs" := JString("test"),
        "main_ad" := JString("test"), "end_card" := JString("test")]);
      Decode(wrongTypes, false) == Decode(JObject(map[]), false)
  {
    var wrongTypes := JObject(map[
      "hash" := JNumber(1234.0), "max_ad_time_secs" := JString("30"),
      "video_skip_thresholds_secs" := JArray([JString("test")]), "ec_durs_secs" := JString("test"),
      "main_ad" := JString("test"), "end_card" := JString("test")]);
    assert DecodeThresholdList([JString("test")], false).None?;
    assert DecodeThresholds(wrongTypes, false) == [VastSkip.Default(false)];
    assert DecodeHash(wrongTypes).None?;
    assert DecodeEndCardDurations(wrongTypes, false) == EndCard.Default(false);
    assert DecodeStage(wrongTypes, MainAdKey, false) == AdSettings.Default(false);
    assert DecodeStage(wrongTypes, EndCardKey, false) == AdSettings.Default(false);
  }

  /** A rewarded empty payload takes every rewarded default except the end card's ad settings. */
  lemma DecodeRewardedEmptyExample()
    ensures Decode(JObject(map[]), true) == Some(CreativeExperienceSettings(
      None, 30.0, [VastSkip.Default(true)], EndCard.Default(true), AdSettings.Default(true), AdSettings.Default(false)))
    ensures Decode(JObject(map[]), true).value.endCard != AdSettings.Default(true)
  {
  }
}
