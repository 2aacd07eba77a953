# Creative Experiences timing and configuration engine

A Dafny model of the Creative Experiences core of the MoPub iOS SDK: the
settings that decide, for an ad experience made of a main ad and an optional
end card, when the skip or close action becomes available, what the countdown
shows, and when the whole experience closes.

This model captures the behaviour asserted by the XCTest files under
`MoPubSDKSwiftTests/CreativeExperiences/`, value by value, and every assertion
there is restated as a lemma here.

- `wrappers.dfy` (`Wrappers`): `Option`, used for absent fields, failed decodes and cache misses.
- `json_values.dfy` (`JsonValues`): a payload after lexing (`JNull`, `JBool`, `JNumber`, `JString`, `JArray`, `JObject`).
- `validated_value.dfy` (`ValidatedValue`): the one "take the payload's value if acceptable, else the default" rule every field uses.
- `vast_skip.dfy`, `end_card.dfy`, `ad_settings.dfy`: the three leaf value types, each with its default tables (ordinary and rewarded), `Decode`, `Encode` and the round trip.
- `experience_settings.dfy` (`ExperienceSettings`): the aggregate, its decoding with per-field fallback, the list defaulting of the skip thresholds and the end card's rewarded asymmetry.
- `formulas.dfy` (`Formulas`): `closeAfterDuration`, both `timeUntilNextActionDuration` overloads and `countdownTime` as functions of an immutable settings value.
- `manager.dfy` (`Manager`): the per-ad-unit settings store as a class over a `map`.

Times are exact `real` seconds. The rewarded flag is a parameter of every
decode, as the decoder's user-info entry is in the source (it defaults to false
in the test helper). Decoding a non-object yields `None`, as a throwing decode
yields nil in the test helper. A nested object that fails to decode falls back
to its default.

The countdown follows one rule that satisfies every assertion in
`CreativeExperiencesFormulasTests.swift`. A VAST video followed by an end card
has two stages; anything else has one. An index outside the stages gives 0. Each
stage has its own minimum. For a non-VAST ad it is the ad settings'
`minTimeUntilNextAction`. For a VAST video it is the video's skip time, and for
its end card the end card's minimum dwell. A stage before the last shows its
minimum. The last stage shows `max(minimum, closeAfter - elapsed)`, with
elapsed clamped at 0, when `maxAdExperienceTime` is positive, and only its
minimum otherwise. The tests force this reading: at
`CreativeExperiencesFormulasTests.swift:142-147` the end card shows 5, its
minimum dwell, although its ad settings' `minTimeUntilNextAction` is 20; and at
`:79` a video with no end card and `maxAdExperienceTime` 0 shows 5, its skip
time, not the 30 seconds until it ends.

## Model

| member | source | states |
|---|---|---|
| `ValidatedValue.DecodeOr` | MoPubSDKSwiftTests/CreativeExperiences/CreativeExperienceSettingsTests.swift:235-260 | a field is the payload's value when its type and range are accepted, otherwise the default |
| `ValidatedValue.NonNegativeOr` | MoPubSDKSwiftTests/CreativeExperiences/EndCardDurationsTests.swift:82-122 | a duration field is the payload's number under its key when that is not negative, and the default for a missing, negative or non-number value |
| `ValidatedValue.InvalidActsAsAbsent` | MoPubSDKSwiftTests/CreativeExperiences/VASTSkipThresholdTests.swift:72-104 | a negative or wrong-typed value decodes exactly as if its key were missing |
| `ValidatedValue.AcceptedIsKept` | MoPubSDKSwiftTests/CreativeExperiences/VASTSkipThresholdTests.swift:13-28 | an acceptable value is decoded as sent, whatever the default |
| `VastSkip.Default` | MoPubSDKSwiftTests/CreativeExperiences/VASTSkipThresholdTests.swift:57-119 | the ordinary table is {16,5}; the rewarded one is {0,30}, which governs every video |
| `VastSkip.Decode` | MoPubSDKSwiftTests/CreativeExperiences/VASTSkipThresholdTests.swift:57-119 | any object decodes; `min` and `after` are each the payload's non-negative number, else that field's default, independently; an empty object gives the flag's table |
| `VastSkip.RejectedFieldActsAsAbsent` | MoPubSDKSwiftTests/CreativeExperiences/VASTSkipThresholdTests.swift:72-104 | a negative or non-number value under either key decodes exactly as if the key were missing |
| `VastSkip.AcceptedFieldIsKept` | MoPubSDKSwiftTests/CreativeExperiences/VASTSkipThresholdTests.swift:13-28 | a non-negative number under one key becomes that field and leaves the other unchanged |
| `VastSkip.Encode` | MoPubSDKSwiftTests/CreativeExperiences/VASTSkipThresholdTests.swift:30-55 | both fields are emitted as numbers under `min` and `after` and nothing else |
| `VastSkip.RoundTrip` | MoPubSDKSwiftTests/CreativeExperiences/VASTSkipThresholdTests.swift:30-55 | encoding then decoding a valid threshold gives it back under either flag |
| `VastSkip.DecodeExamples` | MoPubSDKSwiftTests/CreativeExperiences/VASTSkipThresholdTests.swift:13-119 | each test payload (valid, empty, negative, strings, rewarded) decodes to the asserted threshold |
| `EndCard.Default` | MoPubSDKSwiftTests/CreativeExperiences/EndCardDurationsTests.swift:65-139 | the ordinary table is all zeros; the rewarded one keeps a static end card 5 and an interactive one 10 seconds; neither sets a minimum dwell |
| `EndCard.Decode` | MoPubSDKSwiftTests/CreativeExperiences/EndCardDurationsTests.swift:65-139 | any object decodes; each of the four durations is the payload's non-negative number under its key, else that field's default, independently |
| `EndCard.RejectedFieldActsAsAbsent` | MoPubSDKSwiftTests/CreativeExperiences/EndCardDurationsTests.swift:82-122 | a negative or non-number value under any of the four keys decodes exactly as if the key were missing |
| `EndCard.AcceptedFieldIsKept` | MoPubSDKSwiftTests/CreativeExperiences/EndCardDurationsTests.swift:13-32 | a non-negative number under one key becomes that field and leaves the other three unchanged |
| `EndCard.Encode` | MoPubSDKSwiftTests/CreativeExperiences/EndCardDurationsTests.swift:34-63 | the four fields are emitted as numbers under their four keys and nothing else |
| `EndCard.RoundTrip` | MoPubSDKSwiftTests/CreativeExperiences/EndCardDurationsTests.swift:34-63 | encoding then decoding valid durations gives all four back |
| `EndCard.DecodeExamples` | MoPubSDKSwiftTests/CreativeExperiences/EndCardDurationsTests.swift:13-139 | each test payload decodes to the asserted durations |
| `AdSettings.AsCountdownFlag` | MoPubSDKSwiftTests/CreativeExperiences/CreativeExperienceAdSettingsTests.swift:113-160 | `show_cd` is false exactly for `false` or 0 and true exactly for `true` or 1; everything else is rejected |
| `AdSettings.Default` | MoPubSDKSwiftTests/CreativeExperiences/CreativeExperienceAdSettingsTests.swift:63-176 | the countdown is shown with no delay; a rewarded stage waits 30 seconds before its next action, an ordinary one none |
| `AdSettings.Decode` | MoPubSDKSwiftTests/CreativeExperiences/CreativeExperienceAdSettingsTests.swift:63-176 | any object decodes; each duration is the payload's non-negative number, else its default, independently; the countdown is off exactly when `show_cd` is `false` or 0 |
| `AdSettings.RejectedFieldActsAsAbsent` | MoPubSDKSwiftTests/CreativeExperiences/CreativeExperienceAdSettingsTests.swift:79-160 | a negative or non-number duration, or a `show_cd` other than a boolean, 0 or 1, decodes exactly as if the key were missing |
| `AdSettings.AcceptedDurationIsKept` | MoPubSDKSwiftTests/CreativeExperiences/CreativeExperienceAdSettingsTests.swift:13-32 | a non-negative number under either duration key becomes that field and leaves the other two unchanged |
| `AdSettings.AcceptedFlagIsKept` | MoPubSDKSwiftTests/CreativeExperiences/CreativeExperienceAdSettingsTests.swift:113-128 | a boolean, 0 or 1 under `show_cd` sets the countdown flag and leaves both durations unchanged |
| `AdSettings.Encode` | MoPubSDKSwiftTests/CreativeExperiences/CreativeExperienceAdSettingsTests.swift:34-61 | the two durations are emitted as numbers and `show_cd` as a boolean, under their three keys and nothing else |
| `AdSettings.RoundTrip` | MoPubSDKSwiftTests/CreativeExperiences/CreativeExperienceAdSettingsTests.swift:34-61 | encoding then decoding valid ad settings gives all three fields back, `showCountdownTimer` included |
| `AdSettings.DecodeExamples` | MoPubSDKSwiftTests/CreativeExperiences/CreativeExperienceAdSettingsTests.swift:13-176 | each test payload, integer 0, boolean false, integer 2 and string "0" included, decodes as asserted |
| `ExperienceSettings.DefaultMaxAdExperienceTime` | MoPubSDKSwiftTests/CreativeExperiences/CreativeExperienceSettingsTests.swift:183-282 | an ordinary ad has no experience cap (0); a rewarded one is capped at 30 seconds |
| `ExperienceSettings.DecodeThresholdList` | MoPubSDKSwiftTests/CreativeExperiences/CreativeExperienceSettingsTests.swift:13-68 | an array of objects decodes element by element in payload order, each as a threshold on its own |
| `ExperienceSettings.EncodeThresholdList` | MoPubSDKSwiftTests/CreativeExperiences/CreativeExperienceSettingsTests.swift:70-135 | every threshold is encoded as an object, in list order |
| `ExperienceSettings.DecodeThresholds` | MoPubSDKSwiftTests/CreativeExperiences/CreativeExperienceSettingsTests.swift:13-218 | an acceptable array's decoded thresholds are used in payload order; an absent, empty or invalid array gives the single default threshold; never empty, always in range |
| `ExperienceSettings.DecodeHash` | MoPubSDKSwiftTests/CreativeExperiences/CreativeExperienceSettingsTests.swift:235-260 | the hash is present exactly when the payload holds a string under `hash` |
| `ExperienceSettings.DecodeEndCardDurations` | MoPubSDKSwiftTests/CreativeExperiences/CreativeExperienceSettingsTests.swift:183-202 | an object under `ec_durs_secs` is decoded; anything else gives the flag's default durations |
| `ExperienceSettings.DecodeStage` | MoPubSDKSwiftTests/CreativeExperiences/CreativeExperienceSettingsTests.swift:137-181 | a missing or malformed `main_ad` or `end_card` defaults only that slot |
| `ExperienceSettings.Decode` | MoPubSDKSwiftTests/CreativeExperiences/CreativeExperienceSettingsTests.swift:137-260 | decoding fails only for a non-object; each field is read from its own key on its own (hash, maximum, thresholds, durations, main ad, end card), falling back to the flag's default; the ad settings are the main ad then the end card, the end card always with the ordinary table; the result satisfies every range and count invariant |
| `ExperienceSettings.Encode` | MoPubSDKSwiftTests/CreativeExperiences/CreativeExperienceSettingsTests.swift:70-135 | the result is an object that holds `hash` exactly when the settings carry one; where the other fields sit is ensured by `EncodeLookupsScalars` and `EncodeLookupsObjects` |
| `ExperienceSettings.EncodeLookupsScalars` | MoPubSDKSwiftTests/CreativeExperiences/CreativeExperienceSettingsTests.swift:70-135 | the hash sits under `hash` when present and is absent otherwise; the maximum sits under `max_ad_time_secs`; the thresholds sit under `video_skip_thresholds_secs`, encoded in list order |
| `ExperienceSettings.EncodeLookupsObjects` | MoPubSDKSwiftTests/CreativeExperiences/CreativeExperienceSettingsTests.swift:70-135 | the durations, the main ad and the end card sit under `ec_durs_secs`, `main_ad` and `end_card`, each as its own encoding |
| `ExperienceSettings.ThresholdListRoundTrip` | MoPubSDKSwiftTests/CreativeExperiences/CreativeExperienceSettingsTests.swift:70-135 | encoding then decoding a list of valid thresholds gives it back |
| `ExperienceSettings.RoundTrip` | MoPubSDKSwiftTests/CreativeExperiences/CreativeExperienceSettingsTests.swift:70-135 | encoding then decoding valid settings gives every field back under either flag |
| `ExperienceSettings.DecodeEncodeIdempotent` | MoPubSDKSwiftTests/CreativeExperiences/CreativeExperienceSettingsTests.swift:102-134 | re-encoding and re-decoding decoded settings changes nothing |
| `ExperienceSettings.EndCardIgnoresRewarded` | MoPubSDKSwiftTests/CreativeExperiences/CreativeExperienceSettingsTests.swift:262-282 | the end card's ad settings are the same whether or not the ad is rewarded |
| `ExperienceSettings.FlagOnlySelectsDefaults` | MoPubSDKSwiftTests/CreativeExperiences/CreativeExperienceTestHelpers.swift:41-48 | the canonical encoding of any valid settings value decodes the same under both flags |
| `ExperienceSettings.DecodeValidExample` | MoPubSDKSwiftTests/CreativeExperiences/CreativeExperienceSettingsTests.swift:13-68 | the full valid payload decodes every field, thresholds in payload order |
| `ExperienceSettings.EncodeDecodeExample` | MoPubSDKSwiftTests/CreativeExperiences/CreativeExperienceSettingsTests.swift:70-135 | the decoded valid payload survives encode and decode |
| `ExperienceSettings.DecodeMissingMainAdExample` | MoPubSDKSwiftTests/CreativeExperiences/CreativeExperienceSettingsTests.swift:137-158 | without `main_ad` the main ad is the default, the end card is still decoded, and there are two entries |
| `ExperienceSettings.DecodeMissingEndCardExample` | MoPubSDKSwiftTests/CreativeExperiences/CreativeExperienceSettingsTests.swift:160-181 | without `end_card` the end card is the default, the main ad is still decoded, and there are two entries |
| `ExperienceSettings.DecodeEmptyExamples` | MoPubSDKSwiftTests/CreativeExperiences/CreativeExperienceSettingsTests.swift:183-233 | `{}` gives no hash, max 0, one default threshold and default durations and ad settings; an empty array and a negative maximum fall back |
| `ExperienceSettings.DecodeWrongTypesExample` | MoPubSDKSwiftTests/CreativeExperiences/CreativeExperienceSettingsTests.swift:235-260 | a payload whose every key has the wrong type decodes exactly like `{}` |
| `ExperienceSettings.DecodeRewardedEmptyExample` | MoPubSDKSwiftTests/CreativeExperiences/CreativeExperienceSettingsTests.swift:262-282 | rewarded `{}` gives every rewarded default except the end card, which keeps the ordinary default |
| `Formulas.CloseAfterDuration` | MoPubSDKSwiftTests/CreativeExperiences/CreativeExperiencesFormulasTests.swift:276-320 | the close time is the clamped video plus the end card's experience duration, capped by a positive maxAdExperienceTime, and is non-negative for settings in range, with or without thresholds |
| `Formulas.GoverningIndex` | MoPubSDKSwiftTests/CreativeExperiences/CreativeExperiencesFormulasTests.swift:323-339 | the search finds the threshold with the largest skipMin not above the duration, in any list order, and finds none exactly when every skipMin is above it |
| `Formulas.VideoTimeUntilNextAction` | MoPubSDKSwiftTests/CreativeExperiences/CreativeExperiencesFormulasTests.swift:323-361 | 0 for a negative duration; never past the video's end; the whole video when no threshold applies; otherwise the governing threshold's skipAfter, capped at the duration |
| `Formulas.EndCardTimeUntilNextAction` | MoPubSDKSwiftTests/CreativeExperiences/CreativeExperiencesFormulasTests.swift:363-373 | no end card gives 0; a static or interactive end card gives that kind's minimum dwell; never negative for durations in range |
| `Formulas.EndCardCountdownIsMinimumDwell` | MoPubSDKSwiftTests/CreativeExperiences/CreativeExperiencesFormulasTests.swift:120-148 | the end card stage never counts down below the end card's minimum dwell, and shows exactly that dwell without a positive maxAdExperienceTime |
| `Formulas.VideoTimeOrderIndependent` | MoPubSDKSwiftTests/CreativeExperiences/CreativeExperiencesFormulasTests.swift:323-339 | reordering the thresholds does not change the video's skip time |
| `Formulas.RewardedDefaultSkip` | MoPubSDKSwiftTests/CreativeExperiences/VASTSkipThresholdTests.swift:106-119 | a rewarded payload with no thresholds of its own makes a video skippable after 30 seconds or at its end, whichever comes first |
| `Formulas.NoThresholdsMeansWholeVideo` | MoPubSDKSwiftTests/CreativeExperiences/CreativeExperienceTestHelpers.swift:25-37 | settings built with no thresholds never offer an early skip |
| `Formulas.StageCount` | MoPubSDKSwiftTests/CreativeExperiences/CreativeExperiencesFormulasTests.swift:250-273 | there are two stages exactly for a VAST video followed by an end card |
| `Formulas.CountdownTime` | MoPubSDKSwiftTests/CreativeExperiences/CreativeExperiencesFormulasTests.swift:14-248 | 0 outside the stages; never below the stage's minimum; a non-last stage shows its minimum; the last shows the larger of its minimum and the time left to close when maxAdExperienceTime is positive, else its minimum |
| `Formulas.CountdownNonIncreasing` | MoPubSDKSwiftTests/CreativeExperiences/CreativeExperiencesFormulasTests.swift:205-213 | the countdown never rises as elapsed time grows |
| `Formulas.CountdownClampsNegativeElapsed` | MoPubSDKSwiftTests/CreativeExperiences/CreativeExperiencesFormulasTests.swift:31-38 | a negative elapsed time counts as 0 |
| `Formulas.CountdownNonNegative` | MoPubSDKSwiftTests/CreativeExperiences/CreativeExperiencesFormulasTests.swift:40-47 | for settings in range, including those built with no thresholds, the countdown is never negative |
| `Formulas.CountdownSettlesAtMinimum` | MoPubSDKSwiftTests/CreativeExperiences/CreativeExperiencesFormulasTests.swift:40-47 | past the close time every stage shows exactly its own minimum |
| `Formulas.CountdownIgnoresEndCardAdSettings` | MoPubSDKSwiftTests/CreativeExperiences/CreativeExperiencesFormulasTests.swift:120-148 | the end card's `minTimeUntilNextAction` plays no part in any countdown |
| `Formulas.CloseAfterExamples` | MoPubSDKSwiftTests/CreativeExperiences/CreativeExperiencesFormulasTests.swift:276-320 | the close-after test values: 5, 8, 7, 5, 30 and 3 for a negative video |
| `Formulas.VideoTimeLongExamples` | MoPubSDKSwiftTests/CreativeExperiences/CreativeExperiencesFormulasTests.swift:323-334 | out-of-order thresholds give 3 for 35 and 30 seconds |
| `Formulas.VideoTimeMiddleExamples` | MoPubSDKSwiftTests/CreativeExperiences/CreativeExperiencesFormulasTests.swift:335-336 | out-of-order thresholds give 2 for 29 and 20 seconds |
| `Formulas.VideoTimeShortExamples` | MoPubSDKSwiftTests/CreativeExperiences/CreativeExperiencesFormulasTests.swift:337-338 | out-of-order thresholds give 1 for 15 seconds and the whole 5 for a 5-second video |
| `Formulas.VideoTimeEdgeExamples` | MoPubSDKSwiftTests/CreativeExperiences/CreativeExperiencesFormulasTests.swift:341-361 | a negative duration gives 0; a skipAfter past the video gives the video's duration |
| `Formulas.EndCardTimeExamples` | MoPubSDKSwiftTests/CreativeExperiences/CreativeExperiencesFormulasTests.swift:363-373 | no end card gives 0, static its minimum, interactive its minimum |
| `Formulas.CountdownOtherExamples` | MoPubSDKSwiftTests/CreativeExperiences/CreativeExperiencesFormulasTests.swift:14-64 | the non-VAST countdown test values, indices -1 and 1 included |
| `Formulas.CountdownVideoOnlyExamples` | MoPubSDKSwiftTests/CreativeExperiences/CreativeExperiencesFormulasTests.swift:66-117 | the countdown test values of a VAST video with no end card |
| `Formulas.CountdownVideoAndEndCardExamples` | MoPubSDKSwiftTests/CreativeExperiences/CreativeExperiencesFormulasTests.swift:119-273 | the countdown test values of a VAST video with a static end card, and of two ad settings with no end card |
| `Manager.CreativeExperiencesManager.constructor` | MoPubSDKSwiftTests/CreativeExperiences/CreativeExperiencesManagerTests.swift:13-15 | a new store is empty |
| `Manager.CreativeExperiencesManager.Cache` | MoPubSDKSwiftTests/CreativeExperiences/CreativeExperiencesManagerTests.swift:22-54 | the store maps the ad unit to the new settings, replacing any earlier ones, and leaves every other ad unit alone |
| `Manager.CreativeExperiencesManager.CachedSettings` | MoPubSDKSwiftTests/CreativeExperiences/CreativeExperiencesManagerTests.swift:17-32 | a lookup returns the cached settings, or None when nothing is cached for the ad unit |
| `Manager.CreativeExperiencesManager.RemoveAllCachedSettings` | MoPubSDKSwiftTests/CreativeExperiences/CreativeExperiencesManagerTests.swift:13-15 | after eviction the store is empty, so every lookup is None |
| `Manager.OverwriteScenario` | MoPubSDKSwiftTests/CreativeExperiences/CreativeExperiencesManagerTests.swift:17-54 | after eviction a lookup is None; a cached value is found; a second cache for the same ad unit replaces the first |

## Left out

- The production Swift sources of the five types are not part of this model. The behaviour is the one the test files assert.
- Lexing and printing of JSON text: decoding starts from, and encoding ends in, a structured `Json` value.
- IEEE-754 behaviour of `TimeInterval`: times are exact reals; the tests use whole seconds only.
- The disk-backed cache behind the manager: serialising settings to bytes and reading them back from disk is not modelled. The store holds decoded values in a `map`.
- The shared singleton and its thread safety: the manager is a single-threaded object.
- `countdownTimerDelay` and `showCountdownTimer` are decoded and encoded, but no formula reads them; the tests assert nothing more.
- ExperienceSettings.DecodeThresholdList: an array with any element that is not an object is rejected as a whole, and the single default threshold is used. No test pins this; the one such payload, an array holding a string, decodes the same under the alternative of dropping non-objects and defaulting an empty result.
- Ties between thresholds with the same skipMin: the later one in the list governs, as when the list is sorted by skipMin and the last qualifying entry is taken. The tests never have such a tie.
- A partly filled `end_card` under the rewarded flag: it is decoded with the ordinary default table, field by field. The tests pin only the fully absent case.
- Formulas.VideoTimeOrderIndependent: requires that thresholds sharing a skipMin are identical, because with the tie rule above, reordering two different thresholds that share a skipMin changes which one governs.
- The demo application (its view controller, scene delegate and deep links) and the Objective-C mock headers: UI and SDK glue with no logic of this core.
