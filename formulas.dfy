/**
 * The three timing formulas, as queries on an immutable settings value:
 * when the experience closes, when the next action (skip or close) becomes
 * available, and what the countdown shows for a stage of the experience.
 */
module Formulas {
  import opened Wrappers
  import opened ExperienceSettings
  import JsonValues
  import VastSkip
  import EndCard
  import AdSettings

  datatype EndCardType = NoEndCard | Static | Interactive

  /** A VAST video carries its duration and the kind of end card that follows it. */
  datatype AdType = Other | Vast(videoDuration: real, endCardType: EndCardType)

  function Max(a: real, b: real): (r: real)
    ensures r >= a && r >= b && (r == a || r == b)
  {
    if a >= b then a else b
  }

  function Min(a: real, b: real): (r: real)
    ensures r <= a && r <= b && (r == a || r == b)
  {
    if a <= b then a else b
  }

  /** How long the end card of a kind keeps the experience open. */
  function EndCardExperienceDuration(d: EndCardDurations, t: EndCardType): (r: real)
  {
    match t
    case NoEndCard => 0.0
    case Static => d.staticEndCardExperienceDuration
    case Interactive => d.interactiveEndCardExperienceDuration
  }

  /**
   * closeAfterDuration: the video (a negative duration counts as 0) plus the
   * end card's experience duration, capped by maxAdExperienceTime when that
   * is positive.
   */
  function CloseAfterDuration(s: CreativeExperienceSettings, videoDuration: real, endCardType: EndCardType): (r: real)
    ensures var planned := Max(videoDuration, 0.0) + EndCardExperienceDuration(s.endCardDurations, endCardType);
      && r <= planned
      && (s.maxAdExperienceTime > 0.0 ==> r <= s.maxAdExperienceTime && (r == planned || r == s.maxAdExperienceTime))
      && (s.maxAdExperienceTime <= 0.0 ==> r == planned)
    ensures s.InRange() ==> r >= 0.0
  {
    var planned := Max(videoDuration, 0.0) + EndCardExperienceDuration(s.endCardDurations, endCardType);
    if s.maxAdExperienceTime > 0.0 then Min(planned, s.maxAdExperienceTime) else planned
  }

  /**
   * Threshold `i` governs a video of `duration` seconds: it is the one with
   * the largest skipMin not above the duration, the later one among equals.
   */
  ghost predicate Governs(ts: seq<VastSkipThreshold>, duration: real, i: int)
  {
    && 0 <= i < |ts|
    && ts[i].skipMin <= duration
    && forall k :: 0 <= k < |ts| && ts[k].skipMin <= duration ==>
         ts[k].skipMin < ts[i].skipMin || (ts[k].skipMin == ts[i].skipMin && k <= i)
  }

  lemma GoverningIsUnique(ts: seq<VastSkipThreshold>, duration: real, i: int, j: int)
    requires Governs(ts, duration, i) && Governs(ts, duration, j)
    ensures i == j
  {
  }

  /** Searches the thresholds, in whatever order they come, for the governing one. */
  function GoverningIndex(ts: seq<VastSkipThreshold>, duration: real): (r: Option<nat>)
    ensures r.None? <==> forall k :: 0 <= k < |ts| ==> ts[k].skipMin > duration
    ensures r.Some? ==> Governs(ts, duration, r.value)
    decreases |ts|
  {
    if ts == [] then None
    else
      var last := |ts| - 1;
      var earlier := GoverningIndex(ts[..last], duration);
      assert forall k :: 0 <= k < last ==> ts[..last][k] == ts[k];
      if ts[last].skipMin <= duration && (earlier.None? || ts[earlier.value].skipMin <= ts[last].skipMin)
      then Some(last)
      else earlier
  }

  /**
   * timeUntilNextActionDuration for a video: the governing threshold's
   * skipAfter, but never later than the video itself ends; the whole video
   * when no threshold applies; 0 for a negative duration.
   */
  function VideoTimeUntilNextAction(s: CreativeExperienceSettings, duration: real): (r: real)
    ensures duration < 0.0 ==> r == 0.0
    ensures duration >= 0.0 ==> r <= duration
    ensures duration >= 0.0 && (forall k :: 0 <= k < |s.vastSkipThresholds| ==> s.vastSkipThresholds[k].skipMin > duration)
            ==> r == duration
    ensures duration >= 0.0 ==> forall i :: Governs(s.vastSkipThresholds, duration, i) ==>
              r == Min(s.vastSkipThresholds[i].skipAfter, duration)
    ensures s.InRange() ==> r >= 0.0
  {
    if duration < 0.0 then 0.0
    else
      match GoverningIndex(s.vastSkipThresholds, duration)
      case None => duration
      case Some(i) =>
        forall j | Governs(s.vastSkipThresholds, duration, j) ensures j == i {
          GoverningIsUnique(s.vastSkipThresholds, duration, i, j);
        }
        Min(s.vastSkipThresholds[i].skipAfter, duration)
  }

  /** timeUntilNextActionDuration for an end card: the minimum dwell of its kind, none without one. */
  function EndCardTimeUntilNextAction(s: CreativeExperienceSettings, t: EndCardType): (r: real)
    ensures t == NoEndCard ==> r == 0.0
    ensures t == Static ==> r == s.endCardDurations.minStaticEndCardDuration
    ensures t == Interactive ==> r == s.endCardDurations.minInteractiveEndCardDuration
    ensures s.endCardDurations.Valid() ==> r >= 0.0
  {
    match t
    case NoEndCard => 0.0
    case Static => s.endCardDurations.minStaticEndCardDuration
    case Interactive => s.endCardDurations.minInteractiveEndCardDuration
  }

  /** A VAST video followed by an end card has two stages; everything else has one. */
  function StageCount(a: AdType): (n: nat)
    ensures n == 2 <==> a.Vast? && a.endCardType != NoEndCard
    ensures n == 1 || n == 2
  {
    if a.Vast? && a.endCardType != NoEndCard then 2 else 1
  }

  /** The least time a stage must run before its next action: its own minimum. */
  function StageMinimum(s: CreativeExperienceSettings, a: AdType, index: int): (r: real)
    requires 0 <= index < StageCount(a)
    ensures s.InRange() ==> r >= 0.0
  {
    match a
    case Other => s.AdSettings()[index].minTimeUntilNextAction
    case Vast(video, t) => if index == 0 then VideoTimeUntilNextAction(s, video) else EndCardTimeUntilNextAction(s, t)
  }

  /** When the whole experience closes. */
  function ExperienceCloseAfter(s: CreativeExperienceSettings, a: AdType): (r: real)
    ensures s.InRange() ==> r >= 0.0
  {
    match a
    case Other => s.maxAdExperienceTime
    case Vast(video, t) => CloseAfterDuration(s, video, t)
  }

  /**
   * countdownTime: 0 outside the experience's stages; a stage before the last
   * shows its own minimum; the last stage shows the time left until the
   * experience closes, but never less than its own minimum, and only its own
   * minimum when there is no positive maxAdExperienceTime.
   */
  function CountdownTime(s: CreativeExperienceSettings, a: AdType, index: int, elapsedTime: real): (r: real)
    ensures index < 0 || index >= StageCount(a) ==> r == 0.0
    ensures 0 <= index < StageCount(a) ==> r >= StageMinimum(s, a, index)
    ensures 0 <= index < StageCount(a) - 1 ==> r == StageMinimum(s, a, index)
    ensures index == StageCount(a) - 1 && s.maxAdExperienceTime > 0.0 ==>
              var remaining := ExperienceCloseAfter(s, a) - Max(elapsedTime, 0.0);
              r >= remaining && (r == remaining || r == StageMinimum(s, a, index))
    ensures index == StageCount(a) - 1 && s.maxAdExperienceTime <= 0.0 ==> r == StageMinimum(s, a, index)
  {
    if index < 0 || index >= StageCount(a) then 0.0
    else
      var elapsed := Max(elapsedTime, 0.0);
      var next := StageMinimum(s, a, index);
      if index < StageCount(a) - 1 || s.maxAdExperienceTime <= 0.0 then next
      else Max(next, ExperienceCloseAfter(s, a) - elapsed)
  }

  /** The countdown never goes up as time passes. */
  lemma CountdownNonIncreasing(s: CreativeExperienceSettings, a: AdType, index: int, earlier: real, later: real)
    requires earlier <= later
    ensures CountdownTime(s, a, index, later) <= CountdownTime(s, a, index, earlier)
  {
  }

  /** A negative elapsed time is read as 0. */
  lemma CountdownClampsNegativeElapsed(s: CreativeExperienceSettings, a: AdType, index: int, elapsedTime: real)
    requires elapsedTime < 0.0
    ensures CountdownTime(s, a, index, elapsedTime) == CountdownTime(s, a, index, 0.0)
  {
  }

  /** For settings in range, decoded or built with no thresholds, the countdown is never negative. */
  lemma CountdownNonNegative(s: CreativeExperienceSettings, a: AdType, index: int, elapsedTime: real)
    requires s.InRange()
    ensures CountdownTime(s, a, index, elapsedTime) >= 0.0
  {
    if 0 <= index < StageCount(a) {
      assert StageMinimum(s, a, index) >= 0.0;
    }
  }

  /** Once the experience's close-after time has passed, every stage shows just its own minimum. */
  lemma CountdownSettlesAtMinimum(s: CreativeExperienceSettings, a: AdType, index: int, elapsedTime: real)
    requires s.InRange()
    requires 0 <= index < StageCount(a)
    requires elapsedTime >= ExperienceCloseAfter(s, a)
    ensures CountdownTime(s, a, index, elapsedTime) == StageMinimum(s, a, index)
  {
    assert StageMinimum(s, a, index) >= 0.0;
  }

  /** The end card's own ad settings play no part in any countdown. */
  lemma CountdownIgnoresEndCardAdSettings(s: CreativeExperienceSettings, endCard: AdSettings.CreativeExperienceAdSettings,
                                          a: AdType, index: int, elapsedTime: real)
    ensures CountdownTime(s.(endCard := endCard), a, index, elapsedTime) == CountdownTime(s, a, index, elapsedTime)
  {
  }

  /**
   * The end card stage never counts down below the end card's minimum dwell,
   * and without a positive maxAdExperienceTime it shows exactly that dwell.
   */
  lemma EndCardCountdownIsMinimumDwell(s: CreativeExperienceSettings, video: real, t: EndCardType, elapsedTime: real)
    requires t != NoEndCard
    ensures CountdownTime(s, Vast(video, t), 1, elapsedTime) >= EndCardTimeUntilNextAction(s, t)
    ensures s.maxAdExperienceTime <= 0.0 ==>
              CountdownTime(s, Vast(video, t), 1, elapsedTime) == EndCardTimeUntilNextAction(s, t)
  {
  }

  /**
   * A rewarded payload that sends no thresholds of its own gets the rewarded
   * default table: its video becomes skippable after 30 seconds or at its
   * end, whichever comes first.
   */
  lemma RewardedDefaultSkip(j: JsonValues.Json, duration: real)
    requires j.JObject? && JsonValues.Lookup(j, ThresholdsKey).None?
    requires duration >= 0.0
    ensures VideoTimeUntilNextAction(Decode(j, true).value, duration) == Min(30.0, duration)
  {
    var ts := Decode(j, true).value.vastSkipThresholds;
    assert ts == [VastSkip.Default(true)];
    assert Governs(ts, duration, 0);
  }

  /** Without thresholds (possible only by construction, never by decoding) a video cannot be skipped early. */
  lemma NoThresholdsMeansWholeVideo(s: CreativeExperienceSettings, duration: real)
    requires s.vastSkipThresholds == []
    ensures VideoTimeUntilNextAction(s, duration) == Max(duration, 0.0)
  {
  }

  /**
   * The order in which the thresholds are listed does not matter, as long as
   * no two different thresholds share a skipMin.
   */
  lemma VideoTimeOrderIndependent(s: CreativeExperienceSettings, reordered: seq<VastSkipThreshold>, duration: real)
    requires multiset(reordered) == multiset(s.vastSkipThresholds)
    requires forall i, j ::
               (0 <= i < |s.vastSkipThresholds| && 0 <= j < |s.vastSkipThresholds| &&
                s.vastSkipThresholds[i].skipMin == s.vastSkipThresholds[j].skipMin) ==>
               s.vastSkipThresholds[i] == s.vastSkipThresholds[j]
    ensures VideoTimeUntilNextAction(s.(vastSkipThresholds := reordered), duration) == VideoTimeUntilNextAction(s, duration)
  {
    var ts := s.vastSkipThresholds;
    var s2 := s.(vastSkipThresholds := reordered);
    if duration >= 0.0 {
      var g1 := GoverningIndex(ts, duration);
      var g2 := GoverningIndex(reordered, duration);
      if g1.None? {
        forall k | 0 <= k < |reordered| ensures reordered[k].skipMin > duration {
          assert reordered[k] in multiset(ts);
        }
        assert g2.None?;
      } else {
        var i := g1.value;
        assert ts[i] in multiset(reordered);
        var p :| 0 <= p < |reordered| && reordered[p] == ts[i];
        assert g2.Some?;
        var t2 := reordered[g2.value];
        assert t2 in multiset(ts);
        var m :| 0 <= m < |ts| && ts[m] == t2;
        assert ts[m].skipMin == ts[i].skipMin;
        assert t2 == ts[i];
        assert VideoTimeUntilNextAction(s, duration) == Min(ts[i].skipAfter, duration);
        assert VideoTimeUntilNextAction(s2, duration) == Min(t2.skipAfter, duration);
      }
    }
  }

  /** The close-after tests: sums of video and end-card durations, the cap, and the clamped negative video. */
  lemma CloseAfterExamples(durations: EndCardDurations)
    requires durations == EndCard.EndCardDurations(2.0, 3.0, 0.0, 0.0)
    ensures var s := CreativeExperienceSettings(None, 999.0, [], durations, AdSettings.Default(false), AdSettings.Default(false));
      && CloseAfterDuration(s, 5.0, NoEndCard) == 5.0
      && CloseAfterDuration(s, 5.0, Interactive) == 8.0
      && CloseAfterDuration(s, 5.0, Static) == 7.0
    ensures var s := CreativeExperienceSettings(None, 30.0, [], durations, AdSettings.Default(false), AdSettings.Default(false));
      && CloseAfterDuration(s, 5.0, NoEndCard) == 5.0
      && CloseAfterDuration(s, -5.0, Interactive) == 3.0
    ensures var s := CreativeExperienceSettings(None, 30.0, [], EndCard.EndCardDurations(20.0, 30.0, 0.0, 0.0),
                                                AdSettings.Default(false), AdSettings.Default(false));
      CloseAfterDuration(s, 5.0, Interactive) == 30.0
  {
  }

  /** The thresholds of the video test, listed out of order. */
  predicate IsOutOfOrderTestSettings(s: CreativeExperienceSettings)
  {
    s == CreativeExperienceSettings(None, 0.0,
           [VastSkip.VastSkipThreshold(10.0, 1.0), VastSkip.VastSkipThreshold(30.0, 3.0),
            VastSkip.VastSkipThreshold(20.0, 2.0)],
           EndCard.Default(false), AdSettings.Default(false), AdSettings.Default(false))
  }

  /** At and above the largest skipMin, the last-listed-but-largest threshold governs. */
  lemma VideoTimeLongExamples(s: CreativeExperienceSettings)
    requires IsOutOfOrderTestSettings(s)
    ensures VideoTimeUntilNextAction(s, 35.0) == 3.0
    ensures VideoTimeUntilNextAction(s, 30.0) == 3.0
  {
    assert Governs(s.vastSkipThresholds, 35.0, 1);
    assert Governs(s.vastSkipThresholds, 30.0, 1);
  }

  /** Between skipMins, the largest one not above the duration governs, wherever it is listed. */
  lemma VideoTimeMiddleExamples(s: CreativeExperienceSettings)
    requires IsOutOfOrderTestSettings(s)
    ensures VideoTimeUntilNextAction(s, 29.0) == 2.0
    ensures VideoTimeUntilNextAction(s, 20.0) == 2.0
  {
    assert Governs(s.vastSkipThresholds, 29.0, 2);
    assert Governs(s.vastSkipThresholds, 20.0, 2);
  }

  /** Above only the smallest skipMin its threshold governs; below every skipMin the whole video plays. */
  lemma VideoTimeShortExamples(s: CreativeExperienceSettings)
    requires IsOutOfOrderTestSettings(s)
    ensures VideoTimeUntilNextAction(s, 15.0) == 1.0
    ensures VideoTimeUntilNextAction(s, 5.0) == 5.0
  {
    assert Governs(s.vastSkipThresholds, 15.0, 0);
  }

  /** A negative video duration gives 0; a skipAfter beyond the video's end gives the video's duration. */
  lemma VideoTimeEdgeExamples(skipAt15: CreativeExperienceSettings, skipAfter30: CreativeExperienceSettings)
    requires skipAt15 == CreativeExperienceSettings(None, 0.0, [VastSkip.VastSkipThreshold(15.0, 5.0)],
                           EndCard.Default(false), AdSettings.Default(false), AdSettings.Default(false))
    requires skipAfter30 == CreativeExperienceSettings(None, 0.0, [VastSkip.VastSkipThreshold(10.0, 30.0)],
                              EndCard.Default(false), AdSettings.Default(false), AdSettings.Default(false))
    ensures VideoTimeUntilNextAction(skipAt15, -1.0) == 0.0
    ensures VideoTimeUntilNextAction(skipAfter30, 15.0) == 15.0
  {
    assert Governs(skipAfter30.vastSkipThresholds, 15.0, 0);
  }

  /** The end-card test: no end card, a static one and an interactive one. */
  lemma EndCardTimeExamples(s: CreativeExperienceSettings)
    requires s == CreativeExperienceSettings(None, 0.0, [], EndCard.EndCardDurations(0.0, 0.0, 1.0, 2.0),
                                             AdSettings.Default(false), AdSettings.Default(false))
    ensures EndCardTimeUntilNextAction(s, Interactive) == 2.0
    ensures EndCardTimeUntilNextAction(s, Static) == 1.0
    ensures EndCardTimeUntilNextAction(s, NoEndCard) == 0.0
  {
  }

  /** The countdown tests on a non-VAST ad: indices outside the one stage, and both ends of elapsed time. */
  lemma CountdownOtherExamples(mainAd: AdSettings.CreativeExperienceAdSettings)
    requires mainAd == AdSettings.CreativeExperienceAdSettings(5.0, 0.0, true)
    ensures CountdownTime(CreativeExperienceSettings(None, 0.0, [], EndCard.Default(false),
                                                     AdSettings.Default(false), AdSettings.Default(false)),
                          Other, -1, 0.0) == 0.0
    ensures var s := CreativeExperienceSettings(None, 0.0, [], EndCard.Default(false), mainAd, AdSettings.Default(false));
      && CountdownTime(s, Other, 0, 0.0) == 5.0
      && CountdownTime(s, Other, 1, 0.0) == 0.0
    ensures var s := CreativeExperienceSettings(None, 30.0, [], EndCard.Default(false), mainAd, AdSettings.Default(false));
      && CountdownTime(s, Other, 0, -5.0) == 30.0
      && CountdownTime(s, Other, 0, 999.0) == 5.0
      && CountdownTime(s, Other, 0, 0.0) == 30.0
  {
  }

  /** The countdown tests on a VAST video without an end card. */
  lemma CountdownVideoOnlyExamples(ts: seq<VastSkipThreshold>, mainAd: AdSettings.CreativeExperienceAdSettings)
    requires ts == [VastSkip.VastSkipThreshold(15.0, 5.0)]
    requires mainAd == AdSettings.CreativeExperienceAdSettings(20.0, 0.0, true)
    ensures var s := CreativeExperienceSettings(None, 0.0, ts, EndCard.Default(false), mainAd, AdSettings.Default(false));
      && CountdownTime(s, Vast(30.0, NoEndCard), 0, 0.0) == 5.0
      && CountdownTime(s, Vast(10.0, NoEndCard), 0, 0.0) == 10.0
    ensures var s := CreativeExperienceSettings(None, 30.0, ts, EndCard.Default(false), mainAd, AdSettings.Default(false));
      && CountdownTime(s, Vast(10.0, NoEndCard), 0, 0.0) == 10.0
      && CountdownTime(s, Vast(40.0, NoEndCard), 0, 0.0) == 30.0
  {
    assert Governs(ts, 30.0, 0) && Governs(ts, 40.0, 0);
  }

  /** The countdown tests on a VAST video with two ad settings, followed by a static end card or by none. */
  lemma CountdownVideoAndEndCardExamples(ts: seq<VastSkipThreshold>, stage: AdSettings.CreativeExperienceAdSettings)
    requires ts == [VastSkip.VastSkipThreshold(15.0, 5.0)]
    requires stage == AdSettings.CreativeExperienceAdSettings(20.0, 0.0, true)
    ensures var s := CreativeExperienceSettings(None, 0.0, ts, EndCard.EndCardDurations(0.0, 0.0, 5.0, 0.0), stage, stage);
      && CountdownTime(s, Vast(30.0, Static), 0, 0.0) == 5.0
      && CountdownTime(s, Vast(30.0, Static), 1, 5.0) == 5.0
      && CountdownTime(s, Vast(30.0, Static), 1, 30.0) == 5.0
      && CountdownTime(s, Vast(10.0, Static), 0, 0.0) == 10.0
      && CountdownTime(s, Vast(10.0, Static), 1, 5.0) == 5.0
      && CountdownTime(s, Vast(10.0, Static), 1, 30.0) == 5.0
    ensures var s := CreativeExperienceSettings(None, 30.0, ts, EndCard.EndCardDurations(10.0, 0.0, 5.0, 0.0), stage, stage);
      && CountdownTime(s, Vast(30.0, Static), 0, 0.0) == 5.0
      && CountdownTime(s, Vast(30.0, Static), 1, 5.0) == 25.0
      && CountdownTime(s, Vast(30.0, Static), 1, 10.0) == 20.0
      && CountdownTime(s, Vast(30.0, Static), 1, 25.0) == 5.0
      && CountdownTime(s, Vast(30.0, Static), 1, 30.0) == 5.0
      && CountdownTime(s, Vast(10.0, Static), 0, 0.0) == 10.0
      && CountdownTime(s, Vast(10.0, Static), 1, 10.0) == 10.0
      && CountdownTime(s, Vast(10.0, Static), 1, 15.0) == 5.0
      && CountdownTime(s, Vast(10.0, Static), 1, 20.0) == 5.0
    // two ad settings but no end card: the video is the last stage
    ensures var s := CreativeExperienceSettings(None, 30.0, ts, EndCard.EndCardDurations(0.0, 0.0, 0.0, 0.0), stage, stage);
      CountdownTime(s, Vast(30.0, NoEndCard), 0, 0.0) == 30.0
  {
    assert Governs(ts, 30.0, 0);
  }
}
