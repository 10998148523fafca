/**
 * The flat viral-score formula: three table-driven sub-scores (subscriber
 * count, views per day, engagement rate) weighted 0.4 / 0.3 / 0.3, boosted by
 * a time-decay factor and capped at 100. Videos older than 30 days score 0.
 * Arithmetic is exact (`real`); `Math.round(x)` is `Floor(x + 1/2)`.
 */
module Scoring {
  import opened Common
  import opened YouTubeTypes

  const SubscriberWeight: real := 0.4
  const ViewWeight: real := 0.3
  const EngagementWeight: real := 0.3
  const MsPerDay: nat := 1000 * 60 * 60 * 24

  /** `Math.round`: halves round up. */
  function Round(x: real): (r: int)
    ensures x - 0.5 < r as real <= x + 0.5
  {
    (x + 0.5).Floor
  }

  /** Whole days between publication and `now`, rounded up (`Math.ceil` of the absolute difference). */
  function DaysSincePublished(publishedAt: int, now: int): (d: nat)
    ensures (d - 1) * MsPerDay < (if now >= publishedAt then now - publishedAt else publishedAt - now) <= d * MsPerDay
  {
    var diff := if now >= publishedAt then now - publishedAt else publishedAt - now;
    (diff + MsPerDay - 1) / MsPerDay
  }

  /** Smaller channels score higher; an unknown (zero) subscriber count scores 0. */
  function SubscriberScore(subscriberCount: nat): (r: int)
    ensures 0 <= r <= 100
    ensures r == 0 <==> subscriberCount == 0
  {
    if subscriberCount <= 0 then 0
    else if subscriberCount < 1000 then 100
    else if subscriberCount < 10000 then 90
    else if subscriberCount < 50000 then 80
    else if subscriberCount < 100000 then 70
    else if subscriberCount < 500000 then 50
    else if subscriberCount < 1000000 then 30
    else 10
  }

  function ViewsPerDay(viewCount: nat, days: nat): (r: real)
    ensures r >= 0.0
  {
    viewCount as real / Max(1, days) as real
  }

  /** The views-per-day table. */
  function VelocityScore(viewsPerDay: real): (r: int)
    ensures 20 <= r <= 100
  {
    if viewsPerDay >= 50000.0 then 100
    else if viewsPerDay >= 20000.0 then 90
    else if viewsPerDay >= 10000.0 then 80
    else if viewsPerDay >= 5000.0 then 70
    else if viewsPerDay >= 2000.0 then 60
    else if viewsPerDay >= 1000.0 then 50
    else if viewsPerDay >= 500.0 then 40
    else if viewsPerDay >= 100.0 then 30
    else 20
  }

  function ViewScore(viewCount: nat, days: nat): (r: int)
    ensures 20 <= r <= 100
  {
    VelocityScore(ViewsPerDay(viewCount, days))
  }

  /** `getEngagementRate`: likes plus comments per hundred views, 0 for an unviewed video. */
  function EngagementRate(s: VideoStatistics): (r: real)
    ensures r >= 0.0
    ensures s.viewCount == 0 ==> r == 0.0
    ensures s.viewCount > 0 ==> r * s.viewCount as real == (s.likeCount + s.commentCount) as real * 100.0
  {
    if s.viewCount == 0 then 0.0
    else ((s.likeCount + s.commentCount) as real / s.viewCount as real) * 100.0
  }

  /** The engagement-rate table. */
  function RateScore(rate: real): (r: int)
    ensures 30 <= r <= 100
  {
    if rate >= 10.0 then 100
    else if rate >= 7.0 then 90
    else if rate >= 5.0 then 80
    else if rate >= 3.0 then 70
    else if rate >= 2.0 then 60
    else if rate >= 1.0 then 50
    else if rate >= 0.5 then 40
    else 30
  }

  function EngagementScore(s: VideoStatistics): (r: int)
    ensures s.viewCount == 0 ==> r == 0
    ensures s.viewCount > 0 ==> 30 <= r <= 100
  {
    if s.viewCount == 0 then 0 else RateScore(EngagementRate(s))
  }

  /** `1 + 0.2 * (1 - days / 30)`: a boost of up to 20% for fresh videos. */
  function TimeDecayFactor(days: nat): (r: real)
    ensures days <= 30 ==> 1.0 <= r <= 1.2
  {
    1.0 + 0.2 * (1.0 - days as real / 30.0)
  }

  function RawScore(video: Video, channel: Channel, days: nat): (r: real)
    ensures 0.0 <= r <= 100.0
  {
    SubscriberScore(channel.statistics.subscriberCount) as real * SubscriberWeight
    + ViewScore(video.statistics.viewCount, days) as real * ViewWeight
    + EngagementScore(video.statistics) as real * EngagementWeight
  }

  /** `calculateViralScore` once the age in days is known. */
  function ViralScoreAtAge(video: Video, channel: Channel, days: nat): (r: int)
    ensures 0 <= r <= 100
    ensures days > 30 ==> r == 0
  {
    if days > 30 then 0
    else
      var raw := RawScore(video, channel, days);
      var decay := TimeDecayFactor(days);
      ProductBounds(raw, decay);
      Min(100, Round(raw * decay))
  }

  lemma ProductBounds(raw: real, decay: real)
    requires 0.0 <= raw <= 100.0 && 1.0 <= decay <= 1.2
    ensures 0.0 <= raw * decay <= 120.0
  {
    var e := decay - 1.0;
    MulNonNegative(raw, e);
    MulNonNegative(100.0 - raw, e);
    assert raw * decay == raw + raw * e;
    assert (100.0 - raw) * e == 100.0 * e - raw * e;
  }

  lemma MulNonNegative(a: real, b: real)
    requires a >= 0.0 && b >= 0.0
    ensures a * b >= 0.0
  {
  }

  /** `calculateViralScore(video, channel)` with the clock read passed in as `now`. */
  function CalculateViralScore(video: Video, channel: Channel, now: int): (r: int)
    ensures 0 <= r <= 100
  {
    ViralScoreAtAge(video, channel, DaysSincePublished(video.publishedAt, now))
  }

  /** `createViralVideo`: the video, its channel and the two computed measures. */
  function CreateViralVideo(video: Video, channel: Channel, now: int): (v: ViralVideo)
    ensures v.video == video && v.channel == channel
    ensures 0 <= v.viralScore <= 100
    ensures v.engagementRate == EngagementRate(video.statistics)
    ensures v.multiplier.None? && v.viralPotential.None?
  {
    ViralVideo(video, channel, CalculateViralScore(video, channel, now),
               None, EngagementRate(video.statistics), None)
  }

  // ----- Properties of the tables -----

  /** A video published more than 30 days ago scores exactly 0, whatever its metrics. */
  lemma OldVideosScoreZero(video: Video, channel: Channel, now: int)
    requires now - video.publishedAt > 30 * MsPerDay
    ensures CalculateViralScore(video, channel, now) == 0
  {
    assert DaysSincePublished(video.publishedAt, now) > 30;
  }

  /** Among channels with subscribers, a bigger channel never scores higher. */
  lemma SubscriberScoreNonIncreasing(a: nat, b: nat)
    requires 0 < a <= b
    ensures SubscriberScore(a) >= SubscriberScore(b)
  {
  }

  lemma SubscriberScoreExamples()
    ensures SubscriberScore(1000) == 90 && SubscriberScore(10000) == 80
    ensures SubscriberScore(100000) == 50 && SubscriberScore(1000000) == 10
  {
  }

  /** For a fixed age, more views never lower the view score. */
  lemma ViewScoreMonotone(v1: nat, v2: nat, days: nat)
    requires v1 <= v2
    ensures ViewScore(v1, days) <= ViewScore(v2, days)
  {
    var d := Max(1, days) as real;
    assert v1 as real / d <= v2 as real / d by {
      assert v1 as real <= v2 as real;
    }
  }

  /** A higher engagement rate never lowers the engagement score. */
  lemma RateScoreMonotone(r1: real, r2: real)
    requires r1 <= r2
    ensures RateScore(r1) <= RateScore(r2)
  {
  }

  lemma EngagementScoreMonotone(s1: VideoStatistics, s2: VideoStatistics)
    requires s1.viewCount > 0 && s2.viewCount > 0
    requires EngagementRate(s1) <= EngagementRate(s2)
    ensures EngagementScore(s1) <= EngagementScore(s2)
  {
    RateScoreMonotone(EngagementRate(s1), EngagementRate(s2));
  }

  lemma EngagementRateExample()
    ensures EngagementRate(VideoStatistics(10000, 500, 100)) == 6.0
  {
  }

  /** The decay factor falls as a video ages. */
  lemma TimeDecayNonIncreasing(d1: nat, d2: nat)
    requires d1 <= d2
    ensures TimeDecayFactor(d1) >= TimeDecayFactor(d2)
  {
    assert d1 as real / 30.0 <= d2 as real / 30.0;
  }
}
