/**
 * The records the search pipeline passes around: a video and its channel as
 * the upstream client normalises them, and the scored video built from both.
 * Timestamps are milliseconds since the epoch; counts are non-negative
 * integers because the client reads them with `parseInt`.
 */
module YouTubeTypes {
  import opened Common

  datatype Thumbnail = Thumbnail(url: string, width: int, height: int)

  datatype VideoStatistics = VideoStatistics(viewCount: nat, likeCount: nat, commentCount: nat)

  datatype Video = Video(
    id: string,
    title: string,
    description: string,
    channelId: string,
    channelTitle: string,
    publishedAt: int,
    thumbnail: Thumbnail,
    statistics: VideoStatistics,
    duration: Option<nat>)

  datatype ChannelStatistics = ChannelStatistics(viewCount: nat, subscriberCount: nat, videoCount: nat)

  datatype Channel = Channel(
    id: string,
    title: string,
    description: string,
    customUrl: Option<string>,
    publishedAt: int,
    thumbnail: Thumbnail,
    statistics: ChannelStatistics)

  /**
   * A video with its channel and scores attached. The video's own fields are
   * kept whole in `video`; `multiplier` and `viralPotential` are optional
   * because the scorer never fills them in.
   */
  datatype ViralVideo = ViralVideo(
    video: Video,
    channel: Channel,
    viralScore: int,
    multiplier: Option<real>,
    engagementRate: real,
    viralPotential: Option<string>)
}
