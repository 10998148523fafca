/**
 * The `GET /api/youtube/search` handler: rate-limit check, query validation,
 * upstream search, the empty-page short-circuit, one batched channel fetch
 * for the distinct channel ids, scoring of every video whose channel came
 * back, and a sort by viral score, highest first. The upstream client, the
 * identity lookup and the clock are inputs; the fire-and-forget cache and
 * search-history writes are not modelled.
 */
module SearchRoute {
  import opened Common
  import opened YouTubeTypes
  import Scoring
  import Sorting
  import RL = RateLimiter

  /** What the upstream search returns for one page. */
  datatype SearchPage = SearchPage(items: seq<Video>, nextPageToken: Option<string>, totalResults: int)

  /** The identity lookup that runs after scoring: a user, no user, or a thrown error. */
  datatype IdentityLookup = SignedIn(userId: string) | SignedOut | LookupFailed

  datatype Response =
    | RateLimited(error: string, remainingRequests: int, resetTime: int)
    | BadRequest(error: string)
    | Page(items: seq<ViralVideo>, nextPageToken: Option<string>, totalResults: int)
    | ServerError(error: string)
  {
    function Status(): int {
      match this
      case RateLimited(_, _, _) => 429
      case BadRequest(_) => 400
      case Page(_, _, _) => 200
      case ServerError(_) => 500
    }
  }

  const RateLimitMessage := "Rate limit exceeded. Please try again later."
  const MissingQueryMessage := "Query parameter is required"
  const SearchFailedMessage := "Failed to search videos"

  /** `x-forwarded-for` when present and non-empty, else the shared key `anonymous`. */
  function ClientKey(forwardedFor: Option<string>): (k: string)
    ensures k != ""
    ensures forwardedFor.Some? && forwardedFor.value != "" ==> k == forwardedFor.value
  {
    if forwardedFor.Some? && forwardedFor.value != "" then forwardedFor.value else "anonymous"
  }

  // ----- Distinct channel ids -----

  function ChannelIds(items: seq<Video>): (r: seq<string>)
    ensures |r| == |items|
    ensures forall i | 0 <= i < |items| :: r[i] == items[i].channelId
  {
    if items == [] then [] else ChannelIds(items[..|items| - 1]) + [items[|items| - 1].channelId]
  }

  /** `[...new Set(ids)]`: each id once, at the place it first appears. */
  function Dedup(ids: seq<string>): (r: seq<string>)
    ensures forall x :: x in r <==> x in ids
    ensures forall i, j | 0 <= i < j < |r| :: r[i] != r[j]
    decreases |ids|
  {
    if ids == [] then []
    else
      var d := Dedup(ids[..|ids| - 1]);
      var last := ids[|ids| - 1];
      assert forall x :: x in ids <==> x in ids[..|ids| - 1] || x == last;
      if last in d then d else d + [last]
  }

  /** The index at which `x` first occurs. */
  function FirstIndex(ids: seq<string>, x: string): (k: nat)
    requires x in ids
    ensures k < |ids| && ids[k] == x
    ensures forall i | 0 <= i < k :: ids[i] != x
  {
    if ids[0] == x then 0 else 1 + FirstIndex(ids[1..], x)
  }

  /** The deduplicated ids keep the order of first appearance. */
  lemma {:induction false} DedupFirstAppearanceOrder(ids: seq<string>, i: int, j: int)
    requires 0 <= i < j < |Dedup(ids)|
    ensures FirstIndex(ids, Dedup(ids)[i]) < FirstIndex(ids, Dedup(ids)[j])
    decreases |ids|
  {
    var init := ids[..|ids| - 1];
    var last := ids[|ids| - 1];
    var d := Dedup(init);
    var a, b := Dedup(ids)[i], Dedup(ids)[j];
    assert a in init by {
      assert i < |d| && a == d[i];
    }
    FirstIndexPrefix(ids, init, a);
    if j < |d| {
      DedupFirstAppearanceOrder(init, i, j);
      FirstIndexPrefix(ids, init, b);
    } else {
      assert b == last && last !in init;
      var k := FirstIndex(ids, b);
      assert k == |ids| - 1;
    }
  }

  lemma FirstIndexPrefix(ids: seq<string>, init: seq<string>, x: string)
    requires |ids| > 0 && init == ids[..|ids| - 1] && x in init
    ensures FirstIndex(ids, x) == FirstIndex(init, x)
  {
    var k, k' := FirstIndex(ids, x), FirstIndex(init, x);
    assert ids[k'] == x;
    assert k <= k';
    assert init[k] == ids[k];
  }

  /** The channel ids requested upstream: distinct, covering every video, in first-appearance order. */
  function UniqueChannelIds(items: seq<Video>): (r: seq<string>)
    ensures forall i, j | 0 <= i < j < |r| :: r[i] != r[j]
    ensures forall v | v in items :: v.channelId in r
    ensures forall x | x in r :: exists v | v in items :: v.channelId == x
  {
    var ids := ChannelIds(items);
    var r := Dedup(ids);
    assert forall x | x in r :: exists i | 0 <= i < |items| :: items[i].channelId == x by {
      forall x | x in r ensures exists i | 0 <= i < |items| :: items[i].channelId == x {
        var i :| 0 <= i < |ids| && ids[i] == x;
      }
    }
    assert forall v | v in items :: v.channelId in ids by {
      forall v | v in items ensures v.channelId in ids {
        var i :| 0 <= i < |items| && items[i] == v;
        assert ids[i] == v.channelId;
      }
    }
    r
  }

  // ----- Channel lookup, scoring, ranking -----

  /** `new Map(channels.map(c => [c.id, c]))`: for a repeated id the last channel wins. */
  function ChannelMap(channels: seq<Channel>): (m: map<string, Channel>)
    ensures forall k | k in m :: m[k].id == k && m[k] in channels
    ensures forall c | c in channels :: c.id in m
  {
    if channels == [] then map[]
    else
      var last := channels[|channels| - 1];
      var m := ChannelMap(channels[..|channels| - 1]);
      assert forall c | c in channels[..|channels| - 1] :: c in channels;
      assert forall c | c in channels :: c in channels[..|channels| - 1] || c == last;
      m[last.id := last]
  }

  /** The channel stored under an id is the last fetched channel with that id. */
  lemma {:induction false} LastChannelWins(channels: seq<Channel>)
    ensures forall i | 0 <= i < |channels| && (forall j | i < j < |channels| :: channels[j].id != channels[i].id) ::
      ChannelMap(channels)[channels[i].id] == channels[i]
    decreases |channels|
  {
    if channels != [] {
      var init := channels[..|channels| - 1];
      LastChannelWins(init);
      forall i | 0 <= i < |channels| - 1 && (forall j | i < j < |channels| :: channels[j].id != channels[i].id)
        ensures ChannelMap(channels)[channels[i].id] == channels[i]
      {
        assert init[i] == channels[i];
        assert forall j | i < j < |init| :: init[j].id != init[i].id by {
          assert forall j | i < j < |init| :: init[j] == channels[j];
        }
      }
    }
  }

  /** Scores each video whose channel was fetched and drops the others, keeping upstream order. */
  function AttachChannels(items: seq<Video>, channels: map<string, Channel>, now: int): (r: seq<ViralVideo>)
    ensures |r| <= |items|
    ensures forall w | w in r :: w.video in items && w.video.channelId in channels
    ensures forall w | w in r :: w.channel == channels[w.video.channelId]
    ensures forall v | v in items && v.channelId in channels :: Scoring.CreateViralVideo(v, channels[v.channelId], now) in r
  {
    if items == [] then []
    else
      var v := items[0];
      var rest := AttachChannels(items[1..], channels, now);
      assert forall u | u in items[1..] :: u in items;
      assert forall u | u in items :: u == v || u in items[1..];
      if v.channelId in channels then
        [Scoring.CreateViralVideo(v, channels[v.channelId], now)] + rest
      else rest
  }

  /** The comparator `(a, b) => b.viralScore - a.viralScore`. */
  function ByScoreDescending(): (ViralVideo, ViralVideo) -> bool {
    (a: ViralVideo, b: ViralVideo) => a.viralScore >= b.viralScore
  }

  lemma ByScoreDescendingIsTotalPreorder()
    ensures Sorting.TotalPreorder(ByScoreDescending())
  {
  }

  /** The scored, filtered and sorted page of results. */
  function ScoreResults(items: seq<Video>, channels: seq<Channel>, now: int): (r: seq<ViralVideo>)
    ensures multiset(r) == multiset(AttachChannels(items, ChannelMap(channels), now))
    ensures forall i, j | 0 <= i < j < |r| :: r[i].viralScore >= r[j].viralScore
    ensures forall w | w in r :: w.channel.id == w.video.channelId && w.channel in channels && w.video in items
  {
    var scored := AttachChannels(items, ChannelMap(channels), now);
    var r := Sorting.Sort(scored, ByScoreDescending());
    ByScoreDescendingIsTotalPreorder();
    Sorting.SortSorted(scored, ByScoreDescending());
    assert forall w | w in r :: w in scored by {
      forall w | w in r ensures w in scored {
        assert w in multiset(r);
      }
    }
    r
  }

  /**
   * Everything after an admitted rate-limit check: validation, the upstream
   * calls (their outcomes are inputs) and the response. `requestedChannels`
   * is the id list handed to the channel fetch, if that fetch is made.
   */
  function HandleAdmitted(
    query: Option<string>,
    search: Result<SearchPage, string>,
    channels: Result<seq<Channel>, string>,
    identity: IdentityLookup,
    now: int): (r: (Response, Option<seq<string>>))
    ensures query.None? || query == Some("") ==> r.0 == BadRequest(MissingQueryMessage) && r.1.None?
    ensures r.0.RateLimited? == false
    ensures r.1.Some? ==> query.Some? && search.Success? && |search.value.items| > 0
                          && r.1.value == UniqueChannelIds(search.value.items)
    ensures query.Some? && query != Some("") && search.Success? && search.value.items == [] ==>
              r.0 == Page([], search.value.nextPageToken, 0) && r.1.None?
    ensures r.0.Page? && r.0.items != [] ==>
              && search.Success? && channels.Success?
              && r.0.nextPageToken == search.value.nextPageToken
              && r.0.totalResults == search.value.totalResults
    ensures r.0.Page? ==> forall i, j | 0 <= i < j < |r.0.items| :: r.0.items[i].viralScore >= r.0.items[j].viralScore
    ensures r.0.ServerError? ==> r.0.error == SearchFailedMessage
    ensures query.Some? && query != Some("") && search.Failure? ==>
      r.0 == ServerError(SearchFailedMessage) && r.1.None?
    ensures (query.Some? && query != Some("") && search.Success? && search.value.items != [] &&
             (channels.Failure? || identity.LookupFailed?)) ==>
      r.0 == ServerError(SearchFailedMessage) && r.1 == Some(UniqueChannelIds(search.value.items))
    ensures (query.Some? && query != Some("") && search.Success? && search.value.items != [] &&
             channels.Success? && !identity.LookupFailed?) ==>
      r.0 == Page(ScoreResults(search.value.items, channels.value, now), search.value.nextPageToken, search.value.totalResults) &&
      r.1 == Some(UniqueChannelIds(search.value.items))
  {
    if query.None? || query.value == "" then (BadRequest(MissingQueryMessage), None)
    else match search
      case Failure(_) => (ServerError(SearchFailedMessage), None)
      case Success(page) =>
        if |page.items| == 0 then (Page([], page.nextPageToken, 0), None)
        else
          var ids := UniqueChannelIds(page.items);
          match channels
          case Failure(_) => (ServerError(SearchFailedMessage), Some(ids))
          case Success(fetched) =>
            var items := ScoreResults(page.items, fetched, now);
            if identity.LookupFailed? then (ServerError(SearchFailedMessage), Some(ids))
            else (Page(items, page.nextPageToken, page.totalResults), Some(ids))
  }

  /**
   * The handler. The limiter is consulted before anything else, so even a
   * request without a query consumes a slot. On denial nothing upstream is
   * called and the response carries the remaining quota and reset time.
   */
  method Get(
    limiter: RL.RateLimiter,
    forwardedFor: Option<string>,
    query: Option<string>,
    search: Result<SearchPage, string>,
    channels: Result<seq<Channel>, string>,
    identity: IdentityLookup,
    now: nat) returns (response: Response, searchIssued: bool, requestedChannels: Option<seq<string>>)
    requires limiter.Valid()
    modifies limiter
    ensures limiter.Valid()
    ensures var key := ClientKey(forwardedFor);
      var admitted := RL.Check(old(limiter.requests), limiter.config, key, now).0;
      && limiter.requests == RL.Check(old(limiter.requests), limiter.config, key, now).1
      && (!admitted ==>
            && response == RateLimited(RateLimitMessage,
                                       RL.Remaining(limiter.requests, limiter.config, key, now),
                                       RL.ResetTime(limiter.requests, limiter.config, key))
            && !searchIssued && requestedChannels.None?)
      && (admitted ==>
            && (response, requestedChannels) == HandleAdmitted(query, search, channels, identity, now)
            && searchIssued == (query.Some? && query.value != ""))
  {
    var clientIp := ClientKey(forwardedFor);
    var canProceed := limiter.CheckLimit(clientIp, now);
    if !canProceed {
      response := RateLimited(RateLimitMessage, limiter.GetRemainingRequests(clientIp, now),
                              limiter.GetResetTime(clientIp));
      return response, false, None;
    }
    searchIssued := query.Some? && query.value != "";
    response, requestedChannels := HandleAdmitted(query, search, channels, identity, now).0,
                                   HandleAdmitted(query, search, channels, identity, now).1;
  }

  // ----- Properties -----

  /** A dropped video is exactly one whose channel did not come back. */
  lemma {:induction false} AttachDropsOnlyMissingChannels(items: seq<Video>, channels: map<string, Channel>, now: int)
    ensures |AttachChannels(items, channels, now)| == |items| - CountMissing(items, channels)
    decreases |items|
  {
    if items != [] {
      AttachDropsOnlyMissingChannels(items[1..], channels, now);
    }
  }

  function CountMissing(items: seq<Video>, channels: map<string, Channel>): nat {
    if items == [] then 0
    else (if items[0].channelId in channels then 0 else 1) + CountMissing(items[1..], channels)
  }

  /** With every channel fetched, no video is dropped. */
  lemma {:induction false} AllChannelsFoundKeepsEveryVideo(items: seq<Video>, channels: seq<Channel>, now: int)
    requires forall v | v in items :: exists c | c in channels :: c.id == v.channelId
    ensures |ScoreResults(items, channels, now)| == |items|
  {
    var m := ChannelMap(channels);
    NoneMissing(items, m);
    AttachDropsOnlyMissingChannels(items, m, now);
    assert |ScoreResults(items, channels, now)| == |AttachChannels(items, m, now)| by {
      assert multiset(ScoreResults(items, channels, now)) == multiset(AttachChannels(items, m, now));
    }
  }

  lemma {:induction false} NoneMissing(items: seq<Video>, m: map<string, Channel>)
    requires forall v | v in items :: v.channelId in m
    ensures CountMissing(items, m) == 0
    decreases |items|
  {
    if items != [] {
      assert forall v | v in items[1..] :: v in items;
      NoneMissing(items[1..], m);
    }
  }
}
