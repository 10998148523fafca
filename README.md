# Viral video search: a verified model

This project models, in Dafny, the core of a YouTube "viral video" search
dashboard written in TypeScript. It covers:

- the server side:
  - the search endpoint's pipeline: the rate-limit check, validation, the
    upstream search, a single de-duplicated channel fetch, scoring, and the
    sort by score;
  - the sliding-window rate limiter that protects the endpoint;
  - the flat viral-score formula;
  - the Cache-Control builder used for API responses.
- the client-side state behind the discovery and saved-videos pages:
  - the notification provider and the viral monitor that feeds it;
  - the search hook and the saved-videos hook;
  - the saved-videos page's filter, sort and removal pipeline;
  - the related-keyword suggestions;
  - the filter panel, the active-filter chips and the discovery page that
    ties them together;
  - the persisted application store.

There is one module per source file, in the form that file takes:
- Code that changes state step by step is a `class` whose methods state the
  new state in terms of a function of the old one.
- Pure code is made of datatypes and functions.
- Each operation is paired with lemmas about it: invariants it keeps,
  round trips, what it leaves unchanged, and the orders it produces.

Shared modules:
- `Common`: Option and Result.
- `Text`: ASCII lower-casing, substrings, whitespace, UTF-16 length, and
  printing and reading decimal numbers.
- `Sorting`: a stable insertion sort, standing for `Array.prototype.sort`.
- `YouTubeTypes`: the video, channel and scored-video records.
- `Filters`: the discovery filter record.

Clock reads, network calls and database calls become parameters:
- a time `now`, or a day count;
- the outcome of a fetch: the decoded body, a non-OK response, or a thrown
  error;
- the error a database call reported.

Toasts are returned as values instead of being shown.

## Model

| member | source | states |
|---|---|---|
| RateLimiter.ValidRequests | src/lib/youtube/rate-limiter.ts:19-21 | a timestamp is kept exactly when it was stored and is younger than the window; the result is never longer than the stored list |
| RateLimiter.Check | src/lib/youtube/rate-limiter.ts:14-32 | a call is admitted exactly when fewer than `maxRequests` stored timestamps are still valid; a denied call leaves the map as it was; an admitted call stores the valid timestamps followed by `now` under its key |
| RateLimiter.Remaining | src/lib/youtube/rate-limiter.ts:34-42 | the quota left is never negative, never above `maxRequests`, and is `maxRequests` minus the valid timestamps, floored at 0 |
| RateLimiter.MinOf | src/lib/youtube/rate-limiter.ts:48 | `Math.min` of a non-empty list is one of its elements and no element is smaller |
| RateLimiter.ResetTime | src/lib/youtube/rate-limiter.ts:44-50 | 0 for a key without history; otherwise the oldest stored timestamp, expired ones included, plus the window |
| RateLimiter.RateLimiter.constructor | src/lib/youtube/rate-limiter.ts:7-12 | a new limiter has the given configuration and no history |
| RateLimiter.RateLimiter.CheckLimit | src/lib/youtube/rate-limiter.ts:14-32 | the answer and the new map are those of `Check`, and every stored list stays within the quota |
| RateLimiter.RateLimiter.GetRemainingRequests | src/lib/youtube/rate-limiter.ts:34-42 | between 0 and `maxRequests`, and positive exactly when the next call for the key would be admitted |
| RateLimiter.RateLimiter.GetResetTime | src/lib/youtube/rate-limiter.ts:44-50 | 0 for a key without history, and with a positive window 0 only then |
| RateLimiter.CheckKeepsQuota | src/lib/youtube/rate-limiter.ts:23-29 | after any call no key stores more than `maxRequests` timestamps |
| RateLimiter.CheckOtherKeysUnchanged | src/lib/youtube/rate-limiter.ts:29 | a call rewrites only its own key's history |
| RateLimiter.RemainingPositiveIffAdmitted | src/lib/youtube/rate-limiter.ts:23-41 | the remaining quota is positive if and only if a call at the same moment is admitted |
| RateLimiter.ResetTimeZeroIffEmpty | src/lib/youtube/rate-limiter.ts:44-50 | with a positive window the reset time is 0 if and only if the key has no history |
| RateLimiter.ValidRequestsAllValid | src/lib/youtube/rate-limiter.ts:19-21 | filtering a list whose timestamps are all in the window returns it unchanged |
| RateLimiter.Run | src/lib/youtube/rate-limiter.ts:14-32 | a run of calls gives one answer per call |
| RateLimiter.CheckAppends | src/lib/youtube/rate-limiter.ts:19-31 | a call with room left and every stored timestamp still valid is admitted and appends `now` to the history |
| RateLimiter.BurstAdmitted | src/lib/youtube/rate-limiter.ts:14-32 | for a fresh key, up to `maxRequests` calls within one window are all admitted and all their timestamps are stored, in order |
| RateLimiter.BurstThenDenied | src/lib/youtube/rate-limiter.ts:23-25 | for a fresh key, `maxRequests + 1` calls within one window: the first `maxRequests` are admitted, the last is denied |
| RateLimiter.RunOtherKeyUnchanged | src/lib/youtube/rate-limiter.ts:16-29 | any run of calls on one key leaves every other key's history as it was |
| RateLimiter.SearchLimiterBurst | src/lib/youtube/rate-limiter.ts:53-58 | the endpoint's limiter admits 50 calls within an hour from a fresh client and denies the 51st |
| Scoring.Round | src/lib/youtube/scoring.ts:33 | `Math.round` lands within half a unit of its argument |
| Scoring.DaysSincePublished | src/lib/youtube/scoring.ts:36-41 | the age is the absolute distance from publication to now, rounded up to whole days |
| Scoring.SubscriberScore | src/lib/youtube/scoring.ts:43-55 | the subscriber score is between 0 and 100, and 0 exactly for a channel without subscribers |
| Scoring.ViewsPerDay | src/lib/youtube/scoring.ts:59 | views per day are never negative |
| Scoring.VelocityScore | src/lib/youtube/scoring.ts:61-70 | the views-per-day table yields a score between 20 and 100 |
| Scoring.ViewScore | src/lib/youtube/scoring.ts:57-71 | the view score is between 20 and 100 |
| Scoring.EngagementRate | src/lib/youtube/scoring.ts:92-96 | 0 for an unviewed video; otherwise the rate times the views is one hundred times the likes plus comments |
| Scoring.RateScore | src/lib/youtube/scoring.ts:81-89 | the engagement-rate table yields a score between 30 and 100 |
| Scoring.EngagementScore | src/lib/youtube/scoring.ts:73-90 | 0 for an unviewed video, otherwise between 30 and 100 |
| Scoring.TimeDecayFactor | src/lib/youtube/scoring.ts:31 | within 30 days the factor lies between 1 and 1.2 |
| Scoring.RawScore | src/lib/youtube/scoring.ts:24-28 | the weighted sum of the three sub-scores lies between 0 and 100 |
| Scoring.ViralScoreAtAge | src/lib/youtube/scoring.ts:13-33 | the score lies between 0 and 100 and is 0 past 30 days |
| Scoring.ProductBounds | src/lib/youtube/scoring.ts:33 | the decayed raw score lies between 0 and 120 before capping |
| Scoring.CalculateViralScore | src/lib/youtube/scoring.ts:9-34 | every viral score lies between 0 and 100 |
| Scoring.CreateViralVideo | src/lib/youtube/scoring.ts:98-108 | the result carries the video, its channel, a score between 0 and 100 and the video's engagement rate |
| Scoring.OldVideosScoreZero | src/lib/youtube/scoring.ts:13-16 | a video published more than 30 days ago scores exactly 0, whatever its metrics |
| Scoring.SubscriberScoreNonIncreasing | src/lib/youtube/scoring.ts:44-54 | among channels with subscribers, a bigger channel never scores higher |
| Scoring.SubscriberScoreExamples | src/lib/youtube/scoring.ts:48-54 | each boundary count falls into the next bucket down |
| Scoring.ViewScoreMonotone | src/lib/youtube/scoring.ts:57-71 | at a fixed age, more views never lower the view score |
| Scoring.RateScoreMonotone | src/lib/youtube/scoring.ts:81-89 | a higher engagement rate never lowers its score |
| Scoring.EngagementScoreMonotone | src/lib/youtube/scoring.ts:73-90 | among viewed videos, a higher engagement rate never lowers the engagement score |
| Scoring.EngagementRateExample | src/lib/youtube/scoring.ts:92-96 | 500 likes and 100 comments on 10000 views give a rate of 6 |
| Scoring.TimeDecayNonIncreasing | src/lib/youtube/scoring.ts:31 | the decay factor falls as a video ages |
| SearchRoute.ClientKey | src/app/api/youtube/search/route.ts:12 | the limiter key is the forwarded address when one is given and non-empty, otherwise the shared key `anonymous`; it is never empty |
| SearchRoute.ChannelIds | src/app/api/youtube/search/route.ts:50 | one channel id per video, in the videos' order |
| SearchRoute.Dedup | src/app/api/youtube/search/route.ts:50 | `[...new Set(ids)]` holds the same ids, each once |
| SearchRoute.FirstIndex | src/app/api/youtube/search/route.ts:50 | the position where an id first occurs |
| SearchRoute.DedupFirstAppearanceOrder | src/app/api/youtube/search/route.ts:50 | the deduplicated ids keep the order in which each first appears |
| SearchRoute.UniqueChannelIds | src/app/api/youtube/search/route.ts:50 | the ids sent to the channel fetch are distinct, cover every video's channel and name no other channel |
| SearchRoute.ChannelMap | src/app/api/youtube/search/route.ts:54 | every fetched channel is in the map under its own id, and the map holds nothing else |
| SearchRoute.LastChannelWins | src/app/api/youtube/search/route.ts:54 | for an id fetched more than once, the map holds the last channel with that id |
| SearchRoute.AttachChannels | src/app/api/youtube/search/route.ts:57-63 | every video whose channel was fetched is scored with that channel; no other video appears |
| SearchRoute.ByScoreDescendingIsTotalPreorder | src/app/api/youtube/search/route.ts:64 | the sort comparator is a total preorder |
| SearchRoute.ScoreResults | src/app/api/youtube/search/route.ts:57-64 | the page is a permutation of the scored videos, sorted by viral score from highest, each paired with its own channel |
| SearchRoute.HandleAdmitted | src/app/api/youtube/search/route.ts:26-95 | a missing or empty query gives 400 before any upstream call; an empty page gives an empty result with the upstream token; a non-empty page fetches exactly the distinct channel ids; a result page keeps the upstream token and total and is sorted by score; when the search, the channel fetch and the identity lookup succeed, the page is exactly the scored and ranked videos (`ScoreResults`) with the upstream token and total; a failed search, channel fetch or identity lookup gives 500 with the generic message |
| SearchRoute.Get | src/app/api/youtube/search/route.ts:9-96 | the limiter is consulted first, even for a request without a query; a denied call gives 429 with the remaining quota and the reset time and makes no upstream call; an admitted call answers as `HandleAdmitted` |
| SearchRoute.AttachDropsOnlyMissingChannels | src/app/api/youtube/search/route.ts:59-63 | exactly the videos whose channel was not fetched are dropped |
| SearchRoute.AllChannelsFoundKeepsEveryVideo | src/app/api/youtube/search/route.ts:57-64 | when every channel comes back, the page keeps every video |
| CacheHeaders.BuildDirectives | src/lib/cache-headers.ts:27-50 | the pushes produce the directive list the options call for, in the fixed order |
| CacheHeaders.DirectivesPresence | src/lib/cache-headers.ts:13-50 | visibility comes first; `max-age`, `s-maxage` (shared caches only, falling back to `maxAge`), `stale-while-revalidate` and `must-revalidate` each appear exactly when their option asks for them, with the option's value |
| CacheHeaders.DirectivesOrdered | src/lib/cache-headers.ts:29-50 | the directives appear in the fixed order, each kind at most once |
| CacheHeaders.RenderAll | src/lib/cache-headers.ts:34-49 | each directive is rendered in place |
| CacheHeaders.CacheControl | src/lib/cache-headers.ts:22-24 | with `noStore` the value is `no-store, no-cache, must-revalidate` whatever else is set |
| CacheHeaders.Response.constructor | src/lib/cache-headers.ts:12 | a response holds the given headers and body flag |
| CacheHeaders.SetCacheHeaders | src/lib/cache-headers.ts:12-61 | `noStore` sets only Cache-Control; otherwise Cache-Control is the joined directives and an ETag is added exactly when the response has a body; no other header changes |
| CacheHeaders.TwoAndThreeDigits | src/lib/cache-headers.ts:34 | the numbers in the presets print as their decimal digits |
| CacheHeaders.JoinThree | src/lib/cache-headers.ts:52 | joining three directives puts `, ` between them |
| CacheHeaders.JoinFour | src/lib/cache-headers.ts:52 | joining four directives puts `, ` between them |
| CacheHeaders.NoCacheValue | src/lib/cache-headers.ts:80 | the `noCache` preset gives `no-store, no-cache, must-revalidate` |
| CacheHeaders.ShortLivedParts | src/lib/cache-headers.ts:83-86 | the `shortLived` preset gives `public`, `max-age=60`, `s-maxage=60` (copied from `maxAge`) and `stale-while-revalidate=300` |
| CacheHeaders.ShortLivedValue | src/lib/cache-headers.ts:83-86 | the `shortLived` header is `public, max-age=60, s-maxage=60, stale-while-revalidate=300` |
| CacheHeaders.UserDataParts | src/lib/cache-headers.ts:109-113 | the `userData` preset gives `private`, `max-age=60` and `must-revalidate`, and no shared-cache age |
| CacheHeaders.UserDataValue | src/lib/cache-headers.ts:109-113 | the `userData` header is `private, max-age=60, must-revalidate` |
| CacheHeaders.EmptyOptionsArePublic | src/lib/cache-headers.ts:12-20 | without options the header is just `public` |
| Notifications.Stamp | src/contexts/notifications.tsx:77-83 | a new notification keeps the caller's fields, takes its id from the clock and starts unread |
| Notifications.MarkRead | src/contexts/notifications.tsx:99-105 | exactly the entries with the given id become read; every other entry and the order stay |
| Notifications.MarkAllRead | src/contexts/notifications.tsx:107-111 | every entry becomes read and nothing else about it changes |
| Notifications.UnreadCount | src/contexts/notifications.tsx:124 | the unread count never exceeds the list and is 0 exactly when every entry is read |
| Notifications.Merge | src/contexts/notifications.tsx:113-117 | each supplied field replaces the old one, `types` as a whole; absent fields keep their values |
| Notifications.AsWrittenOnlySystemToasts | src/contexts/notifications.tsx:88 | as written, a toast is raised only for `system` notifications, because the other types' snake_case tags never match the camelCase switch names |
| Notifications.AsWrittenMissesViralVideo | src/contexts/notifications.tsx:88 | under the default preferences a viral-video notification should raise a toast but does not as written |
| Notifications.ToastFor | src/contexts/notifications.tsx:87-96 | a toast is raised exactly when notifications are enabled and the type's own switch is on; it shows the title and message, with a "View" link to the video exactly when the payload names one |
| Notifications.MarkReadIdempotent | src/contexts/notifications.tsx:99-105 | marking the same id twice is marking it once |
| Notifications.MarkAllReadLeavesNoneUnread | src/contexts/notifications.tsx:107-111 | after marking all read the unread count is 0 |
| Notifications.PrependAddsOneUnread | src/contexts/notifications.tsx:85 | adding a notification raises the unread count by exactly one |
| Notifications.MarkReadUnreadCount | src/contexts/notifications.tsx:99-105 | marking by id never raises the unread count, and leaves it alone when no entry has that id |
| Notifications.MarkReadClearsId | src/contexts/notifications.tsx:99-105 | after marking an id no entry with that id is unread |
| Notifications.MergeEmptyIsIdentity | src/contexts/notifications.tsx:113-117 | an empty update leaves the preferences as they were |
| Notifications.NotificationCenter.constructor | src/contexts/notifications.tsx:35-36 | the provider starts with no notifications and the default preferences |
| Notifications.NotificationCenter.AddNotification | src/contexts/notifications.tsx:77-97 | the stamped notification is put first, the preferences stay, and the returned toast is the one the preferences call for (`ToastFor`); every toast the check as written would raise is raised, and the only extra ones are for non-`system` types (see Findings) |
| Notifications.NotificationCenter.MarkAsRead | src/contexts/notifications.tsx:99-105 | the list becomes `MarkRead` of the old list; the preferences stay |
| Notifications.NotificationCenter.MarkAllAsRead | src/contexts/notifications.tsx:107-111 | every entry becomes read and the unread count drops to 0 |
| Notifications.NotificationCenter.UpdatePreferences | src/contexts/notifications.tsx:113-117 | the preferences become the merge; the list stays |
| Notifications.NotificationCenter.ClearNotifications | src/contexts/notifications.tsx:119-122 | the list becomes empty; the preferences stay |
| Notifications.NotificationCenter.Unread | src/contexts/notifications.tsx:124 | the provider's unread count is that of its list |
| ViralMonitor.PriorityOf | src/hooks/use-viral-monitor.ts:44-45 | high from a score of 90, medium from 80 to 89, low below 80 |
| ViralMonitor.AlertFor | src/hooks/use-viral-monitor.ts:34-46 | the notification is a viral-video alert carrying the video's id, score, view count and thumbnail, with the score's priority |
| ViralMonitor.Monitor.constructor | src/hooks/use-viral-monitor.ts:7 | the seen-set starts empty |
| ViralMonitor.Monitor.Run | src/hooks/use-viral-monitor.ts:9-50 | switched off, a run raises nothing and leaves the seen-set; switched on, its notifications and new seen-set are those of the walk over the videos in order |
| ViralMonitor.ProcessStep | src/hooks/use-viral-monitor.ts:13-48 | one more video extends the walk by that video's step alone |
| ViralMonitor.ProcessSeen | src/hooks/use-viral-monitor.ts:14-18 | after a run the seen-set holds exactly the old ids plus every listed id at or over the threshold, matched or not |
| ViralMonitor.AlertsAreNew | src/hooks/use-viral-monitor.ts:14-18 | every notification names a video that was unseen before the run and is seen after it, and no two notifications name the same video |
| ViralMonitor.AlertsComeFromMatches | src/hooks/use-viral-monitor.ts:14-47 | every notification comes from a listed video that was unseen, reached the threshold and matched the keywords and channels; there are never more notifications than videos |
| ViralMonitor.MatchesAreReported | src/hooks/use-viral-monitor.ts:14-47 | with distinct ids, every listed video that is unseen, reaches the threshold and matches is reported |
| ViralMonitor.SeenVideosStaySilent | src/hooks/use-viral-monitor.ts:14-17 | when every video over the threshold is already seen, a run raises nothing and adds nothing |
| ViralMonitor.SecondRunIsSilent | src/hooks/use-viral-monitor.ts:7-18 | running again over the same videos raises no notification |
| ViralMonitor.KeywordMatchIgnoresCase | src/hooks/use-viral-monitor.ts:21-25 | the keyword test ignores case on both sides, and an empty keyword list matches every video |
| ViralMonitor.ChannelMatchIgnoresCase | src/hooks/use-viral-monitor.ts:28-31 | the channel test ignores case on both sides, and an empty channel list matches every video |
| YouTubeSearch.FailureMessage | src/hooks/use-youtube-search.ts:35-45 | a non-OK response shows its body's non-empty `error` field, else the fallback; a thrown error shows its message, else `An error occurred` |
| YouTubeSearch.AfterSearch | src/hooks/use-youtube-search.ts:22-50 | a blank query only sets `Please enter a search query`; otherwise the query becomes current and loading ends; a fetched page replaces the list, token and total and clears the error; a failure empties the list, shows the message and keeps the old token and total |
| YouTubeSearch.AfterLoadMore | src/hooks/use-youtube-search.ts:52-76 | with no token or no current query nothing changes; a fetched page is appended and its token replaces the old one; a failure keeps the list and token and shows the message; the query and the total never change |
| YouTubeSearch.SearchHook.constructor | src/hooks/use-youtube-search.ts:15-20 | the hook starts with no videos, no error, no token, a total of 0 and no query |
| YouTubeSearch.SearchHook.Search | src/hooks/use-youtube-search.ts:22-50 | the new state is `AfterSearch` of the old one |
| YouTubeSearch.SearchHook.LoadMore | src/hooks/use-youtube-search.ts:52-76 | the new state is `AfterLoadMore` of the old one |
| YouTubeSearch.LoadMoreKeepsPrefix | src/hooks/use-youtube-search.ts:69 | paging only extends the list: the old results stay a prefix, whatever the outcome |
| YouTubeSearch.SearchThenLoadMore | src/hooks/use-youtube-search.ts:22-76 | a search and one more page give both pages in order, the first response's total and the second response's token |
| YouTubeSearch.FailedSearchThenLoadMore | src/hooks/use-youtube-search.ts:44-53 | after a failed first search there is nothing to page through |
| YouTubeSearch.FailedSearchKeepsOldToken | src/hooks/use-youtube-search.ts:30-60 | a failed search keeps the previous query's token, so the next `loadMore` pages the new query with the old token |
| YouTubeSearch.BlankQueryIdempotent | src/hooks/use-youtube-search.ts:23-26 | a blank query changes only the error, however often it is repeated |
| SavedVideos.RowFor | src/hooks/use-saved-videos.ts:47-55 | the inserted row carries the user, the video's id and its viral score |
| SavedVideos.Save | src/hooks/use-saved-videos.ts:37-75 | without a user nothing is inserted and `Please sign in to save videos` is shown; otherwise the row is inserted, the call succeeds exactly when the insert reports no error, and only then the id joins the set; success shows `Video saved!`, a duplicate (code 23505) shows `Video already saved` and any other error `Failed to save video`; loading ends |
| SavedVideos.Unsave | src/hooks/use-saved-videos.ts:77-104 | without a user nothing is deleted and no toast is shown; otherwise the delete is issued, succeeds exactly when it reports no error, and only then the id leaves the set; success shows `Video removed from saved` and an error `Failed to remove video`; loading ends |
| SavedVideos.Fetch | src/hooks/use-saved-videos.ts:19-35 | with a user and rows, the set becomes exactly the returned ids; without a user or on an error it stays as it was |
| SavedVideos.SavedVideosHook.constructor | src/hooks/use-saved-videos.ts:9-10 | the hook starts with no saved ids and not loading |
| SavedVideos.SavedVideosHook.IsSaved | src/hooks/use-saved-videos.ts:114 | a video is saved exactly when its id is in the set |
| SavedVideos.SavedVideosHook.FetchSavedVideoIds | src/hooks/use-saved-videos.ts:19-35 | the new state is `Fetch` of the old one |
| SavedVideos.SavedVideosHook.SaveVideo | src/hooks/use-saved-videos.ts:37-75 | the new state, result, toast and inserted row are those of `Save` |
| SavedVideos.SavedVideosHook.UnsaveVideo | src/hooks/use-saved-videos.ts:77-104 | the new state, result, toast and issued delete are those of `Unsave` |
| SavedVideos.SavedVideosHook.ToggleSaveVideo | src/hooks/use-saved-videos.ts:106-112 | a saved video is unsaved and an unsaved one is saved, with the result of that call |
| SavedVideos.SaveThenUnsaveRestores | src/hooks/use-saved-videos.ts:65-94 | saving an unsaved video and then unsaving it restores the set |
| SavedVideos.ToggleFlips | src/hooks/use-saved-videos.ts:106-112 | a successful toggle flips the video's saved status and moves no other id |
| SavedVideos.FailedSaveChangesNothing | src/hooks/use-saved-videos.ts:57-71 | a rejected insert, the duplicate case included, reports failure and leaves the set as it was |
| SavedPage.Filtered | src/app/saved/page.tsx:84-97 | the two filters never add rows |
| SavedPage.FilteredCounts | src/app/saved/page.tsx:84-97 | a row is kept, as often as it occurs, exactly when it matches the search term (title or channel, ignoring case) and lies in the chosen score bucket; other rows are dropped |
| SavedPage.ComparatorIsTotalPreorder | src/app/saved/page.tsx:98-104 | each sort key compares every pair of rows consistently |
| SavedPage.FilterAndSort | src/app/saved/page.tsx:84-104 | the page shows a permutation of the passing rows, ordered by the chosen key; an unknown key keeps the list order |
| SavedPage.FilterAndSortKeepsPassingRows | src/app/saved/page.tsx:84-97 | every shown row is a saved row that passes both filters |
| SavedPage.FilterAndSortOrder | src/app/saved/page.tsx:98-104 | newest first by save time, highest score first, most viewed first, or titles in ascending order |
| SavedPage.BucketsPartition | src/app/saved/page.tsx:93-95 | every score lies in exactly one of the three buckets |
| SavedPage.NoFiltersKeepEverything | src/app/saved/page.tsx:85-96 | with no term and the `all` bucket every row passes, in order |
| SavedPage.NoFiltersNoSortKeepsEverything | src/app/saved/page.tsx:84-104 | with no filter and an unknown sort key the page shows the list exactly as loaded |
| SavedPage.RemoveId | src/app/saved/page.tsx:70 | removal never adds rows |
| SavedPage.RemoveIdCounts | src/app/saved/page.tsx:70 | every row for the id goes; every other row stays, as often as it occurred |
| SavedPage.RemoveIdDistributes | src/app/saved/page.tsx:70 | removal works piecewise, so the remaining rows keep their order |
| SavedPage.RemoveAbsentId | src/app/saved/page.tsx:70 | removing an id no row has changes nothing |
| SavedPage.RemoveIdIdempotent | src/app/saved/page.tsx:70 | removing the same id twice is removing it once |
| SavedPage.SavedVideosPage.constructor | src/app/saved/page.tsx:28-32 | the page starts with no rows, no term, the `saved_at` sort and the `all` bucket |
| SavedPage.SavedVideosPage.RemoveSavedVideo | src/app/saved/page.tsx:60-76 | after a successful delete the id's rows leave the list and a success toast is shown; after a failed one the list stays and an error toast is shown; the controls never change |
| RelatedKeywords.Take | src/components/related-keywords.tsx:62 | `slice(0, n)` keeps a prefix of at most `n` items, and the whole list when it is no longer than `n` |
| RelatedKeywords.Texts | src/components/related-keywords.tsx:24 | one text per video, in order, each its title, a space and its description |
| RelatedKeywords.Hits | src/components/related-keywords.tsx:38-42 | a term is kept exactly when it occurs in the lower-cased text and not in the lower-cased query |
| RelatedKeywords.RunLength | src/components/related-keywords.tsx:45 | the length of the leading run of non-whitespace characters: all of them are non-whitespace and the next one, if any, is whitespace |
| RelatedKeywords.Words | src/components/related-keywords.tsx:45 | splitting at whitespace runs yields only non-empty words that contain no whitespace |
| RelatedKeywords.Candidates | src/components/related-keywords.tsx:45-47 | a word is kept, as often as it occurs, exactly when it is longer than four UTF-16 code units and not contained in the query |
| RelatedKeywords.TallyCounts | src/components/related-keywords.tsx:49-52 | the frequency table has a numeric count for exactly the words seen other than the inherited keys `constructor` and `__proto__`, each mapped to its number of occurrences, and its key order lists each such word once |
| RelatedKeywords.Entries | src/components/related-keywords.tsx:55 | one entry per key, in key order, pairing the key with its count |
| RelatedKeywords.EntriesCounted | src/components/related-keywords.tsx:55 | every entry's count is the table's count for its word |
| RelatedKeywords.Frequent | src/components/related-keywords.tsx:56 | an entry is kept, as often as it occurs, exactly when its count is more than three |
| RelatedKeywords.TopEntries | src/components/related-keywords.tsx:55-58 | five of the frequent entries (all when fewer), highest counts first; a frequent entry left out counts no more than any kept entry |
| RelatedKeywords.TopEntriesChosen | src/components/related-keywords.tsx:56-58 | sorting the frequent entries by count and slicing five gives a sorted selection of frequent entries that dominates the rest |
| RelatedKeywords.Names | src/components/related-keywords.tsx:59 | the word of each entry, in order |
| RelatedKeywords.AddAll | src/components/related-keywords.tsx:35-59 | adding to an insertion-ordered set keeps the earlier keys first, holds exactly the old keys and the new items, and never repeats a key |
| RelatedKeywords.TopWords | src/components/related-keywords.tsx:45-59 | at most five words, each longer than four UTF-16 code units, not in the query, not an inherited key, and occurring more than three times in the text |
| RelatedKeywords.TopNamesCounted | src/components/related-keywords.tsx:49-59 | every ranked word occurs more than three times among the candidate words and is not an inherited key |
| RelatedKeywords.CollectHits | src/components/related-keywords.tsx:38-42 | the loop over the terms collects exactly the terms `Hits` describes |
| RelatedKeywords.CountWords | src/components/related-keywords.tsx:49-52 | the counting loop builds the frequency table and key order `Tally` describes, giving no count to an inherited key |
| RelatedKeywords.AddWords | src/components/related-keywords.tsx:59 | the loop adding the frequent words builds the set `AddAll` describes |
| RelatedKeywords.RelatedKeywordsPanel.constructor | src/components/related-keywords.tsx:18 | the suggestions start empty |
| RelatedKeywords.RelatedKeywordsPanel.Refresh | src/components/related-keywords.tsx:20-64 | an empty result list leaves the suggestions as they were; otherwise they become the suggestions computed from the results and the query |
| RelatedKeywords.ViralTermsDistinct | src/components/related-keywords.tsx:27-32 | no viral term is listed twice |
| RelatedKeywords.HitsDistinct | src/components/related-keywords.tsx:38-42 | from a list without repeats, the terms found have no repeats |
| RelatedKeywords.SuggestionsWellFormed | src/components/related-keywords.tsx:35-63 | at most three distinct suggestions, each a term found in the text and not in the query, or a frequent long word not in the query and not an inherited key |
| RelatedKeywords.ViralSuggestionsWellFormed | src/components/related-keywords.tsx:20-63 | the same for the component's own term list and the lower-cased text of the videos |
| RelatedKeywords.InheritedKeysNeverSuggested | src/components/related-keywords.tsx:48-59 | `constructor` and `__proto__` are never suggested, however often the text repeats them |
| RelatedKeywords.AstralWordIsCandidate | src/components/related-keywords.tsx:45 | a word of three astral characters (six code units) passes the length filter |
| RelatedKeywords.TermsFirst | src/components/related-keywords.tsx:38-62 | when three or more terms are found, the suggestions are the first three terms and no frequent word shows |
| SearchFiltersV2.TextOr | src/components/discovery/search-filters-v2.tsx:51 | `s \|\| fallback`: a non-empty string is kept, an empty or missing one gives the fallback |
| SearchFiltersV2.InitialOptions | src/components/discovery/search-filters-v2.tsx:44-98 | six options in the panel's order; each switch starts on exactly when the page's filters use it (time period not `alltime`, viral sort, a view bound, a length other than `any`, shorts explicitly on); engagement starts off |
| SearchFiltersV2.FindFrom | src/components/discovery/search-filters-v2.tsx:118-122 | the first index at or after the start whose option has the id, or -1 when none does |
| SearchFiltersV2.FindIndex | src/components/discovery/search-filters-v2.tsx:118-122 | the first index with the id, and -1 exactly when no option has it |
| SearchFiltersV2.Find | src/components/discovery/search-filters-v2.tsx:118-122 | `find` returns nothing exactly when no option has the id, otherwise an option of the list with that id |
| SearchFiltersV2.FindIsFirst | src/components/discovery/search-filters-v2.tsx:118-122 | `find` returns the first option with the id |
| SearchFiltersV2.SameIdsSameIndex | src/components/discovery/search-filters-v2.tsx:118-122 | lists with the same ids in the same places are searched alike, whatever their switches and configs |
| SearchFiltersV2.Toggle | src/components/discovery/search-filters-v2.tsx:100-106 | every option with the id has its switch flipped; ids, labels, configs and all other options are unchanged |
| SearchFiltersV2.UpdateConfig | src/components/discovery/search-filters-v2.tsx:108-114 | the new keys are merged over the config of every option with the id; switches, ids, labels and other options are unchanged |
| SearchFiltersV2.Cleared | src/components/discovery/search-filters-v2.tsx:152-156 | only the shorts switch stays on; ids, labels and configs are unchanged |
| SearchFiltersV2.ActiveCount | src/components/discovery/search-filters-v2.tsx:148-150 | the badge count is zero exactly when no option other than shorts is on, and the list length exactly when all are |
| SearchFiltersV2.CountWith | src/components/discovery/search-filters-v2.tsx:148-150 | the number of options with an id in a given switch state is bounded by the list length |
| SearchFiltersV2.ConfigText | src/components/discovery/search-filters-v2.tsx:128 | a config entry read as a string exists exactly when the key holds a string |
| SearchFiltersV2.ConfigNumber | src/components/discovery/search-filters-v2.tsx:137-138 | a config entry read as a number exists exactly when the key holds a number; `null` reads as absent |
| SearchFiltersV2.Applied | src/components/discovery/search-filters-v2.tsx:116-142 | the sort is viral score exactly when that option is on, else relevance; each of time period, view range and length comes from its option's config when on, else its "no filter" value; shorts is on unless its option exists and is off |
| SearchFiltersV2.ToggleTwiceRestores | src/components/discovery/search-filters-v2.tsx:100-106 | toggling the same option twice gives back the list |
| SearchFiltersV2.ToggleShiftsCount | src/components/discovery/search-filters-v2.tsx:100-150 | toggling moves the badge count by the options switched on minus those switched off; toggling shorts leaves it alone |
| SearchFiltersV2.ToggleOneOption | src/components/discovery/search-filters-v2.tsx:100-150 | with unique ids, toggling an option other than shorts moves the badge count by exactly one, up or down |
| SearchFiltersV2.CountWithSingle | src/components/discovery/search-filters-v2.tsx:148-150 | an option with a unique id is counted once, in its own switch state |
| SearchFiltersV2.CountWithAbsent | src/components/discovery/search-filters-v2.tsx:148-150 | an id no option has is counted zero times |
| SearchFiltersV2.UpdateConfigKeepsCount | src/components/discovery/search-filters-v2.tsx:108-150 | editing a config never moves the badge count |
| SearchFiltersV2.ClearAllLeavesNoActiveFilters | src/components/discovery/search-filters-v2.tsx:148-156 | after "Clear all" the badge count is zero and the shorts switch, where present, is on |
| SearchFiltersV2.PresetEditReachesFilters | src/components/discovery/search-filters-v2.tsx:108-128 | a time period picked while its option is on is the preset "Apply" hands back |
| SearchFiltersV2.DurationEditReachesFilters | src/components/discovery/search-filters-v2.tsx:108-140 | a video length picked while its option is on is the length "Apply" hands back |
| SearchFiltersV2.ToggleViralFlipsSort | src/components/discovery/search-filters-v2.tsx:100-125 | toggling the viral-score option switches the applied sort between viral score and relevance |
| SearchFiltersV2.InitialOptionsIds | src/components/discovery/search-filters-v2.tsx:44-98 | in the initial list each of the five options "Apply" reads is found at its own place |
| SearchFiltersV2.ApplyUnchangedPanelRoundTrip | src/components/discovery/search-filters-v2.tsx:44-142 | opening the panel on a record it can express and applying without edits gives back that record |
| SearchFiltersV2.PanelKeepsDateRange | src/components/discovery/search-filters-v2.tsx:49-130 | that round trip keeps the date range |
| SearchFiltersV2.PanelKeepsViewCount | src/components/discovery/search-filters-v2.tsx:67-139 | that round trip keeps the view range |
| SearchFiltersV2.PanelKeepsDuration | src/components/discovery/search-filters-v2.tsx:86-140 | that round trip keeps the video length |
| SearchFiltersV2.PanelKeepsShortsAndSort | src/components/discovery/search-filters-v2.tsx:58-141 | that round trip keeps the shorts flag and the sort |
| SearchFiltersV2.ApplyUnchangedPanelDefaults | src/components/discovery/search-filters-v2.tsx:51-141 | outside that set the panel rewrites the record: a missing preset becomes `last7days`, a missing length `medium`, a missing shorts flag `false` |
| SearchFiltersV2.ClearThenApply | src/components/discovery/search-filters-v2.tsx:116-156 | "Clear all" then "Apply" yields the record with every filter off and shorts included, whatever the panel started from |
| SearchFiltersV2.FilterPanel.constructor | src/components/discovery/search-filters-v2.tsx:41-98 | the sheet starts closed and the options are built from the filters given |
| SearchFiltersV2.FilterPanel.ActiveFilterCount | src/components/discovery/search-filters-v2.tsx:148-150 | the badge count of the panel's current options |
| SearchFiltersV2.FilterPanel.ToggleFilter | src/components/discovery/search-filters-v2.tsx:100-106 | the options become the toggled list; the sheet stays as it was |
| SearchFiltersV2.FilterPanel.UpdateFilterConfig | src/components/discovery/search-filters-v2.tsx:108-114 | the options become the list with the config merged; the sheet stays as it was |
| SearchFiltersV2.FilterPanel.ClearAll | src/components/discovery/search-filters-v2.tsx:152-156 | the options become the cleared list, and the badge count is zero |
| SearchFiltersV2.FilterPanel.ApplyFilters | src/components/discovery/search-filters-v2.tsx:116-146 | hands back the record the options stand for, keeps the options and closes the sheet |
| ActiveFilters.DateLabel | src/components/discovery/active-filters.tsx:18-30 | the known presets get their captions; any other preset is shown as it is |
| ActiveFilters.DurationLabel | src/components/discovery/active-filters.tsx:59-67 | `short`, `medium` and `long` get a caption of their own; any other length is shown as it is |
| ActiveFilters.StripTrailingZeros | src/components/discovery/active-filters.tsx:46-47 | a prefix of the digits, ending in a non-zero digit or empty, and only zeros were dropped |
| ActiveFilters.FormatCount | src/components/discovery/active-filters.tsx:45-49 | whole millions print as the count of millions and `M`, whole thousands below a million as the count of thousands and `K`, smaller counts as they are; every count from a thousand up ends in `M` or `K` |
| ActiveFilters.FormatCountExamples | src/components/discovery/active-filters.tsx:45-49 | 100000 prints as `100K` and 2000000 as `2M` |
| ActiveFilters.ChipFor | src/components/discovery/active-filters.tsx:27-77 | the chip made for a filter removes that filter |
| ActiveFilters.KindAt | src/components/discovery/active-filters.tsx:16-78 | the filters are tested in a fixed order, one per step |
| ActiveFilters.Optional | src/components/discovery/active-filters.tsx:16-78 | a filter contributes one chip when its guard holds and none otherwise |
| ActiveFilters.ChipsUpToShape | src/components/discovery/active-filters.tsx:14-78 | after each step the list holds at most one chip per step taken, in step order, each the chip of its filter |
| ActiveFilters.ChipsUpToContents | src/components/discovery/active-filters.tsx:14-78 | after each step the list has a chip for exactly the filters tested so far whose guard holds |
| ActiveFilters.ChipsShowActiveFilters | src/components/discovery/active-filters.tsx:14-78 | a chip shows exactly when its filter is active (a preset other than `alltime`, the viral sort, a non-zero minimum view count, a length other than `any`, shorts not included), in the component's order, at most five |
| ActiveFilters.ChipKindsDistinct | src/components/discovery/active-filters.tsx:14-78 | no two chips remove the same filter |
| ActiveFilters.ChipsStep | src/components/discovery/active-filters.tsx:16-78 | one guarded push extends the list of the steps so far by the next step |
| ActiveFilters.BuildChips | src/components/discovery/active-filters.tsx:14-78 | the successive guarded pushes build exactly the chip list of the filter record |
| ActiveFilters.Render | src/components/discovery/active-filters.tsx:80-108 | nothing renders when there is no chip; otherwise every chip renders, and "Clear all" is offered exactly when there are two or more |
| ActiveFilters.StartingFiltersShowTwoChips | src/components/discovery/active-filters.tsx:14-108 | the discovery page's starting filters show the time chip and the shorts chip, so "Clear all" is offered |
| DiscoveryPage.RemoveFilter | src/app/discovery/page.tsx:193-214 | removing a chip resets exactly the named filter to its "no filter" value (time period `alltime`, relevance sort, no view bounds, any length, shorts included); an unknown name changes nothing |
| DiscoveryPage.RemovingAChipHidesOnlyIt | src/app/discovery/page.tsx:191-214 | after a chip's remove button the chip row no longer shows that chip, and every other chip shows exactly as before |
| DiscoveryPage.ClearAllHidesTheRow | src/app/discovery/page.tsx:215-226 | after "Clear all" on the chip row no chip is left and the row renders nothing |
| DiscoveryPage.BothClearAllsAgree | src/app/discovery/page.tsx:184-226 | "Clear all" on the chip row and "Clear all" then "Apply" on the filter panel install the same record |
| DiscoveryPage.InitialFiltersSurviveThePanel | src/app/discovery/page.tsx:22-30 | the page's starting filters come back unchanged when the panel is opened and applied without edits |
| DiscoveryPage.FormatDuration | src/app/discovery/page.tsx:87-92 | a missing or zero duration prints as `0:00`; otherwise whole minutes, a colon and the remaining seconds padded to two digits |
| DiscoveryPage.ParseNatLeadingZero | src/app/discovery/page.tsx:91 | a leading zero does not change the number a digit string reads as |
| DiscoveryPage.TwoDigitSeconds | src/app/discovery/page.tsx:90-91 | seconds below a minute print as exactly two digits that read back as the same number |
| DiscoveryPage.FormatDurationReadsBack | src/app/discovery/page.tsx:87-92 | a positive duration's text reads back: minutes before the colon, two-digit seconds below 60 after it, together the original number of seconds |
| DiscoveryPage.UploadedAtText | src/app/discovery/page.tsx:100-105 | 0 days reads "Today", 1 "Yesterday", other counts below 7 as days, then whole weeks below 30, whole months (of 30 days) below 365, and whole years |
| DiscoveryPage.FutureDateReadsNegative | src/app/discovery/page.tsx:94-102 | a publication date in the future gives a negative day count, shown as a negative number of days ago |
| DiscoveryPage.WithinADayIsToday | src/app/discovery/page.tsx:94-100 | a publication less than a day before the clock reads "Today" |
| DiscoveryPage.CardFor | src/app/discovery/page.tsx:86-121 | the card keeps the video's id, views and score and formats its duration; it has a click-through rate exactly when the engagement rate is non-zero, a growth rate (never negative) exactly when the multiplier exceeds 1, and the viral potential as its only tag when that is non-empty |
| DiscoveryPage.ScoredCardsHaveNoGrowthOrTags | src/app/discovery/page.tsx:116-119 | videos as the scorer builds them carry no multiplier and no potential, so their cards show no growth rate and no tags |
| DiscoveryPage.Page.constructor | src/app/discovery/page.tsx:20-34 | the page starts with an empty query, the starting filters and no search running |
| DiscoveryPage.Page.HandleSearch | src/app/discovery/page.tsx:38-53 | a blank query shows the toast and leaves the search hook alone; otherwise the hook searches for the query; the query and filters are unchanged and no search is left running |
| DiscoveryPage.Page.RemoveFilterChip | src/app/discovery/page.tsx:193-214 | the filters become the record with the named filter reset; nothing else changes |
| DiscoveryPage.Page.ClearAllFilters | src/app/discovery/page.tsx:215-226 | the filters become the reset record; nothing else changes |
| DiscoveryPage.Page.ApplyPanel | src/app/discovery/page.tsx:184-187 | the filters become the record the panel's options stand for, and the panel closes with its options unchanged |
| PlatformStore.MergeEmail | src/store/platform.ts:100-103 | each e-mail flag the caller supplies replaces the stored one; the others keep their values |
| PlatformStore.MergePreferences | src/store/platform.ts:95-105 | a supplied auto-save interval replaces the stored one; supplied e-mail flags are merged flag by flag; no e-mail object leaves the flags as they were |
| PlatformStore.EmptyPatchIsIdentity | src/store/platform.ts:95-105 | an empty update changes no preference |
| PlatformStore.MergeIdempotent | src/store/platform.ts:95-105 | applying the same update twice is the same as applying it once |
| PlatformStore.SupplyingOneFlagKeepsTheOthers | src/store/platform.ts:98-103 | updating one e-mail flag sets it and keeps the other two flags and the interval |
| PlatformStore.Partialize | src/store/platform.ts:110-116 | storage receives the discovery search, the discovery filters, the preferences and the workflow step, as they are |
| PlatformStore.Rehydrate | src/store/platform.ts:107-117 | loading a stored slice sets exactly the persisted fields and keeps the open idea, script and project |
| PlatformStore.PersistRoundTrip | src/store/platform.ts:107-117 | storing and loading into a fresh store gives back the persisted fields, with no idea, script or project open |
| PlatformStore.OpenItemsAreNotPersisted | src/store/platform.ts:110-116 | states that differ only in the open idea, script or project persist alike |
| PlatformStore.Store.constructor | src/store/platform.ts:73-86 | the store starts with nothing open, an empty search, no filters, the discovery step, a 30-second auto-save and every e-mail flag on |
| PlatformStore.Store.SetCurrentIdea | src/store/platform.ts:89 | replaces the open idea and nothing else |
| PlatformStore.Store.SetCurrentScript | src/store/platform.ts:90 | replaces the open script and nothing else |
| PlatformStore.Store.SetCurrentProject | src/store/platform.ts:91 | replaces the open project and nothing else |
| PlatformStore.Store.SetDiscoverySearch | src/store/platform.ts:92 | replaces the discovery search and nothing else |
| PlatformStore.Store.SetDiscoveryFilters | src/store/platform.ts:93 | replaces the discovery filters and nothing else |
| PlatformStore.Store.SetWorkflowStep | src/store/platform.ts:94 | replaces the workflow step and nothing else |
| PlatformStore.Store.UpdatePreferences | src/store/platform.ts:95-105 | the preferences become the merge of the old ones with the update; nothing else changes |
| PlatformStore.Store.PersistedSlice | src/store/platform.ts:110-116 | the slice storage receives is that of the store's current state |
| Sorting.Insert | src/app/saved/page.tsx:98-104 | inserting one element gives the old elements plus that one |
| Sorting.Sort | src/app/saved/page.tsx:98-104 | sorting rearranges the elements without adding or losing any |
| Sorting.InsertSorted | src/app/saved/page.tsx:98-104 | inserting into a list ordered by a total preorder keeps it ordered |
| Sorting.SortSorted | src/components/related-keywords.tsx:57 | sorting by a total preorder yields that order, as a permutation of the input |
| Sorting.SortAllEqualIsIdentity | src/app/saved/page.tsx:98-104 | a comparator that ranks all elements equal leaves the list as it was, as JavaScript's stable sort does |
| Text.ToLower | src/app/saved/page.tsx:87-88 | lower-casing maps each character and keeps the length |
| Text.Utf16Length | src/components/related-keywords.tsx:45 | a string's JavaScript length lies between its number of characters and twice that, and equals it when no character is astral |
| Text.AstralCharactersCountTwice | src/components/related-keywords.tsx:45 | three astral characters have JavaScript length six |
| Text.ToLowerIdempotent | src/components/related-keywords.tsx:39 | lower-casing twice is lower-casing once |
| Text.DigitChar | src/app/discovery/page.tsx:91 | a digit prints as a character from `0` to `9` |
| Text.NatToString | src/app/discovery/page.tsx:91 | a number prints as at least one decimal digit, with no leading zero from 10 up |
| Text.NatToStringRoundTrip | src/app/discovery/page.tsx:91 | a printed number reads back as itself |
| Text.PadStart | src/app/discovery/page.tsx:91 | `padStart` fills the front with the pad character up to the width, and keeps a string that is already wide enough |
| Text.LexLeqTotal | src/app/saved/page.tsx:102 | any two titles are ordered one way or the other |
| Text.LexLeqTransitive | src/app/saved/page.tsx:102 | the title order is transitive |

## Left out

- Floating point: scores, rates and the decay factor are exact reals, and `Math.round` is `Floor(x + 1/2)` on them. Rounding differences of IEEE doubles are not modelled.
- Clocks: `Date.now()` and `new Date()` are parameters, as milliseconds or whole day counts. Parsing of ISO date strings into milliseconds is not modelled.
- The upstream YouTube client (`src/lib/youtube/client.ts`) is not part of this model. The search page and the channel list it would return are inputs of `SearchRoute.Get`. So are `pageToken` and `maxResults` (with its `parseInt`), which the route only forwards to the client.
- `SearchRoute.Get`: the fire-and-forget cache writes and search-history writes are not modelled. They run unordered in `Promise.all`, and their failures are swallowed.
- Persistence and identity (`src/lib/supabase/*`, the saved-videos API route, the auth context) are not part of this model. Their results are parameters of the hooks and pages.
- Browser effects: notification polling, `localStorage`, React effect scheduling and re-rendering, `window` APIs, icons and all presentation markup. An effect body is a method that the page calls.
- Concurrency: every asynchronous handler runs to completion before the next one starts. This is exact for the rate limiter, which never awaits. For the hooks and pages, interleaved `await`s are not modelled.
- Text: `toLowerCase` is modelled on ASCII letters only; Unicode case mapping is not modelled. `trim` and the `\s+` split use JavaScript's full white-space set (`Text.IsWhitespace`), and `length` counts UTF-16 code units (`Text.Utf16Length`).
- `SavedPage.FilterAndSortOrder`: `localeCompare` is modelled as code-unit lexicographic order, not a locale collation.
- `RelatedKeywords.Tally`: `Object.entries` is taken to list keys in first-insertion order. JavaScript lists integer-like keys (a word of digits) first in ascending order; that exception is not modelled. A `constructor` key, which JavaScript lists with a string count, is left out of the table, because that count never passes `count > 3`.
- `RelatedKeywords.TopEntries`: states that the five entries kept have the highest counts, sorted. It does not state which of several equal-count words is kept: that follows from the stable sort, which is proved only for the case where every element ranks equal (`Sorting.SortAllEqualIsIdentity`).
- `ActiveFilters.FormatCount`: prints the exact decimal quotient. It does not model how JavaScript prints doubles too large to represent exactly.
- The saved page's initial fetch of rows and its `formatNumber` display helper are not modelled. The page starts from a list of rows.
- `SearchFiltersV2.ConfigValue`: config values are strings, numbers or `null`, which is all the panel writes. Other JSON values are not modelled.
- `SearchFiltersV2.FilterPanel.constructor`: the option list is built once, when the panel first appears. Later changes to the page's filters do not reach it, as in the component.
- `DiscoveryPage.Page.HandleSearch`: the filters are not passed on, because the hook's `search` takes only the query. The `catch` branch is not modelled: the hook catches every error itself, so the awaited call never throws.
- The discovery page's saved tab, with its `fetch` of saved videos, and the recommendation placeholders are not modelled.
- `PlatformStore.StoreState`: `discoveryFilters` is typed `any`. It is modelled as an optional filter record, with the initial `{}` as `None`.
- `PlatformStore.EmailPatch`: the partial preference patch may carry a partial e-mail object, as the runtime spread allows, even though the declared type asks for all three flags.
- `PlatformStore.Rehydrate`: zustand's default shallow merge of the stored slice over the initial state. Storage versioning and migration are not modelled.
- `YouTubeSearch.FailureMessage` is defined only for failed outcomes. Every caller passes one.
- Notifications.NotificationCenter.AddNotification: raises the toast by the corrected rule (`Notifications.ToastFor`, see Findings). As written, only `system` notifications raise one (`Notifications.AsWrittenOnlySystemToasts`); the method's contract states that difference.
- The notification `createdAt` string and the id derived from the clock are parameters of `Notifications.NotificationCenter.AddNotification`.

## Findings

| source | as written | input that shows it | evidently intended | confidence | as-written member | corrected member |
|---|---|---|---|---|---|---|
| src/contexts/notifications.tsx:88 | the toast check looks up `preferences.types` with the notification's `type` string (`viral_video`, `channel_milestone`, `keyword_trend`, `system`), but the switches are keyed `viralVideo`, `channelMilestone`, `keywordTrend`, `system` | a `viral_video` notification under the default preferences (every switch on): no toast is raised | a toast for every type whose switch is on, read from the switch that matches the type | not executed | Notifications.AsWrittenMissesViralVideo | Notifications.ToastFor |
