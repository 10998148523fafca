/**
 * The saved-videos page: the user's saved rows, narrowed by a search term
 * and a score bucket and ordered by the chosen key, and the removal of a
 * saved video once the database delete has succeeded.
 */
module SavedPage {
  import opened Common
  import opened Text
  import opened Sorting
  import SV = SavedVideos

  /** A row of `saved_videos`; `savedAt` is the parsed timestamp in milliseconds. */
  datatype SavedVideo = SavedVideo(
    id: string,
    videoId: string,
    title: string,
    channelTitle: string,
    thumbnailUrl: string,
    viralScore: int,
    viewCount: int,
    savedAt: int)

  /** An empty term passes everything; otherwise the title or channel contains it, ignoring case. */
  predicate MatchesSearch(v: SavedVideo, term: string) {
    term == "" || Contains(ToLower(v.title), ToLower(term)) || Contains(ToLower(v.channelTitle), ToLower(term))
  }

  /** The score buckets; any other `filterBy` passes everything. */
  predicate InBucket(v: SavedVideo, filterBy: string) {
    if filterBy == "high-viral" then v.viralScore >= 80
    else if filterBy == "medium-viral" then 60 <= v.viralScore < 80
    else if filterBy == "trending" then v.viralScore < 60
    else true
  }

  predicate Passes(v: SavedVideo, term: string, filterBy: string) {
    MatchesSearch(v, term) && InBucket(v, filterBy)
  }

  /** Both filters, keeping the list order. */
  function Filtered(videos: seq<SavedVideo>, term: string, filterBy: string): (r: seq<SavedVideo>)
    ensures |r| <= |videos|
    decreases |videos|
  {
    if videos == [] then []
    else (if Passes(videos[0], term, filterBy) then [videos[0]] else []) + Filtered(videos[1..], term, filterBy)
  }

  /** Each row is kept, as often as it occurs, exactly when it passes. */
  lemma {:induction false} FilteredCounts(videos: seq<SavedVideo>, term: string, filterBy: string)
    ensures forall v ::
              multiset(Filtered(videos, term, filterBy))[v] == if Passes(v, term, filterBy) then multiset(videos)[v] else 0
    decreases |videos|
  {
    if videos != [] {
      FilteredCounts(videos[1..], term, filterBy);
      assert videos == [videos[0]] + videos[1..];
    }
  }

  predicate KnownSort(sortBy: string) {
    sortBy == "saved_at" || sortBy == "viral_score" || sortBy == "view_count" || sortBy == "title"
  }

  /**
   * The comparator as "may stay in front": newest first, highest score
   * first, most viewed first, titles in code-unit order; any other key
   * compares everything equal.
   */
  function Comparator(sortBy: string): (SavedVideo, SavedVideo) -> bool {
    if sortBy == "saved_at" then (a: SavedVideo, b: SavedVideo) => a.savedAt >= b.savedAt
    else if sortBy == "viral_score" then (a: SavedVideo, b: SavedVideo) => a.viralScore >= b.viralScore
    else if sortBy == "view_count" then (a: SavedVideo, b: SavedVideo) => a.viewCount >= b.viewCount
    else if sortBy == "title" then (a: SavedVideo, b: SavedVideo) => LexLeq(a.title, b.title)
    else (a: SavedVideo, b: SavedVideo) => true
  }

  lemma ComparatorIsTotalPreorder(sortBy: string)
    ensures TotalPreorder(Comparator(sortBy))
  {
    if sortBy == "title" && !(sortBy == "saved_at" || sortBy == "viral_score" || sortBy == "view_count") {
      var before := Comparator(sortBy);
      forall a, b
        ensures before(a, b) || before(b, a)
      {
        LexLeqTotal(a.title, b.title);
      }
      forall a, b, c | before(a, b) && before(b, c)
        ensures before(a, c)
      {
        LexLeqTransitive(a.title, b.title, c.title);
      }
    }
  }

  /** `filteredAndSortedVideos`: the passing rows, ordered by the chosen key. */
  function FilterAndSort(videos: seq<SavedVideo>, term: string, filterBy: string, sortBy: string): (r: seq<SavedVideo>)
    ensures multiset(r) == multiset(Filtered(videos, term, filterBy))
    ensures SortedBy(r, Comparator(sortBy))
    ensures !KnownSort(sortBy) ==> r == Filtered(videos, term, filterBy)
  {
    var kept := Filtered(videos, term, filterBy);
    ComparatorIsTotalPreorder(sortBy);
    SortSorted(kept, Comparator(sortBy));
    if KnownSort(sortBy) then Sort(kept, Comparator(sortBy))
    else
      assert forall a, b :: Comparator(sortBy)(a, b);
      SortAllEqualIsIdentity(kept, Comparator(sortBy));
      Sort(kept, Comparator(sortBy))
  }

  /** Only rows of the list that pass both filters are shown. */
  lemma FilterAndSortKeepsPassingRows(videos: seq<SavedVideo>, term: string, filterBy: string, sortBy: string)
    ensures forall v | v in FilterAndSort(videos, term, filterBy, sortBy) :: v in videos && Passes(v, term, filterBy)
  {
    var r := FilterAndSort(videos, term, filterBy, sortBy);
    FilteredCounts(videos, term, filterBy);
    forall v | v in r
      ensures v in videos && Passes(v, term, filterBy)
    {
      assert v in multiset(r);
      assert multiset(Filtered(videos, term, filterBy))[v] > 0;
    }
  }

  /** Each known key orders the rows: newest, highest score, most viewed first; titles ascending. */
  lemma FilterAndSortOrder(videos: seq<SavedVideo>, term: string, filterBy: string, sortBy: string)
    ensures var r := FilterAndSort(videos, term, filterBy, sortBy);
      && (sortBy == "saved_at" ==> forall i, j | 0 <= i < j < |r| :: r[i].savedAt >= r[j].savedAt)
      && (sortBy == "viral_score" ==> forall i, j | 0 <= i < j < |r| :: r[i].viralScore >= r[j].viralScore)
      && (sortBy == "view_count" ==> forall i, j | 0 <= i < j < |r| :: r[i].viewCount >= r[j].viewCount)
      && (sortBy == "title" ==> forall i, j | 0 <= i < j < |r| :: LexLeq(r[i].title, r[j].title))
  {
    var r := FilterAndSort(videos, term, filterBy, sortBy);
    var before := Comparator(sortBy);
    assert forall i, j | 0 <= i < j < |r| :: before(r[i], r[j]);
  }

  /** The three buckets split every score: exactly one of them holds. */
  lemma BucketsPartition(v: SavedVideo)
    ensures InBucket(v, "high-viral") || InBucket(v, "medium-viral") || InBucket(v, "trending")
    ensures !(InBucket(v, "high-viral") && InBucket(v, "medium-viral"))
    ensures !(InBucket(v, "high-viral") && InBucket(v, "trending"))
    ensures !(InBucket(v, "medium-viral") && InBucket(v, "trending"))
  {
  }

  /** With no term and the `all` bucket every row passes, in order. */
  lemma {:induction false} NoFiltersKeepEverything(videos: seq<SavedVideo>)
    ensures Filtered(videos, "", "all") == videos
    decreases |videos|
  {
    if videos != [] {
      NoFiltersKeepEverything(videos[1..]);
      assert Passes(videos[0], "", "all");
    }
  }

  /** With no filter and an unknown sort key the page shows the list as saved. */
  lemma NoFiltersNoSortKeepsEverything(videos: seq<SavedVideo>)
    ensures FilterAndSort(videos, "", "all", "none") == videos
  {
    NoFiltersKeepEverything(videos);
    assert !KnownSort("none");
  }

  /** `prev.filter(v => v.video_id !== videoId)`. */
  function RemoveId(videos: seq<SavedVideo>, videoId: string): (r: seq<SavedVideo>)
    ensures |r| <= |videos|
    decreases |videos|
  {
    if videos == [] then []
    else (if videos[0].videoId == videoId then [] else [videos[0]]) + RemoveId(videos[1..], videoId)
  }

  /** Every row for the id goes; every other row stays, as often as it occurred. */
  lemma {:induction false} RemoveIdCounts(videos: seq<SavedVideo>, videoId: string)
    ensures forall v ::
              multiset(RemoveId(videos, videoId))[v] == if v.videoId == videoId then 0 else multiset(videos)[v]
    decreases |videos|
  {
    if videos != [] {
      RemoveIdCounts(videos[1..], videoId);
      assert videos == [videos[0]] + videos[1..];
    }
  }

  /** Removal works piecewise, so the rows that stay keep their order. */
  lemma {:induction false} RemoveIdDistributes(a: seq<SavedVideo>, b: seq<SavedVideo>, videoId: string)
    ensures RemoveId(a + b, videoId) == RemoveId(a, videoId) + RemoveId(b, videoId)
    decreases |a|
  {
    if a == [] {
      assert a + b == b;
    } else {
      assert (a + b)[0] == a[0];
      assert (a + b)[1..] == a[1..] + b;
      RemoveIdDistributes(a[1..], b, videoId);
    }
  }

  /** Without a row for that id, nothing changes. */
  lemma {:induction false} RemoveAbsentId(videos: seq<SavedVideo>, videoId: string)
    requires forall i | 0 <= i < |videos| :: videos[i].videoId != videoId
    ensures RemoveId(videos, videoId) == videos
    decreases |videos|
  {
    if videos != [] {
      RemoveAbsentId(videos[1..], videoId);
    }
  }

  lemma RemoveIdIdempotent(videos: seq<SavedVideo>, videoId: string)
    ensures RemoveId(RemoveId(videos, videoId), videoId) == RemoveId(videos, videoId)
  {
    var r := RemoveId(videos, videoId);
    RemoveIdCounts(videos, videoId);
    forall i | 0 <= i < |r|
      ensures r[i].videoId != videoId
    {
      assert r[i] in multiset(r);
    }
    RemoveAbsentId(r, videoId);
  }

  class SavedVideosPage {
    var videos: seq<SavedVideo>
    var searchTerm: string
    var sortBy: string
    var filterBy: string

    constructor ()
      ensures videos == [] && searchTerm == "" && sortBy == "saved_at" && filterBy == "all"
    {
      videos := [];
      searchTerm := "";
      sortBy := "saved_at";
      filterBy := "all";
    }

    /** The list the page renders. */
    function Visible(): seq<SavedVideo>
      reads this
    {
      FilterAndSort(videos, searchTerm, filterBy, sortBy)
    }

    /** `removeSavedVideo`: after the delete (its error is `deleteError`), drop every row for the id. */
    method RemoveSavedVideo(videoId: string, deleteError: Option<SV.DbError>) returns (toast: SV.Toast)
      modifies this
      ensures deleteError.None? ==> videos == RemoveId(old(videos), videoId)
                                    && toast == SV.SuccessToast("Video removed from saved")
      ensures deleteError.Some? ==> videos == old(videos) && toast == SV.ErrorToast("Failed to remove video")
      ensures searchTerm == old(searchTerm) && sortBy == old(sortBy) && filterBy == old(filterBy)
    {
      if deleteError.Some? {
        return SV.ErrorToast("Failed to remove video");
      }
      videos := RemoveId(videos, videoId);
      toast := SV.SuccessToast("Video removed from saved");
    }
  }
}
