/**
 * The discovery page: the search bar, the filter record it shares with
 * the filter panel and the chip row, and the formatting that turns a scored
 * video into the props of a result card. The clock is the parameter `nowMs`.
 * The search hook is the one in `YouTubeSearch`.
 */
module DiscoveryPage {
  import opened Common
  import opened Text
  import opened YouTubeTypes
  import opened Filters
  import Scoring
  import Panel = SearchFiltersV2
  import Chips = ActiveFilters
  import Hook = YouTubeSearch

  /** The filters the page starts with. */
  const InitialFilters := SearchFilters(
    DateRange(None, None, Some("last7days")), Unbounded, Unbounded, Some("any"), Some(false), "relevance", "desc")

  /** The record "Clear all" installs. */
  const ResetFilters := SearchFilters(
    DateRange(None, None, Some("alltime")), Unbounded, Unbounded, Some("any"), Some(true), "relevance", "desc")

  // ----- Filter resets -----

  /** `onRemoveFilter(kind)`: put the one named filter back to its neutral value. */
  function RemoveFilter(f: SearchFilters, kind: string): (r: SearchFilters)
    ensures kind == "dateRange" ==> r == f.(dateRange := DateRange(None, None, Some("alltime")))
    ensures kind == "sortBy" ==> r == f.(sortBy := "relevance")
    ensures kind == "viewCount" ==> r == f.(viewCount := Unbounded)
    ensures kind == "duration" ==> r == f.(duration := Some("any"))
    ensures kind == "includeShorts" ==> r == f.(includeShorts := Some(true))
    ensures kind !in {"dateRange", "sortBy", "viewCount", "duration", "includeShorts"} ==> r == f
    ensures r.subscriberCount == f.subscriberCount && r.sortOrder == f.sortOrder
  {
    if kind == "dateRange" then f.(dateRange := DateRange(None, None, Some("alltime")))
    else if kind == "sortBy" then f.(sortBy := "relevance")
    else if kind == "viewCount" then f.(viewCount := Unbounded)
    else if kind == "duration" then f.(duration := Some("any"))
    else if kind == "includeShorts" then f.(includeShorts := Some(true))
    else f
  }

  /** A chip's remove button hides that chip and leaves every other chip as it was. */
  lemma RemovingAChipHidesOnlyIt(f: SearchFilters, k: Chips.Kind)
    ensures !Chips.HasChip(Chips.Chips(RemoveFilter(f, k.Name())), k)
    ensures forall other | other != k ::
      Chips.HasChip(Chips.Chips(RemoveFilter(f, k.Name())), other) <==> Chips.HasChip(Chips.Chips(f), other)
  {
    var r := RemoveFilter(f, k.Name());
    Chips.ChipsShowActiveFilters(f);
    Chips.ChipsShowActiveFilters(r);
    assert !Chips.Shows(r, k);
    forall other | other != k
      ensures Chips.Shows(r, other) <==> Chips.Shows(f, other)
    {
    }
  }

  /** After "Clear all" the chip row renders nothing. */
  lemma ClearAllHidesTheRow()
    ensures Chips.Chips(ResetFilters) == []
    ensures Chips.Render(Chips.Chips(ResetFilters)).Hidden?
  {
    Chips.ChipsShowActiveFilters(ResetFilters);
    var c := Chips.Chips(ResetFilters);
    assert forall i | 0 <= i < |c| :: Chips.HasChip(c, c[i].kind);
  }

  /** "Clear all" on the chip row and "Clear all" then "Apply" on the panel agree. */
  lemma BothClearAllsAgree(f: SearchFilters)
    ensures Panel.Applied(Panel.Cleared(Panel.InitialOptions(f))) == ResetFilters
  {
    Panel.ClearThenApply(f);
  }

  /** The page's starting filters survive a trip through the panel unchanged. */
  lemma InitialFiltersSurviveThePanel()
    ensures Panel.Applied(Panel.InitialOptions(InitialFilters)) == InitialFilters
  {
    Panel.ApplyUnchangedPanelRoundTrip(InitialFilters);
  }

  // ----- Card formatting -----

  /** `formatDuration`: `0:00` when missing or zero, else minutes, a colon and two-digit seconds. */
  function FormatDuration(seconds: Option<nat>): (r: string)
    ensures seconds.None? || seconds.value == 0 ==> r == "0:00"
    ensures seconds.Some? && seconds.value > 0 ==>
      r == NatToString(seconds.value / 60) + ":" + PadStart(NatToString(seconds.value % 60), 2, '0')
  {
    if seconds.None? || seconds.value == 0 then "0:00"
    else NatToString(seconds.value / 60) + ":" + PadStart(NatToString(seconds.value % 60), 2, '0')
  }

  lemma {:induction false} ParseNatLeadingZero(s: string)
    ensures ParseNat("0" + s) == ParseNat(s)
    decreases |s|
  {
    if s == [] {
      assert "0" + s == "0";
      assert "0"[..0] == [];
    } else {
      var t := "0" + s;
      assert t[..|t| - 1] == "0" + s[..|s| - 1];
      assert t[|t| - 1] == s[|s| - 1];
      ParseNatLeadingZero(s[..|s| - 1]);
    }
  }

  /** Seconds below a minute print as exactly two digits that read back as the same number. */
  lemma TwoDigitSeconds(x: nat)
    requires x < 60
    ensures |PadStart(NatToString(x), 2, '0')| == 2
    ensures ParseNat(PadStart(NatToString(x), 2, '0')) == x
  {
    NatToStringRoundTrip(x);
    if x < 10 {
      assert NatToString(x) == [DigitChar(x)];
      assert PadStart(NatToString(x), 2, '0') == "0" + NatToString(x);
      ParseNatLeadingZero(NatToString(x));
    } else {
      assert NatToString(x) == NatToString(x / 10) + [DigitChar(x % 10)];
      assert |NatToString(x / 10)| == 1;
    }
  }

  /** A positive duration can be read back from its text: minutes before the colon, seconds after it. */
  lemma FormatDurationReadsBack(seconds: nat)
    requires seconds > 0
    ensures var r := FormatDuration(Some(seconds));
      && |r| >= 4 && r[|r| - 3] == ':'
      && ParseNat(r[|r| - 2..]) < 60
      && ParseNat(r[..|r| - 3]) * 60 + ParseNat(r[|r| - 2..]) == seconds
  {
    var m := NatToString(seconds / 60);
    var ss := PadStart(NatToString(seconds % 60), 2, '0');
    TwoDigitSeconds(seconds % 60);
    NatToStringRoundTrip(seconds / 60);
    var r := FormatDuration(Some(seconds));
    assert r == m + ":" + ss;
    assert r[..|r| - 3] == m;
    assert r[|r| - 2..] == ss;
  }

  /** The whole days between two instants, rounded down. */
  function DiffDays(nowMs: int, publishedMs: int): int {
    (nowMs - publishedMs) / Scoring.MsPerDay
  }

  /** `formatUploadedAt` for a difference of `days` whole days. */
  function UploadedAtText(days: int): (r: string)
    ensures days == 0 ==> r == "Today"
    ensures days == 1 ==> r == "Yesterday"
    ensures days < 7 && days != 0 && days != 1 ==> r == IntToString(days) + " days ago"
    ensures 7 <= days < 30 ==> r == IntToString(days / 7) + " weeks ago"
    ensures 30 <= days < 365 ==> r == IntToString(days / 30) + " months ago"
    ensures 365 <= days ==> r == IntToString(days / 365) + " years ago"
  {
    if days == 0 then "Today"
    else if days == 1 then "Yesterday"
    else if days < 7 then IntToString(days) + " days ago"
    else if days < 30 then IntToString(days / 7) + " weeks ago"
    else if days < 365 then IntToString(days / 30) + " months ago"
    else IntToString(days / 365) + " years ago"
  }

  function FormatUploadedAt(nowMs: int, publishedMs: int): string {
    UploadedAtText(DiffDays(nowMs, publishedMs))
  }

  /** A publication date in the future reads as a negative number of days. */
  lemma FutureDateReadsNegative(nowMs: int, publishedMs: int)
    requires publishedMs > nowMs
    ensures DiffDays(nowMs, publishedMs) < 0
    ensures FormatUploadedAt(nowMs, publishedMs) == IntToString(DiffDays(nowMs, publishedMs)) + " days ago"
  {
    var d := nowMs - publishedMs;
    assert d < 0;
    assert d / Scoring.MsPerDay * Scoring.MsPerDay <= d;
  }

  /** A publication less than a day ago reads "Today". */
  lemma WithinADayIsToday(nowMs: int, publishedMs: int)
    requires publishedMs <= nowMs < publishedMs + Scoring.MsPerDay
    ensures FormatUploadedAt(nowMs, publishedMs) == "Today"
  {
    var d := nowMs - publishedMs;
    assert 0 <= d < Scoring.MsPerDay;
    assert DiffDays(nowMs, publishedMs) == 0;
  }

  /** The props of a result card. */
  datatype CardProps = CardProps(
    id: string,
    title: string,
    thumbnail: string,
    channel: string,
    views: nat,
    uploadedAt: string,
    duration: string,
    ctr: Option<int>,
    growthRate: Option<int>,
    viralScore: int,
    tags: seq<string>)

  /** `mapVideoToCardProps`; `Math.round` is `Scoring.Round`. */
  function CardFor(v: ViralVideo, nowMs: int): (c: CardProps)
    ensures c.id == v.video.id && c.views == v.video.statistics.viewCount && c.viralScore == v.viralScore
    ensures c.duration == FormatDuration(v.video.duration)
    ensures c.ctr.Some? <==> v.engagementRate != 0.0
    ensures c.growthRate.Some? <==> v.multiplier.Some? && v.multiplier.value > 1.0
    ensures c.growthRate.Some? ==> c.growthRate.value >= 0
    ensures c.tags == if TruthyText(v.viralPotential) then [v.viralPotential.value] else []
  {
    CardProps(
      v.video.id,
      v.video.title,
      v.video.thumbnail.url,
      v.video.channelTitle,
      v.video.statistics.viewCount,
      FormatUploadedAt(nowMs, v.video.publishedAt),
      FormatDuration(v.video.duration),
      if v.engagementRate != 0.0 then Some(Scoring.Round(v.engagementRate * 100.0)) else None,
      if v.multiplier.Some? && v.multiplier.value > 1.0 then Some(Scoring.Round((v.multiplier.value - 1.0) * 100.0)) else None,
      v.viralScore,
      if TruthyText(v.viralPotential) then [v.viralPotential.value] else [])
  }

  /** The scorer leaves the multiplier and the potential unset, so its cards carry no growth rate and no tags. */
  lemma ScoredCardsHaveNoGrowthOrTags(video: Video, channel: Channel, now: int, nowMs: int)
    ensures CardFor(Scoring.CreateViralVideo(video, channel, now), nowMs).growthRate.None?
    ensures CardFor(Scoring.CreateViralVideo(video, channel, now), nowMs).tags == []
  {
  }

  // ----- The page -----

  class Page {
    var searchQuery: string
    var filters: SearchFilters
    var isSearching: bool

    constructor ()
      ensures searchQuery == "" && filters == InitialFilters && !isSearching
    {
      searchQuery := "";
      filters := InitialFilters;
      isSearching := false;
    }

    /**
     * `handleSearch`: a blank query shows a toast and leaves the hook alone;
     * otherwise the hook searches for the query. The filters are not passed
     * on: the hook's `search` takes only the query.
     */
    method HandleSearch(hook: Hook.SearchHook, outcome: Hook.FetchOutcome) returns (toast: Option<string>)
      modifies this, hook
      ensures IsBlank(old(searchQuery)) ==>
        toast == Some("Please enter a search query") && hook.State() == old(hook.State())
      ensures !IsBlank(old(searchQuery)) ==>
        toast.None? && hook.State() == Hook.AfterSearch(old(hook.State()), old(searchQuery), outcome)
      ensures searchQuery == old(searchQuery) && filters == old(filters)
      ensures isSearching == (old(isSearching) && IsBlank(old(searchQuery)))
    {
      if IsBlank(searchQuery) {
        return Some("Please enter a search query");
      }
      isSearching := true;
      hook.Search(searchQuery, outcome);
      isSearching := false;
      toast := None;
    }

    /** A copy of the filters with the named one reset, then installed. */
    method RemoveFilterChip(kind: string)
      modifies this
      ensures filters == RemoveFilter(old(filters), kind)
      ensures searchQuery == old(searchQuery) && isSearching == old(isSearching)
    {
      var newFilters := filters;
      if kind == "dateRange" {
        newFilters := newFilters.(dateRange := DateRange(None, None, Some("alltime")));
      } else if kind == "sortBy" {
        newFilters := newFilters.(sortBy := "relevance");
      } else if kind == "viewCount" {
        newFilters := newFilters.(viewCount := Unbounded);
      } else if kind == "duration" {
        newFilters := newFilters.(duration := Some("any"));
      } else if kind == "includeShorts" {
        newFilters := newFilters.(includeShorts := Some(true));
      }
      filters := newFilters;
    }

    method ClearAllFilters()
      modifies this
      ensures filters == ResetFilters
      ensures searchQuery == old(searchQuery) && isSearching == old(isSearching)
    {
      filters := ResetFilters;
    }

    /** "Apply" on the panel: the panel converts its options and the page installs the result. */
    method ApplyPanel(panel: Panel.FilterPanel)
      modifies this, panel
      ensures filters == Panel.Applied(old(panel.options))
      ensures panel.options == old(panel.options) && !panel.open
      ensures searchQuery == old(searchQuery) && isSearching == old(isSearching)
    {
      var applied := panel.ApplyFilters();
      filters := applied;
    }
  }
}
