/**
 * The filter panel of the discovery page. The panel keeps its own list of
 * filter options, each with an on/off switch and an untyped config object.
 * It builds the list from the page's filters when it is first shown. It
 * toggles options, merges edits into their configs and switches everything
 * off. On "Apply" it converts the list back into a filter record.
 */
module SearchFiltersV2 {
  import opened Common
  import opened Filters

  /** A value held in an option's config object. */
  datatype ConfigValue = Text(text: string) | Number(number: int) | Null

  type Config = map<string, ConfigValue>

  /** One option of the panel; `caption` is its label; the icon is presentation only and left out. */
  datatype FilterOption = FilterOption(id: string, caption: string, enabled: bool, config: Config)

  /** `s || fallback` on an optional string. */
  function TextOr(o: Option<string>, fallback: string): (r: string)
    ensures TruthyText(o) ==> r == o.value
    ensures !TruthyText(o) ==> r == fallback
  {
    if TruthyText(o) then o.value else fallback
  }

  /** The option list the panel starts from, derived from the page's current filters. */
  function InitialOptions(f: SearchFilters): (os: seq<FilterOption>)
    ensures |os| == 6
    ensures os[0].id == "dateRange" && (os[0].enabled <==> f.dateRange.preset != Some("alltime"))
    ensures os[1].id == "viralScore" && (os[1].enabled <==> f.sortBy == "viralScore")
    ensures os[2].id == "viewCount" && (os[2].enabled <==> f.viewCount.min.Some? || f.viewCount.max.Some?)
    ensures os[3].id == "engagement" && !os[3].enabled
    ensures os[4].id == "duration" && (os[4].enabled <==> f.duration != Some("any"))
    ensures os[5].id == "shorts" && (os[5].enabled <==> f.includeShorts == Some(true))
  {
    [ FilterOption("dateRange", "Time Period", f.dateRange.preset != Some("alltime"),
        map["preset" := Text(TextOr(f.dateRange.preset, "last7days"))]),
      FilterOption("viralScore", "Viral Score", f.sortBy == "viralScore",
        map["minScore" := Number(70)]),
      FilterOption("viewCount", "View Count", f.viewCount.min.Some? || f.viewCount.max.Some?,
        map["min" := Number(if TruthyNumber(f.viewCount.min) then f.viewCount.min.value else 100000),
            "max" := if TruthyNumber(f.viewCount.max) then Number(f.viewCount.max.value) else Null]),
      FilterOption("engagement", "High Engagement", false,
        map["minCTR" := Number(10)]),
      FilterOption("duration", "Video Length", f.duration != Some("any"),
        map["type" := Text(TextOr(f.duration, "medium"))]),
      FilterOption("shorts", "Include Shorts", f.includeShorts.GetOr(false), map[])
    ]
  }

  // ----- Lookup by id -----

  /** The first index at or after `k` whose option has this id, or -1. */
  function FindFrom(os: seq<FilterOption>, id: string, k: nat): (r: int)
    ensures -1 <= r < |os|
    ensures r >= 0 ==> k <= r && os[r].id == id && forall j | k <= j < r :: os[j].id != id
    ensures r == -1 ==> forall j | k <= j < |os| :: os[j].id != id
    decreases |os| - k
  {
    if k >= |os| then -1
    else if os[k].id == id then k
    else FindFrom(os, id, k + 1)
  }

  /** The index `find` stops at: the first option with this id, or -1 when there is none. */
  function FindIndex(os: seq<FilterOption>, id: string): (r: int)
    ensures -1 <= r < |os|
    ensures r >= 0 ==> os[r].id == id && forall j | 0 <= j < r :: os[j].id != id
    ensures r == -1 <==> forall j | 0 <= j < |os| :: os[j].id != id
  {
    FindFrom(os, id, 0)
  }

  /** `options.find(f => f.id === id)`. */
  function Find(os: seq<FilterOption>, id: string): (r: Option<FilterOption>)
    ensures r.None? <==> forall j | 0 <= j < |os| :: os[j].id != id
    ensures r.Some? ==> r.value.id == id && r.value in os
  {
    var i := FindIndex(os, id);
    if i >= 0 then Some(os[i]) else None
  }

  /** `find(...)?.enabled` is truthy. */
  predicate Enabled(os: seq<FilterOption>, id: string) {
    Find(os, id).Some? && Find(os, id).value.enabled
  }

  /** Any earlier option with a different id is skipped: `find` returns the first match. */
  lemma FindIsFirst(os: seq<FilterOption>, id: string, i: int)
    requires 0 <= i < |os| && os[i].id == id
    requires forall j | 0 <= j < i :: os[j].id != id
    ensures Find(os, id) == Some(os[i])
  {
    var r := FindIndex(os, id);
    assert r != -1 by {
      assert os[i].id == id;
    }
  }

  /** Lists with the same ids in the same places are searched alike. */
  lemma SameIdsSameIndex(a: seq<FilterOption>, b: seq<FilterOption>, id: string)
    requires |a| == |b|
    requires forall i | 0 <= i < |a| :: a[i].id == b[i].id
    ensures FindIndex(a, id) == FindIndex(b, id)
  {
    var ra, rb := FindIndex(a, id), FindIndex(b, id);
    if ra >= 0 {
      assert b[ra].id == id;
    }
    if rb >= 0 {
      assert a[rb].id == id;
    }
  }

  // ----- The panel's operations as values -----

  /** `toggleFilter(id)`: flip the switch of every option with this id; nothing else moves. */
  function Toggle(os: seq<FilterOption>, id: string): (r: seq<FilterOption>)
    ensures |r| == |os|
    ensures forall i | 0 <= i < |os| ::
      r[i].id == os[i].id && r[i].caption == os[i].caption && r[i].config == os[i].config
    ensures forall i | 0 <= i < |os| :: r[i].enabled == (if os[i].id == id then !os[i].enabled else os[i].enabled)
  {
    seq(|os|, i requires 0 <= i < |os| =>
      if os[i].id == id then os[i].(enabled := !os[i].enabled) else os[i])
  }

  /**
   * `updateFilterConfig(id, newConfig)`: merge the new keys over the config
   * of every option with this id; switches and every other option stay.
   */
  function UpdateConfig(os: seq<FilterOption>, id: string, newConfig: Config): (r: seq<FilterOption>)
    ensures |r| == |os|
    ensures forall i | 0 <= i < |os| ::
      r[i].id == os[i].id && r[i].caption == os[i].caption && r[i].enabled == os[i].enabled
    ensures forall i | 0 <= i < |os| && os[i].id != id :: r[i].config == os[i].config
    ensures forall i | 0 <= i < |os| && os[i].id == id ::
      && r[i].config.Keys == os[i].config.Keys + newConfig.Keys
      && (forall k | k in newConfig :: r[i].config[k] == newConfig[k])
      && (forall k | k in os[i].config && k !in newConfig :: r[i].config[k] == os[i].config[k])
  {
    seq(|os|, i requires 0 <= i < |os| =>
      if os[i].id == id then os[i].(config := os[i].config + newConfig) else os[i])
  }

  /** `clearAll`: only the shorts switch stays on; ids, labels and configs stay. */
  function Cleared(os: seq<FilterOption>): (r: seq<FilterOption>)
    ensures |r| == |os|
    ensures forall i | 0 <= i < |os| ::
      r[i].id == os[i].id && r[i].caption == os[i].caption && r[i].config == os[i].config
    ensures forall i | 0 <= i < |os| :: r[i].enabled <==> os[i].id == "shorts"
  {
    seq(|os|, i requires 0 <= i < |os| => os[i].(enabled := os[i].id == "shorts"))
  }

  /** An option the badge counts: switched on and not the shorts option. */
  predicate Counts(o: FilterOption) {
    o.enabled && o.id != "shorts"
  }

  /** `getActiveFilterCount`. */
  function ActiveCount(os: seq<FilterOption>): (c: nat)
    ensures c <= |os|
    ensures c == 0 <==> forall i | 0 <= i < |os| :: !Counts(os[i])
    ensures c == |os| <==> forall i | 0 <= i < |os| :: Counts(os[i])
    decreases |os|
  {
    if os == [] then 0
    else
      var rest := ActiveCount(os[1..]);
      assert forall i | 1 <= i < |os| :: os[i] == os[1..][i - 1];
      (if Counts(os[0]) then 1 else 0) + rest
  }

  /** The number of options with this id whose switch is in state `on`. */
  function CountWith(os: seq<FilterOption>, id: string, on: bool): (c: nat)
    ensures c <= |os|
    decreases |os|
  {
    if os == [] then 0
    else (if os[0].id == id && os[0].enabled == on then 1 else 0) + CountWith(os[1..], id, on)
  }

  /** A config string value; anything else reads as absent. */
  function ConfigText(c: Config, key: string): (r: Option<string>)
    ensures r.Some? <==> key in c && c[key].Text?
    ensures r.Some? ==> c[key] == Text(r.value)
  {
    if key in c && c[key].Text? then Some(c[key].text) else None
  }

  /** A config number; `null`, a missing key and anything else read as absent. */
  function ConfigNumber(c: Config, key: string): (r: Option<int>)
    ensures r.Some? <==> key in c && c[key].Number?
    ensures r.Some? ==> c[key] == Number(r.value)
  {
    if key in c && c[key].Number? then Some(c[key].number) else None
  }

  /** `applyFilters`: the filter record the option list stands for. */
  function Applied(os: seq<FilterOption>): (f: SearchFilters)
    ensures f.sortBy == "viralScore" <==> Enabled(os, "viralScore")
    ensures f.sortBy == "viralScore" || f.sortBy == "relevance"
    ensures f.sortOrder == "desc" && f.subscriberCount == Unbounded
    ensures f.dateRange.from.None? && f.dateRange.to.None?
    ensures !Enabled(os, "dateRange") ==> f.dateRange.preset == Some("alltime")
    ensures Enabled(os, "dateRange") ==> f.dateRange.preset == ConfigText(Find(os, "dateRange").value.config, "preset")
    ensures !Enabled(os, "viewCount") ==> f.viewCount == Unbounded
    ensures Enabled(os, "viewCount") ==>
      var c := Find(os, "viewCount").value.config;
      f.viewCount == Range(ConfigNumber(c, "min"), ConfigNumber(c, "max"))
    ensures !Enabled(os, "duration") ==> f.duration == Some("any")
    ensures Enabled(os, "duration") ==> f.duration == ConfigText(Find(os, "duration").value.config, "type")
    ensures f.includeShorts == Some(Find(os, "shorts").None? || Enabled(os, "shorts"))
  {
    var date := Find(os, "dateRange");
    var viral := Find(os, "viralScore");
    var views := Find(os, "viewCount");
    var duration := Find(os, "duration");
    var shorts := Find(os, "shorts");
    SearchFilters(
      DateRange(None, None, if date.Some? && date.value.enabled then ConfigText(date.value.config, "preset") else Some("alltime")),
      Unbounded,
      if views.Some? && views.value.enabled
      then Range(ConfigNumber(views.value.config, "min"), ConfigNumber(views.value.config, "max"))
      else Unbounded,
      if duration.Some? && duration.value.enabled then ConfigText(duration.value.config, "type") else Some("any"),
      Some(if shorts.Some? then shorts.value.enabled else true),
      if viral.Some? && viral.value.enabled then "viralScore" else "relevance",
      "desc")
  }

  // ----- Properties -----

  /** Toggling the same option twice gives back the list. */
  lemma ToggleTwiceRestores(os: seq<FilterOption>, id: string)
    ensures Toggle(Toggle(os, id), id) == os
  {
    var r := Toggle(Toggle(os, id), id);
    forall i | 0 <= i < |os|
      ensures r[i] == os[i]
    {
    }
  }

  /**
   * Toggling moves the badge count by the options it switches on minus the
   * ones it switches off; toggling shorts leaves the count alone.
   */
  lemma {:induction false} ToggleShiftsCount(os: seq<FilterOption>, id: string)
    ensures id != "shorts" ==>
      ActiveCount(Toggle(os, id)) + CountWith(os, id, true) == ActiveCount(os) + CountWith(os, id, false)
    ensures id == "shorts" ==> ActiveCount(Toggle(os, id)) == ActiveCount(os)
    decreases |os|
  {
    if os != [] {
      var r := Toggle(os, id);
      assert r[1..] == Toggle(os[1..], id);
      ToggleShiftsCount(os[1..], id);
    }
  }

  /** With the ids distinct, toggling a present option other than shorts changes the count by one. */
  lemma ToggleOneOption(os: seq<FilterOption>, i: int)
    requires 0 <= i < |os| && os[i].id != "shorts"
    requires forall j | 0 <= j < |os| && j != i :: os[j].id != os[i].id
    ensures os[i].enabled ==> ActiveCount(Toggle(os, os[i].id)) + 1 == ActiveCount(os)
    ensures !os[i].enabled ==> ActiveCount(Toggle(os, os[i].id)) == ActiveCount(os) + 1
  {
    ToggleShiftsCount(os, os[i].id);
    CountWithSingle(os, i, true);
    CountWithSingle(os, i, false);
  }

  /** The options with a unique id: counted once in its own state. */
  lemma {:induction false} CountWithSingle(os: seq<FilterOption>, i: int, on: bool)
    requires 0 <= i < |os|
    requires forall j | 0 <= j < |os| && j != i :: os[j].id != os[i].id
    ensures CountWith(os, os[i].id, on) == if os[i].enabled == on then 1 else 0
    decreases |os|
  {
    if i == 0 {
      CountWithAbsent(os[1..], os[i].id, on);
    } else {
      CountWithSingle(os[1..], i - 1, on);
    }
  }

  lemma {:induction false} CountWithAbsent(os: seq<FilterOption>, id: string, on: bool)
    requires forall j | 0 <= j < |os| :: os[j].id != id
    ensures CountWith(os, id, on) == 0
    decreases |os|
  {
    if os != [] {
      CountWithAbsent(os[1..], id, on);
    }
  }

  /** Editing a config never moves the badge count. */
  lemma {:induction false} UpdateConfigKeepsCount(os: seq<FilterOption>, id: string, newConfig: Config)
    ensures ActiveCount(UpdateConfig(os, id, newConfig)) == ActiveCount(os)
    decreases |os|
  {
    if os != [] {
      var r := UpdateConfig(os, id, newConfig);
      assert r[1..] == UpdateConfig(os[1..], id, newConfig);
      UpdateConfigKeepsCount(os[1..], id, newConfig);
    }
  }

  /** After "Clear all" the badge shows no active filter, and the shorts switch is on wherever it exists. */
  lemma ClearAllLeavesNoActiveFilters(os: seq<FilterOption>)
    ensures ActiveCount(Cleared(os)) == 0
    ensures Find(os, "shorts").Some? ==> Enabled(Cleared(os), "shorts")
  {
    var r := Cleared(os);
    SameIdsSameIndex(os, r, "shorts");
  }

  /** A preset picked while the time filter is on is what "Apply" hands back. */
  lemma PresetEditReachesFilters(os: seq<FilterOption>, preset: string)
    requires Enabled(os, "dateRange")
    ensures Applied(UpdateConfig(os, "dateRange", map["preset" := Text(preset)])).dateRange.preset == Some(preset)
  {
    var r := UpdateConfig(os, "dateRange", map["preset" := Text(preset)]);
    SameIdsSameIndex(os, r, "dateRange");
    var i := FindIndex(os, "dateRange");
    assert r[i].config["preset"] == Text(preset);
  }

  /** A length picked while the length filter is on is what "Apply" hands back. */
  lemma DurationEditReachesFilters(os: seq<FilterOption>, kind: string)
    requires Enabled(os, "duration")
    ensures Applied(UpdateConfig(os, "duration", map["type" := Text(kind)])).duration == Some(kind)
  {
    var r := UpdateConfig(os, "duration", map["type" := Text(kind)]);
    SameIdsSameIndex(os, r, "duration");
    var i := FindIndex(os, "duration");
    assert r[i].config["type"] == Text(kind);
  }

  /** Toggling the viral-score option switches the applied sort between viral score and relevance. */
  lemma ToggleViralFlipsSort(os: seq<FilterOption>)
    requires Find(os, "viralScore").Some?
    ensures Applied(Toggle(os, "viralScore")).sortBy == "viralScore" <==> Applied(os).sortBy == "relevance"
  {
    var r := Toggle(os, "viralScore");
    SameIdsSameIndex(os, r, "viralScore");
  }

  /**
   * The filter records the panel reproduces exactly when opened and applied
   * without edits: a non-empty preset and length, the two sorts the panel
   * knows, a view range it can express and an explicit shorts flag.
   */
  predicate Representable(f: SearchFilters) {
    && f.dateRange.from.None? && f.dateRange.to.None? && TruthyText(f.dateRange.preset)
    && f.subscriberCount == Unbounded
    && (f.viewCount == Unbounded
        || (TruthyNumber(f.viewCount.min) && (f.viewCount.max.None? || TruthyNumber(f.viewCount.max))))
    && TruthyText(f.duration)
    && f.includeShorts.Some?
    && (f.sortBy == "viralScore" || f.sortBy == "relevance")
    && f.sortOrder == "desc"
  }

  lemma InitialOptionsIds(f: SearchFilters)
    ensures FindIndex(InitialOptions(f), "dateRange") == 0
    ensures FindIndex(InitialOptions(f), "viralScore") == 1
    ensures FindIndex(InitialOptions(f), "viewCount") == 2
    ensures FindIndex(InitialOptions(f), "duration") == 4
    ensures FindIndex(InitialOptions(f), "shorts") == 5
  {
    var os := InitialOptions(f);
    assert FindFrom(os, "dateRange", 0) == 0;
    assert FindFrom(os, "viralScore", 1) == 1;
    assert FindFrom(os, "viralScore", 0) == 1;
    assert FindFrom(os, "viewCount", 2) == 2;
    assert FindFrom(os, "viewCount", 1) == 2;
    assert FindFrom(os, "viewCount", 0) == 2;
    assert FindFrom(os, "duration", 4) == 4;
    assert FindFrom(os, "duration", 3) == 4;
    assert FindFrom(os, "duration", 2) == 4;
    assert FindFrom(os, "duration", 1) == 4;
    assert FindFrom(os, "duration", 0) == 4;
    assert FindFrom(os, "shorts", 5) == 5;
    assert FindFrom(os, "shorts", 4) == 5;
    assert FindFrom(os, "shorts", 3) == 5;
    assert FindFrom(os, "shorts", 2) == 5;
    assert FindFrom(os, "shorts", 1) == 5;
    assert FindFrom(os, "shorts", 0) == 5;
  }

  lemma ApplyUnchangedPanelRoundTrip(f: SearchFilters)
    requires Representable(f)
    ensures Applied(InitialOptions(f)) == f
  {
    var g := Applied(InitialOptions(f));
    PanelKeepsDateRange(f);
    PanelKeepsViewCount(f);
    PanelKeepsDuration(f);
    PanelKeepsShortsAndSort(f);
    assert g.dateRange == f.dateRange && g.viewCount == f.viewCount && g.duration == f.duration;
  }

  lemma PanelKeepsDateRange(f: SearchFilters)
    requires Representable(f)
    ensures Applied(InitialOptions(f)).dateRange == f.dateRange
  {
    var os := InitialOptions(f);
    InitialOptionsIds(f);
    assert Find(os, "dateRange") == Some(os[0]);
  }

  lemma PanelKeepsViewCount(f: SearchFilters)
    requires Representable(f)
    ensures Applied(InitialOptions(f)).viewCount == f.viewCount
  {
    var os := InitialOptions(f);
    InitialOptionsIds(f);
    assert Find(os, "viewCount") == Some(os[2]);
    if f.viewCount != Unbounded {
      var c := os[2].config;
      assert ConfigNumber(c, "min") == f.viewCount.min;
      assert ConfigNumber(c, "max") == f.viewCount.max;
    }
  }

  lemma PanelKeepsDuration(f: SearchFilters)
    requires Representable(f)
    ensures Applied(InitialOptions(f)).duration == f.duration
  {
    var os := InitialOptions(f);
    InitialOptionsIds(f);
    assert Find(os, "duration") == Some(os[4]);
  }

  lemma PanelKeepsShortsAndSort(f: SearchFilters)
    requires Representable(f)
    ensures Applied(InitialOptions(f)).includeShorts == f.includeShorts
    ensures Applied(InitialOptions(f)).sortBy == f.sortBy
  {
    var os := InitialOptions(f);
    InitialOptionsIds(f);
    assert Find(os, "shorts") == Some(os[5]);
    assert Find(os, "viralScore") == Some(os[1]);
  }

  /**
   * Outside that set the panel rewrites the record: a missing preset becomes
   * `last7days`, a missing length becomes `medium`, and a missing shorts
   * flag becomes `false`.
   */
  lemma ApplyUnchangedPanelDefaults(f: SearchFilters)
    ensures f.dateRange.preset.None? ==> Applied(InitialOptions(f)).dateRange.preset == Some("last7days")
    ensures f.duration.None? ==> Applied(InitialOptions(f)).duration == Some("medium")
    ensures f.includeShorts.None? ==> Applied(InitialOptions(f)).includeShorts == Some(false)
  {
    InitialOptionsIds(f);
  }

  /** "Clear all" then "Apply" on the panel yields the page's reset record, whatever the panel started from. */
  lemma ClearThenApply(f: SearchFilters)
    ensures Applied(Cleared(InitialOptions(f))) ==
      SearchFilters(DateRange(None, None, Some("alltime")), Unbounded, Unbounded, Some("any"), Some(true), "relevance", "desc")
  {
    InitialOptionsIds(f);
    var os := InitialOptions(f);
    var r := Cleared(os);
    SameIdsSameIndex(os, r, "dateRange");
    SameIdsSameIndex(os, r, "viralScore");
    SameIdsSameIndex(os, r, "viewCount");
    SameIdsSameIndex(os, r, "duration");
    SameIdsSameIndex(os, r, "shorts");
  }

  // ----- The component -----

  /**
   * The panel's state: the option list and whether the sheet is open. The
   * list is built once from the filters given when the panel first appears.
   */
  class FilterPanel {
    var options: seq<FilterOption>
    var open: bool

    constructor (current: SearchFilters)
      ensures options == InitialOptions(current) && !open
    {
      options := InitialOptions(current);
      open := false;
    }

    function ActiveFilterCount(): (c: nat)
      reads this
      ensures c == ActiveCount(options)
    {
      ActiveCount(options)
    }

    method ToggleFilter(id: string)
      modifies this
      ensures options == Toggle(old(options), id) && open == old(open)
    {
      options := Toggle(options, id);
    }

    method UpdateFilterConfig(id: string, newConfig: Config)
      modifies this
      ensures options == UpdateConfig(old(options), id, newConfig) && open == old(open)
    {
      options := UpdateConfig(options, id, newConfig);
    }

    method ClearAll()
      modifies this
      ensures options == Cleared(old(options)) && open == old(open)
      ensures ActiveFilterCount() == 0
    {
      options := Cleared(options);
    }

    /** Hands the converted record to the page and closes the sheet. */
    method ApplyFilters() returns (filters: SearchFilters)
      modifies this
      ensures filters == Applied(options) && options == old(options) && !open
    {
      filters := Applied(options);
      open := false;
    }
  }
}
