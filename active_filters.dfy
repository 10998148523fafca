/**
 * The chip row under the search bar. It shows one removable chip for each
 * filter that narrows the search, in a fixed order: time, sort, views,
 * length, shorts. It adds a "Clear all" link when more than one chip is
 * shown, and it renders nothing when no chip is shown.
 */
module ActiveFilters {
  import opened Common
  import opened Text
  import opened Filters

  /** The filter a chip stands for, in row order; `Name` is what its remove button reports. */
  datatype Kind = DateRangeKind | SortByKind | ViewCountKind | DurationKind | IncludeShortsKind
  {
    function Name(): string {
      match this
      case DateRangeKind => "dateRange"
      case SortByKind => "sortBy"
      case ViewCountKind => "viewCount"
      case DurationKind => "duration"
      case IncludeShortsKind => "includeShorts"
    }

    /** The position of the chip in the row. */
    function Rank(): int {
      match this
      case DateRangeKind => 0
      case SortByKind => 1
      case ViewCountKind => 2
      case DurationKind => 3
      case IncludeShortsKind => 4
    }
  }

  /** A chip: the filter it removes, its caption and its value. */
  datatype Chip = Chip(kind: Kind, caption: string, value: string)

  /** The caption of a date preset; presets without one are shown as they are. */
  function DateLabel(preset: string): (r: string)
    ensures preset == "today" ==> r == "Last 24 hours"
    ensures preset == "last7days" ==> r == "Last 7 days"
    ensures preset !in {"today", "yesterday", "last7days", "last30days", "last3months", "last6months", "lastyear"} ==>
      r == preset
  {
    if preset == "today" then "Last 24 hours"
    else if preset == "yesterday" then "Yesterday"
    else if preset == "last7days" then "Last 7 days"
    else if preset == "last30days" then "Last 30 days"
    else if preset == "last3months" then "Last 3 months"
    else if preset == "last6months" then "Last 6 months"
    else if preset == "lastyear" then "Last year"
    else preset
  }

  /** The caption of a length filter; other values are shown as they are. */
  function DurationLabel(duration: string): (r: string)
    ensures duration !in {"short", "medium", "long"} ==> r == duration
    ensures duration in {"short", "medium", "long"} ==> r != duration
  {
    if duration == "short" then "Short videos"
    else if duration == "medium" then "4-20 min"
    else if duration == "long" then "Long videos"
    else duration
  }

  /** `s` without its trailing zeros. */
  function StripTrailingZeros(s: string): (r: string)
    ensures |r| <= |s| && r == s[..|r|]
    ensures r == [] || r[|r| - 1] != '0'
    ensures forall i | |r| <= i < |s| :: s[i] == '0'
    decreases |s|
  {
    if s != [] && s[|s| - 1] == '0' then StripTrailingZeros(s[..|s| - 1]) else s
  }

  /**
   * `n / unit` printed as a JavaScript number, where `unit` is `10^digits`:
   * the integer part, then the remainder's digits without trailing zeros.
   */
  function Quotient(n: nat, unit: nat, digits: nat): string
    requires unit > 0
  {
    var fraction := n % unit;
    NatToString(n / unit)
      + (if fraction == 0 then "" else "." + StripTrailingZeros(PadStart(NatToString(fraction), digits, '0')))
  }

  /** `formatCount`: millions as `M`, thousands as `K`, anything smaller as it is. */
  function FormatCount(n: int): (r: string)
    ensures n >= 1000000 && n % 1000000 == 0 ==> r == NatToString(n / 1000000) + "M"
    ensures 1000 <= n < 1000000 && n % 1000 == 0 ==> r == NatToString(n / 1000) + "K"
    ensures n < 1000 ==> r == IntToString(n)
    ensures n >= 1000 ==> |r| >= 2 && (r[|r| - 1] == 'M' || r[|r| - 1] == 'K')
  {
    if n >= 1000000 then Quotient(n, 1000000, 6) + "M"
    else if n >= 1000 then Quotient(n, 1000, 3) + "K"
    else IntToString(n)
  }

  lemma FormatCountExamples()
    ensures FormatCount(100000) == "100K"
    ensures FormatCount(2000000) == "2M"
  {
    assert DigitChar(0) == '0' && DigitChar(1) == '1' && DigitChar(2) == '2';
    assert NatToString(10) == NatToString(1) + [DigitChar(0)];
    assert NatToString(100) == NatToString(10) + [DigitChar(0)];
    assert NatToString(100) == "100";
    assert FormatCount(100000) == NatToString(100) + "K";
    assert NatToString(2) == "2";
    assert FormatCount(2000000) == NatToString(2) + "M";
  }

  // ----- The chips as a value -----

  /** The guard under which the component pushes the chip of kind `k`. */
  predicate Shows(f: SearchFilters, k: Kind) {
    match k
    case DateRangeKind => TruthyText(f.dateRange.preset) && f.dateRange.preset.value != "alltime"
    case SortByKind => f.sortBy == "viralScore"
    case ViewCountKind => TruthyNumber(f.viewCount.min)
    case DurationKind => TruthyText(f.duration) && f.duration.value != "any"
    case IncludeShortsKind => f.includeShorts != Some(true)  // `!includeShorts`: a missing flag counts as excluded
  }

  /** The chip of kind `k`; the component pushes it only when `Shows(f, k)`. */
  function ChipFor(f: SearchFilters, k: Kind): (c: Chip)
    ensures c.kind == k
  {
    match k
    case DateRangeKind => Chip(k, "Time", DateLabel(f.dateRange.preset.GetOr("")))
    case SortByKind => Chip(k, "Sort", "Viral Score")
    case ViewCountKind => Chip(k, "Views", ">" + FormatCount(f.viewCount.min.GetOr(0)))
    case DurationKind => Chip(k, "Length", DurationLabel(f.duration.GetOr("")))
    case IncludeShortsKind => Chip(k, "Shorts", "Excluded")
  }

  /** The kind the component tests at step `i`; its rank is the step. */
  function KindAt(i: nat): (k: Kind)
    requires i < 5
    ensures k.Rank() == i
  {
    if i == 0 then DateRangeKind
    else if i == 1 then SortByKind
    else if i == 2 then ViewCountKind
    else if i == 3 then DurationKind
    else IncludeShortsKind
  }

  predicate HasChip(chips: seq<Chip>, kind: Kind) {
    exists i | 0 <= i < |chips| :: chips[i].kind == kind
  }

  /** Ranks strictly increase along the row. */
  predicate Ordered(chips: seq<Chip>) {
    forall i, j | 0 <= i < j < |chips| :: chips[i].kind.Rank() < chips[j].kind.Rank()
  }

  /** The chip of kind `k` as a list of zero or one element. */
  function Optional(f: SearchFilters, k: Kind): (r: seq<Chip>)
    ensures |r| <= 1 && (|r| == 1 <==> Shows(f, k))
  {
    if Shows(f, k) then [ChipFor(f, k)] else []
  }

  /** The guarded pushes of the first `n` steps. */
  function ChipsUpTo(f: SearchFilters, n: nat): seq<Chip>
    requires n <= 5
  {
    if n == 0 then [] else ChipsUpTo(f, n - 1) + Optional(f, KindAt(n - 1))
  }

  /** The chip list for a filter record. */
  function Chips(f: SearchFilters): seq<Chip> {
    ChipsUpTo(f, 5)
  }

  /** After `n` steps: at most `n` chips, in increasing rank below `n`, each the chip of its kind. */
  lemma {:induction false} ChipsUpToShape(f: SearchFilters, n: nat)
    requires n <= 5
    ensures |ChipsUpTo(f, n)| <= n
    ensures Ordered(ChipsUpTo(f, n))
    ensures forall i | 0 <= i < |ChipsUpTo(f, n)| ::
              ChipsUpTo(f, n)[i] == ChipFor(f, ChipsUpTo(f, n)[i].kind) && ChipsUpTo(f, n)[i].kind.Rank() < n
  {
    if n > 0 {
      ChipsUpToShape(f, n - 1);
      var c := ChipsUpTo(f, n - 1);
      var last := KindAt(n - 1);
      var tail := Optional(f, last);
      var r := ChipsUpTo(f, n);
      assert r == c + tail;
      forall i | 0 <= i < |r|
        ensures r[i] == ChipFor(f, r[i].kind) && r[i].kind.Rank() < n
      {
        if i < |c| {
          assert r[i] == c[i];
        } else {
          assert r[i] == tail[0] == ChipFor(f, last);
        }
      }
      forall i, j | 0 <= i < j < |r|
        ensures r[i].kind.Rank() < r[j].kind.Rank()
      {
        if j < |c| {
          assert r[i] == c[i] && r[j] == c[j];
        } else {
          assert r[i] == c[i] && r[j].kind == last;
        }
      }
    }
  }

  /** After `n` steps: a chip for each kind of rank below `n` whose guard holds, and no other. */
  lemma {:induction false} ChipsUpToContents(f: SearchFilters, n: nat)
    requires n <= 5
    ensures forall k :: HasChip(ChipsUpTo(f, n), k) <==> k.Rank() < n && Shows(f, k)
  {
    if n > 0 {
      ChipsUpToContents(f, n - 1);
      var c := ChipsUpTo(f, n - 1);
      var last := KindAt(n - 1);
      var tail := Optional(f, last);
      var r := ChipsUpTo(f, n);
      assert r == c + tail;
      forall k
        ensures HasChip(r, k) <==> k.Rank() < n && Shows(f, k)
      {
        if HasChip(c, k) {
          var i :| 0 <= i < |c| && c[i].kind == k;
          assert r[i].kind == k;
        }
        if HasChip(r, k) {
          var i :| 0 <= i < |r| && r[i].kind == k;
          if i < |c| {
            assert c[i].kind == k;
          } else {
            assert r[i] == tail[0] == ChipFor(f, last);
          }
        }
        if k.Rank() == n - 1 && Shows(f, k) {
          assert k == last;
          assert r[|c|].kind == k;
        }
      }
    }
  }

  /** A chip is shown exactly when its filter's guard holds, and the row keeps the component's order. */
  lemma ChipsShowActiveFilters(f: SearchFilters)
    ensures forall k :: HasChip(Chips(f), k) <==> Shows(f, k)
    ensures Ordered(Chips(f))
    ensures |Chips(f)| <= 5
  {
    ChipsUpToContents(f, 5);
    ChipsUpToShape(f, 5);
  }

  /** Two chips never share a kind, since the kinds appear in strictly increasing rank. */
  lemma ChipKindsDistinct(f: SearchFilters)
    ensures forall i, j | 0 <= i < j < |Chips(f)| :: Chips(f)[i].kind != Chips(f)[j].kind
  {
    ChipsShowActiveFilters(f);
  }

  /** One guarded push extends the list of the first `n` steps to `n + 1`. */
  lemma ChipsStep(f: SearchFilters, n: nat, before: seq<Chip>, pushed: bool, after: seq<Chip>)
    requires n < 5 && before == ChipsUpTo(f, n)
    requires pushed == Shows(f, KindAt(n))
    requires after == if pushed then before + [ChipFor(f, KindAt(n))] else before
    ensures after == ChipsUpTo(f, n + 1)
  {
  }

  /** Building the list with successive pushes, one guard per filter. */
  method BuildChips(f: SearchFilters) returns (chips: seq<Chip>)
    ensures chips == Chips(f)
  {
    chips := [];
    ghost var before := chips;
    var pushed := TruthyText(f.dateRange.preset) && f.dateRange.preset.value != "alltime";
    if pushed {
      chips := chips + [ChipFor(f, DateRangeKind)];
    }
    ChipsStep(f, 0, before, pushed, chips);
    before, pushed := chips, f.sortBy == "viralScore";
    if pushed {
      chips := chips + [ChipFor(f, SortByKind)];
    }
    ChipsStep(f, 1, before, pushed, chips);
    before, pushed := chips, f.viewCount.min.Some? && f.viewCount.min.value != 0;
    if pushed {
      chips := chips + [ChipFor(f, ViewCountKind)];
    }
    ChipsStep(f, 2, before, pushed, chips);
    before, pushed := chips, f.duration.Some? && f.duration.value != "" && f.duration.value != "any";
    if pushed {
      chips := chips + [ChipFor(f, DurationKind)];
    }
    ChipsStep(f, 3, before, pushed, chips);
    before, pushed := chips, f.includeShorts != Some(true);
    if pushed {
      chips := chips + [ChipFor(f, IncludeShortsKind)];
    }
    ChipsStep(f, 4, before, pushed, chips);
  }

  // ----- Rendering -----

  /** What the component renders: nothing, or the chips and whether "Clear all" is offered. */
  datatype Row = Hidden | Shown(chips: seq<Chip>, clearAll: bool)

  function Render(chips: seq<Chip>): (r: Row)
    ensures r.Hidden? <==> |chips| == 0
    ensures r.Shown? ==> r.chips == chips && (r.clearAll <==> |chips| > 1)
  {
    if |chips| == 0 then Hidden else Shown(chips, |chips| > 1)
  }

  /** The page's starting filters show the time chip and the shorts chip, so "Clear all" is offered. */
  lemma StartingFiltersShowTwoChips()
    ensures var f := SearchFilters(DateRange(None, None, Some("last7days")), Unbounded, Unbounded,
                                   Some("any"), Some(false), "relevance", "desc");
      Chips(f) == [Chip(DateRangeKind, "Time", "Last 7 days"), Chip(IncludeShortsKind, "Shorts", "Excluded")]
      && Render(Chips(f)).Shown? && Render(Chips(f)).clearAll
  {
    var f := SearchFilters(DateRange(None, None, Some("last7days")), Unbounded, Unbounded,
                           Some("any"), Some(false), "relevance", "desc");
    var date := ChipFor(f, DateRangeKind);
    assert date == Chip(DateRangeKind, "Time", "Last 7 days");
    assert ChipsUpTo(f, 4) == [date];
  }
}
