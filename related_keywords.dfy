/**
 * Related-keyword suggestions under the search box. From the titles and
 * descriptions of the current results it collects the fixed viral terms
 * that occur in the text but not in the query, then the words longer than
 * four UTF-16 code units, not in the query, that occur more than three times (the
 * five most frequent), and keeps the first three distinct suggestions. An
 * empty result list leaves the previous suggestions in place.
 */
module RelatedKeywords {
  import opened Text
  import opened Sorting

  /** What the component reads of each video. */
  datatype KeywordSource = KeywordSource(title: string, description: string)

  const ViralTerms: seq<string> := [
    "challenge", "tutorial", "review", "reaction", "explained",
    "top 10", "best", "worst", "tips", "tricks", "hacks",
    "how to", "why", "what", "ultimate", "complete guide",
    "for beginners", "advanced", "secrets", "mistakes", "comparison"]

  function Take<T>(s: seq<T>, n: nat): (r: seq<T>)
    ensures |r| <= n && |r| <= |s| && r == s[..|r|]
    ensures |s| <= n ==> r == s
  {
    if |s| <= n then s else s[..n]
  }

  /** `title + " " + description` for each video. */
  function Texts(videos: seq<KeywordSource>): (r: seq<string>)
    ensures |r| == |videos| && forall i | 0 <= i < |videos| :: r[i] == videos[i].title + " " + videos[i].description
  {
    if videos == [] then [] else [videos[0].title + " " + videos[0].description] + Texts(videos[1..])
  }

  /** All the text, joined by single spaces. */
  function AllText(videos: seq<KeywordSource>): string {
    Join(Texts(videos), " ")
  }

  /** The viral terms found in `lower` and absent from `lowerQuery`, in list order. */
  function Hits(terms: seq<string>, lower: string, lowerQuery: string): (r: seq<string>)
    ensures |r| <= |terms|
    ensures forall t :: t in r <==> t in terms && Contains(lower, t) && !Contains(lowerQuery, t)
    decreases |terms|
  {
    if terms == [] then []
    else
      var t := terms[|terms| - 1];
      Hits(terms[..|terms| - 1], lower, lowerQuery) + (if Contains(lower, t) && !Contains(lowerQuery, t) then [t] else [])
  }

  /** How many non-white-space characters open `s`. */
  function RunLength(s: string): (n: nat)
    ensures n <= |s|
    ensures forall i | 0 <= i < n :: !IsWhitespace(s[i])
    ensures n < |s| ==> IsWhitespace(s[n])
  {
    if s == [] || IsWhitespace(s[0]) then 0 else 1 + RunLength(s[1..])
  }

  /**
   * `split(/\s+/)` without its empty pieces: the maximal runs of
   * non-white-space characters, in order.
   */
  function Words(s: string): (r: seq<string>)
    ensures forall w | w in r :: |w| > 0 && forall i | 0 <= i < |w| :: !IsWhitespace(w[i])
    decreases |s|
  {
    if s == [] then []
    else if IsWhitespace(s[0]) then Words(s[1..])
    else
      var n := RunLength(s);
      [s[..n]] + Words(s[n..])
  }

  /**
   * The words longer than four characters that the lower-cased query does
   * not contain, a word's length being JavaScript's count of UTF-16 code units.
   */
  function Candidates(ws: seq<string>, lowerQuery: string): (r: seq<string>)
    ensures |r| <= |ws|
    ensures forall w :: multiset(r)[w] == if Utf16Length(w) > 4 && !Contains(lowerQuery, w) then multiset(ws)[w] else 0
    decreases |ws|
  {
    if ws == [] then []
    else
      assert ws == [ws[0]] + ws[1..];
      (if Utf16Length(ws[0]) > 4 && !Contains(lowerQuery, ws[0]) then [ws[0]] else []) + Candidates(ws[1..], lowerQuery)
  }

  /**
   * The keys a plain object already inherits from `Object.prototype` that
   * the words can spell: counting `constructor` starts from the inherited
   * function, so its count becomes a string that `count > 3` rejects, and a
   * number assigned to `__proto__` is dropped.
   */
  predicate InheritedKey(w: string) {
    w == "constructor" || w == "__proto__"
  }

  /**
   * The `wordFreq` record as a value: the counts, and the keys in the order
   * they were first set. An inherited key never gets a count.
   */
  function Tally(ws: seq<string>): (map<string, nat>, seq<string>)
    decreases |ws|
  {
    if ws == [] then (map[], [])
    else
      var prev := Tally(ws[..|ws| - 1]);
      var w := ws[|ws| - 1];
      if InheritedKey(w) then prev
      else if w in prev.0 then (prev.0[w := prev.0[w] + 1], prev.1)
      else (prev.0[w := 1], prev.1 + [w])
  }

  /**
   * Each word's count is its number of occurrences; the keys are the
   * distinct words other than the inherited keys.
   */
  lemma {:induction false} TallyCounts(ws: seq<string>)
    ensures forall w :: w in Tally(ws).0 <==> w in ws && !InheritedKey(w)
    ensures forall w | w in Tally(ws).0 :: Tally(ws).0[w] == multiset(ws)[w]
    ensures forall w :: w in Tally(ws).1 <==> w in ws && !InheritedKey(w)
    ensures Distinct(Tally(ws).1)
    decreases |ws|
  {
    if ws != [] {
      var init := ws[..|ws| - 1];
      var w := ws[|ws| - 1];
      TallyCounts(init);
      assert ws == init + [w];
      assert multiset(ws) == multiset(init) + multiset{w};
      forall x
        ensures x in ws <==> x in init || x == w
      {
      }
    }
  }

  /** `Object.entries(wordFreq)`: each key with its count, in key order. */
  function Entries(order: seq<string>, counts: map<string, nat>): (r: seq<(string, nat)>)
    requires forall w | w in order :: w in counts
    ensures |r| == |order|
    ensures forall i | 0 <= i < |order| :: r[i] == (order[i], counts[order[i]])
  {
    if order == [] then [] else [(order[0], counts[order[0]])] + Entries(order[1..], counts)
  }

  /** `filter(([_, count]) => count > 3)`. */
  function Frequent(es: seq<(string, nat)>): (r: seq<(string, nat)>)
    ensures forall e :: multiset(r)[e] == if e.1 > 3 then multiset(es)[e] else 0
    decreases |es|
  {
    if es == [] then []
    else
      assert es == [es[0]] + es[1..];
      (if es[0].1 > 3 then [es[0]] else []) + Frequent(es[1..])
  }

  /** The comparator `(a, b) => b[1] - a[1]`. */
  function ByCountDescending(): ((string, nat), (string, nat)) -> bool {
    (a: (string, nat), b: (string, nat)) => a.1 >= b.1
  }

  /**
   * Five of the frequent entries (all of them when there are fewer), the
   * highest counts first; a frequent entry left out counts no more than any
   * entry kept.
   */
  function TopEntries(es: seq<(string, nat)>): (r: seq<(string, nat)>)
    ensures |r| == if |Frequent(es)| < 5 then |Frequent(es)| else 5
    ensures forall e | e in r :: e in es && e.1 > 3
    ensures forall i, j | 0 <= i < j < |r| :: r[i].1 >= r[j].1
    ensures forall e | e in es && e.1 > 3 && e !in r :: forall k | 0 <= k < |r| :: r[k].1 >= e.1
  {
    var kept := Frequent(es);
    var sorted := Sort(kept, ByCountDescending());
    SortSorted(kept, ByCountDescending());
    var r := Take(sorted, 5);
    TopEntriesChosen(es, kept, sorted, r);
    r
  }

  /** The facts `TopEntries` states, about its intermediate lists. */
  lemma TopEntriesChosen(es: seq<(string, nat)>, kept: seq<(string, nat)>, sorted: seq<(string, nat)>, r: seq<(string, nat)>)
    requires kept == Frequent(es) && multiset(sorted) == multiset(kept)
    requires SortedBy(sorted, ByCountDescending()) && r == Take(sorted, 5)
    ensures |r| == if |kept| < 5 then |kept| else 5
    ensures forall i, j | 0 <= i < j < |r| :: r[i].1 >= r[j].1
    ensures forall e | e in r :: e in es && e.1 > 3
    ensures forall e | e in es && e.1 > 3 && e !in r :: forall k | 0 <= k < |r| :: r[k].1 >= e.1
  {
    assert |sorted| == |kept| by {
      assert |multiset(sorted)| == |multiset(kept)|;
    }
    forall i, j | 0 <= i < j < |r|
      ensures r[i].1 >= r[j].1
    {
      assert ByCountDescending()(sorted[i], sorted[j]);
    }
    forall e | e in r
      ensures e in es && e.1 > 3
    {
      assert e in sorted;
      assert multiset(kept)[e] > 0;
    }
    forall e, k | e in es && e.1 > 3 && e !in r && 0 <= k < |r|
      ensures r[k].1 >= e.1
    {
      assert multiset(kept)[e] > 0;
      assert e in multiset(sorted);
      var m :| 0 <= m < |sorted| && sorted[m] == e;
      assert r[k] == sorted[k];
      assert ByCountDescending()(sorted[k], sorted[m]);
    }
  }

  function Names(es: seq<(string, nat)>): (r: seq<string>)
    ensures |r| == |es| && forall i | 0 <= i < |es| :: r[i] == es[i].0
  {
    if es == [] then [] else [es[0].0] + Names(es[1..])
  }

  /** Adding to an insertion-ordered set: each item not yet present goes to the end. */
  function AddAll(keys: seq<string>, items: seq<string>): (r: seq<string>)
    ensures |keys| <= |r| && r[..|keys|] == keys
    ensures forall x :: x in r <==> x in keys || x in items
    ensures Distinct(keys) ==> Distinct(r)
    decreases |items|
  {
    if items == [] then keys
    else
      var prev := AddAll(keys, items[..|items| - 1]);
      var x := items[|items| - 1];
      assert forall y :: y in items <==> y in items[..|items| - 1] || y == x by {
        assert items == items[..|items| - 1] + [x];
      }
      if x in prev then prev else prev + [x]
  }

  /** The frequent words of the text, as the component ranks them. */
  function TopWords(lower: string, lowerQuery: string): (r: seq<string>)
    ensures |r| <= 5
    ensures forall w | w in r ::
      Utf16Length(w) > 4 && !Contains(lowerQuery, w) && !InheritedKey(w) && multiset(Words(lower))[w] > 3
  {
    var words := Candidates(Words(lower), lowerQuery);
    TallyCounts(words);
    var r := Names(TopEntries(Entries(Tally(words).1, Tally(words).0)));
    TopNamesCounted(words);
    r
  }

  /** Every entry pairs a key with its count. */
  lemma EntriesCounted(order: seq<string>, counts: map<string, nat>)
    requires forall w | w in order :: w in counts
    ensures forall e | e in Entries(order, counts) :: e.0 in counts && e.1 == counts[e.0]
  {
    var es := Entries(order, counts);
    forall e | e in es
      ensures e.0 in counts && e.1 == counts[e.0]
    {
      var k :| 0 <= k < |es| && es[k] == e;
      assert order[k] in order;
    }
  }

  /** Every ranked word occurs more than three times in the counted list and is not an inherited key. */
  lemma TopNamesCounted(words: seq<string>)
    ensures forall w | w in Tally(words).1 :: w in Tally(words).0
    ensures forall w | w in Names(TopEntries(Entries(Tally(words).1, Tally(words).0))) ::
      multiset(words)[w] > 3 && !InheritedKey(w)
  {
    TallyCounts(words);
    var t := Tally(words);
    var counts := t.0;
    assert forall w | w in counts :: counts[w] == multiset(words)[w];
    var es := Entries(t.1, counts);
    EntriesCounted(t.1, counts);
    var top := TopEntries(es);
    var r := Names(top);
    forall w | w in r
      ensures multiset(words)[w] > 3 && !InheritedKey(w)
    {
      var i :| 0 <= i < |r| && r[i] == w;
      var e := top[i];
      assert e in top;
      assert e in es && e.1 > 3;
      assert e.0 == w && counts[w] == e.1;
    }
  }

  /** The suggestions computed from a list of terms and the lower-cased text and query. */
  function SuggestionsFrom(terms: seq<string>, lower: string, lowerQuery: string): seq<string> {
    Take(AddAll(Hits(terms, lower, lowerQuery), TopWords(lower, lowerQuery)), 3)
  }

  /** The suggestions for a non-empty result list. */
  function Suggestions(videos: seq<KeywordSource>, query: string): seq<string> {
    SuggestionsFrom(ViralTerms, ToLower(AllText(videos)), ToLower(query))
  }

  /** The first loop: each term found in the text and not in the query, in order. */
  method CollectHits(terms: seq<string>, lower: string, lowerQuery: string) returns (keywords: seq<string>)
    ensures keywords == Hits(terms, lower, lowerQuery)
  {
    keywords := [];
    var i := 0;
    while i < |terms|
      invariant 0 <= i <= |terms|
      invariant keywords == Hits(terms[..i], lower, lowerQuery)
    {
      var term := terms[i];
      assert terms[..i + 1][..i] == terms[..i];
      if Contains(lower, term) && !Contains(lowerQuery, term) {
        keywords := keywords + [term];
      }
      i := i + 1;
    }
    assert terms[..|terms|] == terms;
  }

  /** The counting loop over the filtered words. */
  method CountWords(words: seq<string>) returns (counts: map<string, nat>, order: seq<string>)
    ensures (counts, order) == Tally(words)
  {
    counts := map[];
    order := [];
    var j := 0;
    while j < |words|
      invariant 0 <= j <= |words|
      invariant (counts, order) == Tally(words[..j])
    {
      var w := words[j];
      assert words[..j + 1][..j] == words[..j];
      if InheritedKey(w) {
        // `constructor` gets a string count and `__proto__` keeps no number: neither is a counted key
      } else if w in counts {
        counts := counts[w := counts[w] + 1];
      } else {
        counts := counts[w := 1];
        order := order + [w];
      }
      j := j + 1;
    }
    assert words[..|words|] == words;
  }

  /** `forEach(([word]) => keywords.add(word))`. */
  method AddWords(keys: seq<string>, items: seq<string>) returns (keywords: seq<string>)
    ensures keywords == AddAll(keys, items)
  {
    keywords := keys;
    var k := 0;
    while k < |items|
      invariant 0 <= k <= |items|
      invariant keywords == AddAll(keys, items[..k])
    {
      assert items[..k + 1][..k] == items[..k];
      if items[k] !in keywords {
        keywords := keywords + [items[k]];
      }
      k := k + 1;
    }
    assert items[..|items|] == items;
  }

  class RelatedKeywordsPanel {
    var suggested: seq<string>

    constructor ()
      ensures suggested == []
    {
      suggested := [];
    }

    /** The effect body, run when the results or the query change. */
    method Refresh(videos: seq<KeywordSource>, query: string)
      modifies this
      ensures |videos| == 0 ==> suggested == old(suggested)
      ensures |videos| > 0 ==> suggested == Suggestions(videos, query)
    {
      if |videos| == 0 {
        return;
      }
      var lower := ToLower(AllText(videos));
      var lowerQuery := ToLower(query);
      var keywords := CollectHits(ViralTerms, lower, lowerQuery);
      var words := Candidates(Words(lower), lowerQuery);
      var counts, order := CountWords(words);
      TopNamesCounted(words);
      var top := Names(TopEntries(Entries(order, counts)));
      keywords := AddWords(keywords, top);
      suggested := Take(keywords, 3);
    }
  }

  // ----- Lemmas -----

  /** Where a term sits in the component's list, or -1. */
  function TermPosition(s: string): int {
    if s == "challenge" then 0
    else if s == "tutorial" then 1
    else if s == "review" then 2
    else if s == "reaction" then 3
    else if s == "explained" then 4
    else if s == "top 10" then 5
    else if s == "best" then 6
    else if s == "worst" then 7
    else if s == "tips" then 8
    else if s == "tricks" then 9
    else if s == "hacks" then 10
    else if s == "how to" then 11
    else if s == "why" then 12
    else if s == "what" then 13
    else if s == "ultimate" then 14
    else if s == "complete guide" then 15
    else if s == "for beginners" then 16
    else if s == "advanced" then 17
    else if s == "secrets" then 18
    else if s == "mistakes" then 19
    else if s == "comparison" then 20
    else -1
  }

  /** No term is listed twice: each one's position is its index. */
  lemma ViralTermsDistinct()
    ensures Distinct(ViralTerms)
  {
    assert forall i | 0 <= i < |ViralTerms| :: TermPosition(ViralTerms[i]) == i;
  }

  /**
   * At most three distinct suggestions; each is a term found in the text
   * and not in the query, or a frequent long word not in the query.
   */
  lemma SuggestionsWellFormed(terms: seq<string>, lower: string, lowerQuery: string)
    requires Distinct(terms)
    ensures var s := SuggestionsFrom(terms, lower, lowerQuery);
      && |s| <= 3
      && Distinct(s)
      && forall w | w in s ::
           || (w in terms && Contains(lower, w) && !Contains(lowerQuery, w))
           || (Utf16Length(w) > 4 && !Contains(lowerQuery, w) && !InheritedKey(w) && multiset(Words(lower))[w] > 3)
  {
    var hits := Hits(terms, lower, lowerQuery);
    var top := TopWords(lower, lowerQuery);
    var all := AddAll(hits, top);
    HitsDistinct(terms, lower, lowerQuery);
    assert Distinct(all);
    var s := Take(all, 3);
    assert s == all[..|s|];
    forall w | w in s
      ensures || (w in terms && Contains(lower, w) && !Contains(lowerQuery, w))
              || (Utf16Length(w) > 4 && !Contains(lowerQuery, w) && !InheritedKey(w) && multiset(Words(lower))[w] > 3)
    {
      assert w in all;
      if w !in hits {
        assert w in top;
      }
    }
  }

  /** The same for the component's own term list. */
  lemma ViralSuggestionsWellFormed(videos: seq<KeywordSource>, query: string)
    ensures var s := Suggestions(videos, query);
      && |s| <= 3
      && Distinct(s)
      && forall w | w in s ::
           || (w in ViralTerms && Contains(ToLower(AllText(videos)), w) && !Contains(ToLower(query), w))
           || (Utf16Length(w) > 4 && !Contains(ToLower(query), w) && !InheritedKey(w)
               && multiset(Words(ToLower(AllText(videos))))[w] > 3)
  {
    ViralTermsDistinct();
    SuggestionsWellFormed(ViralTerms, ToLower(AllText(videos)), ToLower(query));
  }

  /** `constructor` and `__proto__` are never suggested, however often the text repeats them. */
  lemma InheritedKeysNeverSuggested(videos: seq<KeywordSource>, query: string)
    ensures "constructor" !in Suggestions(videos, query)
    ensures "__proto__" !in Suggestions(videos, query)
  {
    var s := Suggestions(videos, query);
    ViralSuggestionsWellFormed(videos, query);
    InheritedKeysNotTerms();
    assert forall w | w in s :: !InheritedKey(w);
    assert InheritedKey("constructor") && InheritedKey("__proto__");
  }

  lemma InheritedKeysNotTerms()
    ensures forall w | w in ViralTerms :: !InheritedKey(w)
  {
    assert forall i | 0 <= i < |ViralTerms| :: TermPosition(ViralTerms[i]) == i;
  }

  /** A word of three astral characters is six code units long, so it is a candidate. */
  lemma AstralWordIsCandidate()
    ensures Candidates(["\U{1F525}\U{1F525}\U{1F525}"], "") == ["\U{1F525}\U{1F525}\U{1F525}"]
  {
    AstralCharactersCountTwice();
  }

  /** The terms found come first: with three of them, the frequent words never show. */
  lemma TermsFirst(terms: seq<string>, lower: string, lowerQuery: string)
    ensures var hits := Hits(terms, lower, lowerQuery);
      |hits| >= 3 ==> SuggestionsFrom(terms, lower, lowerQuery) == hits[..3]
  {
    var hits := Hits(terms, lower, lowerQuery);
    var all := AddAll(hits, TopWords(lower, lowerQuery));
    if |hits| >= 3 {
      TakeOfLongPrefix(all, hits, 3);
    }
  }

  /** Taking `n` from a sequence that starts with at least `n` given items gives those items' first `n`. */
  lemma TakeOfLongPrefix<T>(all: seq<T>, prefix: seq<T>, n: nat)
    requires n <= |prefix| <= |all| && all[..|prefix|] == prefix
    ensures Take(all, n) == prefix[..n]
  {
    assert all[..n] == all[..|prefix|][..n];
  }

  lemma {:induction false} HitsDistinct(terms: seq<string>, lower: string, lowerQuery: string)
    requires Distinct(terms)
    ensures Distinct(Hits(terms, lower, lowerQuery))
    decreases |terms|
  {
    if terms != [] {
      var init := terms[..|terms| - 1];
      assert Distinct(init);
      HitsDistinct(init, lower, lowerQuery);
      assert terms[|terms| - 1] !in init;
    }
  }
}
