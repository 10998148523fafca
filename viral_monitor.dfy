/**
 * The viral monitor: each time the result list or the preferences change, it
 * walks the videos once and raises a viral-video notification for every
 * video it has not seen before whose score reaches the user's threshold and
 * that matches the watched keywords and channels. Every unseen video over
 * the threshold joins the seen-set, whether or not it matches. The
 * notifications it raises are returned in order, one `addNotification` call
 * each.
 */
module ViralMonitor {
  import opened Text
  import opened YouTubeTypes
  import C = Common
  import N = Notifications

  /** The monitor does nothing unless notifications and the viral-video type are switched on. */
  predicate Active(p: N.Preferences) {
    p.enabled && p.types.viralVideo
  }

  /** No watched keywords, or one of them in the title or description, ignoring case. */
  predicate KeywordMatch(keywords: seq<string>, v: ViralVideo) {
    |keywords| == 0 ||
    exists k | k in keywords ::
      Contains(ToLower(v.video.title), ToLower(k)) || Contains(ToLower(v.video.description), ToLower(k))
  }

  /** No watched channels, or one of them in the channel's title, ignoring case. */
  predicate ChannelMatch(channels: seq<string>, v: ViralVideo) {
    |channels| == 0 || exists c | c in channels :: Contains(ToLower(v.channel.title), ToLower(c))
  }

  predicate Matches(p: N.Preferences, v: ViralVideo) {
    KeywordMatch(p.keywords, v) && ChannelMatch(p.channels, v)
  }

  /** Not seen yet, and at or over the threshold. */
  predicate Qualifies(p: N.Preferences, seen: set<string>, v: ViralVideo) {
    v.video.id !in seen && v.viralScore >= p.viralThreshold
  }

  function PriorityOf(score: int): (r: N.Priority)
    ensures r == N.High <==> score >= 90
    ensures r == N.Medium <==> 80 <= score < 90
    ensures r == N.Low <==> score < 80
  {
    if score >= 90 then N.High else if score >= 80 then N.Medium else N.Low
  }

  /** The notification raised for a video. */
  function AlertFor(v: ViralVideo): (d: N.Draft)
    ensures d.kind == N.ViralVideo && d.priority == PriorityOf(v.viralScore)
    ensures d.data == C.Some(N.NotificationData(C.Some(v.video.id), C.None, C.None, C.Some(v.viralScore),
                                                C.Some(v.video.statistics.viewCount), C.Some(v.video.thumbnail.url)))
  {
    N.Draft(
      N.ViralVideo,
      "Viral Video Alert! Score: " + IntToString(v.viralScore),
      "\"" + v.video.title + "\" by " + v.channel.title + " is going viral!",
      C.Some(N.NotificationData(C.Some(v.video.id), C.None, C.None, C.Some(v.viralScore),
                                C.Some(v.video.statistics.viewCount), C.Some(v.video.thumbnail.url))),
      PriorityOf(v.viralScore))
  }

  /** The video a notification is about, if its payload names one. */
  function AlertVideoId(d: N.Draft): C.Option<string> {
    if d.data.Some? then d.data.value.videoId else C.None
  }

  /** The walk over the videos as a value: the notifications raised and the seen-set afterwards. */
  function Process(vs: seq<ViralVideo>, p: N.Preferences, seen: set<string>): (seq<N.Draft>, set<string>)
    decreases |vs|
  {
    if vs == [] then ([], seen)
    else
      var prev := Process(vs[..|vs| - 1], p, seen);
      var v := vs[|vs| - 1];
      if Qualifies(p, prev.1, v) then
        (prev.0 + (if Matches(p, v) then [AlertFor(v)] else []), prev.1 + {v.video.id})
      else prev
  }

  class Monitor {
    var seen: set<string>

    constructor ()
      ensures seen == {}
    {
      seen := {};
    }

    /** One run of the effect over `videos` under the preferences `p`. */
    method Run(videos: seq<ViralVideo>, p: N.Preferences) returns (alerts: seq<N.Draft>)
      modifies this
      ensures !Active(p) ==> alerts == [] && seen == old(seen)
      ensures Active(p) ==> (alerts, seen) == Process(videos, p, old(seen))
    {
      alerts := [];
      if !Active(p) {
        return;
      }
      var i := 0;
      while i < |videos|
        invariant 0 <= i <= |videos|
        invariant (alerts, seen) == Process(videos[..i], p, old(seen))
      {
        var v := videos[i];
        assert videos[..i + 1] == videos[..i] + [v];
        ProcessStep(videos[..i], v, p, old(seen));
        ghost var prev := Process(videos[..i], p, old(seen));
        if v.video.id !in seen && v.viralScore >= p.viralThreshold {
          seen := seen + {v.video.id};
          if KeywordMatch(p.keywords, v) && ChannelMatch(p.channels, v) {
            alerts := alerts + [AlertFor(v)];
          }
          assert alerts == prev.0 + (if Matches(p, v) then [AlertFor(v)] else []);
        }
        i := i + 1;
      }
      assert videos[..|videos|] == videos;
    }
  }

  // ----- Lemmas -----

  /** One more video: the walk so far, then that video's step. */
  lemma ProcessStep(vs: seq<ViralVideo>, v: ViralVideo, p: N.Preferences, seen: set<string>)
    ensures var prev := Process(vs, p, seen);
      Process(vs + [v], p, seen) ==
        if Qualifies(p, prev.1, v) then (prev.0 + (if Matches(p, v) then [AlertFor(v)] else []), prev.1 + {v.video.id})
        else prev
  {
    assert (vs + [v])[..|vs + [v]| - 1] == vs;
  }

  /** Some listed video with this id is at or over the threshold. */
  predicate ListedOverThreshold(vs: seq<ViralVideo>, p: N.Preferences, id: string) {
    exists i | 0 <= i < |vs| :: vs[i].video.id == id && vs[i].viralScore >= p.viralThreshold
  }

  /** The seen-set grows by exactly the ids of the videos at or over the threshold. */
  lemma {:induction false} ProcessSeen(vs: seq<ViralVideo>, p: N.Preferences, seen: set<string>)
    ensures forall id :: id in Process(vs, p, seen).1 <==> id in seen || ListedOverThreshold(vs, p, id)
    decreases |vs|
  {
    if vs != [] {
      var init := vs[..|vs| - 1];
      var last := vs[|vs| - 1];
      ProcessSeen(init, p, seen);
      forall id
        ensures ListedOverThreshold(vs, p, id) <==>
          ListedOverThreshold(init, p, id) || (last.video.id == id && last.viralScore >= p.viralThreshold)
      {
        if ListedOverThreshold(vs, p, id) {
          var i :| 0 <= i < |vs| && vs[i].video.id == id && vs[i].viralScore >= p.viralThreshold;
          if i < |init| {
            assert init[i] == vs[i];
          }
        }
        if ListedOverThreshold(init, p, id) {
          var i :| 0 <= i < |init| && init[i].video.id == id && init[i].viralScore >= p.viralThreshold;
          assert vs[i] == init[i];
        }
        if last.video.id == id && last.viralScore >= p.viralThreshold {
          assert vs[|vs| - 1] == last;
        }
      }
    }
  }

  /**
   * Every notification is about a different video, none of which was in the
   * seen-set before, and all of which are in it afterwards.
   */
  lemma {:induction false} AlertsAreNew(vs: seq<ViralVideo>, p: N.Preferences, seen: set<string>)
    ensures var r := Process(vs, p, seen);
      && (forall i | 0 <= i < |r.0| :: AlertVideoId(r.0[i]).Some?
                                    && AlertVideoId(r.0[i]).value !in seen
                                    && AlertVideoId(r.0[i]).value in r.1)
      && (forall i, j | 0 <= i < j < |r.0| :: AlertVideoId(r.0[i]) != AlertVideoId(r.0[j]))
      && seen <= r.1
    decreases |vs|
  {
    if vs != [] {
      AlertsAreNew(vs[..|vs| - 1], p, seen);
    }
  }

  /** Each notification comes from a listed video that qualified and matched. */
  lemma {:induction false} AlertsComeFromMatches(vs: seq<ViralVideo>, p: N.Preferences, seen: set<string>)
    ensures |Process(vs, p, seen).0| <= |vs|
    ensures forall d | d in Process(vs, p, seen).0 ::
      exists v | v in vs :: d == AlertFor(v) && Qualifies(p, seen, v) && Matches(p, v)
    decreases |vs|
  {
    if vs != [] {
      var init := vs[..|vs| - 1];
      AlertsComeFromMatches(init, p, seen);
      AlertsAreNew(init, p, seen);
      forall d | d in Process(vs, p, seen).0
        ensures exists v | v in vs :: d == AlertFor(v) && Qualifies(p, seen, v) && Matches(p, v)
      {
        if d in Process(init, p, seen).0 {
          var v :| v in init && d == AlertFor(v) && Qualifies(p, seen, v) && Matches(p, v);
          assert v in vs;
        } else {
          assert d == AlertFor(vs[|vs| - 1]);
        }
      }
    }
  }

  /** When the listed ids are distinct, every unseen video that qualifies and matches is reported. */
  lemma {:induction false} MatchesAreReported(vs: seq<ViralVideo>, p: N.Preferences, seen: set<string>)
    requires forall i, j | 0 <= i < j < |vs| :: vs[i].video.id != vs[j].video.id
    ensures forall v | v in vs && Qualifies(p, seen, v) && Matches(p, v) :: AlertFor(v) in Process(vs, p, seen).0
    decreases |vs|
  {
    if vs != [] {
      var init := vs[..|vs| - 1];
      var last := vs[|vs| - 1];
      MatchesAreReported(init, p, seen);
      ProcessSeen(init, p, seen);
      if Qualifies(p, seen, last) {
        forall i | 0 <= i < |init|
          ensures init[i].video.id != last.video.id
        {
          assert init[i] == vs[i];
        }
        assert last.video.id !in Process(init, p, seen).1;
      }
      forall v | v in vs && Qualifies(p, seen, v) && Matches(p, v)
        ensures AlertFor(v) in Process(vs, p, seen).0
      {
        if v != last {
          var i :| 0 <= i < |vs| && vs[i] == v;
          assert v == init[i];
        }
      }
    }
  }

  /** With every qualifying id already seen, a run raises nothing and adds nothing. */
  lemma {:induction false} SeenVideosStaySilent(vs: seq<ViralVideo>, p: N.Preferences, seen: set<string>)
    requires forall i | 0 <= i < |vs| && vs[i].viralScore >= p.viralThreshold :: vs[i].video.id in seen
    ensures Process(vs, p, seen) == ([], seen)
    decreases |vs|
  {
    if vs != [] {
      var init := vs[..|vs| - 1];
      assert forall i | 0 <= i < |init| :: init[i] == vs[i];
      SeenVideosStaySilent(init, p, seen);
    }
  }

  /** Running the monitor again over the same videos raises no notification. */
  lemma SecondRunIsSilent(vs: seq<ViralVideo>, p: N.Preferences, seen: set<string>)
    ensures Process(vs, p, Process(vs, p, seen).1) == ([], Process(vs, p, seen).1)
  {
    ProcessSeen(vs, p, seen);
    SeenVideosStaySilent(vs, p, Process(vs, p, seen).1);
  }

  /**
   * The keyword matching ignores case: lower-casing the watched words or the
   * video's texts changes nothing, and an empty watch list matches every video.
   */
  lemma KeywordMatchIgnoresCase(keywords: seq<string>, v: ViralVideo)
    ensures KeywordMatch(LowerAll(keywords), v) == KeywordMatch(keywords, v)
    ensures KeywordMatch(keywords, v.(video := v.video.(title := ToLower(v.video.title),
                                                        description := ToLower(v.video.description))))
            == KeywordMatch(keywords, v)
    ensures |keywords| == 0 ==> KeywordMatch(keywords, v)
  {
    ToLowerIdempotent(v.video.title);
    ToLowerIdempotent(v.video.description);
    forall k | k in keywords {
      ToLowerIdempotent(k);
    }
    LowerAllMembers(keywords);
  }

  /** The same for the channel matching. */
  lemma ChannelMatchIgnoresCase(channels: seq<string>, v: ViralVideo)
    ensures ChannelMatch(LowerAll(channels), v) == ChannelMatch(channels, v)
    ensures ChannelMatch(channels, v.(channel := v.channel.(title := ToLower(v.channel.title))))
            == ChannelMatch(channels, v)
    ensures |channels| == 0 ==> ChannelMatch(channels, v)
  {
    ToLowerIdempotent(v.channel.title);
    forall c | c in channels {
      ToLowerIdempotent(c);
    }
    LowerAllMembers(channels);
  }

  function LowerAll(ws: seq<string>): (r: seq<string>)
    ensures |r| == |ws| && forall i | 0 <= i < |ws| :: r[i] == ToLower(ws[i])
  {
    if ws == [] then [] else [ToLower(ws[0])] + LowerAll(ws[1..])
  }

  lemma LowerAllMembers(ws: seq<string>)
    ensures forall w | w in LowerAll(ws) :: exists u | u in ws :: w == ToLower(u)
    ensures forall u | u in ws :: ToLower(u) in LowerAll(ws)
  {
    var r := LowerAll(ws);
    forall w | w in r
      ensures exists u | u in ws :: w == ToLower(u)
    {
      var i :| 0 <= i < |r| && r[i] == w;
      assert ws[i] in ws;
    }
    forall u | u in ws
      ensures ToLower(u) in r
    {
      var i :| 0 <= i < |ws| && ws[i] == u;
      assert r[i] == ToLower(u);
    }
  }
}
