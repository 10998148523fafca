/**
 * The notification provider: a newest-first list of notifications and the
 * user's notification preferences. Adding a notification prepends it unread
 * and may raise a toast; the list operations mark entries read or clear the
 * list; preferences are replaced by a shallow merge. The clock reads that
 * produce a new notification's id and creation time are the parameters
 * `now` and `createdAt`; the toast is returned instead of being shown.
 */
module Notifications {
  import opened Common
  import opened Text

  datatype NotificationType = ViralVideo | ChannelMilestone | KeywordTrend | System
  {
    /** The string stored in a notification's `type` field. */
    function Tag(): string {
      match this
      case ViralVideo => "viral_video"
      case ChannelMilestone => "channel_milestone"
      case KeywordTrend => "keyword_trend"
      case System => "system"
    }
  }

  datatype Priority = High | Medium | Low

  /** The optional payload; every field may be absent. */
  datatype NotificationData = NotificationData(
    videoId: Option<string>,
    channelId: Option<string>,
    keyword: Option<string>,
    viralScore: Option<int>,
    viewCount: Option<int>,
    thumbnail: Option<string>)

  datatype Notification = Notification(
    id: string,
    kind: NotificationType,
    title: string,
    message: string,
    data: Option<NotificationData>,
    read: bool,
    createdAt: string,
    priority: Priority)

  /** What a caller of `addNotification` supplies: a notification without id, time and read flag. */
  datatype Draft = Draft(
    kind: NotificationType,
    title: string,
    message: string,
    data: Option<NotificationData>,
    priority: Priority)

  datatype Frequency = Instant | Hourly | Daily

  /** The per-type switches, under their camelCase keys. */
  datatype TypeFlags = TypeFlags(viralVideo: bool, channelMilestone: bool, keywordTrend: bool, system: bool)

  datatype Preferences = Preferences(
    enabled: bool,
    viralThreshold: int,
    channels: seq<string>,
    keywords: seq<string>,
    frequency: Frequency,
    types: TypeFlags)

  /** A `Partial<NotificationPreferences>`: the fields a caller chose to supply. */
  datatype PreferencesPatch = PreferencesPatch(
    enabled: Option<bool>,
    viralThreshold: Option<int>,
    channels: Option<seq<string>>,
    keywords: Option<seq<string>>,
    frequency: Option<Frequency>,
    types: Option<TypeFlags>)

  const DefaultPreferences := Preferences(true, 80, [], [], Instant, TypeFlags(true, true, true, true))

  /** The toast raised for a notification; `viewUrl` is the target of its "View" action, if any. */
  datatype Toast = Toast(title: string, description: string, viewUrl: Option<string>)

  // ----- Pure list operations -----

  /** A new notification: id from the clock, unread, the draft's fields kept. */
  function Stamp(draft: Draft, now: nat, createdAt: string): (n: Notification)
    ensures !n.read && n.id == NatToString(now) && n.createdAt == createdAt
    ensures n.kind == draft.kind && n.title == draft.title && n.message == draft.message
    ensures n.data == draft.data && n.priority == draft.priority
  {
    Notification(NatToString(now), draft.kind, draft.title, draft.message, draft.data, false, createdAt, draft.priority)
  }

  /** `markAsRead(id)`: the entries with that id become read; nothing else changes. */
  function MarkRead(ns: seq<Notification>, id: string): (r: seq<Notification>)
    ensures |r| == |ns|
    ensures forall i | 0 <= i < |ns| :: r[i] == (if ns[i].id == id then ns[i].(read := true) else ns[i])
    decreases |ns|
  {
    if ns == [] then []
    else [if ns[0].id == id then ns[0].(read := true) else ns[0]] + MarkRead(ns[1..], id)
  }

  /** `markAllAsRead`: every entry becomes read, its other fields unchanged. */
  function MarkAllRead(ns: seq<Notification>): (r: seq<Notification>)
    ensures |r| == |ns|
    ensures forall i | 0 <= i < |ns| :: r[i] == ns[i].(read := true)
    decreases |ns|
  {
    if ns == [] then [] else [ns[0].(read := true)] + MarkAllRead(ns[1..])
  }

  /** `notifications.filter(n => !n.read).length`. */
  function UnreadCount(ns: seq<Notification>): (c: nat)
    ensures c <= |ns|
    ensures c == 0 <==> forall i | 0 <= i < |ns| :: ns[i].read
    decreases |ns|
  {
    if ns == [] then 0 else (if ns[0].read then 0 else 1) + UnreadCount(ns[1..])
  }

  /** `{ ...preferences, ...newPrefs }`: supplied fields replace, `types` as a whole. */
  function Merge(p: Preferences, patch: PreferencesPatch): (r: Preferences)
    ensures r.enabled == patch.enabled.GetOr(p.enabled)
    ensures r.viralThreshold == patch.viralThreshold.GetOr(p.viralThreshold)
    ensures r.channels == patch.channels.GetOr(p.channels)
    ensures r.keywords == patch.keywords.GetOr(p.keywords)
    ensures r.frequency == patch.frequency.GetOr(p.frequency)
    ensures r.types == patch.types.GetOr(p.types)
  {
    Preferences(
      patch.enabled.GetOr(p.enabled),
      patch.viralThreshold.GetOr(p.viralThreshold),
      patch.channels.GetOr(p.channels),
      patch.keywords.GetOr(p.keywords),
      patch.frequency.GetOr(p.frequency),
      patch.types.GetOr(p.types))
  }

  const EmptyPatch := PreferencesPatch(None, None, None, None, None, None)

  // ----- Whether a toast is shown -----

  /** `preferences.types[key]`: the switch stored under a key, or nothing for any other key. */
  function TypeFlagAt(types: TypeFlags, key: string): Option<bool> {
    if key == "viralVideo" then Some(types.viralVideo)
    else if key == "channelMilestone" then Some(types.channelMilestone)
    else if key == "keywordTrend" then Some(types.keywordTrend)
    else if key == "system" then Some(types.system)
    else None
  }

  /** The toast condition as written: the notification's snake_case type is used as the key. */
  predicate ShouldToastAsWritten(p: Preferences, kind: NotificationType) {
    p.enabled && TypeFlagAt(p.types, kind.Tag()) == Some(true)
  }

  /** The switch that belongs to a notification type. */
  function FlagFor(types: TypeFlags, kind: NotificationType): bool {
    match kind
    case ViralVideo => types.viralVideo
    case ChannelMilestone => types.channelMilestone
    case KeywordTrend => types.keywordTrend
    case System => types.system
  }

  /** The toast condition as intended: enabled, and the type's own switch on. */
  predicate ShouldToast(p: Preferences, kind: NotificationType) {
    p.enabled && FlagFor(p.types, kind)
  }

  /** As written, only `system` notifications can ever raise a toast, and they exactly when intended. */
  lemma AsWrittenOnlySystemToasts(p: Preferences, kind: NotificationType)
    ensures ShouldToastAsWritten(p, kind) <==> kind == System && ShouldToast(p, kind)
  {
    assert "viral_video"[5] != "viralVideo"[5];
    assert "channel_milestone"[7] != "channelMilestone"[7];
    assert "keyword_trend"[7] != "keywordTrend"[7];
  }

  /** The counterexample: a viral-video notification under the defaults raises no toast as written. */
  lemma AsWrittenMissesViralVideo()
    ensures ShouldToast(DefaultPreferences, ViralVideo)
    ensures !ShouldToastAsWritten(DefaultPreferences, ViralVideo)
  {
    AsWrittenOnlySystemToasts(DefaultPreferences, ViralVideo);
  }

  /** The toast for a notification: title, message, and a link when the payload names a video. */
  function ToastFor(p: Preferences, draft: Draft): (t: Option<Toast>)
    ensures t.Some? <==> ShouldToast(p, draft.kind)
    ensures t.Some? ==> t.value.title == draft.title && t.value.description == draft.message
    ensures t.Some? && t.value.viewUrl.Some? ==>
      draft.data.Some? && draft.data.value.videoId.Some? && draft.data.value.videoId.value != "" &&
      t.value.viewUrl.value == "https://youtube.com/watch?v=" + draft.data.value.videoId.value
    ensures t.Some? && draft.data.Some? && draft.data.value.videoId.Some? && draft.data.value.videoId.value != "" ==>
      t.value.viewUrl.Some?
  {
    if !ShouldToast(p, draft.kind) then None
    else
      var url := if draft.data.Some? && draft.data.value.videoId.Some? && draft.data.value.videoId.value != ""
                 then Some("https://youtube.com/watch?v=" + draft.data.value.videoId.value) else None;
      Some(Toast(draft.title, draft.message, url))
  }

  // ----- Lemmas about the list operations -----

  lemma MarkReadIdempotent(ns: seq<Notification>, id: string)
    ensures MarkRead(MarkRead(ns, id), id) == MarkRead(ns, id)
  {
  }

  lemma MarkAllReadLeavesNoneUnread(ns: seq<Notification>)
    ensures UnreadCount(MarkAllRead(ns)) == 0
  {
  }

  /** A new notification adds exactly one to the unread count. */
  lemma PrependAddsOneUnread(draft: Draft, now: nat, createdAt: string, ns: seq<Notification>)
    ensures UnreadCount([Stamp(draft, now, createdAt)] + ns) == UnreadCount(ns) + 1
  {
    assert ([Stamp(draft, now, createdAt)] + ns)[1..] == ns;
  }

  /** Marking by id never raises the unread count, and leaves it alone when no entry has that id. */
  lemma {:induction false} MarkReadUnreadCount(ns: seq<Notification>, id: string)
    ensures UnreadCount(MarkRead(ns, id)) <= UnreadCount(ns)
    ensures (forall i | 0 <= i < |ns| :: ns[i].id != id) ==> UnreadCount(MarkRead(ns, id)) == UnreadCount(ns)
    decreases |ns|
  {
    if ns != [] {
      MarkReadUnreadCount(ns[1..], id);
      assert MarkRead(ns, id)[1..] == MarkRead(ns[1..], id);
    }
  }

  /** After marking an id, no entry with that id is unread. */
  lemma MarkReadClearsId(ns: seq<Notification>, id: string)
    ensures forall i | 0 <= i < |ns| && ns[i].id == id :: MarkRead(ns, id)[i].read
  {
  }

  lemma MergeEmptyIsIdentity(p: Preferences)
    ensures Merge(p, EmptyPatch) == p
  {
  }

  // ----- The provider -----

  class NotificationCenter {
    var notifications: seq<Notification>
    var preferences: Preferences

    /** The provider's initial state: no notifications, default preferences. */
    constructor ()
      ensures notifications == [] && preferences == DefaultPreferences
    {
      notifications := [];
      preferences := DefaultPreferences;
    }

    /** Prepends the stamped notification and returns the toast it raises, if any. */
    method AddNotification(draft: Draft, now: nat, createdAt: string) returns (toast: Option<Toast>)
      modifies this
      ensures notifications == [Stamp(draft, now, createdAt)] + old(notifications)
      ensures preferences == old(preferences)
      ensures toast == ToastFor(preferences, draft)
      ensures ShouldToastAsWritten(preferences, draft.kind) ==> toast.Some?
      ensures toast.Some? && !ShouldToastAsWritten(preferences, draft.kind) ==> draft.kind != System
    {
      notifications := [Stamp(draft, now, createdAt)] + notifications;
      toast := ToastFor(preferences, draft);
      AsWrittenOnlySystemToasts(preferences, draft.kind);
    }

    method MarkAsRead(id: string)
      modifies this
      ensures notifications == MarkRead(old(notifications), id)
      ensures preferences == old(preferences)
    {
      notifications := MarkRead(notifications, id);
    }

    method MarkAllAsRead()
      modifies this
      ensures notifications == MarkAllRead(old(notifications))
      ensures UnreadCount(notifications) == 0
      ensures preferences == old(preferences)
    {
      notifications := MarkAllRead(notifications);
      MarkAllReadLeavesNoneUnread(old(notifications));
    }

    method UpdatePreferences(patch: PreferencesPatch)
      modifies this
      ensures preferences == Merge(old(preferences), patch)
      ensures notifications == old(notifications)
    {
      preferences := Merge(preferences, patch);
    }

    method ClearNotifications()
      modifies this
      ensures notifications == []
      ensures preferences == old(preferences)
    {
      notifications := [];
    }

    function Unread(): (c: nat)
      reads this
      ensures c <= |notifications|
      ensures c == UnreadCount(notifications)
    {
      UnreadCount(notifications)
    }
  }
}
