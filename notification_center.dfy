/** The notification center: a list of notifications with read flags, six
    alert settings, and a master switch gated by the browser's permission. */
module NotificationCenter {
  import opened Common
  import opened AuthContext

  datatype NotificationKind = MatchNote | GoalNote | NewsNote | SocialNote | XpNote | TransferNote

  datatype Priority = Low | Medium | High

  /** `timestamp` is a clock reading in milliseconds. */
  datatype Notification = Notification(
    id: string,
    kind: NotificationKind,
    title: string,
    message: string,
    timestamp: int,
    read: bool,
    priority: Priority)

  datatype Settings = Settings(
    matchAlerts: bool,
    goalAlerts: bool,
    newsUpdates: bool,
    socialMentions: bool,
    xpRewards: bool,
    transferNews: bool)

  /** `keyof NotificationSettings`. */
  datatype SettingKey = MatchAlerts | GoalAlerts | NewsUpdates | SocialMentions | XpRewards | TransferNews

  /** The answer of `Notification.requestPermission()`. */
  datatype Permission = Granted | Denied | DefaultPermission

  const DefaultSettings: Settings := Settings(true, true, true, false, true, true)

  function Setting(s: Settings, key: SettingKey): bool {
    match key
    case MatchAlerts => s.matchAlerts
    case GoalAlerts => s.goalAlerts
    case NewsUpdates => s.newsUpdates
    case SocialMentions => s.socialMentions
    case XpRewards => s.xpRewards
    case TransferNews => s.transferNews
  }

  /** `{ ...prev, [key]: value }`: the named setting takes the value and the
      other five keep theirs. */
  function WithSetting(s: Settings, key: SettingKey, value: bool): (r: Settings)
    ensures Setting(r, key) == value
    ensures forall other: SettingKey :: other != key ==> Setting(r, other) == Setting(s, other)
  {
    match key
    case MatchAlerts => s.(matchAlerts := value)
    case GoalAlerts => s.(goalAlerts := value)
    case NewsUpdates => s.(newsUpdates := value)
    case SocialMentions => s.(socialMentions := value)
    case XpRewards => s.(xpRewards := value)
    case TransferNews => s.(transferNews := value)
  }

  /** `markAsRead(id)`: the notifications with that id become read; the rest
      of the list, its length and its order stay as they were. */
  function MarkRead(ns: seq<Notification>, id: string): (r: seq<Notification>)
    ensures |r| == |ns|
    ensures forall i :: 0 <= i < |ns| ==> r[i] == if ns[i].id == id then ns[i].(read := true) else ns[i]
  {
    if ns == [] then []
    else [if ns[0].id == id then ns[0].(read := true) else ns[0]] + MarkRead(ns[1..], id)
  }

  /** `markAllAsRead()`: every notification becomes read, nothing else moves. */
  function MarkAllRead(ns: seq<Notification>): (r: seq<Notification>)
    ensures |r| == |ns|
    ensures forall i :: 0 <= i < |ns| ==> r[i] == ns[i].(read := true)
  {
    if ns == [] then [] else [ns[0].(read := true)] + MarkAllRead(ns[1..])
  }

  /** `notifications.filter(n => !n.read).length`. */
  function UnreadCount(ns: seq<Notification>): (n: nat)
    ensures n <= |ns|
    ensures n == 0 <==> forall i :: 0 <= i < |ns| ==> ns[i].read
  {
    if ns == [] then 0 else (if ns[0].read then 0 else 1) + UnreadCount(ns[1..])
  }

  /** The unread count is the length of the list the source filters. */
  lemma {:induction false} UnreadCountIsFilterLength(ns: seq<Notification>)
    ensures UnreadCount(ns) == |Filter(ns, (n: Notification) => !n.read)|
  {
    if ns != [] {
      UnreadCountIsFilterLength(ns[1..]);
    }
  }

  /** Marking one notification read is idempotent. */
  lemma MarkReadIdempotent(ns: seq<Notification>, id: string)
    ensures MarkRead(MarkRead(ns, id), id) == MarkRead(ns, id)
  {
  }

  /** Marking one notification read never raises the unread count, and
      lowers it whenever an unread notification carries that id. */
  lemma {:induction false} MarkReadNeverRaisesUnread(ns: seq<Notification>, id: string)
    ensures UnreadCount(MarkRead(ns, id)) <= UnreadCount(ns)
    ensures (exists i :: 0 <= i < |ns| && ns[i].id == id && !ns[i].read) ==>
              UnreadCount(MarkRead(ns, id)) < UnreadCount(ns)
  {
    if ns != [] {
      MarkReadNeverRaisesUnread(ns[1..], id);
      assert MarkRead(ns, id)[1..] == MarkRead(ns[1..], id);
      if exists i :: 0 <= i < |ns| && ns[i].id == id && !ns[i].read {
        var i :| 0 <= i < |ns| && ns[i].id == id && !ns[i].read;
        if i > 0 {
          assert ns[1..][i - 1] == ns[i];
        }
      }
    }
  }

  /** After marking all as read nothing is unread. */
  lemma MarkAllReadClearsUnread(ns: seq<Notification>)
    ensures UnreadCount(MarkAllRead(ns)) == 0
  {
  }

  /** The simulated live update the interval pushes. `id` and `now` stand
      for the clock readings the source takes. */
  function LiveUpdate(id: string, now: int): (n: Notification)
    ensures !n.read && n.kind == MatchNote && n.priority == Medium
  {
    Notification(id, MatchNote, "🔥 Match Update", "Pedri with a brilliant pass! Almost a goal!", now, false, Medium)
  }

  /** A pushed update is unread, so it raises the unread count by one. */
  lemma PrependRaisesUnread(n: Notification, ns: seq<Notification>)
    requires !n.read
    ensures UnreadCount([n] + ns) == UnreadCount(ns) + 1
  {
  }

  /** The four notifications the component starts with, stamped relative to
      the clock reading `now`. */
  function InitialNotifications(now: int): (ns: seq<Notification>)
    ensures |ns| == 4 && UnreadCount(ns) == 2
  {
    var ns := [
      Notification("1", GoalNote, "⚽ GOOOOOL!", "Lewandowski scores! Barça 2-1 Real Madrid (67')", now - 2 * 60 * 1000, false, High),
      Notification("2", XpNote, "🏆 XP Earned!", "You earned 50 XP for watching the live match!", now - 5 * 60 * 1000, false, Medium),
      Notification("3", NewsNote, "📰 Breaking News", "Gavi signs contract extension until 2030!", now - 30 * 60 * 1000, true, Medium),
      Notification("4", MatchNote, "⏰ Match Reminder", "El Clásico starts in 30 minutes! Get ready!", now - 60 * 60 * 1000, true, High)];
    assert ns[1..][1..][1..][1..] == [];
    ns
  }

  /** The notification component's state. */
  class Center {
    const session: Session
    var isEnabled: bool
    var settings: Settings
    var notifications: seq<Notification>

    constructor (session: Session, now: int)
      ensures this.session == session && isEnabled && settings == DefaultSettings
      ensures notifications == InitialNotifications(now)
    {
      this.session := session;
      isEnabled := true;
      settings := DefaultSettings;
      notifications := InitialNotifications(now);
    }

    method MarkAsRead(id: string)
      modifies this`notifications
      ensures notifications == MarkRead(old(notifications), id)
    {
      notifications := MarkRead(notifications, id);
    }

    method MarkAllAsRead()
      modifies this`notifications
      ensures notifications == MarkAllRead(old(notifications))
      ensures UnreadCount(notifications) == 0
    {
      notifications := MarkAllRead(notifications);
      MarkAllReadClearsUnread(old(notifications));
    }

    method UpdateSetting(key: SettingKey, value: bool)
      modifies this`settings
      ensures settings == WithSetting(old(settings), key, value)
    {
      settings := WithSetting(settings, key, value);
    }

    /** One run of the 45-second interval. `fires` stands for the random draw
        (`Math.random() > 0.8`) and `supported` for whether the browser has
        the Notification API. When enabled and the draw fires, an unread
        update goes to the front of the list. The callback then reads
        `Notification.permission` without checking for the API, so on a
        browser without it the callback throws there: the update stays, but
        the fan earns nothing. With the API a signed-in fan earns 3 XP.
        Otherwise nothing changes. */
    method IntervalTick(fires: bool, supported: bool, id: string, now: int)
      modifies this`notifications, session
      ensures old(isEnabled) && fires ==>
                && notifications == [LiveUpdate(id, now)] + old(notifications)
                && (if supported then session.GainedXP(3) else unchanged(session))
      ensures !(old(isEnabled) && fires) ==> notifications == old(notifications) && unchanged(session)
    {
      if isEnabled && fires {
        notifications := [LiveUpdate(id, now)] + notifications;
        if supported {
          session.AddXP(3);
        }
      }
    }

    /** `toggleNotifications()`. Switching off always takes effect. Switching
        on asks for permission, and only happens when the browser supports
        notifications (`supported`) and the answer is `granted`. */
    method ToggleNotifications(supported: bool, permission: Permission)
      modifies this`isEnabled
      ensures old(isEnabled) ==> !isEnabled
      ensures !old(isEnabled) ==> (isEnabled <==> supported && permission == Granted)
    {
      if !isEnabled {
        if supported && permission == Granted {
          isEnabled := true;
        }
      } else {
        isEnabled := false;
      }
    }
  }
}
