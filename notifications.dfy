/** The `notification` slice (`src/store/slices/notificationSlice.ts`): a list of
    notifications, newest first, an unread counter the reducers keep by hand, the
    push token, the permission status and the local settings.

    The counter is meant to equal the number of unread items (`Valid`). The reducers
    that add, mark or replace keep that; the two that remove by id keep it only when
    ids are unique, because they decrement once for the first match and then drop
    every match. */
module NotificationSlice {
  import opened Wrappers
  import opened Thunks

  datatype NotificationType = Info | Success | Warning | Error

  datatype Notification = Notification(id: string, title: string, body: string, kind: NotificationType,
                                       read: bool, createdAt: string, actionUrl: Option<string>)

  datatype PermissionStatus = Granted | Denied | NotDetermined

  datatype Settings = Settings(pushEnabled: bool, soundEnabled: bool, vibrationEnabled: bool, badgeEnabled: bool)

  /** A `Partial` of the settings: the supplied keys only. */
  datatype SettingsPatch = SettingsPatch(pushEnabled: Option<bool>, soundEnabled: Option<bool>,
                                         vibrationEnabled: Option<bool>, badgeEnabled: Option<bool>)

  const InitialSettings: Settings := Settings(true, true, true, true)

  /** `{...settings, ...patch}`. */
  function MergeSettings(s: Settings, p: SettingsPatch): (r: Settings)
    ensures r.pushEnabled == p.pushEnabled.GetOr(s.pushEnabled)
    ensures r.soundEnabled == p.soundEnabled.GetOr(s.soundEnabled)
    ensures r.vibrationEnabled == p.vibrationEnabled.GetOr(s.vibrationEnabled)
    ensures r.badgeEnabled == p.badgeEnabled.GetOr(s.badgeEnabled)
  {
    Settings(p.pushEnabled.GetOr(s.pushEnabled), p.soundEnabled.GetOr(s.soundEnabled),
             p.vibrationEnabled.GetOr(s.vibrationEnabled), p.badgeEnabled.GetOr(s.badgeEnabled))
  }

  /** The number of unread items. */
  function UnreadIn(s: seq<Notification>): (n: nat)
    ensures n <= |s|
  {
    if s == [] then 0 else (if s[0].read then 0 else 1) + UnreadIn(s[1..])
  }

  lemma {:induction false} UnreadAppend(a: seq<Notification>, b: seq<Notification>)
    ensures UnreadIn(a + b) == UnreadIn(a) + UnreadIn(b)
  {
    if a == [] {
      assert a + b == b;
    } else {
      assert (a + b)[0] == a[0];
      assert (a + b)[1..] == a[1..] + b;
      UnreadAppend(a[1..], b);
    }
  }

  /** The number of unread items is the length of the unread filter, so it is zero
      exactly when every item is read. */
  lemma {:induction false} UnreadZeroIffAllRead(s: seq<Notification>)
    ensures UnreadIn(s) == 0 <==> forall k :: 0 <= k < |s| ==> s[k].read
  {
    if s != [] {
      UnreadZeroIffAllRead(s[1..]);
      assert forall k :: 1 <= k < |s| ==> s[k] == s[1..][k - 1];
    }
  }

  /** What `find(n => n.id === id)` returns: the index of the first item with that id. */
  function FirstWithId(s: seq<Notification>, id: string): (r: Option<nat>)
    ensures r.Some? ==> r.value < |s| && s[r.value].id == id && forall k :: 0 <= k < r.value ==> s[k].id != id
    ensures r.None? ==> forall k :: 0 <= k < |s| ==> s[k].id != id
  {
    if s == [] then None
    else if s[0].id == id then Some(0)
    else match FirstWithId(s[1..], id)
      case None => None
      case Some(i) => Some(i + 1)
  }

  /** The first item with this id exists and is unread. */
  predicate FirstIsUnread(s: seq<Notification>, id: string) {
    var i := FirstWithId(s, id);
    i.Some? && !s[i.value].read
  }

  /** `filter(n => n.id !== id)`. */
  function WithoutId(s: seq<Notification>, id: string): (r: seq<Notification>)
    ensures |r| <= |s|
    ensures forall n :: n in r <==> n in s && n.id != id
  {
    if s == [] then []
    else if s[0].id == id then WithoutId(s[1..], id)
    else [s[0]] + WithoutId(s[1..], id)
  }

  /** The filter keeps the order: it distributes over concatenation. */
  lemma {:induction false} WithoutIdAppend(a: seq<Notification>, b: seq<Notification>, id: string)
    ensures WithoutId(a + b, id) == WithoutId(a, id) + WithoutId(b, id)
  {
    if a == [] {
      assert a + b == b;
    } else {
      assert (a + b)[0] == a[0];
      assert (a + b)[1..] == a[1..] + b;
      WithoutIdAppend(a[1..], b, id);
    }
  }

  /** The number of unread items carrying this id. */
  function UnreadWithId(s: seq<Notification>, id: string): (n: nat)
    ensures n <= UnreadIn(s)
  {
    if s == [] then 0 else (if s[0].id == id && !s[0].read then 1 else 0) + UnreadWithId(s[1..], id)
  }

  /** Removing by id drops every unread item with that id from the count. */
  lemma {:induction false} UnreadWithoutId(s: seq<Notification>, id: string)
    ensures UnreadIn(WithoutId(s, id)) == UnreadIn(s) - UnreadWithId(s, id)
  {
    if s != [] {
      UnreadWithoutId(s[1..], id);
      if s[0].id != id {
        assert WithoutId(s, id) == [s[0]] + WithoutId(s[1..], id);
        UnreadAppend([s[0]], WithoutId(s[1..], id));
      }
    }
  }

  predicate UniqueIds(s: seq<Notification>) {
    forall i, j :: 0 <= i < j < |s| ==> s[i].id != s[j].id
  }

  /** With unique ids, the unread items with an id are the first match, if it is unread. */
  lemma {:induction false} UniqueUnreadWithId(s: seq<Notification>, id: string)
    requires UniqueIds(s)
    ensures UnreadWithId(s, id) == if FirstIsUnread(s, id) then 1 else 0
  {
    if s != [] {
      assert UniqueIds(s[1..]) by {
        forall i, j | 0 <= i < j < |s[1..]| ensures s[1..][i].id != s[1..][j].id {
          assert s[1..][i] == s[i + 1] && s[1..][j] == s[j + 1];
        }
      }
      UniqueUnreadWithId(s[1..], id);
      if s[0].id == id {
        forall k | 0 <= k < |s[1..]| ensures s[1..][k].id != id {
          assert s[1..][k] == s[k + 1];
        }
        NoIdNoUnread(s[1..], id);
      } else {
        match FirstWithId(s[1..], id)
        case None =>
        case Some(i) =>
          assert FirstWithId(s, id) == Some(i + 1);
          assert s[i + 1] == s[1..][i];
      }
    }
  }

  lemma {:induction false} NoIdNoUnread(s: seq<Notification>, id: string)
    requires forall k :: 0 <= k < |s| ==> s[k].id != id
    ensures UnreadWithId(s, id) == 0
  {
    if s != [] {
      assert forall k :: 0 <= k < |s[1..]| ==> s[1..][k] == s[k + 1];
      NoIdNoUnread(s[1..], id);
    }
  }

  /** With a repeated id the hand-kept counter goes wrong: two unread copies of one
      notification, removed by id, leave the counter at 1 over an empty list. */
  lemma DuplicateIdsBreakCount(n: Notification)
    requires !n.read
    ensures var s := [n, n];
            UnreadIn(s) == 2 && FirstIsUnread(s, n.id) && WithoutId(s, n.id) == []
            && UnreadIn(s) - 1 != UnreadIn(WithoutId(s, n.id))
  {
    var s := [n, n];
    assert s[1..] == [n];
    assert s[1..][1..] == [];
  }

  /** The item at `i`, marked read. */
  function MarkAt(s: seq<Notification>, i: nat): (r: seq<Notification>)
    requires i < |s|
    ensures |r| == |s| && r[i].read
  {
    s[i := s[i].(read := true)]
  }

  /** Marking one unread item takes one off the count. */
  lemma {:induction false} UnreadMarkAt(s: seq<Notification>, i: nat)
    requires i < |s| && !s[i].read
    ensures UnreadIn(MarkAt(s, i)) == UnreadIn(s) - 1
  {
    assert s == s[..i] + [s[i]] + s[i + 1..];
    assert MarkAt(s, i) == s[..i] + [s[i].(read := true)] + s[i + 1..];
    UnreadAppend(s[..i] + [s[i]], s[i + 1..]);
    UnreadAppend(s[..i], [s[i]]);
    UnreadAppend(s[..i] + [s[i].(read := true)], s[i + 1..]);
    UnreadAppend(s[..i], [s[i].(read := true)]);
  }

  /** `markAsReadLocal` on the list: the first item with the id, if it is unread,
      becomes read; otherwise nothing changes. */
  function MarkFirstRead(s: seq<Notification>, id: string): (r: seq<Notification>)
    ensures |r| == |s|
  {
    if FirstIsUnread(s, id) then MarkAt(s, FirstWithId(s, id).value) else s
  }

  /** Marking the same id twice is marking it once. */
  lemma MarkFirstReadIdempotent(s: seq<Notification>, id: string)
    ensures MarkFirstRead(MarkFirstRead(s, id), id) == MarkFirstRead(s, id)
  {
    if FirstIsUnread(s, id) {
      var i := FirstWithId(s, id).value;
      var t := MarkAt(s, i);
      assert forall k :: 0 <= k < |s| ==> t[k].id == s[k].id;
    }
  }

  /** Every item marked read, length and order kept. */
  function AllRead(s: seq<Notification>): (r: seq<Notification>)
    ensures |r| == |s|
    ensures forall k :: 0 <= k < |s| ==> r[k] == s[k].(read := true)
  {
    seq(|s|, k requires 0 <= k < |s| => s[k].(read := true))
  }

  /** The slice state. */
  class NotificationStore {
    var notifications: seq<Notification>
    var unreadCount: int
    var isLoading: bool
    var error: Option<string>
    var pushToken: Option<string>
    var permissionStatus: PermissionStatus
    var settings: Settings

    /** The counter agrees with the list. */
    predicate Valid()
      reads this
    {
      unreadCount == UnreadIn(notifications)
    }

    constructor ()
      ensures Valid() && notifications == [] && unreadCount == 0 && !isLoading && error.None?
      ensures pushToken.None? && permissionStatus == NotDetermined && settings == InitialSettings
    {
      notifications, unreadCount, isLoading, error := [], 0, false, None;
      pushToken, permissionStatus, settings := None, NotDetermined, InitialSettings;
    }

    /** `find`: the index of the first item with the id. */
    method Find(id: string) returns (i: Option<nat>)
      ensures i == FirstWithId(notifications, id)
    {
      var k := 0;
      while k < |notifications|
        invariant 0 <= k <= |notifications|
        invariant forall m :: 0 <= m < k ==> notifications[m].id != id
      {
        if notifications[k].id == id {
          return Some(k);
        }
        k := k + 1;
      }
      i := None;
    }

    /** `addNotification`: prepend; count it when unread. */
    method AddNotification(n: Notification)
      modifies this`notifications, this`unreadCount
      ensures notifications == [n] + old(notifications)
      ensures unreadCount == old(unreadCount) + (if n.read then 0 else 1)
      ensures old(Valid()) ==> Valid()
    {
      notifications := [n] + notifications;
      if !n.read {
        unreadCount := unreadCount + 1;
      }
      assert notifications[1..] == old(notifications);
    }

    /** `removeNotification` (and `deleteNotification.fulfilled`): one decrement if the
        first match is unread, then every match dropped. */
    method RemoveNotification(id: string)
      modifies this`notifications, this`unreadCount
      ensures notifications == WithoutId(old(notifications), id)
      ensures unreadCount == old(unreadCount) - (if FirstIsUnread(old(notifications), id) then 1 else 0)
      ensures old(Valid()) && UniqueIds(old(notifications)) ==> Valid()
    {
      ghost var before := notifications;
      var i := Find(id);
      if i.Some? && !notifications[i.value].read {
        unreadCount := unreadCount - 1;
      }
      notifications := WithoutId(notifications, id);
      UnreadWithoutId(before, id);
      if UniqueIds(before) {
        UniqueUnreadWithId(before, id);
      }
    }

    /** `markAsReadLocal` (and `markNotificationAsRead.fulfilled`). */
    method MarkAsReadLocal(id: string)
      modifies this`notifications, this`unreadCount
      ensures notifications == MarkFirstRead(old(notifications), id)
      ensures unreadCount == old(unreadCount) - (if FirstIsUnread(old(notifications), id) then 1 else 0)
      ensures old(Valid()) ==> Valid()
    {
      var i := Find(id);
      if i.Some? && !notifications[i.value].read {
        UnreadMarkAt(notifications, i.value);
        notifications := notifications[i.value := notifications[i.value].(read := true)];
        unreadCount := unreadCount - 1;
      }
    }

    /** `markAllAsReadLocal` (and `markAllNotificationsAsRead.fulfilled`): every item read, count 0. */
    method MarkAllAsReadLocal()
      modifies this`notifications, this`unreadCount
      ensures notifications == AllRead(old(notifications))
      ensures unreadCount == 0 && Valid()
    {
      var k := 0;
      while k < |notifications|
        invariant 0 <= k <= |notifications| == |old(notifications)|
        invariant forall m :: 0 <= m < k ==> notifications[m] == old(notifications)[m].(read := true)
        invariant forall m :: k <= m < |notifications| ==> notifications[m] == old(notifications)[m]
      {
        notifications := notifications[k := notifications[k].(read := true)];
        k := k + 1;
      }
      unreadCount := 0;
      UnreadZeroIffAllRead(notifications);
    }

    method ClearAllNotifications()
      modifies this`notifications, this`unreadCount
      ensures notifications == [] && unreadCount == 0 && Valid()
    {
      notifications, unreadCount := [], 0;
    }

    /** `setPushToken` (and `registerForPushNotifications.fulfilled`). */
    method SetPushToken(token: string)
      modifies this`pushToken
      ensures pushToken == Some(token)
    {
      pushToken := Some(token);
    }

    /** `setPermissionStatus` (and `requestNotificationPermission.fulfilled`). */
    method SetPermissionStatus(status: PermissionStatus)
      modifies this`permissionStatus
      ensures permissionStatus == status
    {
      permissionStatus := status;
    }

    /** `updateLocalSettings` (and `updateNotificationSettings.fulfilled`). */
    method UpdateLocalSettings(p: SettingsPatch)
      modifies this`settings
      ensures settings == MergeSettings(old(settings), p)
    {
      settings := MergeSettings(settings, p);
    }

    method ClearError()
      modifies this`error
      ensures error.None?
    {
      error := None;
    }

    /** `requestNotificationPermission.rejected`: the message, and the status forced to denied. */
    method PermissionRejected(m: string)
      modifies this`error, this`permissionStatus
      ensures error == Some(m) && permissionStatus == Denied
    {
      error, permissionStatus := Some(m), Denied;
    }

    /** The `rejected` cases of the push, mark, mark-all, delete and settings thunks. */
    method Rejected(m: string)
      modifies this`error
      ensures error == Some(m)
    {
      error := Some(m);
    }

    method FetchPending()
      modifies this`isLoading, this`error
      ensures isLoading && error.None?
    {
      isLoading, error := true, None;
    }

    /** `fetchNotifications.fulfilled`: the list replaced and the count recomputed from it. */
    method FetchFulfilled(list: seq<Notification>)
      modifies this`isLoading, this`notifications, this`unreadCount, this`error
      ensures notifications == list && unreadCount == UnreadIn(list) && Valid()
      ensures !isLoading && error.None?
    {
      isLoading, notifications, unreadCount, error := false, list, UnreadIn(list), None;
    }

    method FetchRejected(m: string)
      modifies this`isLoading, this`error
      ensures !isLoading && error == Some(m)
    {
      isLoading, error := false, Some(m);
    }
  }

  /** `fetchNotifications`. */
  function FetchNotifications(token: Option<string>, answer: Settled<seq<Notification>>)
    : (r: (Settled<seq<Notification>>, bool))
    ensures !Truthy(token) ==> r == (Rejected(NoTokenMessage), false)
    ensures Truthy(token) && answer.Fulfilled? ==> r == (answer, true)
    ensures Truthy(token) && answer.Rejected?
      ==> r == (Rejected(OrDefault(answer.message, "Failed to fetch notifications")), true)
  {
    Guarded(token, answer, "Failed to fetch notifications")
  }

  /** `markNotificationAsRead`: resolves to the id. */
  function MarkNotificationAsRead(token: Option<string>, id: string, answer: Outcome): (r: (Settled<string>, bool))
    ensures !Truthy(token) ==> r == (Rejected(NoTokenMessage), false)
    ensures Truthy(token) && answer.Ok? ==> r == (Fulfilled(id), true)
    ensures Truthy(token) && answer.Thrown?
      ==> r == (Rejected(OrDefault(answer.message, "Failed to mark notification as read")), true)
  {
    Guarded(token, Returning(answer, id), "Failed to mark notification as read")
  }

  /** `markAllNotificationsAsRead`. */
  function MarkAllNotificationsAsRead(token: Option<string>, answer: Outcome): (r: (Settled<bool>, bool))
    ensures !Truthy(token) ==> r == (Rejected(NoTokenMessage), false)
    ensures Truthy(token) && answer.Ok? ==> r == (Fulfilled(true), true)
    ensures Truthy(token) && answer.Thrown?
      ==> r == (Rejected(OrDefault(answer.message, "Failed to mark all notifications as read")), true)
  {
    Guarded(token, Returning(answer, true), "Failed to mark all notifications as read")
  }

  /** `deleteNotification`: resolves to the id. */
  function DeleteNotification(token: Option<string>, id: string, answer: Outcome): (r: (Settled<string>, bool))
    ensures !Truthy(token) ==> r == (Rejected(NoTokenMessage), false)
    ensures Truthy(token) && answer.Ok? ==> r == (Fulfilled(id), true)
    ensures Truthy(token) && answer.Thrown?
      ==> r == (Rejected(OrDefault(answer.message, "Failed to delete notification")), true)
  {
    Guarded(token, Returning(answer, id), "Failed to delete notification")
  }

  /** `updateNotificationSettings`. */
  function UpdateNotificationSettings(token: Option<string>, answer: Settled<SettingsPatch>)
    : (r: (Settled<SettingsPatch>, bool))
    ensures !Truthy(token) ==> r == (Rejected(NoTokenMessage), false)
    ensures Truthy(token) && answer.Fulfilled? ==> r == (answer, true)
    ensures Truthy(token) && answer.Rejected?
      ==> r == (Rejected(OrDefault(answer.message, "Failed to update notification settings")), true)
  {
    Guarded(token, answer, "Failed to update notification settings")
  }

  /** `requestNotificationPermission` and `registerForPushNotifications` are not guarded. */
  function RequestPermission(answer: Settled<PermissionStatus>): (r: Settled<PermissionStatus>)
    ensures answer.Rejected? ==> r == Rejected(OrDefault(answer.message, "Permission request failed"))
    ensures answer.Fulfilled? ==> r == answer
  {
    Unguarded(answer, "Permission request failed")
  }

  function RegisterForPush(answer: Settled<string>): (r: Settled<string>)
    ensures answer.Rejected? ==> r == Rejected(OrDefault(answer.message, "Token registration failed"))
    ensures answer.Fulfilled? ==> r == answer
  {
    Unguarded(answer, "Token registration failed")
  }
}
