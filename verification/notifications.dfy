/** The notification helpers of the dashboard (public/notifications.js): the
    relative-time text of a notification, the unread badge, the polling state
    that decides which notifications raise a toast, and the per-item rendering
    decisions. The clock, the HTTP responses, timers and the DOM are outside
    the model: times and responses are parameters. */
module Notifications {
  import opened Text

  /** A notification as the API returns it. `createdAt` is its creation time
      in milliseconds, as the browser's date parsing yields it. */
  datatype Notification = Notification(
    id: nat, title: string, message: string, createdAt: int,
    isRead: bool, customerName: Option<string>, reportId: Option<nat>)

  // ---------------------------------------------------------------------------
  // Relative time

  /** The buckets of `getTimeAgo`, with the number it prints. */
  datatype TimeAgo = JustNow | MinutesAgo(minutes: nat) | HoursAgo(hours: nat) | DaysAgo(days: nat) | OnDate

  /** `Math.floor((now - date) / 1000)`: elapsed whole seconds, rounded down
      also when the date lies in the future. */
  function ElapsedSeconds(nowMs: int, dateMs: int): (s: int)
    ensures s * 1000 <= nowMs - dateMs < s * 1000 + 1000
  {
    (nowMs - dateMs) / 1000
  }

  /** The `if` chain of `getTimeAgo`, checked in increasing order. */
  function Bucket(seconds: int): (t: TimeAgo)
    ensures t.MinutesAgo? ==> 1 <= t.minutes < 60
    ensures t.HoursAgo? ==> 1 <= t.hours < 24
    ensures t.DaysAgo? ==> 1 <= t.days < 7
  {
    if seconds < 60 then JustNow
    else if seconds < 3600 then MinutesAgo(seconds / 60)
    else if seconds < 86400 then HoursAgo(seconds / 3600)
    else if seconds < 604800 then DaysAgo(seconds / 86400)
    else OnDate
  }

  /** Each bucket covers its range, and its number is the whole count of its
      unit, at least 1 and below the next unit: under 60 minutes, under 24
      hours, under 7 days. */
  lemma BucketRanges(seconds: int)
    ensures Bucket(seconds) == JustNow <==> seconds < 60
    ensures Bucket(seconds).MinutesAgo? <==> 60 <= seconds < 3600
    ensures Bucket(seconds).HoursAgo? <==> 3600 <= seconds < 86400
    ensures Bucket(seconds).DaysAgo? <==> 86400 <= seconds < 604800
    ensures Bucket(seconds) == OnDate <==> seconds >= 604800
    ensures Bucket(seconds).MinutesAgo? ==> var n := Bucket(seconds).minutes;
      1 <= n < 60 && n * 60 <= seconds < n * 60 + 60
    ensures Bucket(seconds).HoursAgo? ==> var n := Bucket(seconds).hours;
      1 <= n < 24 && n * 3600 <= seconds < n * 3600 + 3600
    ensures Bucket(seconds).DaysAgo? ==> var n := Bucket(seconds).days;
      1 <= n < 7 && n * 86400 <= seconds < n * 86400 + 86400
  {
  }

  function Rank(t: TimeAgo): nat
  {
    match t
    case JustNow => 0
    case MinutesAgo(_) => 1
    case HoursAgo(_) => 2
    case DaysAgo(_) => 3
    case OnDate => 4
  }

  /** Older notifications never land in a finer bucket, and within a bucket
      the printed number does not decrease. */
  lemma BucketMonotone(s1: int, s2: int)
    requires s1 <= s2
    ensures Rank(Bucket(s1)) <= Rank(Bucket(s2))
    ensures Bucket(s1).MinutesAgo? && Bucket(s2).MinutesAgo? ==> Bucket(s1).minutes <= Bucket(s2).minutes
    ensures Bucket(s1).HoursAgo? && Bucket(s2).HoursAgo? ==> Bucket(s1).hours <= Bucket(s2).hours
    ensures Bucket(s1).DaysAgo? && Bucket(s2).DaysAgo? ==> Bucket(s1).days <= Bucket(s2).days
  {
  }

  /** The text of a bucket; `dateText` is the browser's German date for OnDate. */
  function TimeAgoText(t: TimeAgo, dateText: string): string
  {
    match t
    case JustNow => "Gerade eben"
    case MinutesAgo(n) => "vor " + NatToString(n) + " Min."
    case HoursAgo(n) => "vor " + NatToString(n) + " Std."
    case DaysAgo(n) => "vor " + NatToString(n) + " Tagen"
    case OnDate => dateText
  }

  /** `getTimeAgo(date)` at time `nowMs`: less than a minute ago (or in the
      future) reads 'Gerade eben', a week or more ago the date itself, and
      anything between a count of minutes, hours or days. */
  function GetTimeAgo(nowMs: int, dateMs: int, dateText: string): (r: string)
    ensures nowMs - dateMs < 60000 ==> r == "Gerade eben"
    ensures 60000 <= nowMs - dateMs < 604800000 ==> StartsWith(r, "vor ")
    ensures nowMs - dateMs >= 604800000 ==> r == dateText
  {
    TimeAgoText(Bucket(ElapsedSeconds(nowMs, dateMs)), dateText)
  }

  /** Within a unit the text determines the number: different counts of
      minutes (hours, days) never print alike. */
  lemma TimeAgoTextInjective(t1: TimeAgo, t2: TimeAgo, dateText: string)
    requires !t1.OnDate? && !t1.JustNow? && Rank(t1) == Rank(t2)
    requires TimeAgoText(t1, dateText) == TimeAgoText(t2, dateText)
    ensures t1 == t2
  {
    var n1 := match t1 case MinutesAgo(n) => n case HoursAgo(n) => n case DaysAgo(n) => n case _ => 0;
    var n2 := match t2 case MinutesAgo(n) => n case HoursAgo(n) => n case DaysAgo(n) => n case _ => 0;
    var suffix := match t1 case MinutesAgo(_) => " Min." case HoursAgo(_) => " Std." case _ => " Tagen";
    var s1 := TimeAgoText(t1, dateText);
    assert s1 == "vor " + NatToString(n1) + suffix;
    assert s1 == "vor " + NatToString(n2) + suffix;
    var a := NatToString(n1);
    var b := NatToString(n2);
    assert s1[4..|s1| - |suffix|] == a;
    assert s1[4..|s1| - |suffix|] == b by {
      assert |"vor " + a + suffix| == |"vor " + b + suffix|;
    }
    NatToStringInjective(n1, n2);
  }

  // ---------------------------------------------------------------------------
  // Badge

  /** `updateNotificationBadge(count)`: the badge text, or None when hidden. */
  function BadgeText(count: int): (b: Option<string>)
    ensures b.Some? <==> count > 0
    ensures count > 99 ==> b == Some("99+")
  {
    if count > 0 then Some(if count > 99 then "99+" else NatToString(count)) else None
  }

  /** The badge is shown iff there is an unread notification; its text has at
      most three characters; up to 99 it is the count itself, above that '99+'. */
  lemma BadgeRule(count: int)
    ensures BadgeText(count).Some? <==> count > 0
    ensures BadgeText(count).Some? ==> 1 <= |BadgeText(count).value| <= 3
    ensures 0 < count <= 99 ==> ParseDigits(BadgeText(count).value) == count
    ensures count > 99 ==> BadgeText(count) == Some("99+")
  {
    if 0 < count <= 99 {
      ParseNatToString(count);
      NatToStringLength(count, 2);
    }
  }

  // ---------------------------------------------------------------------------
  // Polling

  /** A toast as `showToast` fills it: the title, and the customer name or
      the generic text when the name is missing or empty. */
  datatype Toast = Toast(title: string, message: string)

  function ToastOf(n: Notification): (t: Toast)
    ensures t.title == n.title
    ensures t.message != ""
    ensures t.message == "Neuer Report verfügbar" || n.customerName == Some(t.message)
  {
    Toast(n.title, if n.customerName.Some? && n.customerName.value != "" then n.customerName.value
                   else "Neuer Report verfügbar")
  }

  /** `notifications.filter(n => new Date(n.created_at) > lastNotificationCheck)`. */
  function NewerThan(notifications: seq<Notification>, lastCheck: int): seq<Notification>
  {
    Filter(notifications, (n: Notification) => n.createdAt > lastCheck)
  }

  const PollingPeriodMs := 30000

  /** `newNotifications.forEach(showToast)`: one toast per notification, in order. */
  method ShowToasts(newNotifications: seq<Notification>) returns (toasts: seq<Toast>)
    ensures |toasts| == |newNotifications|
    ensures forall i :: 0 <= i < |newNotifications| ==> toasts[i] == ToastOf(newNotifications[i])
  {
    toasts := [];
    for i := 0 to |newNotifications|
      invariant |toasts| == i
      invariant forall j :: 0 <= j < i ==> toasts[j] == ToastOf(newNotifications[j])
    {
      toasts := toasts + [ToastOf(newNotifications[i])];
    }
  }

  /** The module-level `lastNotificationCheck` and `notificationCheckInterval`
      variables, plus the badge the checks update. A running interval timer is
      represented by its period. */
  class NotificationPoller {
    var lastCheck: Option<int>
    var interval: Option<nat>
    var badge: Option<string>

    constructor()
      ensures lastCheck == None && interval == None && badge == None
    {
      lastCheck := None;
      interval := None;
      badge := None;
    }

    /** `checkForNewNotifications()` at time `nowMs`. `response` is the list of
        unread notifications of an OK response, or None when the request
        failed or was not OK; then nothing changes. Otherwise the badge shows
        the unread count, toasts are raised for the notifications created after
        the previous check (none on the first check), and the check time moves
        to now. */
    method Check(response: Option<seq<Notification>>, nowMs: int) returns (toasts: seq<Toast>)
      modifies this
      ensures interval == old(interval)
      ensures response.None? ==> toasts == [] && lastCheck == old(lastCheck) && badge == old(badge)
      ensures response.Some? ==> lastCheck == Some(nowMs) && badge == BadgeText(|response.value|)
      ensures response.Some? && old(lastCheck).None? ==> toasts == []
      ensures response.Some? && old(lastCheck).Some? ==>
        var newer := NewerThan(response.value, old(lastCheck).value);
        |toasts| == |newer| && forall i :: 0 <= i < |newer| ==> toasts[i] == ToastOf(newer[i])
    {
      toasts := [];
      if response.None? {
        return;
      }
      var notifications := response.value;
      badge := BadgeText(|notifications|);
      if lastCheck.Some? && |notifications| > 0 {
        toasts := ShowToasts(NewerThan(notifications, lastCheck.value));
      }
      lastCheck := Some(nowMs);
    }

    /** `startNotificationPolling()`: one check at once, then a 30-second timer. */
    method Start(response: Option<seq<Notification>>, nowMs: int) returns (toasts: seq<Toast>)
      modifies this
      ensures interval == Some(PollingPeriodMs)
      ensures response.None? ==> toasts == [] && lastCheck == old(lastCheck) && badge == old(badge)
      ensures response.Some? ==> lastCheck == Some(nowMs) && badge == BadgeText(|response.value|)
      ensures old(lastCheck).None? ==> toasts == []
    {
      toasts := Check(response, nowMs);
      interval := Some(PollingPeriodMs);
    }

    /** `stopNotificationPolling()`: afterwards no timer runs, whatever ran before. */
    method Stop()
      modifies this
      ensures interval == None
      ensures lastCheck == old(lastCheck) && badge == old(badge)
    {
      if interval.Some? {
        interval := None;
      }
    }
  }

  /** Toasts only ever concern notifications strictly newer than the last
      check, and every such notification of the response gets one. */
  lemma ToastsAreFresh(notifications: seq<Notification>, lastCheck: int)
    ensures forall i :: 0 <= i < |NewerThan(notifications, lastCheck)| ==>
      NewerThan(notifications, lastCheck)[i].createdAt > lastCheck
      && NewerThan(notifications, lastCheck)[i] in notifications
    ensures forall i :: 0 <= i < |notifications| && notifications[i].createdAt > lastCheck ==>
      notifications[i] in NewerThan(notifications, lastCheck)
  {
  }

  // ---------------------------------------------------------------------------
  // Rendering

  /** The decisions `renderNotifications` makes for one item. */
  datatype RenderedItem = RenderedItem(
    unread: bool, timeAgo: string, title: string, message: string, customerTag: Option<string>)

  /** One item of the list at time `nowMs`; the list parses the creation time
      as UTC, which `createdAt` already is. */
  function RenderItem(n: Notification, nowMs: int, dateText: string): (r: RenderedItem)
    ensures r.unread <==> !n.isRead
    ensures r.customerTag.Some? <==> n.customerName.Some? && n.customerName.value != ""
    ensures r.customerTag.Some? ==> r.customerTag == n.customerName
  {
    RenderedItem(
      !n.isRead,
      GetTimeAgo(nowMs, n.createdAt, dateText),
      n.title, n.message,
      if n.customerName.Some? && n.customerName.value != "" then n.customerName else None)
  }
}
