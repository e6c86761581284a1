/**
 * The notifications page (src/pages/notifications/page.tsx): relative-time
 * labels, the icon of each notification type, the click handler and the
 * header's unread summary.
 */
module NotificationsPage {
  import opened Common
  import opened Strings
  import opened NotificationStore

  const MinuteMs: int := 60000
  const HourMs: int := 3600000
  const DayMs: int := 86400000
  const WeekMs: int := 7 * DayMs

  /** The label `formatDate` picks; `LocaleDate` stands for `toLocaleDateString('ja-JP')`. */
  datatype RelativeTime = JustNow | MinutesAgo(m: nat) | HoursAgo(h: nat) | DaysAgo(d: nat) | LocaleDate

  /**
   * `formatDate(created)` at time `now` (both in epoch milliseconds). An
   * unparsable date (None) makes every unit NaN, so no comparison holds and the
   * locale date is shown. Units are floor divisions; for a positive divisor
   * Dafny's `/` is the floor, negative differences included.
   */
  function FormatDate(now: int, created: Option<int>): (r: RelativeTime)
    ensures created.None? ==> r == LocaleDate
    ensures r.MinutesAgo? ==> 1 <= r.m <= 59
    ensures r.HoursAgo? ==> 1 <= r.h <= 23
    ensures r.DaysAgo? ==> 1 <= r.d <= 6
  {
    match created
    case None => LocaleDate
    case Some(c) =>
      var diff := now - c;
      var minutes := diff / MinuteMs;
      var hours := diff / HourMs;
      var days := diff / DayMs;
      FloorBelow(diff, MinuteMs, 60);
      FloorBelow(diff, HourMs, 1);
      FloorBelow(diff, HourMs, 24);
      FloorBelow(diff, DayMs, 1);
      if minutes < 1 then JustNow
      else if minutes < 60 then MinutesAgo(minutes)
      else if hours < 24 then HoursAgo(hours)
      else if days < 7 then DaysAgo(days)
      else LocaleDate
  }

  /**
   * The same choice stated on the raw difference: each label owns one interval
   * of milliseconds, future dates are "just now", and the number shown is the
   * whole count of its unit, always in range.
   */
  lemma FormatDateIntervals(now: int, c: int)
    ensures var diff, r := now - c, FormatDate(now, Some(c));
      && (r == JustNow <==> diff < MinuteMs)
      && (r.MinutesAgo? <==> MinuteMs <= diff < HourMs)
      && (r.HoursAgo? <==> HourMs <= diff < DayMs)
      && (r.DaysAgo? <==> DayMs <= diff < WeekMs)
      && (r == LocaleDate <==> diff >= WeekMs)
      && (r.MinutesAgo? ==> r.m == diff / MinuteMs && 1 <= r.m <= 59)
      && (r.HoursAgo? ==> r.h == diff / HourMs && 1 <= r.h <= 23)
      && (r.DaysAgo? ==> r.d == diff / DayMs && 1 <= r.d <= 6)
  {
    var diff := now - c;
    FloorBelow(diff, MinuteMs, 1);
    FloorBelow(diff, MinuteMs, 60);
    FloorBelow(diff, HourMs, 24);
    FloorBelow(diff, DayMs, 7);
    if diff >= MinuteMs {
      FloorBelow(diff, HourMs, 1);
      FloorBelow(diff, DayMs, 1);
    }
  }

  /** `⌊x / d⌋ < k` exactly when `x < k * d`, for a positive divisor. */
  lemma FloorBelow(x: int, d: int, k: int)
    requires d > 0
    ensures x / d < k <==> x < k * d
  {
    var q, r := x / d, x % d;
    assert x == q * d + r && 0 <= r < d;
    if q < k {
      assert q <= k - 1;
      assert q * d <= (k - 1) * d;
    } else {
      assert q * d >= k * d;
    }
  }

  function Rank(t: RelativeTime): nat {
    match t
    case JustNow => 0
    case MinutesAgo(_) => 1
    case HoursAgo(_) => 2
    case DaysAgo(_) => 3
    case LocaleDate => 4
  }

  /** An older notification never gets a finer unit than a newer one. */
  lemma FormatDateMonotone(now: int, c1: int, c2: int)
    requires c2 <= c1
    ensures Rank(FormatDate(now, Some(c1))) <= Rank(FormatDate(now, Some(c2)))
  {
    FormatDateIntervals(now, c1);
    FormatDateIntervals(now, c2);
  }

  /** The label as displayed, given the locale rendering of the date. */
  function LabelText(t: RelativeTime, localeDate: string): (r: string)
  {
    match t
    case JustNow => "たった今"
    case MinutesAgo(m) => Decimal(m) + "分前"
    case HoursAgo(h) => Decimal(h) + "時間前"
    case DaysAgo(d) => Decimal(d) + "日前"
    case LocaleDate => localeDate
  }

  /** A minutes label shows exactly its number of minutes, followed by the unit. */
  lemma MinutesTextRoundTrip(now: int, c: int)
    requires FormatDate(now, Some(c)).MinutesAgo?
    ensures var t := LabelText(FormatDate(now, Some(c)), "");
      |t| > 2 && ParseDecimal(t[..|t| - 2]) == (now - c) / MinuteMs && t[|t| - 2..] == "分前"
  {
    FormatDateIntervals(now, c);
    var m := (now - c) / MinuteMs;
    var t := Decimal(m) + "分前";
    assert t[..|t| - 2] == Decimal(m);
    DecimalRoundTrip(m);
  }

  /** `getNotificationIcon` */
  function NotificationIcon(kind: string): (r: string)
    ensures r == "🔔" <==> kind !in KnownKinds()
    ensures kind == "proposal_received" ==> r == "📩"
    ensures kind == "proposal_accepted" ==> r == "✅"
    ensures kind == "proposal_rejected" ==> r == "❌"
    ensures kind == "message_received" ==> r == "💬"
    ensures kind == "payment_received" ==> r == "💰"
    ensures kind == "review_received" ==> r == "⭐"
  {
    match kind
    case "proposal_received" => "📩"
    case "proposal_accepted" => "✅"
    case "proposal_rejected" => "❌"
    case "message_received" => "💬"
    case "payment_received" => "💰"
    case "review_received" => "⭐"
    case _ => "🔔"
  }

  function KnownKinds(): set<string> {
    {"proposal_received", "proposal_accepted", "proposal_rejected", "message_received", "payment_received", "review_received"}
  }

  /** The six known types have six different icons. */
  lemma IconsDistinct()
    ensures forall a, b | a in KnownKinds() && b in KnownKinds() && a != b :: NotificationIcon(a) != NotificationIcon(b)
  {
  }

  /** The header: the unread count message and the "mark all read" button. */
  datatype Header = Header(unreadMessage: Option<int>, markAllButton: bool)

  /** Both the count message and the button appear exactly when something is unread. */
  function HeaderFor(unreadCount: int): (h: Header)
    ensures h.markAllButton <==> unreadCount > 0
    ensures h.unreadMessage.Some? <==> h.markAllButton
    ensures h.unreadMessage.Some? ==> h.unreadMessage.value == unreadCount
  {
    if unreadCount > 0 then Header(Some(unreadCount), true) else Header(None, false)
  }

  /**
   * `handleNotificationClick(id, link)`: the entry is marked read first (the
   * store's `markAsRead`, which never rejects), then the page navigates only
   * to a truthy link: null and the empty string stay on the page.
   */
  method HandleNotificationClick(store: NotificationProvider, signedIn: bool, id: string, link: Option<string>, ok: bool)
    returns (navigateTo: Option<string>)
    modifies store
    ensures store.loading == old(store.loading)
    ensures signedIn && ok ==>
      store.notifications == MarkRead(old(store.notifications), id) &&
      store.unreadCount == DecrementUnread(old(store.unreadCount))
    ensures !(signedIn && ok) ==> store.notifications == old(store.notifications) && store.unreadCount == old(store.unreadCount)
    ensures navigateTo == if Truthy(link) then link else None
  {
    store.MarkAsRead(signedIn, id, ok);
    if Truthy(link) {
      navigateTo := link;
    } else {
      navigateTo := None;
    }
  }
}
