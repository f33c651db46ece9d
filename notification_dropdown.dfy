/**
  * The display helpers of the notification bell: the relative date, the badge, the list
  * shown, the click rule and the type's colour and label.
  */
module NotificationDropdown {
  import opened Wrappers
  import opened NotificationService
  import Strings
  import Seqs

  const MinuteMs: int := 60000
  const HourMs: int := 3600000
  const DayMs: int := 86400000

  /** Whole hours are whole minutes over 60, whole days whole hours over 24. */
  lemma FloorsCompose(x: int)
    ensures (x / MinuteMs) / 60 == x / HourMs
    ensures (x / HourMs) / 24 == x / DayMs
  {
  }

  /**
    * `formatDate`, given the milliseconds elapsed since the notification was created: whole
    * minutes under an hour, whole hours under a day, whole days beyond.
    */
  function FormatDate(elapsedMs: int): (t: string)
    ensures elapsedMs < HourMs ==> t == Strings.IntToString(elapsedMs / MinuteMs) + "m atrás"
    ensures HourMs <= elapsedMs < DayMs ==> t == Strings.IntToString(elapsedMs / HourMs) + "h atrás"
    ensures DayMs <= elapsedMs ==> t == Strings.IntToString(elapsedMs / DayMs) + "d atrás"
  {
    var minutes := elapsedMs / MinuteMs;
    if minutes < 60 then Strings.IntToString(minutes) + "m atrás"
    else
      var hours := minutes / 60;
      FloorsCompose(elapsedMs);
      if hours < 24 then Strings.IntToString(hours) + "h atrás"
      else
        Strings.IntToString(hours / 24) + "d atrás"
  }

  /** The number shown never leaves its unit's range: 0-59 minutes, 1-23 hours, at least a day. */
  lemma FormatDateRanges(elapsedMs: int)
    ensures 0 <= elapsedMs < HourMs ==> 0 <= elapsedMs / MinuteMs < 60
    ensures HourMs <= elapsedMs < DayMs ==> 1 <= elapsedMs / HourMs < 24
    ensures DayMs <= elapsedMs ==> elapsedMs / DayMs >= 1
  {
  }

  /** The unread badge: hidden at zero, the count up to 99, '99+' beyond. */
  function Badge(unreadCount: int): (b: Option<string>)
    ensures b.None? <==> unreadCount <= 0
    ensures b.Some? ==> |b.value| <= 3
    ensures unreadCount > 99 ==> b == Some("99+")
    ensures 0 < unreadCount <= 99 ==> b == Some(Strings.NatToString(unreadCount)) && |b.value| <= 2
  {
    if unreadCount <= 0 then None
    else if unreadCount > 99 then Some("99+")
    else
      assert |Strings.NatToString(unreadCount)| <= 2 by {
        if unreadCount < 10 {
        } else {
          assert unreadCount / 10 < 10;
        }
      }
      Some(Strings.NatToString(unreadCount))
  }

  /** A badge under 100 reads back as the unread count. */
  lemma BadgeReadsBack(unreadCount: int)
    requires 0 < unreadCount <= 99
    ensures Strings.ParseNat(Badge(unreadCount).value) == unreadCount
  {
    Strings.NatToStringRoundTrip(unreadCount);
  }

  /** The "mark all" button is offered exactly when the badge is shown. */
  function MarkAllOffered(unreadCount: int): (b: bool)
    ensures b <==> Badge(unreadCount).Some?
  {
    unreadCount > 0
  }

  const MaxShown: nat := 10

  /** `notifications.slice(0, 10)`: the first ten, in list order. */
  function Shown(notifications: seq<Notification>): (r: seq<Notification>)
    ensures |r| <= MaxShown
    ensures |notifications| <= MaxShown ==> r == notifications
    ensures |notifications| > MaxShown ==> r == notifications[..MaxShown]
  {
    Seqs.Take(notifications, MaxShown)
  }

  /** `handleNotificationClick`: the id to mark as read, only for an unread notification. */
  function ClickMarks(n: Notification): (id: Option<int>)
    ensures id.Some? <==> !n.isRead
    ensures id.Some? ==> id.value == n.id
  {
    if !n.isRead then Some(n.id) else None
  }

  datatype TypeColor = Blue | Green | Gray

  /** `getNotificationTypeColor`: 'order' is looked for before 'delivery'. */
  function ColorOf(kind: string): (c: TypeColor)
    ensures c == Blue <==> Strings.Contains(kind, "order")
    ensures c == Green <==> !Strings.Contains(kind, "order") && Strings.Contains(kind, "delivery")
  {
    if Strings.Contains(kind, "order") then Blue
    else if Strings.Contains(kind, "delivery") then Green
    else Gray
  }

  /**
    * A type naming both an order and a delivery is coloured as an order, whichever word comes
    * first and whatever surrounds them.
    */
  lemma OrderWinsOverDelivery(a: string, b: string, c: string)
    ensures ColorOf(a + "order" + b + "delivery" + c) == Blue
    ensures ColorOf(a + "delivery" + b + "order" + c) == Blue
    ensures ColorOf("order_delivery") == Blue
  {
    var s1 := a + "order" + b + "delivery" + c;
    assert s1[|a|..|a| + 5] == "order";
    assert Strings.OccursAt(s1, "order", |a|);
    var s2 := a + "delivery" + b + "order" + c;
    var k := |a| + 8 + |b|;
    assert s2[k..k + 5] == "order";
    assert Strings.OccursAt(s2, "order", k);
    assert Strings.OccursAt("order_delivery", "order", 0);
  }

  /** Upper-casing a string with one character set to a space works on each side of it. */
  lemma UpperAround(kind: string, i: nat)
    requires i < |kind|
    ensures var u := Strings.Upper(kind[..i] + [' '] + kind[i + 1..]);
      u[i] == ' ' && u[..i] == Strings.Upper(kind[..i]) && u[i + 1..] == Strings.Upper(kind[i + 1..])
  {
    var s := kind[..i] + [' '] + kind[i + 1..];
    var u := Strings.Upper(s);
    assert s[i] == ' ';
    assert u[..i] == Strings.Upper(kind[..i]) by {
      forall k | 0 <= k < i ensures u[k] == Strings.UpperChar(kind[k]) {
        assert s[k] == kind[k];
      }
    }
    assert u[i + 1..] == Strings.Upper(kind[i + 1..]) by {
      forall k | i + 1 <= k < |kind| ensures u[k] == Strings.UpperChar(kind[k]) {
        assert s[k] == kind[k];
      }
    }
  }

  /** The type label: the first '_' becomes a space, then everything is upper-cased. */
  function TypeLabel(kind: string): (text: string)
    ensures |text| == |kind|
    ensures '_' !in kind ==> text == Strings.Upper(kind)
    ensures '_' in kind ==> var i := Strings.IndexOf(kind, '_').value;
      text[i] == ' ' && text[..i] == Strings.Upper(kind[..i]) && text[i + 1..] == Strings.Upper(kind[i + 1..])
  {
    match Strings.IndexOf(kind, '_')
    case None => Strings.Upper(kind)
    case Some(i) =>
      UpperAround(kind, i);
      Strings.Upper(kind[..i] + [' '] + kind[i + 1..])
  }

  /** Only the first underscore is replaced: every later one stays an underscore in the label. */
  lemma SecondUnderscoreKept(kind: string, j: nat)
    requires j < |kind| && kind[j] == '_' && '_' in kind[..j]
    ensures TypeLabel(kind)[j] == '_'
    ensures TypeLabel(kind)[Strings.IndexOf(kind, '_').value] == ' '
    ensures TypeLabel("a_b_c") == "A B_C"
  {
    assert kind[j] in kind;
    var i := Strings.IndexOf(kind, '_').value;
    assert i < j;
    var text := TypeLabel(kind);
    assert text[j] == text[i + 1..][j - i - 1];
    assert text[i + 1..][j - i - 1] == Strings.UpperChar(kind[i + 1..][j - i - 1]);
    assert kind[i + 1..][j - i - 1] == '_';
    assert Strings.IndexOf("a_b_c", '_') == Some(1);
  }
}
