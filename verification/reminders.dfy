/**
 * The scheduled reminders: a morning window at 8 and an evening window from 18
 * to 20, checked every minute, each raising a system notification at most once
 * in a row for the same day and window.
 */
module Reminders {
  import opened Wrappers

  datatype Window = Morning | Evening

  /** The window an hour of the day falls in: 8 is morning, 18 and 19 are evening. */
  function WindowAt(hour: int): (w: Option<Window>)
    ensures w == Some(Morning) <==> hour == 8
    ensures w == Some(Evening) <==> 18 <= hour < 20
    ensures w.None? <==> hour != 8 && !(18 <= hour < 20)
  {
    if hour == 8 then Some(Morning)
    else if hour >= 18 && hour < 20 then Some(Evening)
    else None
  }

  function Suffix(w: Window): (s: string)
    ensures |s| == 8
  {
    match w
    case Morning => "_morning"
    case Evening => "_evening"
  }

  /** The key a notification is deduplicated by: the day's date string and the window. */
  function DedupeKey(day: string, w: Window): (k: string)
    ensures |k| == |day| + 8 && k[..|day|] == day
  {
    day + Suffix(w)
  }

  /** Different days or different windows never share a key. */
  lemma DedupeKeyInjective(day1: string, w1: Window, day2: string, w2: Window)
    requires DedupeKey(day1, w1) == DedupeKey(day2, w2)
    ensures day1 == day2 && w1 == w2
  {
    var k := DedupeKey(day1, w1);
    assert |day1| == |day2|;
    assert day1 == k[..|day1|] == day2;
    assert Suffix(w1) == k[|day1|..] == Suffix(w2);
    assert Suffix(Morning)[1] != Suffix(Evening)[1];
  }

  function Title(w: Window): string {
    match w
    case Morning => "Morning Alignment"
    case Evening => "Evening Review"
  }

  function Body(w: Window): string {
    match w
    case Morning => "The sun rises. Define your intent for the day."
    case Evening => "The day ends. Log your discipline and reflect."
  }

  /** A system notification as shown, with the key it was raised under. */
  datatype Notice = Notice(title: string, body: string, key: string)

  /** No two notifications raised one after the other carry the same key. */
  predicate NoRepeats(sent: seq<Notice>) {
    forall i :: 0 < i < |sent| ==> sent[i - 1].key != sent[i].key
  }

  class ScheduledReminders {
    var reminderType: Option<Window>
    /** `lastNotificationRef.current`. */
    var lastKey: Option<string>
    /** The notifications created so far in the session. */
    var sent: seq<Notice>

    /** The last key is the key of the last notification created, and none was created twice in a row. */
    predicate Valid()
      reads this
    {
      (sent == [] ==> lastKey.None?)
      && (sent != [] ==> lastKey == Some(sent[|sent| - 1].key))
      && NoRepeats(sent)
    }

    constructor()
      ensures Valid() && reminderType.None? && lastKey.None? && sent == []
    {
      reminderType := None;
      lastKey := None;
      sent := [];
    }

    /**
     * `triggerSystemNotification`: the same key as last time does nothing; otherwise
     * a notification is created when permission is granted and creation succeeds,
     * and only then does the key become the last one.
     */
    method TriggerSystemNotification(title: string, body: string, key: string, granted: bool, created: bool)
      requires Valid()
      modifies this
      ensures Valid() && reminderType == old(reminderType)
      ensures old(lastKey) == Some(key) || !granted || !created ==> sent == old(sent) && lastKey == old(lastKey)
      ensures old(lastKey) != Some(key) && granted && created ==>
        sent == old(sent) + [Notice("Komorebi OS: " + title, body, key)] && lastKey == Some(key)
    {
      if lastKey == Some(key) {
        return;
      }
      if granted && created {
        sent := sent + [Notice("Komorebi OS: " + title, body, key)];
        lastKey := Some(key);
      }
    }

    /** `checkTime` at `hour` on the day `todayStr`. */
    method CheckTime(hour: int, todayStr: string, granted: bool, created: bool)
      requires Valid()
      modifies this
      ensures Valid() && reminderType == WindowAt(hour)
      ensures WindowAt(hour).None? || !granted || !created ==> sent == old(sent) && lastKey == old(lastKey)
      ensures WindowAt(hour).Some? && old(lastKey) == Some(DedupeKey(todayStr, WindowAt(hour).value)) ==>
        sent == old(sent) && lastKey == old(lastKey)
      ensures WindowAt(hour).Some? && old(lastKey) != Some(DedupeKey(todayStr, WindowAt(hour).value)) && granted && created ==>
        var w := WindowAt(hour).value;
        sent == old(sent) + [Notice("Komorebi OS: " + Title(w), Body(w), DedupeKey(todayStr, w))]
        && lastKey == Some(DedupeKey(todayStr, w))
    {
      if hour == 8 {
        reminderType := Some(Morning);
        TriggerSystemNotification(Title(Morning), Body(Morning), DedupeKey(todayStr, Morning), granted, created);
      } else if hour >= 18 && hour < 20 {
        reminderType := Some(Evening);
        TriggerSystemNotification(Title(Evening), Body(Evening), DedupeKey(todayStr, Evening), granted, created);
      } else {
        reminderType := None;
      }
    }

    method DismissReminder()
      modifies this
      ensures reminderType.None? && lastKey == old(lastKey) && sent == old(sent)
    {
      reminderType := None;
    }
  }

  /** Two checks in the same window of the same day raise at most one notification between them. */
  method SameWindowNotifiesOnce(r: ScheduledReminders, hour1: int, hour2: int, day: string, granted: bool, created: bool)
    requires r.Valid() && WindowAt(hour1).Some? && WindowAt(hour1) == WindowAt(hour2)
    modifies r
    ensures r.Valid() && |r.sent| <= |old(r.sent)| + 1
  {
    r.CheckTime(hour1, day, granted, created);
    r.CheckTime(hour2, day, granted, created);
  }
}
