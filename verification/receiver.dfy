/**
  AlarmReceiver.handleIntent: the decision the receiver takes for one
  broadcast, as the ordered list of calls it makes (alarm persistence calls,
  wake lock, broadcasts, starting the playback service, posting and cancelling
  notifications), and the notification table those calls leave behind, keyed
  by alarm id. The gating decisions and the effect lists are functions; the
  receiver itself is a class that issues the calls one by one, like the
  source, and is proved to issue exactly the list the functions describe.
 */
module Receiver {
  import opened Alarms

  /** STALE_WINDOW: an alarm more than 30 minutes overdue is ignored. */
  const STALE_WINDOW: int := 30 * 60 * 1000

  /** MILLISECOND_TO_SNOOZE in snooze(): the in-call hold re-checks after one second. */
  const MILLISECOND_TO_SNOOZE: int := 1000

  datatype Action = AlarmKilled | CancelSnooze | AlarmAlert | OtherAction

  /**
    A received intent: its action, the alarm it carries when that parsed
    (the parcelable extra for ALARM_KILLED and CANCEL_SNOOZE, the raw bytes
    for ALARM_ALERT_ACTION), and the ALARM_KILLED_TIMEOUT extra if present.
   */
  datatype Intent = Intent(action: Action, alarm: Option<Alarm>, killedTimeout: Option<int>)

  /** What handleIntent asks the platform: the in-call snooze system property, the call state, the clock. */
  datatype Env = Env(inCallSnooze: bool, callState: int, now: int)

  /**
    The notification posted under an alarm id: the ongoing alert with snooze
    and dismiss actions and a full-screen intent; the auto-cancel, ongoing
    "snoozed until" notice of the in-call hold; the plain auto-cancel
    "silenced after N minutes" notice.
   */
  datatype Notification = Alert(alarm: Alarm) | HeldSnooze(until: int) | Silenced(minutes: int)

  datatype Broadcast = CloseSystemDialogs | SnoozeCancelled

  datatype Effect =
    | SaveSnooze(id: int, time: int)          // Alarms.saveSnoozeAlert
    | DisableSnooze(id: int)                  // Alarms.disableSnoozeAlert
    | EnableAlarm(id: int, enabled: bool)     // Alarms.enableAlarm
    | SetNextAlert                            // Alarms.setNextAlert
    | AcquireWakeLock                         // AlarmAlertWakeLock.acquireCpuWakeLock
    | Send(b: Broadcast)
    | StartService(alarm: Alarm)              // start AlarmKlaxon with ALARM_ALERT_ACTION
    | Notify(id: int, n: Notification)
    | Cancel(id: int)

  /** The in-call hold applies: the property is on and a call is not idle. */
  predicate HeldForCall(env: Env)
  {
    env.inCallSnooze && env.callState != CALL_STATE_IDLE
  }

  /** The stale test, strict: exactly 30 minutes late is still delivered. */
  predicate Stale(alarm: Alarm, now: int)
  {
    now > alarm.time + STALE_WINDOW
  }

  /** getIntExtra(ALARM_KILLED_TIMEOUT, -1) */
  function KilledTimeout(i: Intent): int
  {
    match i.killedTimeout
    case Some(t) => t
    case None => -1
  }

  /** snooze(alarm): hold the alarm for one second and say so in its notification. */
  function SnoozeEffects(alarm: Alarm, now: int): seq<Effect>
  {
    [SaveSnooze(alarm.id, now + MILLISECOND_TO_SNOOZE), Notify(alarm.id, HeldSnooze(now + MILLISECOND_TO_SNOOZE))]
  }

  /** updateNotification(alarm, timeout): replace the ongoing notification by the silenced one. */
  function UpdateNotificationEffects(alarm: Option<Alarm>, timeout: int): seq<Effect>
  {
    match alarm
    case None => []
    case Some(a) => [Cancel(a.id), Notify(a.id, Silenced(timeout))]
  }

  /** The CANCEL_SNOOZE branch. */
  function CancelSnoozeEffects(alarm: Option<Alarm>): seq<Effect>
  {
    (match alarm
     case Some(a) => [DisableSnooze(a.id), SetNextAlert]
     case None => [SaveSnooze(INVALID_ALARM_ID, -1)])
    + [Send(SnoozeCancelled)]
  }

  /** Snooze disabled, then the alarm disabled if it does not repeat, else the next alert set. */
  function RescheduleEffects(alarm: Alarm): seq<Effect>
  {
    [DisableSnooze(alarm.id)] + (if !alarm.repeating then [EnableAlarm(alarm.id, false)] else [SetNextAlert])
  }

  /** Delivering a fresh alarm: wake lock, close dialogs, start playback, post the alert. */
  function DeliverEffects(alarm: Alarm): seq<Effect>
  {
    [AcquireWakeLock, Send(CloseSystemDialogs), StartService(alarm), Notify(alarm.id, Alert(alarm))]
  }

  /** The ALARM_ALERT_ACTION branch. */
  function AlertEffects(alarm: Option<Alarm>, env: Env): seq<Effect>
  {
    match alarm
    case None => [SetNextAlert]
    case Some(a) =>
      if HeldForCall(env) then SnoozeEffects(a, env.now)
      else RescheduleEffects(a) + (if Stale(a, env.now) then [] else DeliverEffects(a))
  }

  /**
    handleIntent: the calls made for one intent, in order. Only the intent's
    own alarm has its notification touched, only ALARM_KILLED cancels one,
    and the playback service is started only for a parsed alert that is
    neither held for a call nor stale.
   */
  function Effects(i: Intent, env: Env): (es: seq<Effect>)
    ensures forall k :: 0 <= k < |es| && (es[k].Notify? || es[k].Cancel?) ==>
              i.alarm.Some? && es[k].id == i.alarm.value.id
    ensures forall k :: 0 <= k < |es| && es[k].Cancel? ==> i.action == AlarmKilled
    ensures forall k :: 0 <= k < |es| && es[k].StartService? ==>
              && i.action == AlarmAlert && i.alarm == Some(es[k].alarm)
              && !HeldForCall(env) && !Stale(es[k].alarm, env.now)
    ensures i.action == OtherAction ==> es == []
  {
    match i.action
    case AlarmKilled => UpdateNotificationEffects(i.alarm, KilledTimeout(i))
    case CancelSnooze => CancelSnoozeEffects(i.alarm)
    case AlarmAlert => AlertEffects(i.alarm, env)
    case OtherAction => []
  }

  /** The notification table after one call: notify replaces, cancel removes. */
  function Post(m: map<int, Notification>, e: Effect): map<int, Notification>
  {
    match e
    case Notify(id, n) => m[id := n]
    case Cancel(id) => m - {id}
    case _ => m
  }

  /** The notification table after a list of calls. */
  function PostAll(m: map<int, Notification>, es: seq<Effect>): map<int, Notification>
    decreases |es|
  {
    if es == [] then m else PostAll(Post(m, es[0]), es[1..])
  }

  lemma {:induction false} PostAllConcat(m: map<int, Notification>, a: seq<Effect>, b: seq<Effect>)
    ensures PostAll(m, a + b) == PostAll(PostAll(m, a), b)
    decreases |a|
  {
    if a == [] {
      assert a + b == b;
    } else {
      assert (a + b)[1..] == a[1..] + b;
      PostAllConcat(Post(m, a[0]), a[1..], b);
    }
  }

  /** A call that leaves the notification table alone. */
  predicate Quiet(e: Effect)
  {
    !e.Notify? && !e.Cancel?
  }

  /** Calls that touch no notification leave the table as it was. */
  lemma {:induction false} QuietCallsKeepTable(m: map<int, Notification>, es: seq<Effect>)
    requires forall k :: 0 <= k < |es| ==> Quiet(es[k])
    ensures PostAll(m, es) == m
    decreases |es|
  {
    if es != [] {
      QuietCallsKeepTable(m, es[1..]);
    }
  }

  /** After calls that touch no notification, the table is what the last call makes of it. */
  lemma QuietThenOne(m: map<int, Notification>, q: seq<Effect>, e: Effect)
    requires forall k :: 0 <= k < |q| ==> Quiet(q[k])
    ensures PostAll(m, q + [e]) == Post(m, e)
  {
    PostAllConcat(m, q, [e]);
    QuietCallsKeepTable(m, q);
    assert [e][1..] == [];
  }

  /** An action other than ALARM_KILLED, CANCEL_SNOOZE and ALARM_ALERT_ACTION is ignored. */
  lemma UnknownActionIsIgnored(i: Intent, env: Env, m: map<int, Notification>)
    requires i.action == OtherAction
    ensures Effects(i, env) == [] && PostAll(m, Effects(i, env)) == m
  {
  }

  /**
    CANCEL_SNOOZE: with an alarm, its snooze is disabled and the next alert
    set; without one, every snooze is cleared. Either way exactly one
    broadcast is sent, ALARM_SNOOZE_CANCELLED, as the last call.
   */
  lemma CancelSnoozeBroadcastsOnceLast(i: Intent, env: Env)
    requires i.action == CancelSnooze
    ensures var es := Effects(i, env);
            && |es| >= 2 && es[|es| - 1] == Send(SnoozeCancelled)
            && (forall k :: 0 <= k < |es| - 1 ==> !es[k].Send?)
            && (i.alarm.Some? ==> es[..|es| - 1] == [DisableSnooze(i.alarm.value.id), SetNextAlert])
            && (i.alarm.None? ==> es[..|es| - 1] == [SaveSnooze(INVALID_ALARM_ID, -1)])
  {
  }

  /** An alert whose alarm did not parse only asks for the next alert to be set. */
  lemma UnparsedAlertOnlySetsNextAlert(i: Intent, env: Env)
    requires i.action == AlarmAlert && i.alarm.None?
    ensures Effects(i, env) == [SetNextAlert]
  {
  }

  /**
    The in-call hold: with the property on and a call in progress, the only
    calls are saving a snooze one second from now and posting the held
    notice under the alarm's id; the snooze is not disabled, the alarm is
    neither disabled nor rescheduled, and the playback service is not started.
   */
  lemma InCallHoldOnlySnoozes(a: Alarm, env: Env, m: map<int, Notification>)
    requires HeldForCall(env)
    ensures var es := Effects(Intent(AlarmAlert, Some(a), None), env);
            && es == [SaveSnooze(a.id, env.now + 1000), Notify(a.id, HeldSnooze(env.now + 1000))]
            && (forall e :: e in es ==> !e.StartService? && !e.DisableSnooze? && !e.EnableAlarm? && e != SetNextAlert)
            && PostAll(m, es) == m[a.id := HeldSnooze(env.now + 1000)]
  {
    QuietThenOne(m, [SaveSnooze(a.id, env.now + 1000)], Notify(a.id, HeldSnooze(env.now + 1000)));
  }

  /**
    Outside the hold, a non-repeating alarm is disabled and the next alert is
    not set, and a repeating alarm has its next alert set and is not
    disabled, whether or not it is stale.
   */
  lemma RepeatFlagPicksReschedule(a: Alarm, env: Env)
    requires !HeldForCall(env)
    ensures var es := Effects(Intent(AlarmAlert, Some(a), None), env);
            && es[0] == DisableSnooze(a.id)
            && (EnableAlarm(a.id, false) in es <==> !a.repeating)
            && (SetNextAlert in es <==> a.repeating)
            && (forall e :: e in es && e.EnableAlarm? ==> e == EnableAlarm(a.id, false))
  {
    var es := Effects(Intent(AlarmAlert, Some(a), None), env);
    assert es == RescheduleEffects(a) + (if Stale(a, env.now) then [] else DeliverEffects(a));
  }

  /**
    The stale guard is strict: outside the hold, the playback service is
    started, and a notification posted, exactly when the alarm is at most
    STALE_WINDOW overdue, so an alarm exactly 30 minutes late is still
    delivered and one a millisecond later is not.
   */
  lemma StaleWindowIsStrict(a: Alarm, env: Env)
    requires !HeldForCall(env)
    ensures var es := Effects(Intent(AlarmAlert, Some(a), None), env);
            && ((exists k :: 0 <= k < |es| && es[k].StartService?) <==> env.now <= a.time + STALE_WINDOW)
            && ((exists k :: 0 <= k < |es| && es[k].Notify?) <==> env.now <= a.time + STALE_WINDOW)
  {
    var es := Effects(Intent(AlarmAlert, Some(a), None), env);
    if !Stale(a, env.now) {
      assert es[|es| - 2].StartService? && es[|es| - 1].Notify?;
    }
  }

  /**
    A stale alarm is not delivered: no service start and no notification
    call, so the notification table is unchanged; but its snooze has been
    disabled and it has been disabled or rescheduled already.
   */
  lemma StaleAlarmIsDropped(a: Alarm, env: Env, m: map<int, Notification>)
    requires !HeldForCall(env) && Stale(a, env.now)
    ensures var es := Effects(Intent(AlarmAlert, Some(a), None), env);
            && es == RescheduleEffects(a)
            && (forall k :: 0 <= k < |es| ==> Quiet(es[k]) && !es[k].StartService?)
            && PostAll(m, es) == m
  {
    QuietCallsKeepTable(m, RescheduleEffects(a));
  }

  /**
    A fresh alarm outside the hold: after the reschedule calls, the wake lock,
    the close-dialogs broadcast, exactly one start of the playback service
    with the alarm, and exactly one notification call, the last, which posts
    the ongoing alert under the alarm's id.
   */
  lemma FreshAlarmIsDelivered(a: Alarm, env: Env, m: map<int, Notification>)
    requires !HeldForCall(env) && !Stale(a, env.now)
    ensures var es := Effects(Intent(AlarmAlert, Some(a), None), env);
            && es == RescheduleEffects(a) + [AcquireWakeLock, Send(CloseSystemDialogs), StartService(a),
                                             Notify(a.id, Alert(a))]
            && (forall k :: 0 <= k < |es| && es[k].StartService? ==> k == |es| - 2)
            && (forall k :: 0 <= k < |es| && !Quiet(es[k]) ==> k == |es| - 1)
            && PostAll(m, es) == m[a.id := Alert(a)]
  {
    var q := RescheduleEffects(a) + [AcquireWakeLock, Send(CloseSystemDialogs), StartService(a)];
    assert Effects(Intent(AlarmAlert, Some(a), None), env) == q + [Notify(a.id, Alert(a))];
    QuietThenOne(m, q, Notify(a.id, Alert(a)));
  }

  /**
    ALARM_KILLED: without an alarm nothing happens; with one, its
    notification is cancelled and then the silenced notice is posted, with
    the timeout extra or -1 when it is missing.
   */
  lemma KilledAlarmIsSilenced(i: Intent, env: Env, m: map<int, Notification>)
    requires i.action == AlarmKilled
    ensures i.alarm.None? ==> Effects(i, env) == [] && PostAll(m, Effects(i, env)) == m
    ensures i.alarm.Some? ==>
              var id := i.alarm.value.id;
              var t := if i.killedTimeout.Some? then i.killedTimeout.value else -1;
              && Effects(i, env) == [Cancel(id), Notify(id, Silenced(t))]
              && PostAll(m, Effects(i, env)) == m[id := Silenced(t)]
  {
    if i.alarm.Some? {
      var id := i.alarm.value.id;
      var t := KilledTimeout(i);
      PostAllConcat(m, [Cancel(id)], [Notify(id, Silenced(t))]);
      assert [Cancel(id)][1..] == [] && [Notify(id, Silenced(t))][1..] == [];
      assert [Cancel(id)] + [Notify(id, Silenced(t))] == [Cancel(id), Notify(id, Silenced(t))];
      assert (m - {id})[id := Silenced(t)] == m[id := Silenced(t)];
    }
  }

  class AlarmReceiver {
    var log: seq<Effect>                          // the calls made so far, in order
    var notifications: map<int, Notification>     // what NotificationManager shows, by alarm id
    ghost var shownAtStart: map<int, Notification>

    /** The notification table is what the logged calls made of the table at the start. */
    ghost predicate Valid()
      reads this
    {
      notifications == PostAll(shownAtStart, log)
    }

    constructor (shown: map<int, Notification>)
      ensures Valid() && log == [] && notifications == shown
    {
      log, notifications, shownAtStart := [], shown, shown;
    }

    /** Make one call: log it and apply it to the notification table. */
    method Emit(e: Effect)
      requires Valid()
      modifies this
      ensures Valid() && shownAtStart == old(shownAtStart)
      ensures log == old(log) + [e] && notifications == Post(old(notifications), e)
    {
      PostAllConcat(shownAtStart, log, [e]);
      log := log + [e];
      notifications := Post(notifications, e);
    }

    /** snooze(alarm, context) */
    method Snooze(alarm: Alarm, now: int)
      requires Valid()
      modifies this
      ensures Valid() && shownAtStart == old(shownAtStart)
      ensures log == old(log) + SnoozeEffects(alarm, now)
    {
      var snoozeTime := now + MILLISECOND_TO_SNOOZE;
      Emit(SaveSnooze(alarm.id, snoozeTime));
      Emit(Notify(alarm.id, HeldSnooze(snoozeTime)));
    }

    /** updateNotification(context, alarm, timeout) */
    method UpdateNotification(alarm: Option<Alarm>, timeout: int)
      requires Valid()
      modifies this
      ensures Valid() && shownAtStart == old(shownAtStart)
      ensures log == old(log) + UpdateNotificationEffects(alarm, timeout)
    {
      if alarm.None? {
        return;
      }
      Emit(Cancel(alarm.value.id));
      Emit(Notify(alarm.value.id, Silenced(timeout)));
    }

    /**
      handleIntent(context, intent): makes exactly the calls Effects lists,
      in that order, and leaves the notification table those calls make.
     */
    method HandleIntent(intent: Intent, env: Env)
      requires Valid()
      modifies this
      ensures Valid() && shownAtStart == old(shownAtStart)
      ensures log == old(log) + Effects(intent, env)
      ensures notifications == PostAll(old(notifications), Effects(intent, env))
    {
      ghost var before := log;
      if intent.action == AlarmKilled {
        UpdateNotification(intent.alarm, KilledTimeout(intent));
      } else if intent.action == CancelSnooze {
        if intent.alarm.Some? {
          Emit(DisableSnooze(intent.alarm.value.id));
          Emit(SetNextAlert);
        } else {
          Emit(SaveSnooze(INVALID_ALARM_ID, -1));
        }
        Emit(Send(SnoozeCancelled));
      } else if intent.action == AlarmAlert {
        HandleAlert(intent.alarm, env);
      }
      PostAllConcat(shownAtStart, before, Effects(intent, env));
    }

    /** The ALARM_ALERT_ACTION part of handleIntent. */
    method HandleAlert(parsed: Option<Alarm>, env: Env)
      requires Valid()
      modifies this
      ensures Valid() && shownAtStart == old(shownAtStart)
      ensures log == old(log) + AlertEffects(parsed, env)
    {
      if parsed.None? {
        Emit(SetNextAlert);
        return;
      }
      var alarm := parsed.value;
      if env.inCallSnooze {
        if env.callState != CALL_STATE_IDLE {
          Snooze(alarm, env.now);
          return;
        }
      }
      Emit(DisableSnooze(alarm.id));
      if !alarm.repeating {
        Emit(EnableAlarm(alarm.id, false));
      } else {
        Emit(SetNextAlert);
      }
      if env.now > alarm.time + STALE_WINDOW {
        return;
      }
      Emit(AcquireWakeLock);
      Emit(Send(CloseSystemDialogs));
      Emit(StartService(alarm));
      Emit(Notify(alarm.id, Alert(alarm)));
    }
  }
}
