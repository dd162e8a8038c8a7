/**
  How the two components meet: a kill broadcast from the playback service
  arrives at the receiver as an ALARM_KILLED intent carrying the alarm and the
  minutes, while the receiver ignores the ALARM_REPLACED extra.
 */
module Delivery {
  import opened Alarms
  import Klaxon
  import Receiver

  /** The ALARM_KILLED intent a kill broadcast becomes; the replaced flag travels but is not read. */
  function KilledIntent(e: Klaxon.ServiceEvent): (i: Receiver.Intent)
    requires e.KillBroadcast?
    ensures i.action == Receiver.AlarmKilled && i.alarm == e.alarm
    ensures Receiver.KilledTimeout(i) == e.minutes
  {
    Receiver.Intent(Receiver.AlarmKilled, e.alarm, Some(e.minutes))
  }

  /**
    A kill broadcast for an alarm replaces that alarm's notification with the
    silenced notice showing the broadcast's minutes, whether or not the alarm
    was replaced by a newer one.
   */
  lemma KillBroadcastSilencesNotification(a: Alarm, minutes: int, replaced: bool, env: Receiver.Env,
                                          m: map<int, Receiver.Notification>)
    ensures var i := KilledIntent(Klaxon.KillBroadcast(Some(a), minutes, replaced));
            Receiver.PostAll(m, Receiver.Effects(i, env)) == m[a.id := Receiver.Silenced(minutes)]
  {
    Receiver.KilledAlarmIsSilenced(KilledIntent(Klaxon.KillBroadcast(Some(a), minutes, replaced)), env, m);
  }

  /**
    When a fresh alert `b` is delivered while `a` plays, the service reports
    `a` killed as replaced; if both carry the same id, the ongoing alert the
    receiver just posted for `b` is replaced by the silenced notice although
    `b` is playing.
   */
  lemma SameIdReplacementHidesAlert(a: Alarm, b: Alarm, minutes: int, env: Receiver.Env,
                                    m: map<int, Receiver.Notification>)
    requires a.id == b.id && !Receiver.HeldForCall(env) && !Receiver.Stale(b, env.now)
    ensures var shown := Receiver.PostAll(m, Receiver.Effects(Receiver.Intent(Receiver.AlarmAlert, Some(b), None), env));
            var killed := KilledIntent(Klaxon.KillBroadcast(Some(a), minutes, true));
            var after := Receiver.PostAll(shown, Receiver.Effects(killed, env));
            && b.id in shown && shown[b.id] == Receiver.Alert(b)
            && b.id in after && after[b.id] == Receiver.Silenced(minutes)
  {
    Receiver.FreshAlarmIsDelivered(b, env, m);
    var shown := Receiver.PostAll(m, Receiver.Effects(Receiver.Intent(Receiver.AlarmAlert, Some(b), None), env));
    KillBroadcastSilencesNotification(a, minutes, true, env, shown);
  }
}
