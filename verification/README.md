# DeskClock alarm alert delivery, modelled in Dafny

This project models the two classes of the DeskClock alarm application that
act once an alarm fires:

- **AlarmKlaxon**, the service that plays the alarm. It is modelled as the
  class `Klaxon.AlarmKlaxon` with the service's fields (`mPlaying`, the media
  player, `mVolme`, `Count`, `mCurrentVolme`, `mCurrentAlarm`,
  `mInitialCallState`, `mPoweroffAlarm`, `mStartTime`). The handler's
  pending messages (`KILLER`, `VOLUM_DELAY`, `VIBRATE_DELAY`, each with its
  delay) are a `seq`. The device is abstract state: the alarm stream volume,
  the vibrator (off, or running one of the two patterns), the player (its
  sound, whether it started). The broadcasts and `stopSelf` calls the service
  makes go into a log.
- **AlarmReceiver**, the broadcast receiver that decides what to do with an
  alarm intent. `Receiver.Effects` gives, for one intent, the ordered list of
  calls `handleIntent` makes: snooze and alarm persistence, wake lock,
  broadcasts, starting the service, and notifying or cancelling by alarm id.
  The class `Receiver.AlarmReceiver` makes those calls one at a time, as the
  source does, into a call log and a notification table keyed by alarm id. It
  is proved to make exactly the listed calls.

The files:

- `alarms.dfy`: the alarm record and the shared constants.
- `handler_queue.dfy`: the handler queue.
- `volume_ramp.dfy`: the volume ramp as a pure tick function, with lemmas
  about chains of ticks.
- `klaxon.dfy`: the service.
- `receiver.dfy`: the receiver.
- `delivery.dfy`: how a kill broadcast from the service becomes the
  receiver's `ALARM_KILLED` intent.

The platform is not modelled. Its answers come in as parameters: the call
state, the current time, the auto-silence minutes, the in-call-snooze system
property, and whether each data-source attempt opens and prepares.

Where this model follows the code rather than the intended design:

- A `KILLER` timeout sends the *snooze* broadcast and `stopSelf`. The kill
  broadcast on that path is commented out.
- A call in progress when `play` runs selects the in-call sound. The ramp
  still starts, because `startAlarm` runs for that sound too.
- `startAlarm` makes the current alarm stream volume v the ramp target and
  starts the player at v. 100 ms later the first tick sets the stream to
  `Count + 1`, so the volume first drops below v and only then climbs
  (`VolumeRamp.FirstTickLowersStream`).
- `Count` and `mCurrentVolme` start at 0 and are never reset. They are
  therefore always equal. A second alarm played by the same service climbs
  only above the previous target, or plays at full volume with no ramp
  (`VolumeRamp.SecondSessionRamp`).
- An exception in `prepare`/`start` comes after `startVolume` has already
  posted a `VOLUM_DELAY`. If the fallback then reaches `startVolume` too, two
  ramp ticks are pending. The ramp still stops: every delivered `VOLUM_DELAY`
  lowers the steps left plus the ticks pending by exactly one, and no other
  message changes that sum (`Klaxon.AlarmKlaxon.Deliver`).
- The receiver's stale check comes after the snooze is disabled and the
  alarm is disabled or rescheduled.
- `ALARM_KILLED` makes two notification calls for one id: cancel, then
  notify. The receiver never reads the `ALARM_REPLACED` extra. So when a
  replaced alarm and its replacement share an id, the new ongoing alert is
  overwritten by the "silenced" notice (`Delivery.SameIdReplacementHidesAlert`).
  This assumes the receiver finishes the alert that started the service
  before it handles the kill broadcast. `onReceive` posts each intent to the
  shared `AsyncHandler`; the model treats the intents as handled one after
  the other, in order of arrival.

## Model

| member | source | states |
|---|---|---|
| `HandlerQueue.RemoveMessages` | src/com/android/deskclock/AlarmKlaxon.java:326-331 | removeMessages(what) leaves no message of that kind; every other kind keeps its count; the membership of other messages is unchanged |
| `HandlerQueue.RemoveMessagesConcat` | src/com/android/deskclock/AlarmKlaxon.java:326-331 | removing from two queues placed one after the other is removing from each, so the remaining messages keep their order |
| `HandlerQueue.RemoveMessagesOne` | src/com/android/deskclock/AlarmKlaxon.java:326-331 | a single message is dropped iff it is of the removed kind |
| `HandlerQueue.RemoveMessagesMultiset` | src/com/android/deskclock/AlarmKlaxon.java:326-331 | every message of another kind keeps its multiplicity; none of the removed kind is left |
| `HandlerQueue.RemoveMessagesAbsent` | src/com/android/deskclock/AlarmKlaxon.java:329-331 | a queue with no message of the kind is left exactly as it was |
| `HandlerQueue.PendingWithout` | src/com/android/deskclock/AlarmKlaxon.java:70-72 | delivering one message lowers the pending count of its kind by one and leaves the other kinds alone |
| `VolumeRamp.Step` | src/com/android/deskclock/AlarmKlaxon.java:87-104 | a VOLUM_DELAY tick re-arms iff a player exists and Count < mVolme. When it re-arms, Count and mCurrentVolme each rise by one and the stream is set to the new volume. Otherwise the stream is set to mVolme. mVolme and mCurrentVolme - Count never change |
| `VolumeRamp.Trace` | src/com/android/deskclock/AlarmKlaxon.java:87-104 | the chain of self-re-arming ticks ends; its last stream volume is always mVolme |
| `VolumeRamp.Final` | src/com/android/deskclock/AlarmKlaxon.java:87-104 | the ramp state when the chain stops keeps mVolme and mCurrentVolme - Count |
| `VolumeRamp.RampClimbsToTarget` | src/com/android/deskclock/AlarmKlaxon.java:87-104 | from Count == mCurrentVolme <= mVolme, the stream goes Count+1, ..., mVolme, then mVolme once more. That is mVolme - Count re-arming ticks and one final tick, which leaves Count == mVolme |
| `VolumeRamp.RampAboveTargetResets` | src/com/android/deskclock/AlarmKlaxon.java:96-99 | with Count >= mVolme, one tick sets the stream to mVolme and nothing is re-armed |
| `VolumeRamp.RampIsBoundedAndMonotone` | src/com/android/deskclock/AlarmKlaxon.java:87-104 | the volumes the ticks of one chain set never exceed mVolme and never decrease from tick to tick; from Count >= 0 it re-arms at most mVolme times |
| `VolumeRamp.FirstTickLowersStream` | src/com/android/deskclock/AlarmKlaxon.java:87-104 | with Count + 1 below the target v at which the player started, the first tick sets the stream to Count + 1, below v, and re-arms |
| `VolumeRamp.SecondSessionRamp` | src/com/android/deskclock/AlarmKlaxon.java:62-64 | because Count is never reset, a second ramp after a full first one to v1 only climbs from v1. At or below v1 it sets the target at once |
| `Klaxon.KillMinutes` | src/com/android/deskclock/AlarmKlaxon.java:192-193 | the reported minutes are the nearest whole minute to the elapsed milliseconds, halves rounded up |
| `Klaxon.FirstSource` | src/com/android/deskclock/AlarmKlaxon.java:216-253 | the in-call sound iff a call is not idle; the alarm's own alert iff idle and the alert is set; the default sound otherwise |
| `Klaxon.AudioFor` | src/com/android/deskclock/AlarmKlaxon.java:216-272 | a silent alarm never creates a player. A first attempt that does not throw keeps the first sound, started iff the stream volume is not zero. One that throws falls back to the default sound, started iff the fallback does not throw and the volume is not zero. One ramp is started per attempt that reaches startVolume (a non-zero volume and a data source that opened), so at most two, and two only when the first attempt failed in prepare. A started player always has a ramp scheduled |
| `Klaxon.PlayQueuePending` | src/com/android/deskclock/AlarmKlaxon.java:275-286 | after play: one KILLER (delay minutes*60000) is pending iff the auto-silence minutes are not -1. One VIBRATE_DELAY (3450 ms) is pending iff the alarm vibrates. There is one VOLUM_DELAY per startVolume call |
| `Klaxon.AlarmKlaxon.constructor` | src/com/android/deskclock/AlarmKlaxon.java:53-64 | the initial field values: not playing, no player, empty queue, zero ramp, no current alarm, idle initial call state, power-off flag false |
| `Klaxon.AlarmKlaxon.Stop` | src/com/android/deskclock/AlarmKlaxon.java:324-346 | the queue is empty whatever mPlaying was. Afterwards nothing plays, there is no player and the vibrator is off. The stream volume is restored to mVolme iff a player existed while playing. Nothing else changes. A call when nothing plays changes nothing, so stop is idempotent |
| `Klaxon.AlarmKlaxon.DisableKiller` | src/com/android/deskclock/AlarmKlaxon.java:367-369 | removes exactly the KILLER messages |
| `Klaxon.AlarmKlaxon.EnableKiller` | src/com/android/deskclock/AlarmKlaxon.java:355-365 | appends one KILLER at minutes*60000 unless minutes is -1 |
| `Klaxon.AlarmKlaxon.StartVolume` | src/com/android/deskclock/AlarmKlaxon.java:305-309 | records the ramp target and appends one VOLUM_DELAY at 100 ms |
| `Klaxon.AlarmKlaxon.StartAlarm` | src/com/android/deskclock/AlarmKlaxon.java:290-304 | with a zero stream volume it does nothing and does not throw. Otherwise it starts the ramp first, then throws on a prepare failure or starts the player |
| `Klaxon.AlarmKlaxon.TrySource` | src/com/android/deskclock/AlarmKlaxon.java:242-271 | one data-source attempt: it throws at setDataSource or inside startAlarm, and the player records the sound it was given |
| `Klaxon.AlarmKlaxon.PlayAudio` | src/com/android/deskclock/AlarmKlaxon.java:216-272 | the audio part of play, as AudioFor describes: the first sound, then a single fallback to the default sound after an exception |
| `Klaxon.AlarmKlaxon.Play` | src/com/android/deskclock/AlarmKlaxon.java:208-287 | play is stop, then the audio, the vibrator and the killer. It ends playing since now. The stream volume is left where stop put it. The queue is exactly the ramp, vibrate and killer messages. The vibrator runs the alert pattern iff the alarm vibrates. The service invariant holds |
| `Klaxon.AlarmKlaxon.HandleKiller` | src/com/android/deskclock/AlarmKlaxon.java:74-86 | the killer logs the snooze broadcast (not a kill broadcast), then stopSelf, then a power-off iff mPoweroffAlarm |
| `Klaxon.AlarmKlaxon.HandleVolumeDelay` | src/com/android/deskclock/AlarmKlaxon.java:87-104 | one tick moves the ramp fields, the stream volume and the queue as VolumeRamp.Step says. Count == mCurrentVolme is kept |
| `Klaxon.AlarmKlaxon.HandleVibrateDelay` | src/com/android/deskclock/AlarmKlaxon.java:105-107 | re-issues the steady pattern, repeating from index 0, and posts nothing |
| `Klaxon.AlarmKlaxon.Deliver` | src/com/android/deskclock/AlarmKlaxon.java:70-112 | delivering a pending message removes it and runs the handler for its kind. KILLER and VIBRATE_DELAY never re-arm. The service invariant is kept. The ramp ticks still to come (steps left to mVolme plus VOLUM_DELAYs pending) drop by exactly one per VOLUM_DELAY and are unchanged by the other kinds, so the ramp stops even with two ramps pending |
| `Klaxon.AlarmKlaxon.OnCallStateChanged` | src/com/android/deskclock/AlarmKlaxon.java:114-127 | a kill broadcast (replaced = false, minutes since start) and stopSelf are logged iff the new state is not idle and differs from mInitialCallState; otherwise nothing |
| `Klaxon.AlarmKlaxon.Replace` | src/com/android/deskclock/AlarmKlaxon.java:178-188 | a current alarm is reported killed with replaced = true and minutes since its start; the new alarm then plays as play leaves it, becomes current, and its call state is recorded; the power-off flag is untouched |
| `Klaxon.AlarmKlaxon.OnStartCommand` | src/com/android/deskclock/AlarmKlaxon.java:157-189 | a null intent or an unparsed alarm gives stopSelf and START_NOT_STICKY. Otherwise a current alarm is first reported killed with replaced = true. Then the new alarm plays, becomes current, and its call state is recorded, with START_STICKY. The service is then left as play leaves it: stream volume, ramp target, Count and the vibrator included. The START_NOT_STICKY paths change nothing but the log and the power-off flag. mPoweroffAlarm once true stays true |
| `Klaxon.AlarmKlaxon.OnPlayerError` | src/com/android/deskclock/AlarmKlaxon.java:231-240 | the error listener drops the player, and the invariant still holds |
| `Klaxon.AlarmKlaxon.OnDestroy` | src/com/android/deskclock/AlarmKlaxon.java:141-150 | stop, then the ALARM_DONE broadcast: the queue is empty, nothing plays, the stream is restored as stop restores it, and the ramp fields, the current alarm, the call state, the power-off flag and the start time are unchanged |
| `Receiver.UnknownActionIsIgnored` | src/com/android/deskclock/AlarmReceiver.java:83-86 | any other action makes no calls and leaves the notifications alone |
| `Receiver.CancelSnoozeBroadcastsOnceLast` | src/com/android/deskclock/AlarmReceiver.java:64-82 | CANCEL_SNOOZE with an alarm disables its snooze, then sets the next alert. Without an alarm it saves the invalid snooze (INVALID_ALARM_ID, -1). Either way exactly one broadcast, ALARM_SNOOZE_CANCELLED, comes last |
| `Receiver.UnparsedAlertOnlySetsNextAlert` | src/com/android/deskclock/AlarmReceiver.java:101-106 | an alert whose alarm did not parse only sets the next alert |
| `Receiver.InCallHoldOnlySnoozes` | src/com/android/deskclock/AlarmReceiver.java:113-120 | with the in-call property on and a call not idle, the only calls are saveSnoozeAlert(id, now+1000) and one notify of the held notice under id. There is no snooze disable, no enable or next alert, and no service start |
| `Receiver.RepeatFlagPicksReschedule` | src/com/android/deskclock/AlarmReceiver.java:122-131 | outside the hold, the snooze is disabled first. A non-repeating alarm gets enableAlarm(id, false) and no setNextAlert; a repeating alarm gets setNextAlert and no enableAlarm |
| `Receiver.StaleWindowIsStrict` | src/com/android/deskclock/AlarmReceiver.java:139-142 | outside the hold, the service is started and a notification posted iff now <= time + 30 min, so exactly 30 minutes late is still delivered |
| `Receiver.StaleAlarmIsDropped` | src/com/android/deskclock/AlarmReceiver.java:122-142 | a stale alarm gets only the reschedule calls: no service start, no notification call, and the notification table is unchanged |
| `Receiver.FreshAlarmIsDelivered` | src/com/android/deskclock/AlarmReceiver.java:144-223 | a fresh alarm outside the hold gets, after the reschedule calls, the wake lock, the close-dialogs broadcast, exactly one service start and, last, exactly one notification call: the ongoing alert under its id |
| `Receiver.KilledAlarmIsSilenced` | src/com/android/deskclock/AlarmReceiver.java:273-303 | ALARM_KILLED without an alarm makes no calls. With one, cancel(id) comes strictly before notify(id) of the silenced notice, whose timeout defaults to -1. The table ends with the silenced notice under id |
| `Receiver.AlarmReceiver.constructor` | src/com/android/deskclock/AlarmReceiver.java:268-271 | starts with an empty call log over the given notification table |
| `Receiver.AlarmReceiver.Emit` | src/com/android/deskclock/AlarmReceiver.java:222-223 | one call: it is logged, and notify replaces or cancel removes the entry of its id |
| `Receiver.AlarmReceiver.Snooze` | src/com/android/deskclock/AlarmReceiver.java:234-265 | logs exactly the held-snooze calls, in order |
| `Receiver.AlarmReceiver.UpdateNotification` | src/com/android/deskclock/AlarmReceiver.java:273-303 | logs exactly the silenced-notice calls, in order; nothing for a null alarm |
| `Receiver.AlarmReceiver.HandleAlert` | src/com/android/deskclock/AlarmReceiver.java:88-223 | logs exactly the alert-branch calls, in order |
| `Receiver.Effects` | src/com/android/deskclock/AlarmReceiver.java:57-86 | handleIntent touches only the notification of the intent's own alarm, cancels one only for ALARM_KILLED, starts the playback service only for a parsed alert neither held for a call nor stale, and ignores other actions |
| `Receiver.AlarmReceiver.HandleIntent` | src/com/android/deskclock/AlarmReceiver.java:57-86 | handleIntent makes exactly the calls Effects lists, in order. The notification table ends as those calls leave it |
| `Delivery.KilledIntent` | src/com/android/deskclock/AlarmKlaxon.java:191-199 | the ALARM_KILLED intent carries the alarm, and its timeout extra is the broadcast's minutes |
| `Delivery.KillBroadcastSilencesNotification` | src/com/android/deskclock/AlarmReceiver.java:58-63 | any kill broadcast with an alarm, replaced or not, ends with the silenced notice under that alarm's id |
| `Delivery.SameIdReplacementHidesAlert` | src/com/android/deskclock/AlarmKlaxon.java:178-182 | a fresh alert b posts its ongoing alert. The replacement kill of a playing alarm a with the same id then overwrites it with the silenced notice |

## Left out

- Media player, audio manager, vibrator, telephony and ringtone manager are abstract state or parameters. Whether a data source opens or prepares is an input per attempt.
- The in-call volume 0.125 set with `setVolume` is not modelled. Only the choice of the in-call sound is.
- Handler timing: a message's delay is recorded, but the order of delivery by time is not. `Deliver` may deliver any pending message, and the handler's clamping of negative delays to zero is not modelled.
- `Math.round` on a double and the `(int)` cast: `KillMinutes` is exact integer rounding. It agrees with the source while the elapsed milliseconds stay below 2^53 and the minutes fit in 32 bits.
- Reading the auto-silence preference and `Integer.parseInt` (and the exception it can throw): the minutes are a given integer.
- Listener registration and CPU wake lock in `onCreate`/`onDestroy`, `onBind`, and `goAsync`, the wake lock and `AsyncHandler` in `onReceive`: platform plumbing.
- `Alarms.poweroffImme`, `Alarms.saveSnoozeAlert`, `disableSnoozeAlert`, `enableAlarm`, `setNextAlert`: logged as calls; their bodies (Alarms.java) are not part of this model, nor is what `stopSelf` later triggers (modelled separately as `OnDestroy`).
- Notification construction (builders, pending intents, icons, labels, formatted times): only the id, the variant and the order of cancel and notify are modelled.
- Parcel unmarshalling and the `hasExtra` test: the alarm is present or not.
- Logging.
