/**
  The alarm record both the playback service and the broadcast receiver read,
  reduced to the fields their decisions depend on, and the constants they share.
  Alarm.java and Alarms.java themselves are not part of this model.
 */
module Alarms {

  /** One alarm occurrence, as unparcelled from an intent. */
  datatype Alarm = Alarm(
    id: int,
    time: int,          // scheduled fire time, milliseconds since the epoch
    vibrate: bool,
    silent: bool,
    hasAlert: bool,     // false when the stored alert URI is null (use the default alarm sound)
    repeating: bool     // daysOfWeek.isRepeatSet()
  )

  datatype Option<T> = None | Some(value: T)

  /** TelephonyManager.CALL_STATE_IDLE; every other call state counts as a call in progress. */
  const CALL_STATE_IDLE: int := 0

  /** DateUtils.MINUTE_IN_MILLIS */
  const MINUTE_IN_MILLIS: int := 60000

  /** Alarms.INVALID_ALARM_ID */
  const INVALID_ALARM_ID: int := -1
}
