/**
  AlarmKlaxon, the service that plays an alarm: its fields, its handler
  queue, the vibrator, the alarm stream volume and the media player it drives,
  and the broadcasts and stopSelf requests it issues. The platform objects are
  abstract state: the media player is present or not, knows which sound it was
  given and whether it was started; the vibrator is off or runs a pattern; the
  stream volume is an integer. What the platform answers (the call state, the
  current time, the auto-silence preference, whether a data source opens and
  prepares) comes in as parameters.
 */
module Klaxon {
  import opened Alarms
  import opened HandlerQueue
  import VolumeRamp

  /** The vibrator delay after which the pattern is re-issued, in milliseconds. */
  const VIBRATE_DELAY_MILLIS: int := 3450

  /** Which sound the media player was given. */
  datatype Source = AlarmSound | DefaultSound | InCallSound

  /** The media player: its data source and whether prepare() and start() ran. */
  datatype Player = Player(source: Source, started: bool)

  /** sVibratePattern1 (the alert pattern, repeated from index 1) and sVibratePattern (repeated from 0). */
  datatype Pattern = AlertPattern | SteadyPattern

  datatype Vibration = Off | Vibrating(pattern: Pattern, repeat: int)

  /**
    How one attempt to play a data source goes: setDataSource throws, or it
    succeeds and a later call inside startAlarm (prepare, start) throws, or it
    all succeeds.
   */
  datatype Attempt = SourceFails | PrepareFails | Starts

  /** What the service tells the rest of the system. */
  datatype ServiceEvent =
    | KillBroadcast(alarm: Option<Alarm>, minutes: int, replaced: bool)   // ALARM_KILLED
    | SnoozeBroadcast                                                    // ALARM_SNOOZE_ACTION
    | DoneBroadcast                                                      // ALARM_DONE_ACTION
    | StopSelf
    | PowerOff                                                           // Alarms.poweroffImme

  /** The intent onStartCommand receives: the alarm extra (if it parsed) and the power-off flag. */
  datatype StartIntent = StartIntent(alarm: Option<Alarm>, poweroffFlag: bool)

  datatype StartResult = StartSticky | StartNotSticky

  /**
    The minutes reported in a kill broadcast: Math.round(millis / 60000.0),
    that is the nearest whole minute with halves rounded up.
   */
  function KillMinutes(millis: int): (m: int)
    ensures m * MINUTE_IN_MILLIS - MINUTE_IN_MILLIS / 2 <= millis < m * MINUTE_IN_MILLIS + MINUTE_IN_MILLIS / 2
  {
    (millis + MINUTE_IN_MILLIS / 2) / MINUTE_IN_MILLIS
  }

  /** The call-state listener kills the alarm on a call state that is neither idle nor the one recorded at start. */
  predicate CallKills(state: int, initialCallState: int)
  {
    state != CALL_STATE_IDLE && state != initialCallState
  }

  /** The sound play() tries first: the in-call resource during a call, else the alarm's alert or the default. */
  function FirstSource(alarm: Alarm, callState: int): (s: Source)
    ensures s == InCallSound <==> callState != CALL_STATE_IDLE
    ensures s == AlarmSound <==> callState == CALL_STATE_IDLE && alarm.hasAlert
  {
    if callState != CALL_STATE_IDLE then InCallSound
    else if alarm.hasAlert then AlarmSound
    else DefaultSound
  }

  /** Whether an attempt throws: at setDataSource, or in startAlarm, which only prepares when the volume is not zero. */
  predicate Throws(a: Attempt, stream: int)
  {
    a == SourceFails || (a == PrepareFails && stream != 0)
  }

  /** Whether an attempt gets as far as startVolume, which posts a ramp tick. */
  predicate Ramps(a: Attempt, stream: int)
  {
    a != SourceFails && stream != 0
  }

  /** The audible part of play(): the media player it leaves and how many times it called startVolume. */
  datatype Audio = Audio(player: Option<Player>, ramps: nat)

  /**
    The audio play() leaves for `alarm`, with the alarm stream at `stream`,
    when the first data source goes as `first` and the default-sound
    fallback as `fallback`.
   */
  function AudioFor(alarm: Alarm, callState: int, stream: int, first: Attempt, fallback: Attempt): (a: Audio)
    ensures alarm.silent <==> a.player.None?
    ensures !alarm.silent && !Throws(first, stream) ==>
              a.player == Some(Player(FirstSource(alarm, callState), stream != 0))
    ensures !alarm.silent && Throws(first, stream) ==>
              a.player == Some(Player(DefaultSound, !Throws(fallback, stream) && stream != 0))
    ensures !alarm.silent && Ramps(first, stream) ==> 1 <= a.ramps
    ensures !alarm.silent ==>
              a.ramps == (if Ramps(first, stream) then 1 else 0)
                         + (if Throws(first, stream) && Ramps(fallback, stream) then 1 else 0)
    ensures alarm.silent || stream == 0 ==> a.ramps == 0
    ensures a.player.Some? && a.player.value.started ==> stream != 0 && 1 <= a.ramps
    ensures a.ramps <= 2
    ensures a.ramps == 2 ==> first == PrepareFails && fallback != SourceFails
    ensures a.player.Some? && a.player.value.source != DefaultSound ==>
              !Throws(first, stream) && a.player.value.source == FirstSource(alarm, callState)
  {
    if alarm.silent then Audio(None, 0)
    else
      var r1 := if Ramps(first, stream) then 1 else 0;
      if !Throws(first, stream) then
        Audio(Some(Player(FirstSource(alarm, callState), stream != 0)), r1)
      else
        var r2 := if Ramps(fallback, stream) then 1 else 0;
        Audio(Some(Player(DefaultSound, !Throws(fallback, stream) && stream != 0)), r1 + r2)
  }

  /** `n` VOLUM_DELAY messages posted by startVolume. */
  function RampPosts(n: nat): (q: seq<Message>)
    ensures |q| == n
  {
    seq(n, _ => Message(VolumeDelay, VolumeRamp.FIRST_TICK_DELAY))
  }

  /** The KILLER message enableKiller posts: none when the auto-silence setting is -1 ("never"). */
  function KillerPosts(minutes: int): seq<Message>
  {
    if minutes != -1 then [Message(Killer, minutes * MINUTE_IN_MILLIS)] else []
  }

  function VibratePosts(vibrate: bool): seq<Message>
  {
    if vibrate then [Message(VibrateDelay, VIBRATE_DELAY_MILLIS)] else []
  }

  /** The handler queue play() leaves: stop() empties it, then the ramp, vibration and killer messages follow. */
  function PlayQueue(ramps: nat, vibrate: bool, minutes: int): seq<Message>
  {
    RampPosts(ramps) + VibratePosts(vibrate) + KillerPosts(minutes)
  }

  lemma {:induction false} RampPostsPending(n: nat, w: What)
    ensures Pending(RampPosts(n), w) == if w == VolumeDelay then n else 0
  {
    if n > 0 {
      assert RampPosts(n) == [Message(VolumeDelay, VolumeRamp.FIRST_TICK_DELAY)] + RampPosts(n - 1);
      PendingConcat([Message(VolumeDelay, VolumeRamp.FIRST_TICK_DELAY)], RampPosts(n - 1), w);
      RampPostsPending(n - 1, w);
    }
  }

  /**
    After play(): exactly one KILLER is pending, with delay minutes * 60000,
    when the auto-silence setting is not -1, and none when it is; exactly one
    VIBRATE_DELAY (3450 ms) when the alarm vibrates, none otherwise; one
    VOLUM_DELAY per startVolume call.
   */
  lemma PlayQueuePending(ramps: nat, vibrate: bool, minutes: int)
    ensures Pending(PlayQueue(ramps, vibrate, minutes), Killer) == if minutes != -1 then 1 else 0
    ensures Pending(PlayQueue(ramps, vibrate, minutes), VibrateDelay) == if vibrate then 1 else 0
    ensures Pending(PlayQueue(ramps, vibrate, minutes), VolumeDelay) == ramps
    ensures forall m :: m in PlayQueue(ramps, vibrate, minutes) && m.what == Killer ==>
              m.delay == minutes * MINUTE_IN_MILLIS
    ensures forall m :: m in PlayQueue(ramps, vibrate, minutes) && m.what == VibrateDelay ==>
              m.delay == VIBRATE_DELAY_MILLIS
  {
    forall w: What
      ensures Pending(PlayQueue(ramps, vibrate, minutes), w)
              == (if w == VolumeDelay then ramps else 0)
                 + (if vibrate && w == VibrateDelay then 1 else 0)
                 + (if minutes != -1 && w == Killer then 1 else 0)
    {
      PendingConcat(RampPosts(ramps) + VibratePosts(vibrate), KillerPosts(minutes), w);
      PendingConcat(RampPosts(ramps), VibratePosts(vibrate), w);
      RampPostsPending(ramps, w);
      assert VibratePosts(vibrate) != [] ==> VibratePosts(vibrate)[1..] == [];
      assert KillerPosts(minutes) != [] ==> KillerPosts(minutes)[1..] == [];
    }
  }

  class AlarmKlaxon {
    var playing: bool                   // mPlaying
    var player: Option<Player>          // mMediaPlayer
    var volume: int                     // mVolme, the ramp target
    var count: int                      // Count
    var currentVolume: int              // mCurrentVolme
    var currentAlarm: Option<Alarm>     // mCurrentAlarm
    var initialCallState: int           // mInitialCallState
    var poweroffAlarm: bool             // mPoweroffAlarm
    var startTime: int                  // mStartTime
    var queue: seq<Message>             // mHandler's pending messages
    var streamVolume: int               // AudioManager STREAM_ALARM volume
    var vibrator: Vibration             // mVibrator
    var log: seq<ServiceEvent>          // broadcasts sent and stopSelf calls, in order

    /** The ramp fields as a value. */
    function Ramp(): VolumeRamp.Ramp
      reads this
    {
      VolumeRamp.Ramp(volume, count, currentVolume)
    }

    /** The numeric side: volumes are never negative and Count and mCurrentVolme move together from 0. */
    ghost predicate RampValid()
      reads this
    {
      0 <= streamVolume && 0 <= volume && 0 <= count && currentVolume == count
    }

    /** Nothing is pending, no player exists and the vibrator is off unless an alarm is playing. */
    ghost predicate Valid()
      reads this
    {
      RampValid() && (!playing ==> queue == [] && player.None? && vibrator == Off)
    }

    /**
      The ramp ticks still to come: the steps left between Count and mVolme
      plus the VOLUM_DELAY messages pending. Every delivered VOLUM_DELAY
      lowers it by one and nothing else delivered raises it, so however many
      ramps play() started, the ramp stops.
     */
    ghost function RampBudget(): nat
      reads this`volume, this`count, this`queue
    {
      (if volume > count then volume - count else 0) + Pending(queue, VolumeDelay)
    }

    /** The stream volume stop() leaves: restored to mVolme when it releases a player. */
    ghost function StreamAfterStop(): int
      reads this`playing, this`player, this`volume, this`streamVolume
    {
      if playing && player.Some? then volume else streamVolume
    }

    /** onCreate, with the field initialisers. */
    constructor (stream: int)
      requires 0 <= stream
      ensures Valid()
      ensures !playing && player.None? && queue == [] && log == []
      ensures volume == 0 && count == 0 && currentVolume == 0
      ensures currentAlarm.None? && initialCallState == CALL_STATE_IDLE && !poweroffAlarm
      ensures streamVolume == stream && vibrator == Off
    {
      playing, player := false, None;
      volume, count, currentVolume := 0, 0, 0;
      currentAlarm, initialCallState, poweroffAlarm, startTime := None, CALL_STATE_IDLE, false, 0;
      queue, streamVolume, vibrator, log := [], stream, Off, [];
    }

    /**
      stop(): removes every VIBRATE_DELAY, VOLUM_DELAY and KILLER message;
      while playing, restores the stream volume to mVolme and drops the
      player, and cancels the vibrator. Called when nothing plays it changes
      nothing, so a second call in a row is a no-op.
     */
    method Stop()
      requires Valid()
      modifies this
      ensures Valid()
      ensures queue == [] && !playing && player.None? && vibrator == Off
      ensures streamVolume == old(StreamAfterStop())
      ensures volume == old(volume) && count == old(count) && currentVolume == old(currentVolume)
      ensures currentAlarm == old(currentAlarm) && initialCallState == old(initialCallState)
      ensures poweroffAlarm == old(poweroffAlarm) && startTime == old(startTime) && log == old(log)
      ensures old(!playing) ==>
                queue == old(queue) && player == old(player) && vibrator == old(vibrator)
                && streamVolume == old(streamVolume)
    {
      if HasMessages(queue, VibrateDelay) {
        queue := RemoveMessages(queue, VibrateDelay);
      }
      if HasMessages(queue, VolumeDelay) {
        queue := RemoveMessages(queue, VolumeDelay);
      }
      if playing {
        playing := false;
        if player.Some? {
          streamVolume := volume;
          player := None;
        }
        vibrator := Off;
      }
      DisableKiller();
      EmptyWhenNothingPending(queue);
    }

    /** disableKiller(): removes every KILLER message and nothing else. */
    method DisableKiller()
      modifies this`queue
      ensures queue == RemoveMessages(old(queue), Killer)
    {
      queue := RemoveMessages(queue, Killer);
    }

    /** enableKiller(): posts one KILLER after `minutes` minutes unless the setting is -1. */
    method EnableKiller(minutes: int)
      modifies this`queue
      ensures queue == old(queue) + KillerPosts(minutes)
    {
      if minutes != -1 {
        queue := queue + [Message(Killer, minutes * MINUTE_IN_MILLIS)];
      }
    }

    /** startVolume(i): records the ramp target and posts the first tick. */
    method StartVolume(i: int)
      modifies this`volume, this`queue
      ensures volume == i
      ensures queue == old(queue) + RampPosts(1)
    {
      volume := i;
      queue := queue + [Message(VolumeDelay, VolumeRamp.FIRST_TICK_DELAY)];
      assert RampPosts(1) == [Message(VolumeDelay, VolumeRamp.FIRST_TICK_DELAY)];
    }

    /**
      startAlarm(player): plays only when the alarm stream volume is not
      zero, and then starts the ramp before preparing; `ok` is false when it
      throws.
     */
    method StartAlarm(a: Attempt) returns (ok: bool)
      requires a != SourceFails && player.Some? && 0 <= streamVolume
      modifies this`volume, this`queue, this`player
      ensures ok == !Throws(a, streamVolume)
      ensures player == Some(Player(old(player).value.source, old(player).value.started || (ok && streamVolume != 0)))
      ensures queue == old(queue) + (if Ramps(a, streamVolume) then RampPosts(1) else [])
      ensures volume == if Ramps(a, streamVolume) then streamVolume else old(volume)
    {
      if streamVolume != 0 {
        StartVolume(streamVolume);
        if a == PrepareFails {
          return false;
        }
        player := Some(player.value.(started := true));
      }
      return true;
    }

    /** setDataSource on the player followed by startAlarm; `ok` is false when either throws. */
    method TrySource(source: Source, a: Attempt) returns (ok: bool)
      requires 0 <= streamVolume
      modifies this`volume, this`queue, this`player
      ensures ok == !Throws(a, streamVolume)
      ensures player == Some(Player(source, ok && streamVolume != 0))
      ensures queue == old(queue) + (if Ramps(a, streamVolume) then RampPosts(1) else [])
      ensures volume == if Ramps(a, streamVolume) then streamVolume else old(volume)
    {
      player := Some(Player(source, false));
      if a == SourceFails {
        return false;
      }
      ok := StartAlarm(a);
    }

    /**
      The audible part of play(), entered after stop(): unless the alarm is
      silent, a media player tries the first sound and, on an exception,
      falls back once to the default alarm sound; a second exception leaves
      the player present but not started.
     */
    method PlayAudio(alarm: Alarm, callState: int, first: Attempt, fallback: Attempt)
      requires 0 <= streamVolume && queue == [] && player.None?
      modifies this`volume, this`queue, this`player
      ensures var audio := AudioFor(alarm, callState, streamVolume, first, fallback);
              && player == audio.player && queue == RampPosts(audio.ramps)
              && volume == if audio.ramps > 0 then streamVolume else old(volume)
    {
      if !alarm.silent {
        var ok: bool;
        if callState != CALL_STATE_IDLE {
          ok := TrySource(InCallSound, first);
        } else if alarm.hasAlert {
          ok := TrySource(AlarmSound, first);
        } else {
          ok := TrySource(DefaultSound, first);
        }
        if !ok {
          ok := TrySource(DefaultSound, fallback);
          assert RampPosts(1) + RampPosts(1) == RampPosts(2);
          assert [] + RampPosts(1) == RampPosts(1);
        }
      }
    }

    /**
      play(alarm): stop() first, then the audio, then the vibrator and its
      re-trigger, then the killer; the alarm is marked playing since `now`.
     */
    method Play(alarm: Alarm, callState: int, first: Attempt, fallback: Attempt, minutes: int, now: int)
      requires Valid()
      modifies this
      ensures Valid() && playing && startTime == now
      ensures streamVolume == old(StreamAfterStop())
      ensures var audio := AudioFor(alarm, callState, old(StreamAfterStop()), first, fallback);
              && player == audio.player
              && queue == PlayQueue(audio.ramps, alarm.vibrate, minutes)
              && volume == if audio.ramps > 0 then old(StreamAfterStop()) else old(volume)
      ensures vibrator == if alarm.vibrate then Vibrating(AlertPattern, 1) else Off
      ensures count == old(count) && currentVolume == old(currentVolume)
      ensures currentAlarm == old(currentAlarm) && initialCallState == old(initialCallState)
      ensures poweroffAlarm == old(poweroffAlarm) && log == old(log)
    {
      Stop();
      PlayAudio(alarm, callState, first, fallback);
      if alarm.vibrate {
        vibrator := Vibrating(AlertPattern, 1);
        queue := queue + [Message(VibrateDelay, VIBRATE_DELAY_MILLIS)];
      } else {
        vibrator := Off;
      }
      EnableKiller(minutes);
      playing := true;
      startTime := now;
    }

    /** The killer fired: a snooze broadcast (the kill broadcast is commented out), stopSelf, and power-off if the device woke for this alarm. */
    method HandleKiller()
      modifies this`log
      ensures log == old(log) + [SnoozeBroadcast, StopSelf] + (if poweroffAlarm then [PowerOff] else [])
    {
      log := log + [SnoozeBroadcast, StopSelf];
      if poweroffAlarm {
        log := log + [PowerOff];
      }
    }

    /** One VOLUM_DELAY tick of the ramp. */
    method HandleVolumeDelay()
      requires RampValid()
      modifies this`count, this`currentVolume, this`streamVolume, this`queue
      ensures RampValid()
      ensures var t := VolumeRamp.Step(old(Ramp()), player.Some?);
              && Ramp() == t.next && streamVolume == t.stream
              && queue == old(queue) + (if t.rearm then [Message(VolumeDelay, VolumeRamp.TICK_INTERVAL)] else [])
    {
      if player.Some? {
        if count < volume {
          currentVolume := currentVolume + 1;
          streamVolume := currentVolume;
          count := count + 1;
          queue := queue + [Message(VolumeDelay, VolumeRamp.TICK_INTERVAL)];
        } else {
          streamVolume := volume;
        }
      } else {
        streamVolume := volume;
      }
    }

    /** VIBRATE_DELAY: cancel and re-issue the steady pattern, repeating from its start; nothing is re-posted. */
    method HandleVibrateDelay()
      modifies this`vibrator
      ensures vibrator == Vibrating(SteadyPattern, 0)
    {
      vibrator := Off;
      vibrator := Vibrating(SteadyPattern, 0);
    }

    /** The handler delivers pending message `i`: it leaves the queue and handleMessage runs on its kind. */
    method Deliver(i: nat)
      requires Valid() && i < |queue|
      modifies this
      ensures Valid()
      ensures var what := old(queue[i].what);
              var rest := old(queue[..i] + queue[i + 1..]);
              && playing == old(playing) && player == old(player) && volume == old(volume)
              && currentAlarm == old(currentAlarm) && initialCallState == old(initialCallState)
              && poweroffAlarm == old(poweroffAlarm) && startTime == old(startTime)
              && (what == Killer ==>
                    && queue == rest && Ramp() == old(Ramp()) && streamVolume == old(streamVolume)
                    && vibrator == old(vibrator)
                    && log == old(log) + [SnoozeBroadcast, StopSelf] + (if poweroffAlarm then [PowerOff] else []))
              && (what == VolumeDelay ==>
                    var t := VolumeRamp.Step(old(Ramp()), player.Some?);
                    && Ramp() == t.next && streamVolume == t.stream
                    && queue == rest + (if t.rearm then [Message(VolumeDelay, VolumeRamp.TICK_INTERVAL)] else [])
                    && vibrator == old(vibrator) && log == old(log))
              && (what == VibrateDelay ==>
                    && queue == rest && Ramp() == old(Ramp()) && streamVolume == old(streamVolume)
                    && vibrator == Vibrating(SteadyPattern, 0) && log == old(log))
      ensures RampBudget() == old(RampBudget()) - (if old(queue[i].what) == VolumeDelay then 1 else 0)
    {
      PendingWithout(queue, i, VolumeDelay);
      var m := queue[i];
      queue := queue[..i] + queue[i + 1..];
      match m.what
      case Killer => HandleKiller();
      case VolumeDelay =>
        ghost var rest := queue;
        HandleVolumeDelay();
        if queue != rest {
          PendingConcat(rest, [Message(VolumeDelay, VolumeRamp.TICK_INTERVAL)], VolumeDelay);
          assert [Message(VolumeDelay, VolumeRamp.TICK_INTERVAL)][1..] == [];
        }
      case VibrateDelay => HandleVibrateDelay();
    }

    /**
      onCallStateChanged(state): a call state that is not idle and differs
      from the one recorded when the alarm started sends a kill broadcast
      (not replaced) and stopSelf; any other state changes nothing.
     */
    method OnCallStateChanged(state: int, now: int)
      modifies this`log
      ensures log == old(log) +
                (if CallKills(state, initialCallState)
                 then [KillBroadcast(currentAlarm, KillMinutes(now - startTime), false), StopSelf]
                 else [])
    {
      if state != CALL_STATE_IDLE && state != initialCallState {
        log := log + [KillBroadcast(currentAlarm, KillMinutes(now - startTime), false)];
        log := log + [StopSelf];
      }
    }

    /**
      The START_STICKY path of onStartCommand: a current alarm is reported
      killed as replaced, then the new alarm plays, becomes current, and the
      call state is recorded.
     */
    method Replace(alarm: Alarm, callState: int, first: Attempt, fallback: Attempt, minutes: int, now: int)
      requires Valid()
      modifies this
      ensures Valid()
      ensures var audio := AudioFor(alarm, callState, old(StreamAfterStop()), first, fallback);
              && log == old(log) + (if old(currentAlarm).Some?
                                    then [KillBroadcast(old(currentAlarm), KillMinutes(now - old(startTime)), true)]
                                    else [])
              && playing && startTime == now && player == audio.player
              && queue == PlayQueue(audio.ramps, alarm.vibrate, minutes)
              && currentAlarm == Some(alarm) && initialCallState == callState
              && streamVolume == old(StreamAfterStop())
              && volume == (if audio.ramps > 0 then old(StreamAfterStop()) else old(volume))
              && count == old(count) && currentVolume == old(currentVolume)
              && vibrator == (if alarm.vibrate then Vibrating(AlertPattern, 1) else Off)
              && poweroffAlarm == old(poweroffAlarm)
    {
      if currentAlarm.Some? {
        log := log + [KillBroadcast(currentAlarm, KillMinutes(now - startTime), true)];
      }
      Play(alarm, callState, first, fallback, minutes, now);
      currentAlarm := Some(alarm);
      initialCallState := callState;
    }

    /**
      onStartCommand(intent): no intent, or no alarm in it, means stopSelf
      and START_NOT_STICKY; otherwise the new alarm replaces the current one
      with START_STICKY. The power-off flag, once set, stays set.
     */
    method OnStartCommand(intent: Option<StartIntent>, callState: int, first: Attempt, fallback: Attempt,
                          minutes: int, now: int) returns (r: StartResult)
      requires Valid()
      modifies this
      ensures Valid()
      ensures poweroffAlarm == (old(poweroffAlarm) || (intent.Some? && intent.value.poweroffFlag))
      ensures intent.None? || intent.value.alarm.None? ==>
                && r == StartNotSticky && log == old(log) + [StopSelf]
                && playing == old(playing) && queue == old(queue) && player == old(player)
                && currentAlarm == old(currentAlarm) && initialCallState == old(initialCallState)
                && volume == old(volume) && count == old(count) && currentVolume == old(currentVolume)
                && streamVolume == old(streamVolume) && vibrator == old(vibrator) && startTime == old(startTime)
      ensures intent.Some? && intent.value.alarm.Some? ==>
                var alarm := intent.value.alarm.value;
                var audio := AudioFor(alarm, callState, old(StreamAfterStop()), first, fallback);
                && r == StartSticky
                && log == old(log) + (if old(currentAlarm).Some?
                                      then [KillBroadcast(old(currentAlarm), KillMinutes(now - old(startTime)), true)]
                                      else [])
                && playing && startTime == now && player == audio.player
                && queue == PlayQueue(audio.ramps, alarm.vibrate, minutes)
                && currentAlarm == Some(alarm) && initialCallState == callState
                && streamVolume == old(StreamAfterStop())
                && volume == (if audio.ramps > 0 then old(StreamAfterStop()) else old(volume))
                && count == old(count) && currentVolume == old(currentVolume)
                && vibrator == (if alarm.vibrate then Vibrating(AlertPattern, 1) else Off)
    {
      if intent.None? {
        log := log + [StopSelf];
        return StartNotSticky;
      }
      if !poweroffAlarm {
        poweroffAlarm := intent.value.poweroffFlag;
      }
      if intent.value.alarm.None? {
        log := log + [StopSelf];
        return StartNotSticky;
      }
      Replace(intent.value.alarm.value, callState, first, fallback, minutes, now);
      return StartSticky;
    }

    /** The player's OnErrorListener: the player is stopped, released and dropped. */
    method OnPlayerError()
      requires Valid()
      modifies this`player
      ensures Valid() && player.None?
    {
      player := None;
    }

    /** onDestroy(): stop() and the ALARM_DONE broadcast. */
    method OnDestroy()
      requires Valid()
      modifies this
      ensures Valid()
      ensures queue == [] && !playing && player.None? && vibrator == Off
      ensures streamVolume == old(StreamAfterStop())
      ensures log == old(log) + [DoneBroadcast]
      ensures volume == old(volume) && count == old(count) && currentVolume == old(currentVolume)
      ensures currentAlarm == old(currentAlarm) && initialCallState == old(initialCallState)
      ensures poweroffAlarm == old(poweroffAlarm) && startTime == old(startTime)
    {
      Stop();
      log := log + [DoneBroadcast];
    }
  }
}
