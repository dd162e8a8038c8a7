/**
  The alarm volume ramp of AlarmKlaxon: startVolume records the alarm stream
  volume as the target (mVolme) and posts a VOLUM_DELAY message; every
  delivered VOLUM_DELAY with a media player present and Count below the target
  raises mCurrentVolme and Count by one, sets the stream to the new volume and
  posts the next tick; otherwise it sets the stream to the target and stops.
  Count and mCurrentVolme are fields of the service that nothing resets.
 */
module VolumeRamp {

  /** Delay of the first tick after startVolume, and between ticks, in milliseconds. */
  const FIRST_TICK_DELAY: int := 100
  const TICK_INTERVAL: int := 2000

  /** mVolme, Count and mCurrentVolme. */
  datatype Ramp = Ramp(target: int, count: int, current: int)

  /** What one tick leaves behind: the new ramp, the stream volume it set, and whether it re-armed. */
  datatype Tick = Tick(next: Ramp, stream: int, rearm: bool)

  /** One delivered VOLUM_DELAY message. */
  function Step(r: Ramp, hasPlayer: bool): (t: Tick)
    ensures t.rearm <==> hasPlayer && r.count < r.target
    ensures t.next.target == r.target
    ensures t.next.current - t.next.count == r.current - r.count
    ensures t.rearm ==> t.next.count == r.count + 1 && t.stream == t.next.current
    ensures !t.rearm ==> t.next == r && t.stream == r.target
  {
    if hasPlayer && r.count < r.target then
      var n := Ramp(r.target, r.count + 1, r.current + 1);
      Tick(n, n.current, true)
    else
      Tick(r, r.target, false)
  }

  /** The stream volumes set by the chain of ticks started from `r`, the player staying present. */
  function Trace(r: Ramp): (t: seq<int>)
    decreases r.target - r.count
    ensures |t| >= 1 && t[|t| - 1] == r.target
  {
    var k := Step(r, true);
    if k.rearm then [k.stream] + Trace(k.next) else [k.stream]
  }

  /** The ramp left behind when the chain of ticks started from `r` stops. */
  function Final(r: Ramp): (f: Ramp)
    decreases r.target - r.count
    ensures f.target == r.target && f.current - f.count == r.current - r.count
  {
    var k := Step(r, true);
    if k.rearm then Final(k.next) else r
  }

  /** The volumes strictly above `from` up to and including `to`. */
  function Climb(from: int, to: int): (s: seq<int>)
    requires from <= to
    ensures |s| == to - from
    ensures forall i :: 0 <= i < |s| ==> s[i] == from + 1 + i
  {
    seq(to - from, i requires 0 <= i < to - from => from + 1 + i)
  }

  /**
    From Count == mCurrentVolme at or below the target, the ramp sets the
    stream one step at a time from Count + 1 up to the target, then sets the
    target once more and posts nothing: target - Count re-arming ticks and
    one final tick.
   */
  lemma {:induction false} RampClimbsToTarget(r: Ramp)
    requires r.current == r.count <= r.target
    ensures Trace(r) == Climb(r.count, r.target) + [r.target]
    ensures Final(r) == Ramp(r.target, r.target, r.target)
    decreases r.target - r.count
  {
    var k := Step(r, true);
    if k.rearm {
      RampClimbsToTarget(k.next);
      assert Trace(r) == [k.stream] + Climb(r.count + 1, r.target) + [r.target];
      assert [r.count + 1] + Climb(r.count + 1, r.target) == Climb(r.count, r.target);
    } else {
      assert Climb(r.count, r.target) == [];
    }
  }

  /** Above the target the ramp does not climb: one tick resets the stream to the target. */
  lemma RampAboveTargetResets(r: Ramp)
    requires r.count >= r.target
    ensures Trace(r) == [r.target] && Final(r) == r
  {
  }

  /**
    The volumes the ticks of one chain set never exceed the target and never
    decrease from one tick to the next, and the number of re-arming ticks is
    at most the target when Count starts at or above zero. The first tick may
    still set a lower volume than the one the player started at (see
    FirstTickLowersStream).
   */
  lemma {:induction false} RampIsBoundedAndMonotone(r: Ramp)
    requires r.current == r.count && 0 <= r.count
    ensures forall i :: 0 <= i < |Trace(r)| ==> Trace(r)[i] <= r.target
    ensures forall i, j :: 0 <= i <= j < |Trace(r)| ==> Trace(r)[i] <= Trace(r)[j]
    ensures |Trace(r)| - 1 <= if r.target < 0 then 0 else r.target
  {
    if r.count <= r.target {
      RampClimbsToTarget(r);
      var t := Trace(r);
      assert forall i :: 0 <= i < |t| - 1 ==> t[i] == r.count + 1 + i;
    } else {
      RampAboveTargetResets(r);
    }
  }

  /**
    startVolume makes the alarm stream volume v the target and the player
    starts at v; the first tick then sets the stream to Count + 1, which is
    below v whenever Count + 1 < v: the volume drops before it climbs.
   */
  lemma FirstTickLowersStream(v: int, c: int)
    requires 0 <= c && c + 1 < v
    ensures var t := Step(Ramp(v, c, c), true);
            t.stream == c + 1 < v && t.rearm
  {
  }

  /**
    Because Count and mCurrentVolme are never reset, a second alarm played by
    the same service after a completed ramp to `first` climbs only from
    `first`: at or below `first` it starts at full volume with no ramp at all.
   */
  lemma SecondSessionRamp(first: int, second: int)
    requires 0 <= first && 0 <= second
    ensures var f := Final(Ramp(first, 0, 0));
            Trace(Ramp(second, f.count, f.current))
              == if second <= first then [second] else Climb(first, second) + [second]
  {
    RampClimbsToTarget(Ramp(first, 0, 0));
    var f := Final(Ramp(first, 0, 0));
    if second <= first {
      RampAboveTargetResets(Ramp(second, f.count, f.current));
    } else {
      RampClimbsToTarget(Ramp(second, f.count, f.current));
    }
  }
}
