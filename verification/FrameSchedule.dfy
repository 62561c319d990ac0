/** The timestamp frame rate controller: a schedule in clock ticks that waits when it is early,
    catches up one frame at a time when it is late, and starts over when it is far behind. */
module FrameSchedule {

  /** `perFrame` ticks apart, frame `frames` of the schedule is due at the schedule point. */
  datatype Schedule = Schedule(begin: int, frames: nat, last: int, perFrame: nat)

  function Point(s: Schedule): int { s.begin + s.frames * s.perFrame }

  /** When the next frame is due. */
  function Due(s: Schedule): int { s.begin + (s.frames + 1) * s.perFrame }

  /** The clock as one update sees it: when it is called, and when it returns. */
  datatype Reading = Reading(called: int, returned: int)

  predicate FarBehind(s: Schedule, called: int) {
    called > Due(s) && called - Due(s) >= s.perFrame * 10
  }

  function Updated(s: Schedule, r: Reading): Schedule {
    if FarBehind(s, r.called) then Schedule(r.returned, 0, r.returned, s.perFrame)
    else Schedule(s.begin, s.frames + 1, r.returned, s.perFrame)
  }

  /** The clock does not run backwards, and an update that is early returns no sooner than the
      frame is due; one that is late returns at once. */
  ghost predicate Timely(s: Schedule, r: Reading) {
    && s.last <= r.called <= r.returned
    && (r.called > Due(s) ==> r.returned == r.called)
    && r.returned >= Due(s)
  }

  ghost predicate AllTimely(s: Schedule, rs: seq<Reading>)
    decreases |rs|
  {
    rs == [] || (Timely(s, rs[0]) && AllTimely(Updated(s, rs[0]), rs[1..]))
  }

  function Run(s: Schedule, rs: seq<Reading>): Schedule
    decreases |rs|
  {
    if rs == [] then s else Run(Updated(s, rs[0]), rs[1..])
  }

  /** The ticks that the deltas returned by a run of updates add up to. */
  function Deltas(s: Schedule, rs: seq<Reading>): int
    decreases |rs|
  {
    if rs == [] then 0 else (rs[0].returned - s.last) + Deltas(Updated(s, rs[0]), rs[1..])
  }

  ghost predicate OnTime(s: Schedule) { Point(s) <= s.last }

  /** When an update starts over: it is late, by ten frames or more.  Otherwise the next frame of the
      schedule is one tick count after the one before. */
  lemma StartsOverIff(s: Schedule, r: Reading)
    requires Timely(s, r)
    ensures var (t, next) := (Updated(s, r), s.begin + (s.frames + 1) * s.perFrame);
            && t.last == r.returned && t.perFrame == s.perFrame
            && (if r.called > next && r.called - next >= 10 * s.perFrame
                then Point(t) == r.called && Due(t) == r.called + s.perFrame
                else Point(t) == Point(s) + s.perFrame == next && Due(t) == Due(s) + s.perFrame)
  {
  }

  /** One update moves the schedule point on by at least one frame, but never past the clock;
      and one that catches up leaves less than ten frames of lag. */
  lemma UpdateAdvances(s: Schedule, r: Reading)
    requires OnTime(s) && Timely(s, r)
    ensures OnTime(Updated(s, r))
    ensures Point(Updated(s, r)) >= Point(s) + s.perFrame
    ensures r.called > Due(s) && !FarBehind(s, r.called) ==>
              Updated(s, r).last - Point(Updated(s, r)) < 10 * s.perFrame
  {
  }

  /** Over any run of updates at one target rate, through any mix of waiting, catching up and
      starting over: the frames done never outrun the clock, the schedule point never passes
      it, and the deltas add up to the time that went by. */
  lemma {:induction false} WholeRun(s: Schedule, rs: seq<Reading>)
    requires OnTime(s) && AllTimely(s, rs)
    ensures var t := Run(s, rs);
            && OnTime(t)
            && t.perFrame == s.perFrame
            && |rs| * s.perFrame <= Point(t) - Point(s) <= t.last - Point(s)
            && Deltas(s, rs) == t.last - s.last
    decreases |rs|
  {
    if rs != [] {
      UpdateAdvances(s, rs[0]);
      WholeRun(Updated(s, rs[0]), rs[1..]);
      assert |rs| * s.perFrame == |rs[1..]| * s.perFrame + s.perFrame;
    }
  }

  /** From a fresh target on, in particular: frames times ticks per frame never exceed the
      ticks gone by. */
  lemma RateBound(now: int, perFrame: nat, rs: seq<Reading>)
    requires AllTimely(Schedule(now, 0, now, perFrame), rs)
    ensures |rs| * perFrame <= Run(Schedule(now, 0, now, perFrame), rs).last - now
    ensures Deltas(Schedule(now, 0, now, perFrame), rs) == Run(Schedule(now, 0, now, perFrame), rs).last - now
  {
    WholeRun(Schedule(now, 0, now, perFrame), rs);
  }

  class Controller {
    var targetFps: real
    var clockFreq: nat
    var perFrame: nat
    var begin: int
    var last: int
    var frames: nat
    var deltaTime: real

    ghost function Now(): Schedule
      reads this
    {
      Schedule(begin, frames, last, perFrame)
    }

    constructor (freq: nat, fps: nat, now: int)
      requires freq > 0 && fps > 0
      ensures Now() == Schedule(now, 0, now, perFrame) && clockFreq == freq
    {
      targetFps, clockFreq, deltaTime := fps as real, freq, 0.0;
      perFrame := (1.0 / (fps as real) * freq as real).Floor;
      begin, last, frames := now, now, 0;
    }

    /** setTargetFPS: a different rate starts a new schedule at the current time. */
    method SetTargetFps(fps: nat, freq: nat, now: int)
      requires fps > 0 && freq > 0
      modifies this
      ensures if -0.01 < old(targetFps) - fps as real < 0.01 then Now() == old(Now()) && targetFps == old(targetFps)
              else Now() == Schedule(now, 0, now, perFrame) && targetFps == fps as real && clockFreq == freq
      ensures !(-0.01 < old(targetFps) - fps as real < 0.01) ==>
                perFrame as real * fps as real <= freq as real < (perFrame + 1) as real * fps as real
    {
      if -0.01 < targetFps - fps as real < 0.01 {
        return;
      }
      targetFps := fps as real;
      var secondsPerFrame := 1.0 / targetFps;
      clockFreq := freq;
      perFrame := (secondsPerFrame * clockFreq as real).Floor;
      FrameTicks(fps, freq);
      begin := now;
      last := begin;
      frames := 0;
    }

    /** update.  `called` is the first clock reading, `polls` the readings of the waiting loop,
        one of which must reach the frame's time. */
    method Update(called: int, polls: seq<int>) returns (delta: real, ghost r: Reading)
      requires clockFreq > 0 && last <= called
      requires called <= Due(Now()) ==> exists k :: 0 <= k < |polls| && polls[k] >= Due(Now())
      requires forall k | 0 <= k < |polls| :: called <= polls[k]
      modifies this
      ensures r.called == called && Timely(old(Now()), r)
      ensures Now() == Updated(old(Now()), r) && clockFreq == old(clockFreq)
      ensures delta == deltaTime == (r.returned - old(last)) as real / clockFreq as real
      ensures var next := old(begin) + (old(frames) + 1) * perFrame;
              && perFrame == old(perFrame) && last == r.returned
              && (if called > next then last == called else last in polls && last >= next)
              && (if called > next && called - next >= 10 * perFrame then begin == called && frames == 0
                  else begin == old(begin) && frames == old(frames) + 1)
              && (called <= next ==> exists k :: 0 <= k < |polls| && last == polls[k] &&
                                                 forall m | 0 <= m < k :: polls[m] < next)
    {
      var target := begin + (frames + 1) * perFrame;
      var current := called;
      if current > target {
        if current - target >= perFrame * 10 {
          begin := current;
          frames := 0;
        } else {
          frames := frames + 1;
        }
      } else {
        var k := 0;
        current := polls[k];
        while current < target
          invariant k < |polls| && current == polls[k]
          invariant forall m | 0 <= m < k :: polls[m] < target
          decreases |polls| - k
        {
          k := k + 1;
          current := polls[k];
        }
        frames := frames + 1;
      }
      deltaTime := (current - last) as real / clockFreq as real;
      last := current;
      delta := deltaTime;
      r := Reading(called, current);
    }
  }

  /** Ticks per frame are the clock rate over the target rate, rounded down. */
  lemma FrameTicks(fps: nat, freq: nat)
    requires fps > 0
    ensures var ticks := (1.0 / (fps as real) * freq as real).Floor;
            ticks >= 0 && ticks as real * fps as real <= freq as real < (ticks + 1) as real * fps as real
  {
  }
}
