/** The Crimson Cloud pre-combat mood: one ambience clip looped while out of
    combat, then a short wind-down when combat starts or an outro when it
    ends, with a residual grace that repeated exit requests only shrink. */
module CrimsonIntro {
  import opened Common
  import opened Audio

  /** The mood's sub-phase. */
  datatype IntroState = OutOfCombat | CombatStart | EndCombat

  /** Per-clip timing of this mood. */
  const TransitionTimePerId: map<BgmId, TrackData> := map[
    Intro := TrackData(0, 85500)
  ]

  /** Play-time window of the ambience clip before it is requested again. */
  const IntroWindowMs: nat := TransitionTimePerId[Intro].transitionStart

  /** Second argument of the first ambience request on entry. */
  const EnterParam: int := 4500

  /** Window after a promotion before the mood hands over. */
  const CombatStartWindowMs: nat := 1600

  /** Window after the end of combat before the mood hands over. */
  const EndCombatWindowMs: nat := 100

  /** Residual grace reported when the combat ends. */
  const EndCombatGraceMs: nat := 4500

  /** Fade-out given to the oldest handle when the mood hands over. */
  const HandOverFadeMs: nat := 1500

  /** Fade-out given to the newest handle on a reset. */
  const ResetFadeMs: nat := 3000

  class CCIntro {
    var state: IntroState
    var transitionTime: int
    var nextStateTransitionTime: int
    var samples: seq<Handle>
    var watch: Stopwatch

    /** Every handle ever queued, and those that left the queue, in order. */
    ghost var enqueued: seq<Handle>
    ghost var departed: seq<Handle>

    ghost predicate Valid()
      reads this
    {
      && transitionTime >= 0
      && nextStateTransitionTime >= 0
      && enqueued == departed + samples
    }

    /** The timer runs and has passed the current window (strictly). */
    predicate Due()
      reads this
    {
      watch.running && watch.elapsedMs > transitionTime
    }

    constructor ()
      ensures Valid()
      ensures state == OutOfCombat && transitionTime == 0 && nextStateTransitionTime == 0
      ensures samples == [] && watch == Stopped && enqueued == [] && departed == []
    {
      state := OutOfCombat;
      transitionTime := 0;
      nextStateTransitionTime := 0;
      samples := [];
      watch := Stopped;
      enqueued, departed := [], [];
    }

    /** `dt` milliseconds of wall-clock time pass. */
    method Tick(dt: nat)
      requires Valid()
      modifies this
      ensures Valid()
      ensures watch == old(watch).Advance(dt)
      ensures state == old(state) && transitionTime == old(transitionTime)
      ensures nextStateTransitionTime == old(nextStateTransitionTime) && samples == old(samples)
      ensures enqueued == old(enqueued) && departed == old(departed)
    {
      watch := watch.Advance(dt);
    }

    /** Enters the mood out of combat and starts the ambience clip; `answer` is
        what the audio service returns for it. Whether the caller resumes
        mid-loop makes no difference here. */
    method Enter(fromVerse: bool, answer: Option<Handle>) returns (calls: seq<AudioCall>)
      requires Valid()
      modifies this
      ensures Valid()
      ensures state == OutOfCombat
      ensures calls == [Play(Intro, Some(EnterParam))]
      ensures samples == old(samples) + Elements(answer)
      ensures enqueued == old(enqueued) + Elements(answer) && departed == old(departed)
      ensures transitionTime == IntroWindowMs && watch == Stopwatch(true, 0)
      ensures nextStateTransitionTime == old(nextStateTransitionTime)
    {
      state := OutOfCombat;
      calls := [Play(Intro, Some(EnterParam))];
      samples := samples + Elements(answer);
      enqueued := enqueued + Elements(answer);
      transitionTime := TransitionTimePerId[Intro].transitionStart;
      watch := watch.Restart();
    }

    /** One tick of the driving loop. Past the window, out of combat the same
        ambience clip is requested again and the timer restarts; in any other
        sub-phase the mood hands over. */
    method Update(answer: Option<Handle>) returns (calls: seq<AudioCall>)
      requires Valid()
      modifies this
      ensures Valid()
      ensures !old(Due()) ==> calls == [] && unchanged(this)
      ensures old(Due()) && old(state) == OutOfCombat ==>
        && calls == [Play(Intro, None)]
        && samples == old(samples) + Elements(answer)
        && enqueued == old(enqueued) + Elements(answer) && departed == old(departed)
        && watch == Stopwatch(true, 0)
        && state == old(state) && transitionTime == old(transitionTime)
      ensures old(Due()) && old(state) != OutOfCombat ==>
        && calls == ReleaseOldest(old(samples), HandOverFadeMs)
        && samples == DropOldest(old(samples))
        && enqueued == old(enqueued)
        && watch == Stopped
        && state == old(state) && transitionTime == old(transitionTime)
      ensures nextStateTransitionTime == old(nextStateTransitionTime)
      ensures enqueued == departed + samples
    {
      if !watch.running {
        return [];
      }
      calls := [];
      if watch.elapsedMs > transitionTime {
        if state != OutOfCombat {
          calls := TransitionToNextState();
        } else {
          calls := [Play(Intro, None)];
          samples := samples + Elements(answer);
          enqueued := enqueued + Elements(answer);
          watch := watch.Restart();
        }
      }
    }

    /** Removes every queued handle but the newest (oldest first), fades the
        newest out if it can fade, and stops the timer; the sub-phase stays. */
    method Reset() returns (calls: seq<AudioCall>)
      requires Valid()
      modifies this
      ensures Valid()
      ensures calls == DrainCalls(old(samples), ResetFadeMs)
      ensures samples == [] && departed == old(departed) + old(samples) && enqueued == old(enqueued)
      ensures watch == Stopped
      ensures state == old(state) && transitionTime == old(transitionTime)
      ensures nextStateTransitionTime == old(nextStateTransitionTime)
    {
      ghost var q := samples;
      ghost var n := 0;
      calls := [];
      while |samples| > 1
        invariant 0 <= n <= |q| && samples == q[n..]
        invariant |samples| >= 1 || q == []
        invariant |calls| == n && forall i :: 0 <= i < n ==> calls[i] == Remove(q[i])
        invariant departed == old(departed) + q[..n] && enqueued == old(enqueued)
        invariant state == old(state) && transitionTime == old(transitionTime)
        invariant nextStateTransitionTime == old(nextStateTransitionTime) && watch == old(watch)
      {
        calls := calls + [Remove(samples[0])];
        departed := departed + [samples[0]];
        samples := samples[1..];
        assert q[..n + 1] == q[..n] + [q[n]];
        n := n + 1;
      }
      assert calls == RemoveAll(q[..n]);
      if samples != [] {
        var sample := samples[0];
        departed := departed + [sample];
        samples := [];
        if sample.fadeable {
          calls := calls + [FadeOut(sample, ResetFadeMs)];
        }
      }
      watch := watch.Reset();
    }

    /** Starts (or repeats) leaving the mood and returns the residual grace in ms. */
    method Exit(exit: ExitType) returns (r: int, calls: seq<AudioCall>)
      requires Valid()
      modifies this
      ensures Valid()
      ensures r >= 0
      ensures !old(watch.running) ==> r == 0 && calls == [] && unchanged(this)
      ensures old(watch.running) && exit == ImmediateExit ==>
        && r == 0 && transitionTime == 0
        && calls == ReleaseOldest(old(samples), HandOverFadeMs)
        && samples == DropOldest(old(samples)) && watch == Stopped
        && enqueued == old(enqueued)
        && state == old(state) && nextStateTransitionTime == old(nextStateTransitionTime)
      ensures old(watch.running) && exit != ImmediateExit ==>
        && r == nextStateTransitionTime
        && samples == old(samples) && enqueued == old(enqueued) && departed == old(departed)
      ensures old(watch.running) && exit == Promotion && old(state) == OutOfCombat ==>
        && state == CombatStart && r == 0 && transitionTime == CombatStartWindowMs
        && watch == Stopwatch(true, 0) && calls == []
      ensures old(watch.running) && exit == EndOfCombat && old(state) != EndCombat ==>
        && state == EndCombat && r == EndCombatGraceMs && transitionTime == EndCombatWindowMs
        && watch == Stopwatch(true, 0) && calls == [Play(CombatEnd, None)]
      ensures old(watch.running) && old(state) != OutOfCombat && exit != ImmediateExit
              && !(exit == EndOfCombat && old(state) != EndCombat) ==>
        && r == Max0(old(nextStateTransitionTime) - old(watch.elapsedMs))
        && r <= old(nextStateTransitionTime)
        && state == old(state) && transitionTime == old(transitionTime)
        && watch == old(watch) && calls == []
    {
      calls := [];
      if !watch.running {
        return 0, [];
      }
      if exit == ImmediateExit {
        transitionTime := 0;
        calls := TransitionToNextState();
        return 0, calls;
      }

      if state != OutOfCombat {
        nextStateTransitionTime := Max0(nextStateTransitionTime - watch.elapsedMs);
      } else if exit == Promotion {
        state := CombatStart;
        nextStateTransitionTime := 0;
        transitionTime := CombatStartWindowMs;
        watch := watch.Restart();
      }

      if exit == EndOfCombat && state != EndCombat {
        state := EndCombat;
        transitionTime := EndCombatWindowMs;
        nextStateTransitionTime := EndCombatGraceMs;
        watch := watch.Restart();
        calls := [Play(CombatEnd, None)];
      }
      r := nextStateTransitionTime;
    }

    /** Hands the oldest queued handle back to the service (a 1.5 s fade-out if
        it can fade, removal otherwise) and stops the timer. */
    method TransitionToNextState() returns (calls: seq<AudioCall>)
      requires Valid()
      modifies this`samples, this`departed, this`watch
      ensures Valid()
      ensures calls == ReleaseOldest(old(samples), HandOverFadeMs)
      ensures samples == DropOldest(old(samples)) && departed == old(departed) + old(samples)[..|old(samples)| - |samples|]
      ensures watch == Stopped
    {
      calls := [];
      if samples != [] {
        var sample := samples[0];
        departed := departed + [sample];
        samples := samples[1..];
        if sample.fadeable {
          calls := [FadeOut(sample, HandOverFadeMs)];
        } else {
          calls := [Remove(sample)];
        }
      }
      watch := watch.Reset();
    }

    /** An exit once started cannot be rolled back. */
    function CancelExit(): (cancelled: bool)
      ensures !cancelled
    {
      false
    }
  }
}
