/** The Crimson Cloud combat-loop mood: a fixed three-clip intro, then an
    eight-clip loop assembled afresh on every entry, played with overlapping
    clips whose crossfade queue is capped, and an exit that plays a stinger
    or the end-of-combat clip and reports how long the mood still needs. */
module CrimsonVerse {
  import opened Common
  import opened Audio

  /** The mood's sub-phase. */
  datatype CombatLoopState = Intro | CoreLoop | Exit

  /** Where `currentTrack` points: nowhere yet, at a node of the intro list, or
      at a node of the generated loop list (0-based positions). */
  datatype Cursor = Unset | IntroNode(index: nat) | LoopNode(index: nat)

  /** Per-clip timing of this mood (clip id to effective start and transition start). */
  const TransitionTimePerId: map<BgmId, TrackData> := map[
    CombatEnter1 := TrackData(0, 2500),
    CombatEnter2 := TrackData(0, 10500),
    CombatEnter3 := TrackData(0, 2600),
    CombatVerse1 := TrackData(0, 20650),
    CombatVerse2 := TrackData(0, 20650),
    CombatVerse3 := TrackData(0, 20600),
    CombatVerse4 := TrackData(0, 20600),
    CombatCoreLoopTransition1 := TrackData(0, 19355),
    CombatCoreLoopTransition2 := TrackData(1300, 21900),
    CombatCoreLoopTransition3 := TrackData(0, 10300),
    CombatCoreLoopExit1 := TrackData(1, 1000),
    CombatCoreLoopExit2 := TrackData(1, 2555)
  ]

  /** The fixed intro, in play order. */
  const CombatIntro: seq<BgmId> := [CombatEnter1, CombatEnter2, CombatEnter3]

  /** Residual grace reported for a non-final exit: the first exit stinger's transition start. */
  const ExitWindowMs: nat := TransitionTimePerId[CombatCoreLoopExit1].transitionStart

  /** Residual grace reported when the combat ends. */
  const EndOfCombatGraceMs: nat := 4500

  /** Length of the fade-out given to the newest handle when the mood is left. */
  const LeaveFadeMs: nat := 500

  /** Handles beyond this many are evicted before a new clip is queued. */
  const MaxQueuedBeforePlay: nat := 4

  /** Every clip in `clips` has a row in the timing table. */
  ghost predicate Timed(clips: seq<BgmId>)
  {
    forall i :: 0 <= i < |clips| ==> clips[i] in TransitionTimePerId
  }

  // ---------------------------------------------------------------------------
  // Loop assembly

  function Reverse<T>(s: seq<T>): (r: seq<T>)
    ensures |r| == |s|
    ensures forall i :: 0 <= i < |s| ==> r[i] == s[|s| - 1 - i]
    ensures multiset(r) == multiset(s)
  {
    if s == [] then []
    else
      assert s == [s[0]] + s[1..];
      Reverse(s[1..]) + [s[0]]
  }

  /** The order `RandomizeQueue` produces for coin `k` (the value of `rand.Next(2)`):
      the declared order when `k < 1`, the reversed order otherwise. */
  function Arranged(ids: seq<BgmId>, k: int): (r: seq<BgmId>)
    ensures |r| == |ids| && multiset(r) == multiset(ids)
    ensures k >= 1 && |ids| > 0 ==> r[0] == ids[|ids| - 1]
  {
    if k < 1 then ids else Reverse(ids)
  }

  /** The two members of a randomized pair in the order they are dequeued. */
  function Pair(a: BgmId, b: BgmId, k: int): (BgmId, BgmId)
  {
    if k < 1 then (a, b) else (b, a)
  }

  /** A two-clip queue comes out as declared or swapped. */
  lemma ArrangedPair(a: BgmId, b: BgmId, k: int)
    ensures Arranged([a, b], k) == [Pair(a, b, k).0, Pair(a, b, k).1]
  {
    if k >= 1 {
      var r := Reverse([a, b]);
      assert r[0] == b && r[1] == a;
      assert r == [r[0], r[1]];
    }
  }

  /** The loop `GenerateCombatLoop` builds from the three coins it draws: each
      randomized pair is drawn once and its two members are used in the two
      halves of the loop, each half closed by the fixed third transition. */
  function CombatLoopOf(k1: int, k2: int, k3: int): seq<BgmId>
  {
    var verse := Pair(CombatVerse1, CombatVerse2, k1);
    var verse2 := Pair(CombatVerse3, CombatVerse4, k2);
    var verse3 := Pair(CombatCoreLoopTransition1, CombatCoreLoopTransition2, k3);
    [verse.0, verse2.0, verse3.0, CombatCoreLoopTransition3,
     verse.1, verse2.1, verse3.1, CombatCoreLoopTransition3]
  }

  /** The generated loop has eight clips, the fixed transition closes each half,
      each randomized pair fills the same slot of both halves, in declared order
      exactly when its coin is below 1. */
  lemma CombatLoopShape(k1: int, k2: int, k3: int)
    ensures var loop := CombatLoopOf(k1, k2, k3);
      && |loop| == 8
      && loop[3] == CombatCoreLoopTransition3 && loop[7] == CombatCoreLoopTransition3
      && {loop[0], loop[4]} == {CombatVerse1, CombatVerse2} && loop[0] != loop[4]
      && {loop[1], loop[5]} == {CombatVerse3, CombatVerse4} && loop[1] != loop[5]
      && {loop[2], loop[6]} == {CombatCoreLoopTransition1, CombatCoreLoopTransition2} && loop[2] != loop[6]
      && (loop[0] == CombatVerse1 <==> k1 < 1)
      && (loop[1] == CombatVerse3 <==> k2 < 1)
      && (loop[2] == CombatCoreLoopTransition1 <==> k3 < 1)
  {
  }

  /** Whatever the coins, the loop is made of the four verses, the three
      transitions and nothing else, and only the fixed transition (closing each
      half) occurs twice; so every clip of it has a timing row. */
  lemma CombatLoopClips(k1: int, k2: int, k3: int)
    ensures var loop := CombatLoopOf(k1, k2, k3);
      && (forall id :: id in loop <==> id in {CombatVerse1, CombatVerse2, CombatVerse3, CombatVerse4,
                                              CombatCoreLoopTransition1, CombatCoreLoopTransition2,
                                              CombatCoreLoopTransition3})
      && (forall i, j :: 0 <= i < j < |loop| && loop[i] == loop[j] ==> i == 3 && j == 7)
    ensures Timed(CombatLoopOf(k1, k2, k3))
  {
    var loop := CombatLoopOf(k1, k2, k3);
    CombatLoopShape(k1, k2, k3);
    forall id | id in {CombatVerse1, CombatVerse2, CombatVerse3, CombatVerse4,
                       CombatCoreLoopTransition1, CombatCoreLoopTransition2, CombatCoreLoopTransition3}
      ensures id in loop
    {
      if id == CombatVerse1 || id == CombatVerse2 {
        assert id == loop[0] || id == loop[4];
      } else if id == CombatVerse3 || id == CombatVerse4 {
        assert id == loop[1] || id == loop[5];
      } else if id == CombatCoreLoopTransition1 || id == CombatCoreLoopTransition2 {
        assert id == loop[2] || id == loop[6];
      } else {
        assert id == loop[3];
      }
    }
  }

  /** `rand.Next(0, ids.Length)` chooses `index`; the clip at that index is played. */
  function SelectRandom(ids: seq<BgmId>, index: nat): (r: BgmId)
    requires index < |ids|
    ensures r in ids
  {
    ids[index]
  }

  /** Fills a queue with `ids` front to back when the coin is below 1, back to front otherwise. */
  method RandomizeQueue(ids: seq<BgmId>, k: int) returns (queue: seq<BgmId>)
    ensures queue == Arranged(ids, k)
  {
    queue := [];
    if k < 1 {
      for i := 0 to |ids|
        invariant queue == ids[..i]
      {
        queue := queue + [ids[i]];
      }
      assert ids[..|ids|] == ids;
    } else {
      for i := |ids| downto 0
        invariant queue == Reverse(ids[i..])
      {
        assert ids[i..][1..] == ids[i + 1..];
        queue := queue + [ids[i]];
      }
    }
  }

  /** Draws the three pair orders and lays the pairs out in two halves. */
  method GenerateCombatLoop(k1: int, k2: int, k3: int) returns (loop: seq<BgmId>)
    ensures loop == CombatLoopOf(k1, k2, k3)
  {
    var verseQueue := RandomizeQueue([CombatVerse1, CombatVerse2], k1);
    var verse2Queue := RandomizeQueue([CombatVerse3, CombatVerse4], k2);
    var verse3Queue := RandomizeQueue([CombatCoreLoopTransition1, CombatCoreLoopTransition2], k3);
    ArrangedPair(CombatVerse1, CombatVerse2, k1);
    ArrangedPair(CombatVerse3, CombatVerse4, k2);
    ArrangedPair(CombatCoreLoopTransition1, CombatCoreLoopTransition2, k3);
    loop := [];
    loop := loop + [verseQueue[0]];
    loop := loop + [verse2Queue[0]];
    loop := loop + [verse3Queue[0]];
    loop := loop + [CombatCoreLoopTransition3];
    loop := loop + [verseQueue[1]];
    loop := loop + [verse2Queue[1]];
    loop := loop + [verse3Queue[1]];
    loop := loop + [CombatCoreLoopTransition3];
  }

  // ---------------------------------------------------------------------------
  // Clip pointer

  /** `cursor` points at an existing node given the sub-phase it is used in. */
  ghost predicate PositionValid(phase: CombatLoopState, cursor: Cursor, loop: seq<BgmId>)
  {
    && (phase.Intro? ==> cursor.IntroNode? && cursor.index < |CombatIntro| && loop != [])
    && (phase.CoreLoop? ==> cursor.LoopNode? && cursor.index < |loop|)
  }

  /** Where `PlayNextPart` moves the clip pointer (and the sub-phase) to. */
  function NextPosition(phase: CombatLoopState, cursor: Cursor, loop: seq<BgmId>): (next: (CombatLoopState, Cursor))
    requires !phase.Exit? && PositionValid(phase, cursor, loop)
    ensures !next.0.Exit? && PositionValid(next.0, next.1, loop)
  {
    if phase.Intro? then
      if cursor.index + 1 == |CombatIntro| then (CoreLoop, LoopNode(0))
      else (CombatLoopState.Intro, IntroNode(cursor.index + 1))
    else
      if cursor.index + 1 < |loop| then (CoreLoop, LoopNode(cursor.index + 1))
      else (CoreLoop, LoopNode(0))
  }

  /** The position after `n` timer expiries. */
  function Advance(n: nat, phase: CombatLoopState, cursor: Cursor, loop: seq<BgmId>): (next: (CombatLoopState, Cursor))
    requires !phase.Exit? && PositionValid(phase, cursor, loop)
    ensures !next.0.Exit? && PositionValid(next.0, next.1, loop)
  {
    if n == 0 then (phase, cursor)
    else
      var step := NextPosition(phase, cursor, loop);
      Advance(n - 1, step.0, step.1, loop)
  }

  /** In the core loop the pointer moves circularly: after `n` expiries it is `n`
      places further on, modulo the loop length; in particular it returns to
      where it was after every full loop. */
  lemma {:induction false} CoreLoopAdvance(n: nat, i: nat, loop: seq<BgmId>)
    requires i < |loop|
    ensures Advance(n, CoreLoop, LoopNode(i), loop) == (CoreLoop, LoopNode((i + n) % |loop|))
  {
    if n == 0 {
      ModUnique(i, |loop|, 0, i);
    } else {
      var j := if i + 1 < |loop| then i + 1 else 0;
      assert NextPosition(CoreLoop, LoopNode(i), loop) == (CoreLoop, LoopNode(j));
      CoreLoopAdvance(n - 1, j, loop);
      if i + 1 == |loop| {
        var r := (n - 1) % |loop|;
        ModUnique(i + n, |loop|, (n - 1) / |loop| + 1, r);
      }
    }
  }

  /** From the first intro clip the pointer visits the second and third intro
      clips, then enters the core loop at its first clip and cycles from there. */
  lemma {:induction false} IntroThenLoop(n: nat, loop: seq<BgmId>)
    requires loop != []
    ensures Advance(1, CombatLoopState.Intro, IntroNode(0), loop) == (CombatLoopState.Intro, IntroNode(1))
    ensures Advance(2, CombatLoopState.Intro, IntroNode(0), loop) == (CombatLoopState.Intro, IntroNode(2))
    ensures Advance(3 + n, CombatLoopState.Intro, IntroNode(0), loop) == (CoreLoop, LoopNode(n % |loop|))
  {
    assert Advance(1, CombatLoopState.Intro, IntroNode(0), loop) == Advance(0, CombatLoopState.Intro, IntroNode(1), loop);
    assert Advance(2, CombatLoopState.Intro, IntroNode(0), loop) == Advance(1, CombatLoopState.Intro, IntroNode(1), loop);
    assert Advance(1, CombatLoopState.Intro, IntroNode(1), loop) == Advance(0, CombatLoopState.Intro, IntroNode(2), loop);
    calc {
      Advance(3 + n, CombatLoopState.Intro, IntroNode(0), loop);
      Advance(2 + n, CombatLoopState.Intro, IntroNode(1), loop);
      Advance(1 + n, CombatLoopState.Intro, IntroNode(2), loop);
      Advance(n, CoreLoop, LoopNode(0), loop);
      { CoreLoopAdvance(n, 0, loop); }
      (CoreLoop, LoopNode(n % |loop|));
    }
  }

  /** The queue `PlayBgmPart` keeps before enqueuing: the oldest handle is
      dropped (not handed to the service) once more than four are queued. */
  function Evict<T>(q: seq<T>): (r: seq<T>)
    ensures |r| <= |q| && |q| - |r| <= 1 && r == q[|q| - |r|..]
    ensures |r| + 1 <= (if |q| < 5 then 5 else |q|)
    ensures |q| <= MaxQueuedBeforePlay ==> r == q
    ensures |q| > MaxQueuedBeforePlay ==> |r| == |q| - 1
  {
    if |q| > MaxQueuedBeforePlay then q[1..] else q
  }

  // ---------------------------------------------------------------------------
  // The mood

  class CCVerse {
    var combatLoop: seq<BgmId>
    var currentTrack: Cursor
    var currentState: CombatLoopState
    var transitionTime: int
    var samples: seq<Handle>
    var watch: Stopwatch

    /** Every handle ever queued, and those that left the queue, in order. */
    ghost var enqueued: seq<Handle>
    ghost var departed: seq<Handle>
    /** The last residual `Exit` reported and the watch reading when it did. */
    ghost var residual: int
    ghost var residualAt: nat

    ghost predicate Valid()
      reads this
    {
      && (combatLoop == [] || (|combatLoop| == 8 && Timed(combatLoop)))
      && (currentTrack.IntroNode? ==> currentTrack.index < |CombatIntro|)
      && (currentTrack.LoopNode? ==> currentTrack.index < |combatLoop|)
      && (watch.running && !currentState.Exit? ==> PositionValid(currentState, currentTrack, combatLoop))
      && (currentState.Exit? ==> watch.running && residualAt <= watch.elapsedMs && Max0(ExitWindowMs - residualAt) <= residual)
      && transitionTime >= 0
      && enqueued == departed + samples
    }

    /** The clip `currentTrack` points at. */
    function CurrentClip(): (id: BgmId)
      reads this
      requires Valid() && !currentTrack.Unset?
      ensures id in TransitionTimePerId
    {
      if currentTrack.IntroNode? then CombatIntro[currentTrack.index] else combatLoop[currentTrack.index]
    }

    /** The play time after which the current clip hands over to the next. */
    function ComputeNextTransitionTiming(): (t: nat)
      reads this
      requires Valid() && !currentTrack.Unset?
      ensures t == TransitionTimePerId[CurrentClip()].transitionStart
      ensures t >= 1000
    {
      TransitionTimePerId[CurrentClip()].transitionStart
    }

    /** The timer runs and the current clip's window has elapsed. */
    predicate Due()
      reads this
    {
      watch.running && watch.elapsedMs >= transitionTime
    }

    constructor ()
      ensures Valid()
      ensures combatLoop == [] && currentTrack == Unset && currentState == CombatLoopState.Intro
      ensures transitionTime == 0 && samples == [] && watch == Stopped
      ensures enqueued == [] && departed == []
    {
      combatLoop := [];
      currentTrack := Unset;
      currentState := CombatLoopState.Intro;
      transitionTime := 0;
      samples := [];
      watch := Stopped;
      enqueued, departed := [], [];
      residual, residualAt := 0, 0;
    }

    /** `dt` milliseconds of wall-clock time pass. */
    method Tick(dt: nat)
      requires Valid()
      modifies this
      ensures Valid()
      ensures watch == old(watch).Advance(dt)
      ensures combatLoop == old(combatLoop) && currentTrack == old(currentTrack) && currentState == old(currentState)
      ensures transitionTime == old(transitionTime) && samples == old(samples)
      ensures enqueued == old(enqueued) && departed == old(departed)
      ensures residual == old(residual) && residualAt == old(residualAt)
    {
      watch := watch.Advance(dt);
    }

    /** Enters the mood with a freshly generated loop (coins `k1`, `k2`, `k3`):
        at the loop's first clip when resuming (`fromVerse`), else at the first
        intro clip. `answer` is what the audio service returns for that clip. */
    method Enter(fromVerse: bool, k1: int, k2: int, k3: int, answer: Option<Handle>) returns (calls: seq<AudioCall>)
      requires Valid()
      modifies this
      ensures Valid()
      ensures combatLoop == CombatLoopOf(k1, k2, k3)
      ensures fromVerse ==> currentState == CoreLoop && currentTrack == LoopNode(0)
      ensures !fromVerse ==> currentState == CombatLoopState.Intro && currentTrack == IntroNode(0)
      ensures CurrentClip() == if fromVerse then combatLoop[0] else CombatEnter1
      ensures calls == [Play(CurrentClip(), Some(1))]
      ensures samples == old(samples) + Elements(answer)
      ensures enqueued == old(enqueued) + Elements(answer) && departed == old(departed)
      ensures transitionTime == TransitionTimePerId[CurrentClip()].transitionStart
      ensures watch == Stopwatch(true, 0)
    {
      combatLoop := GenerateCombatLoop(k1, k2, k3);
      CombatLoopClips(k1, k2, k3);
      watch := watch.Restart();
      if fromVerse {
        currentTrack := LoopNode(0);
        calls := [Play(combatLoop[0], Some(1))];
        currentState := CoreLoop;
      } else {
        currentTrack := IntroNode(0);
        calls := [Play(CombatIntro[0], Some(1))];
        currentState := CombatLoopState.Intro;
      }
      samples := samples + Elements(answer);
      enqueued := enqueued + Elements(answer);
      transitionTime := ComputeNextTransitionTiming();
      watch := watch.Restart();
    }

    /** One tick of the driving loop. Nothing happens unless the timer runs and
        the current window has elapsed; then the next clip is played, or, in
        `Exit`, the mood is left. */
    method Update(answer: Option<Handle>) returns (calls: seq<AudioCall>)
      requires Valid()
      modifies this
      ensures Valid()
      ensures !old(Due()) ==> calls == [] && unchanged(this)
      ensures old(Due()) && !old(currentState).Exit? ==>
        && combatLoop == old(combatLoop)
        && (currentState, currentTrack) == NextPosition(old(currentState), old(currentTrack), old(combatLoop))
        && samples == Evict(old(samples)) + Elements(answer)
        && enqueued == old(enqueued) + Elements(answer)
        && calls == [Play(CurrentClip(), Some(1))]
        && transitionTime == TransitionTimePerId[CurrentClip()].transitionStart
        && watch == Stopwatch(true, 0)
      ensures old(Due()) && old(currentState).Exit? ==>
        && calls == DrainCalls(old(samples), LeaveFadeMs)
        && samples == [] && currentState == CoreLoop && watch == Stopped
        && enqueued == old(enqueued) && departed == old(departed) + old(samples)
        && combatLoop == old(combatLoop) && currentTrack == old(currentTrack)
        && transitionTime == old(transitionTime)
      ensures enqueued == departed + samples
      ensures old(enqueued) <= enqueued && old(departed) <= departed
    {
      if !watch.running {
        return [];
      }
      if watch.running && watch.elapsedMs >= transitionTime {
        if !currentState.Exit? {
          calls := PlayNextPart(answer);
          watch := watch.Restart();
        } else {
          calls := LeaveState();
        }
      } else {
        calls := [];
      }
    }

    /** Moves the pointer on (intro to loop, loop circularly) and plays the new clip. */
    method PlayNextPart(answer: Option<Handle>) returns (calls: seq<AudioCall>)
      requires Valid() && watch.running && !currentState.Exit?
      modifies this
      ensures Valid()
      ensures combatLoop == old(combatLoop)
      ensures (currentState, currentTrack) == NextPosition(old(currentState), old(currentTrack), old(combatLoop))
      ensures samples == Evict(old(samples)) + Elements(answer)
      ensures enqueued == old(enqueued) + Elements(answer) && old(departed) <= departed
      ensures calls == [Play(CurrentClip(), Some(1))]
      ensures transitionTime == TransitionTimePerId[CurrentClip()].transitionStart
      ensures watch == Stopwatch(true, 0)
    {
      var next := NextPosition(currentState, currentTrack, combatLoop);
      currentState, currentTrack := next.0, next.1;
      calls := PlayBgmPart(answer);
      transitionTime := ComputeNextTransitionTiming();
      watch := watch.Restart();
    }

    /** Evicts the oldest handle once more than four are queued, then plays the
        current clip and queues its handle if the service returned one. */
    method PlayBgmPart(answer: Option<Handle>) returns (calls: seq<AudioCall>)
      requires Valid() && !currentTrack.Unset?
      modifies this`samples, this`enqueued, this`departed
      ensures Valid()
      ensures samples == Evict(old(samples)) + Elements(answer)
      ensures enqueued == old(enqueued) + Elements(answer) && old(departed) <= departed
      ensures calls == [Play(CurrentClip(), Some(1))]
    {
      if |samples| > MaxQueuedBeforePlay {
        departed := departed + [samples[0]];
        samples := samples[1..];
      }
      calls := [Play(CurrentClip(), Some(1))];
      samples := samples + Elements(answer);
      enqueued := enqueued + Elements(answer);
    }

    /** Removes every queued handle but the newest (oldest first), fades the
        newest out if it can fade, and parks the mood: `CoreLoop`, timer stopped. */
    method LeaveState() returns (calls: seq<AudioCall>)
      requires Valid()
      modifies this
      ensures Valid()
      ensures calls == DrainCalls(old(samples), LeaveFadeMs)
      ensures samples == [] && departed == old(departed) + old(samples) && enqueued == old(enqueued)
      ensures currentState == CoreLoop && watch == Stopped
      ensures combatLoop == old(combatLoop) && currentTrack == old(currentTrack)
      ensures transitionTime == old(transitionTime)
    {
      ghost var q := samples;
      ghost var n := 0;
      calls := [];
      while |samples| > 1
        invariant 0 <= n <= |q| && samples == q[n..]
        invariant |samples| >= 1 || q == []
        invariant |calls| == n && forall i :: 0 <= i < n ==> calls[i] == Remove(q[i])
        invariant departed == old(departed) + q[..n] && enqueued == old(enqueued)
        invariant combatLoop == old(combatLoop) && currentTrack == old(currentTrack)
        invariant currentState == old(currentState) && transitionTime == old(transitionTime)
        invariant watch == old(watch) && residual == old(residual) && residualAt == old(residualAt)
      {
        calls := calls + [Remove(samples[0])];
        departed := departed + [samples[0]];
        samples := samples[1..];
        assert q[..n + 1] == q[..n] + [q[n]];
        n := n + 1;
      }
      assert calls == RemoveAll(q[..n]);
      if samples != [] {
        var sample := samples[0];
        departed := departed + [sample];
        samples := [];
        if sample.fadeable {
          calls := calls + [FadeOut(sample, LeaveFadeMs)];
        }
      }
      currentState := CoreLoop;
      watch := watch.Reset();
    }

    /** Starts (or repeats) the exit and returns the residual grace in ms.
        `pick` is the index `rand.Next(0, 2)` chooses among the two stingers. */
    method Exit(exit: ExitType, pick: nat) returns (r: int, calls: seq<AudioCall>)
      requires Valid() && pick < 2
      modifies this
      ensures Valid()
      ensures currentState == CombatLoopState.Exit && r >= 0
      ensures transitionTime == if exit == EndOfCombat then 1 else TransitionTimePerId[CombatCoreLoopExit1].effectiveStart
      ensures samples == old(samples) && combatLoop == old(combatLoop) && currentTrack == old(currentTrack)
      ensures enqueued == old(enqueued) && departed == old(departed)
      ensures residual == r && residualAt == watch.elapsedMs
      ensures old(currentState).Exit? ==>
        && r == Max0(ExitWindowMs - watch.elapsedMs)
        && r <= Max0(old(residual) - (watch.elapsedMs - old(residualAt)))
        && watch == old(watch) && calls == []
      ensures !old(currentState).Exit? ==>
        && watch == Stopwatch(true, 0)
        && r == (if exit == EndOfCombat then EndOfCombatGraceMs else ExitWindowMs)
        && calls == match exit
                    case Promotion => [Play(SelectRandom([CombatCoreLoopExit1, CombatCoreLoopExit2], pick), Some(1))]
                    case EndOfCombat => [Play(CombatEnd, None)]
                    case ImmediateExit => []
    {
      var nextTransitionTime: int := ExitWindowMs;
      calls := [];
      if currentState.Exit? {
        Max0Monotone(ExitWindowMs - watch.elapsedMs, residual - (watch.elapsedMs - residualAt));
        nextTransitionTime := Max0(nextTransitionTime - watch.elapsedMs);
      } else {
        if exit == Promotion {
          calls := [Play(SelectRandom([CombatCoreLoopExit1, CombatCoreLoopExit2], pick), Some(1))];
        } else if exit == EndOfCombat {
          calls := [Play(CombatEnd, None)];
          nextTransitionTime := EndOfCombatGraceMs;
        }
        watch := watch.Restart();
      }
      currentState := CombatLoopState.Exit;
      transitionTime := if exit == EndOfCombat then 1 else TransitionTimePerId[CombatCoreLoopExit1].effectiveStart;
      residual, residualAt := nextTransitionTime, watch.elapsedMs;
      r := nextTransitionTime;
    }

    /** Forcibly leaves the mood, exactly as a completed exit does. */
    method Reset() returns (calls: seq<AudioCall>)
      requires Valid()
      modifies this
      ensures Valid()
      ensures calls == DrainCalls(old(samples), LeaveFadeMs)
      ensures samples == [] && departed == old(departed) + old(samples) && enqueued == old(enqueued)
      ensures currentState == CoreLoop && watch == Stopped
      ensures combatLoop == old(combatLoop) && currentTrack == old(currentTrack)
      ensures transitionTime == old(transitionTime)
    {
      calls := LeaveState();
    }

    /** An exit once started cannot be rolled back. */
    function CancelExit(): (cancelled: bool)
      ensures !cancelled
    {
      false
    }
  }
}
