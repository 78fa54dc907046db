# Crimson Cloud moods and the player action tracker, in Dafny

This project models three parts of DragoonMayCry, a Final Fantasy XIV plugin
that scores combat and plays dynamic music.

- **CCVerse** is the combat mood of the Crimson Cloud soundtrack. On entry it
  builds an eight-clip loop from three coin flips and plays either the
  three-clip intro or the loop's first clip. After that, every time the current
  clip's window elapses it moves a clip pointer on. The pointer runs from the
  intro into the loop and then around the loop. While doing so the mood keeps a
  queue of playback handles, from which the oldest is evicted before a new
  clip is played once more than four are queued. A first exit request plays a
  stinger on a promotion, the outro at the end of combat, and nothing on an
  immediate exit; it reports a residual grace. When the exit window elapses,
  the queue is drained: the older handles are removed, and the newest one fades
  out if it can fade.
- **CCIntro** is the pre-combat mood. Out of combat it loops one ambience
  clip. When combat starts it winds down; when combat ends it plays an outro.
  Once it is winding down or playing the outro, a repeated exit request can
  only shrink the residual grace it reports. The exception is an end-of-combat
  request after a promotion from out of combat: the promotion reports 0, and
  the end of combat then reports the full 4500 ms.
- **PlayerActionTracker** decides which damage fly texts reach the scoring.
  - It filters the fly text's name.
  - It de-duplicates against a six-entry history.
  - It reroutes a limit break's own fly text to a limit-break event, and keeps
    the bookkeeping of the limit break being cast.
  - It classifies actions by their category row.

The audio service, the game clock and the random generator are outside the
model and enter as parameters:
- `answer: Option<Handle>` is what `PlayBgm` returns.
- Each mood operation returns the requests it sends to the audio service as a
  list of `AudioCall`s, in order.
- `Tick(dt)` lets wall-clock time pass on a `Stopwatch` value.
- Coins `k1 k2 k3` and the index `pick` are what `rand.Next` returned.
- The tracker's events are returned as a list of `TrackerEvent`s.

Ghost histories (`enqueued`, `departed`) record every handle that entered or
left a mood's queue, so that the queue is always what was enqueued minus what
left it, in FIFO order.

The modules are:
- `Common` (common.dfy): option, stopwatch, clamping.
- `Audio` (audio.dfy): clip ids, timing rows, handles, the draining of a
  crossfade queue.
- `CrimsonVerse` (cc_verse.dfy).
- `CrimsonIntro` (cc_intro.dfy).
- `ActionTracking` (player_action_tracker.dfy).
- `Scenarios` (scenarios.dfy): short call sequences on fresh objects.

## Model

| member | source | states |
|---|---|---|
| Common.Max0 | DragoonMayCry/Audio/BGM/FSM/States/CrimsonCloud/CCVerse.cs:200 | the clamp never goes below its argument or below zero, and equals the argument unless it is zero |
| Common.Elements | DragoonMayCry/Audio/BGM/FSM/States/CrimsonCloud/CCVerse.cs:96-99 | a returned handle adds exactly one element to the queue and a missing one adds none |
| Common.Stopwatch.Advance | DragoonMayCry/Audio/BGM/FSM/States/CrimsonCloud/CCVerse.cs:62 | a running watch accumulates the elapsed time; a stopped one ignores it and keeps its state |
| Audio.RemoveAll | DragoonMayCry/Audio/BGM/FSM/States/CrimsonCloud/CCVerse.cs:180-183 | one removal per handle, each at that handle's queue position |
| Audio.DrainCallsSpec | DragoonMayCry/Audio/BGM/FSM/States/CrimsonCloud/CCVerse.cs:177-193 | draining removes every older handle oldest first; it fades the newest one out iff it is fadeable, and asks for nothing else |
| Audio.DrainKeepsUnfadeableTail | DragoonMayCry/Audio/BGM/FSM/States/CrimsonCloud/CCIntro.cs:84-102 | a non-fadeable newest handle is never handed back to the service by a drain |
| Audio.ReleaseOldest | DragoonMayCry/Audio/BGM/FSM/States/CrimsonCloud/CCIntro.cs:146-158 | an empty queue asks for nothing; otherwise exactly one request, for the oldest handle: a fade-out of the given length iff it is fadeable, otherwise a removal |
| Audio.DropOldest | DragoonMayCry/Audio/BGM/FSM/States/CrimsonCloud/CCIntro.cs:148 | dequeuing leaves the queue without its first element; an empty queue stays empty |
| CrimsonVerse.Reverse | DragoonMayCry/Audio/BGM/FSM/States/CrimsonCloud/CCVerse.cs:250-253 | the back-to-front order has the same length and elements, position i holding the element at mirror position |
| CrimsonVerse.Arranged | DragoonMayCry/Audio/BGM/FSM/States/CrimsonCloud/CCVerse.cs:237-256 | the queue is a permutation of its ids, starting with the last id when the coin is 1 |
| CrimsonVerse.ArrangedPair | DragoonMayCry/Audio/BGM/FSM/States/CrimsonCloud/CCVerse.cs:237-256 | a two-id queue comes out as declared or swapped, according to the coin |
| CrimsonVerse.RandomizeQueue | DragoonMayCry/Audio/BGM/FSM/States/CrimsonCloud/CCVerse.cs:237-256 | the two enqueuing loops produce the declared order for coin < 1 and the reversed order otherwise |
| CrimsonVerse.GenerateCombatLoop | DragoonMayCry/Audio/BGM/FSM/States/CrimsonCloud/CCVerse.cs:258-273 | the built loop is the eight-clip arrangement of the three dequeued pairs and the fixed third transition |
| CrimsonVerse.CombatLoopShape | DragoonMayCry/Audio/BGM/FSM/States/CrimsonCloud/CCVerse.cs:258-273 | eight clips; the third transition at positions 3 and 7; each pair fills the same slot of both halves with different members; declared order iff its coin is below 1 |
| CrimsonVerse.CombatLoopClips | DragoonMayCry/Audio/BGM/FSM/States/CrimsonCloud/CCVerse.cs:28-41 | for every coin outcome the loop holds exactly the four verses and three transitions; only the fixed transition repeats; every clip has a timing row |
| CrimsonVerse.SelectRandom | DragoonMayCry/Audio/BGM/FSM/States/CrimsonCloud/CCVerse.cs:231-235 | the chosen clip is one of the candidates |
| CrimsonVerse.NextPosition | DragoonMayCry/Audio/BGM/FSM/States/CrimsonCloud/CCVerse.cs:126-151 | moving the pointer keeps it on an existing intro or loop node and never enters the exit sub-phase |
| CrimsonVerse.CoreLoopAdvance | DragoonMayCry/Audio/BGM/FSM/States/CrimsonCloud/CCVerse.cs:141-151 | in the core loop, n window expiries move the pointer n places on, modulo the loop length |
| CrimsonVerse.IntroThenLoop | DragoonMayCry/Audio/BGM/FSM/States/CrimsonCloud/CCVerse.cs:129-140 | from the first intro clip the pointer visits the second and third intro clips, then the loop's first clip, then cycles |
| CrimsonVerse.Evict | DragoonMayCry/Audio/BGM/FSM/States/CrimsonCloud/CCVerse.cs:160-163 | the oldest handle is dropped iff more than four are queued; the rest keep their order, and a short queue keeps room for the new handle |
| CrimsonVerse.CCVerse.CurrentClip | DragoonMayCry/Audio/BGM/FSM/States/CrimsonCloud/CCVerse.cs:174 | the clip under the pointer always has a timing row |
| CrimsonVerse.CCVerse.ComputeNextTransitionTiming | DragoonMayCry/Audio/BGM/FSM/States/CrimsonCloud/CCVerse.cs:172-175 | the window is the current clip's transition start, which is at least one second for every clip |
| CrimsonVerse.CCVerse.constructor | DragoonMayCry/Audio/BGM/FSM/States/CrimsonCloud/CCVerse.cs:60-77 | a new mood has no loop, no queue, a stopped timer and the intro sub-phase |
| CrimsonVerse.CCVerse.Tick | DragoonMayCry/Audio/BGM/FSM/States/CrimsonCloud/CCVerse.cs:62 | only the timer moves |
| CrimsonVerse.CCVerse.Enter | DragoonMayCry/Audio/BGM/FSM/States/CrimsonCloud/CCVerse.cs:79-102 | fresh loop; pointer at the loop's first clip when resuming, else at the first intro clip; that clip is requested with the argument 1; its handle is queued; its window is set; the timer restarts |
| CrimsonVerse.CCVerse.Update | DragoonMayCry/Audio/BGM/FSM/States/CrimsonCloud/CCVerse.cs:104-124 | nothing before the window elapses; then the next clip outside an exit, and inside an exit a full drain that parks the mood in the core loop with the timer stopped |
| CrimsonVerse.CCVerse.PlayNextPart | DragoonMayCry/Audio/BGM/FSM/States/CrimsonCloud/CCVerse.cs:126-156 | the pointer moves as NextPosition says, the new clip is requested and queued, and its window is set |
| CrimsonVerse.CCVerse.PlayBgmPart | DragoonMayCry/Audio/BGM/FSM/States/CrimsonCloud/CCVerse.cs:158-170 | evicts beyond four queued handles, requests the current clip and queues its handle, FIFO accounting kept |
| CrimsonVerse.CCVerse.LeaveState | DragoonMayCry/Audio/BGM/FSM/States/CrimsonCloud/CCVerse.cs:177-193 | the drain requests exactly DrainCalls of the old queue; every handle departs in order; the mood is parked in the core loop with the timer stopped |
| CrimsonVerse.CCVerse.Exit | DragoonMayCry/Audio/BGM/FSM/States/CrimsonCloud/CCVerse.cs:195-219 | a first exit plays the stinger or outro and reports the tabulated window (4500 ms at the end of combat); a repeated exit reports the window minus the elapsed time, never more than what remained of the previous residual |
| CrimsonVerse.CCVerse.Reset | DragoonMayCry/Audio/BGM/FSM/States/CrimsonCloud/CCVerse.cs:226-229 | a reset drains exactly as leaving the mood does, parks the mood in the core loop with the timer stopped, and keeps the loop, the pointer and the window |
| CrimsonVerse.CCVerse.CancelExit | DragoonMayCry/Audio/BGM/FSM/States/CrimsonCloud/CCVerse.cs:275-278 | an exit can never be cancelled |
| CrimsonIntro.CCIntro.constructor | DragoonMayCry/Audio/BGM/FSM/States/CrimsonCloud/CCIntro.cs:30-43 | a new mood is out of combat with an empty queue and a stopped timer |
| CrimsonIntro.CCIntro.Tick | DragoonMayCry/Audio/BGM/FSM/States/CrimsonCloud/CCIntro.cs:31 | only the timer moves |
| CrimsonIntro.CCIntro.Enter | DragoonMayCry/Audio/BGM/FSM/States/CrimsonCloud/CCIntro.cs:45-56 | out of combat; the ambience is requested with 4500; its handle is queued; its 85.5 s window is set; the timer restarts |
| CrimsonIntro.CCIntro.Update | DragoonMayCry/Audio/BGM/FSM/States/CrimsonCloud/CCIntro.cs:58-82 | nothing until strictly past the window; then out of combat the ambience is requested again, and otherwise the oldest handle is released |
| CrimsonIntro.CCIntro.Reset | DragoonMayCry/Audio/BGM/FSM/States/CrimsonCloud/CCIntro.cs:84-102 | the drain requests exactly DrainCalls of the old queue with a 3 s fade; every handle departs; the sub-phase is kept and the timer stops |
| CrimsonIntro.CCIntro.Exit | DragoonMayCry/Audio/BGM/FSM/States/CrimsonCloud/CCIntro.cs:109-144 | a stopped mood reports 0 and changes nothing; an immediate exit hands over at once; a promotion starts the 1.6 s wind-down; the end of combat plays the outro and reports 4500; a repeat only shrinks the residual |
| CrimsonIntro.CCIntro.TransitionToNextState | DragoonMayCry/Audio/BGM/FSM/States/CrimsonCloud/CCIntro.cs:146-161 | the oldest handle fades for 1.5 s or is removed; it leaves the queue; the timer stops |
| CrimsonIntro.CCIntro.CancelExit | DragoonMayCry/Audio/BGM/FSM/States/CrimsonCloud/CCIntro.cs:163-166 | an exit can never be cancelled |
| ActionTracking.TypeForActionId | DragoonMayCry/Score/Action/PlayerActionTracker.cs:194-212 | one iff per action type: a missing row or row 6 is Other, rows 9 and 15 a limit break, 2 a spell, 4 off-GCD, 7 auto-attack, every other row a weaponskill |
| ActionTracking.FilterName | DragoonMayCry/Score/Action/PlayerActionTracker.cs:455-469 | dropped iff the name ends with the escape text; a leading '+' and the next character are cut; "+" alone cannot be cut; other names pass unchanged |
| ActionTracking.SectionSignIsKept | DragoonMayCry/Score/Action/PlayerActionTracker.cs:460 | a name ending with the section sign itself (not its escape text) is kept |
| ActionTracking.Remember | DragoonMayCry/Score/Action/PlayerActionTracker.cs:488-499 | the record is then in the history; a known record changes nothing; a new one is appended, after dropping exactly the oldest record when the history is full and nothing otherwise; at most six records |
| ActionTracking.RememberDistinct | DragoonMayCry/Score/Action/PlayerActionTracker.cs:525-531 | with equality on name, damage and kind, remembering keeps the history duplicate-free and is idempotent |
| ActionTracking.PlayerActionTracker.constructor | DragoonMayCry/Score/Action/PlayerActionTracker.cs:114-119 | empty history, no limit break, stopped timer |
| ActionTracking.PlayerActionTracker.Tick | DragoonMayCry/Score/Action/PlayerActionTracker.cs:98 | only the limit-break timer moves |
| ActionTracking.PlayerActionTracker.RegisterAndFireFlyText | DragoonMayCry/Score/Action/PlayerActionTracker.cs:488-510 | the history becomes Remember of the record; a known record raises nothing; a new one raises the limit-break effect iff its name is the cast limit break's, else the damage |
| ActionTracking.PlayerActionTracker.OnFlyText | DragoonMayCry/Score/Action/PlayerActionTracker.cs:432-486 | inactive plugin, damage-taken colour and missing second text return before the name filter runs (no verdict); dropped and unsliceable names are ignored after it, the latter only when the filter was reached; an invalid kind counts only for the limit break's own name; auto-attacks and DoTs fire without history; the rest is registered |
| ActionTracking.PlayerActionTracker.OnCombat | DragoonMayCry/Score/Action/PlayerActionTracker.cs:307-318 | the history is cleared either way; leaving combat with a limit break or a running timer resets the limit break |
| ActionTracking.PlayerActionTracker.ResetLimitBreakUse | DragoonMayCry/Score/Action/PlayerActionTracker.cs:320-328 | the limit break is forgotten and the timer stopped; the end event is raised only in combat |
| ActionTracking.PlayerActionTracker.CancelLimitBreak | DragoonMayCry/Score/Action/PlayerActionTracker.cs:330-339 | as the reset, with the cancellation event raised before the end event, only in combat |
| ActionTracking.PlayerActionTracker.StartLimitBreakUse | DragoonMayCry/Score/Action/PlayerActionTracker.cs:341-364 | ignored out of combat, while one is cast, or for a tank action missing from the tank table; otherwise the tank delay or cast time plus 3 s becomes the grace, the timer restarts and the start event is raised |
| ActionTracking.PlayerActionTracker.HandleLimitBreakUse | DragoonMayCry/Score/Action/PlayerActionTracker.cs:294-305 | the limit break ends exactly when its running timer has passed the grace period |
| ActionTracking.PlayerActionTracker.OnDeath | DragoonMayCry/Score/Action/PlayerActionTracker.cs:422-430 | any change of the death state (the handler ignores which way it changed) while a limit break is cast cancels it; otherwise nothing happens |
| Scenarios.DuplicateFlyTextScoredOnce | DragoonMayCry/Score/Action/PlayerActionTracker.cs:488-510 | the same fly text shown twice is scored once |
| Scenarios.LimitBreakFlyTextIsItsEffect | DragoonMayCry/Score/Action/PlayerActionTracker.cs:341-364 | after a limit break starts, a fly text carrying its name raises the limit-break effect, not damage |
| Scenarios.UnknownTankLimitBreakIgnored | DragoonMayCry/Score/Action/PlayerActionTracker.cs:348-352 | a tank action missing from the tank table starts nothing, even in combat, so a later change of the death state cancels nothing |
| Scenarios.VerseExitTwice | DragoonMayCry/Audio/BGM/FSM/States/CrimsonCloud/CCVerse.cs:195-219 | a second exit dt ms after a promotion reports the window minus dt, at most the first residual minus dt |
| Scenarios.VerseIntroReachesLoop | DragoonMayCry/Audio/BGM/FSM/States/CrimsonCloud/CCVerse.cs:104-156 | three elapsed windows after a fresh entry take the mood through the intro to the loop's first clip |
| Scenarios.IntroEndThenPromotion | DragoonMayCry/Audio/BGM/FSM/States/CrimsonCloud/CCIntro.cs:123-143 | after the end of combat reports 4500 ms, a promotion dt ms later reports 4500 - dt, clamped, which is never more |
| Scenarios.IntroPromotionThenEnd | DragoonMayCry/Audio/BGM/FSM/States/CrimsonCloud/CCIntro.cs:123-142 | a promotion out of combat reports 0, and an end of combat afterwards plays the outro and reports the full 4500 ms |

## Left out

- Audio playback, file paths (`bgmPaths`, `GetBgmPaths`) and the audio engine
  are outside the model. A clip request is recorded as an `AudioCall`, and the
  handle it yields is a parameter.
- `BgmTrackData(a, b)` is read as (effective start, transition start). The
  record type is not part of this model. The reading follows how the moods use
  the two fields: `TransitionStart` is the play window.
- Time is whole milliseconds, and sub-millisecond elapsed time is not
  modelled. CCIntro reads the fractional `Elapsed.TotalMilliseconds` in two
  places, and the whole-millisecond model differs from it in both:
  - At CCIntro.cs:65 the fractional value is compared with the window without
    a cast. The source acts as soon as the window is exceeded by any fraction;
    `CrimsonIntro.CCIntro.Update` acts up to 1 ms later.
  - At CCIntro.cs:125 the `(int)` cast truncates the difference, which gives
    the previous residual minus the elapsed time rounded up.
    `CrimsonIntro.CCIntro.Exit` subtracts the elapsed time rounded down, so it
    reports 1 ms more whenever the elapsed time has a fractional part.
- The limit break's grace period is a `float` of seconds in the source
  (2.1 s, 4.1 s, cast time + 3 s). Here it is whole milliseconds, and the
  comparison `ElapsedMilliseconds / 1000f > GracePeriod` becomes an integer
  comparison in ms. Float rounding is not modelled.
- `GetCastTime` is given as the parameter `castTimeMs`, and the action sheet's
  name as `actionName`. The sheet lookups, hooks, `OnActionUsed`,
  `OnActorControl`, `OnCast`, `DetectClipping` and `DetectWastedGCD` are not
  part of this model. They read game memory through pointers.
  `currentWastedGcd` is modelled only where `OnCombat` clears it.
- `OnFlyText` is modelled with the following simplifications:
  - `ActionTracking.PlayerActionTracker.OnFlyText`: `EndsWith` is compared
    ordinally. The source's culture-sensitive comparison is not modelled.
  - `Plugin.CanRunDmc()`, the null checks and `PlayerState.IsInCombat` /
    `IsTank()` are boolean parameters.
  - A name of "+" alone makes the source's `[2..]` slice throw, but only once
    the plugin is active, the colour is not the damage-taken colour and a
    second text is present. Only then does the model report
    `Some(OutOfRange)`, and it changes nothing instead of raising. When an
    earlier guard returns, the filter is reported as `None`.
- The event handlers' subscribers are outside the model. Events are returned
  in order, so a missing subscriber is indistinguishable from a present one.
- `CrimsonVerse.CCVerse.Exit`: a repeated exit is clamped from the tabulated
  window (`CombatCoreLoopExit1`'s 1000 ms), not from the previous residual.
  This follows the code, and the previous residual is then only an upper bound
  (ghost `residual`).
- `CrimsonVerse.Evict`: an evicted handle is only dequeued, not passed to
  `RemoveBgmPart`. This follows the code.
- `CrimsonVerse.CCVerse.LeaveState` and `CrimsonIntro.CCIntro.Reset` follow the
  code: a non-fadeable newest handle is dequeued and left alone, not removed
  (`DrainKeepsUnfadeableTail`). The `else if (sample != null)` branch in
  CCIntro's reset cannot be reached and has no counterpart.
- `CrimsonVerse.CCVerse.Enter` enqueues without the four-handle eviction, so
  the queue bound is stated per step (`Evict`), not as an invariant.
- `CrimsonIntro.CCIntro.Exit` shrinks the residual by the whole time elapsed
  since the timer last restarted, so two repeats in a row subtract overlapping
  time. This follows the code.
