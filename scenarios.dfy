/** Short call sequences on freshly built moods and trackers, showing what the
    per-call contracts add up to. */
module Scenarios {
  import opened Common
  import opened Audio
  import CrimsonVerse
  import CrimsonIntro
  import opened ActionTracking

  /** The same damage fly text shown twice is scored once. */
  method DuplicateFlyTextScoredOnce(kind: FlyTextKind, damage: int, name: string)
    returns (first: seq<TrackerEvent>, second: seq<TrackerEvent>)
    ensures first == [FlyTextCreation(damage)]
    ensures second == []
  {
    var tracker := new PlayerActionTracker();
    first := tracker.RegisterAndFireFlyText(kind, damage, name);
    second := tracker.RegisterAndFireFlyText(kind, damage, name);
  }

  /** Once a (non-tank) limit break is being cast, a fly text carrying its name
      raises the limit-break effect instead of a damage event. */
  method LimitBreakFlyTextIsItsEffect(name: string, castTimeMs: nat, damage: int)
    returns (started: seq<TrackerEvent>, shown: seq<TrackerEvent>)
    ensures started == [UsingLimitBreak(false, true)]
    ensures shown == [LimitBreakEffect]
  {
    var tracker := new PlayerActionTracker();
    started := tracker.StartLimitBreakUse(7, true, false, castTimeMs, Some(name));
    assert tracker.actionHistory == [] && tracker.IsLimitBreakName(name);
    shown := tracker.RegisterAndFireFlyText(Damage, damage, name);
  }

  /** A limit break of a tank that is not in the tank table is ignored, in
      combat as well, so a later change of the death state cancels nothing. */
  method UnknownTankLimitBreakIgnored(actionId: nat, castTimeMs: nat)
    returns (started: seq<TrackerEvent>, died: seq<TrackerEvent>)
    requires actionId !in TankLimitBreakDelaysMs
    ensures started == [] && died == []
  {
    var tracker := new PlayerActionTracker();
    started := tracker.StartLimitBreakUse(actionId, true, true, castTimeMs, None);
    died := tracker.OnDeath();
  }

  /** A promotion exit of the combat mood followed `dt` ms later by a second
      exit request: the second residual is the tabulated window minus `dt`,
      clamped, and never more than what remained of the first. */
  method VerseExitTwice(k1: int, k2: int, k3: int, pick: nat, dt: nat, answer: Option<Handle>)
    returns (r1: int, r2: int)
    requires pick < 2
    ensures r1 == CrimsonVerse.ExitWindowMs
    ensures r2 == Max0(CrimsonVerse.ExitWindowMs - dt)
    ensures r2 <= Max0(r1 - dt)
  {
    var verse := new CrimsonVerse.CCVerse();
    var calls := verse.Enter(false, k1, k2, k3, answer);
    r1, calls := verse.Exit(Promotion, pick);
    verse.Tick(dt);
    r2, calls := verse.Exit(Promotion, pick);
  }

  /** The combat mood entered from the start plays the three intro clips and
      then the loop's first clip, one per elapsed window. */
  method VerseIntroReachesLoop(k1: int, k2: int, k3: int)
    returns (played: seq<CrimsonVerse.CombatLoopState>, clip: BgmId)
    ensures played == [CrimsonVerse.CombatLoopState.Intro, CrimsonVerse.CombatLoopState.Intro, CrimsonVerse.CoreLoop]
    ensures clip == CrimsonVerse.CombatLoopOf(k1, k2, k3)[0]
  {
    var verse := new CrimsonVerse.CCVerse();
    var calls := verse.Enter(false, k1, k2, k3, None);
    CrimsonVerse.IntroThenLoop(0, verse.combatLoop);
    verse.Tick(verse.transitionTime);
    calls := verse.Update(None);
    var s1 := verse.currentState;
    verse.Tick(verse.transitionTime);
    calls := verse.Update(None);
    var s2 := verse.currentState;
    verse.Tick(verse.transitionTime);
    calls := verse.Update(None);
    played := [s1, s2, verse.currentState];
    clip := verse.CurrentClip();
  }

  /** The pre-combat mood ended by the end of combat reports the outro grace;
      a promotion `dt` ms later only shrinks it. */
  method IntroEndThenPromotion(dt: nat, answer: Option<Handle>) returns (r1: int, r2: int)
    ensures r1 == CrimsonIntro.EndCombatGraceMs
    ensures r2 == Max0(CrimsonIntro.EndCombatGraceMs - dt) && r2 <= r1
  {
    var intro := new CrimsonIntro.CCIntro();
    var calls := intro.Enter(false, answer);
    r1, calls := intro.Exit(EndOfCombat);
    intro.Tick(dt);
    r2, calls := intro.Exit(Promotion);
  }

  /** The one case where a repeated exit request of the pre-combat mood reports
      more than before: a promotion out of combat reports nothing, and an end of
      combat `dt` ms later still plays the outro and reports the full grace. */
  method IntroPromotionThenEnd(dt: nat, answer: Option<Handle>)
    returns (r1: int, r2: int, calls: seq<AudioCall>)
    ensures r1 == 0
    ensures r2 == CrimsonIntro.EndCombatGraceMs
    ensures calls == [Play(CombatEnd, None)]
  {
    var intro := new CrimsonIntro.CCIntro();
    calls := intro.Enter(false, answer);
    r1, calls := intro.Exit(Promotion);
    intro.Tick(dt);
    r2, calls := intro.Exit(EndOfCombat);
  }
}
