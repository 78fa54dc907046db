/** The part of the player action tracker that decides which damage fly texts
    reach the scoring: name filtering, de-duplication against a short history,
    the limit-break bookkeeping that reroutes a limit break's own fly text, and
    the action-category classification. */
module ActionTracking {
  import opened Common

  /** The fly-text kinds the tracker distinguishes; every other kind is `OtherKind`. */
  datatype FlyTextKind =
    | Damage | DamageCrit | DamageDh | DamageCritDh
    | AutoAttackOrDot | AutoAttackOrDotDh | AutoAttackOrDotCrit | AutoAttackOrDotCritDh
    | OtherKind(code: nat)

  /** One remembered fly text; equal records have equal name, damage and kind. */
  datatype FlyTextData = FlyTextData(name: string, damage: int, kind: FlyTextKind)

  datatype PlayerActionType = Weaponskill | Spell | OffGCD | AutoAttack | LimitBreak | Other

  /** A limit break being cast: its grace period (in ms), whether it is a tank
      limit break, and its name from the action sheet (absent if the sheet has no row). */
  datatype LimitBreakCast = LimitBreakCast(gracePeriodMs: nat, isTankLb: bool, name: Option<string>)

  /** The events the tracker raises, in the order it raises them. */
  datatype TrackerEvent =
    | FlyTextCreation(damage: int)
    | LimitBreakEffect
    | UsingLimitBreak(isTankLb: bool, isCasting: bool)
    | LimitBreakCanceled

  const MaxActionHistorySize: nat := 6

  /** The fly-text colour of damage taken, which is ignored. */
  const DamageTakenColor: nat := 4278190218

  /** The six-character text `§` (a backslash, `u`, `0`, `0`, `A`, `7`) that marks a dropped name. */
  const DroppedSuffix: string := "\\u00A7"

  /** Grace periods of the tank limit breaks, by action id, in ms. */
  const TankLimitBreakDelaysMs: map<nat, nat> := map[
    197 := 2100,
    198 := 4100,
    199 := 4100,
    4240 := 4100,
    4241 := 4100,
    17105 := 4100
  ]

  /** Added to a non-tank limit break's cast time to form its grace period. */
  const CastGraceMs: nat := 3000

  const ValidTextKinds: set<FlyTextKind> := {
    Damage, DamageCrit, DamageDh, DamageCritDh,
    AutoAttackOrDot, AutoAttackOrDotDh, AutoAttackOrDotCrit, AutoAttackOrDotCritDh
  }

  predicate IsAutoAttackOrDot(kind: FlyTextKind)
  {
    kind == AutoAttackOrDot || kind == AutoAttackOrDotDh || kind == AutoAttackOrDotCrit || kind == AutoAttackOrDotCritDh
  }

  /** Classifies an action by the category row of its sheet entry (`None`: no entry). */
  function TypeForActionId(category: Option<nat>): (t: PlayerActionType)
    ensures t == Other <==> category.None? || category.value == 6
    ensures t == LimitBreak <==> category.Some? && (category.value == 9 || category.value == 15)
    ensures t == Spell <==> category == Some(2)
    ensures t == OffGCD <==> category == Some(4)
    ensures t == AutoAttack <==> category == Some(7)
    ensures t == Weaponskill <==> category.Some? && category.value !in {2, 4, 6, 7, 9, 15}
  {
    match category
    case None => Other
    case Some(row) =>
      if row == 2 then Spell
      else if row == 4 then OffGCD
      else if row == 6 then Other
      else if row == 7 then AutoAttack
      else if row == 9 || row == 15 then LimitBreak
      else Weaponskill
  }

  /** What the name filter of `OnFlyText` makes of a fly text's first text. */
  datatype NameFilter =
    | Dropped                 // ends with the marker text: ignored
    | Lookup(name: string)    // the name used from here on
    | OutOfRange              // "+" alone: the two-character slice throws

  predicate EndsWith(s: string, suffix: string)
  {
    |suffix| <= |s| && s[|s| - |suffix|..] == suffix
  }

  function FilterName(actionName: string): (f: NameFilter)
    ensures f == Dropped <==> EndsWith(actionName, DroppedSuffix)
    ensures f.Lookup? && |actionName| > 0 && actionName[0] == '+' ==> |actionName| >= 2 && actionName == actionName[..2] + f.name
    ensures f.Lookup? && (|actionName| == 0 || actionName[0] != '+') ==> f.name == actionName
    ensures f == OutOfRange <==> actionName == "+"
  {
    if EndsWith(actionName, DroppedSuffix) && |actionName| >= 1 then Dropped
    else if |actionName| > 0 && actionName[0] == '+' then
      if |actionName| < 2 then OutOfRange else Lookup(actionName[2..])
    else Lookup(actionName)
  }

  /** A name that ends with the section sign itself (rather than its escape text) passes the filter. */
  lemma SectionSignIsKept(stem: string)
    requires |stem| == 0 || stem[0] != '+'
    ensures FilterName(stem + ['§']) == Lookup(stem + ['§'])
  {
    var name := stem + ['§'];
    assert name[|name| - 1] == '§';
    assert !EndsWith(name, DroppedSuffix) by {
      if |DroppedSuffix| <= |name| {
        assert name[|name| - |DroppedSuffix|..][|DroppedSuffix| - 1] == '§';
      }
    }
  }

  /** No record occurs twice. */
  predicate Distinct(h: seq<FlyTextData>)
  {
    forall i, j :: 0 <= i < j < |h| ==> h[i] != h[j]
  }

  /** The history after registering `rec`: unchanged if an equal record is
      already there; otherwise `rec` is appended, the oldest record having been
      dropped first when the history is full. */
  function Remember(history: seq<FlyTextData>, rec: FlyTextData): (h: seq<FlyTextData>)
    ensures rec in h
    ensures rec in history ==> h == history
    ensures rec !in history ==> 0 < |h| <= |history| + 1 && h[|h| - 1] == rec && h[..|h| - 1] == history[|history| - (|h| - 1)..]
    ensures rec !in history && |history| < MaxActionHistorySize ==> |h| == |history| + 1
    ensures rec !in history && |history| >= MaxActionHistorySize ==> |h| == |history|
    ensures |history| <= MaxActionHistorySize ==> |h| <= MaxActionHistorySize
  {
    if rec in history then history
    else if |history| >= MaxActionHistorySize then history[1..] + [rec]
    else history + [rec]
  }

  /** Remembering keeps the history free of duplicates, and remembering the
      same record twice is the same as remembering it once. */
  lemma {:induction false} RememberDistinct(history: seq<FlyTextData>, rec: FlyTextData)
    requires Distinct(history)
    ensures Distinct(Remember(history, rec))
    ensures Remember(Remember(history, rec), rec) == Remember(history, rec)
  {
    var h := Remember(history, rec);
    if rec !in history {
      var kept := h[..|h| - 1];
      assert kept == history[|history| - |kept|..];
      forall i, j | 0 <= i < j < |h| ensures h[i] != h[j] {
        if j == |h| - 1 {
          assert h[i] == kept[i] == history[|history| - |kept| + i];
        } else {
          assert h[i] == history[|history| - |kept| + i];
          assert h[j] == history[|history| - |kept| + j];
        }
      }
    }
  }

  class PlayerActionTracker {
    var actionHistory: seq<FlyTextData>
    var limitBreakCast: Option<LimitBreakCast>
    var limitBreakWatch: Stopwatch
    var currentWastedGcd: real

    ghost predicate Valid()
      reads this
    {
      |actionHistory| <= MaxActionHistorySize && Distinct(actionHistory)
    }

    /** The limit break being cast carries `actionName`. */
    predicate IsLimitBreakName(actionName: string)
      reads this
    {
      limitBreakCast.Some? && limitBreakCast.value.name == Some(actionName)
    }

    constructor ()
      ensures Valid()
      ensures actionHistory == [] && limitBreakCast == None && limitBreakWatch == Stopped && currentWastedGcd == 0.0
    {
      actionHistory := [];
      limitBreakCast := None;
      limitBreakWatch := Stopped;
      currentWastedGcd := 0.0;
    }

    /** `dt` milliseconds of wall-clock time pass. */
    method Tick(dt: nat)
      requires Valid()
      modifies this`limitBreakWatch
      ensures Valid()
      ensures limitBreakWatch == old(limitBreakWatch).Advance(dt)
    {
      limitBreakWatch := limitBreakWatch.Advance(dt);
    }

    /** Records a damage fly text unless an equal one is remembered, and raises
        exactly one event for a new one: the limit-break effect for the limit
        break being cast, the damage otherwise. */
    method RegisterAndFireFlyText(kind: FlyTextKind, damage: int, actionName: string) returns (events: seq<TrackerEvent>)
      requires Valid()
      modifies this`actionHistory
      ensures Valid()
      ensures actionHistory == Remember(old(actionHistory), FlyTextData(actionName, damage, kind))
      ensures FlyTextData(actionName, damage, kind) in old(actionHistory) ==> events == []
      ensures FlyTextData(actionName, damage, kind) !in old(actionHistory) ==>
        events == [if IsLimitBreakName(actionName) then LimitBreakEffect else FlyTextCreation(damage)]
    {
      var newFlyText := FlyTextData(actionName, damage, kind);
      if newFlyText in actionHistory {
        return [];
      }
      if |actionHistory| >= MaxActionHistorySize {
        actionHistory := actionHistory[1..];
      }
      actionHistory := actionHistory + [newFlyText];
      assert Distinct(actionHistory) by { RememberDistinct(old(actionHistory), newFlyText); }
      if limitBreakCast.Some? && Some(actionName) == limitBreakCast.value.name {
        events := [LimitBreakEffect];
      } else {
        events := [FlyTextCreation(damage)];
      }
    }

    /** Handles a fly text shown by the game. `canRun` says whether the plugin
        is active; `hasText2` whether the fly text has a second text. `filter`
        is what the name filter made of the first text, `None` when an earlier
        guard returned before it ran. A name of "+" alone makes the source's
        slice throw; the model reports `Some(OutOfRange)` for it and changes
        nothing. */
    method OnFlyText(canRun: bool, kind: FlyTextKind, val1: int, text1: string, hasText2: bool, color: nat)
      returns (filter: Option<NameFilter>, events: seq<TrackerEvent>)
      requires Valid()
      modifies this`actionHistory
      ensures Valid()
      ensures filter.None? <==> !canRun || color == DamageTakenColor || !hasText2
      ensures filter.Some? ==> filter.value == FilterName(text1)
      ensures filter == Some(OutOfRange) <==> canRun && color != DamageTakenColor && hasText2 && text1 == "+"
      ensures filter.None? || !filter.value.Lookup? ==>
        events == [] && actionHistory == old(actionHistory)
      ensures filter.Some? && filter.value.Lookup? ==>
        var name := filter.value.name;
        if kind !in ValidTextKinds && !IsLimitBreakName(name) then
          events == [] && actionHistory == old(actionHistory)
        else if IsAutoAttackOrDot(kind) then
          events == [FlyTextCreation(val1)] && actionHistory == old(actionHistory)
        else
          actionHistory == Remember(old(actionHistory), FlyTextData(name, val1, kind))
          && events == (if FlyTextData(name, val1, kind) in old(actionHistory) then []
                        else [if IsLimitBreakName(name) then LimitBreakEffect else FlyTextCreation(val1)])
    {
      filter := None;
      events := [];
      if !canRun || color == DamageTakenColor {
        return;
      }
      if !hasText2 {
        return;
      }
      var verdict := FilterName(text1);
      filter := Some(verdict);
      if !verdict.Lookup? {
        return;
      }
      var actionName := verdict.name;
      if kind !in ValidTextKinds && (limitBreakCast.None? || limitBreakCast.value.name != Some(actionName)) {
        return;
      }
      if IsAutoAttackOrDot(kind) {
        events := [FlyTextCreation(val1)];
        return;
      }
      events := RegisterAndFireFlyText(kind, val1, actionName);
    }

    /** Combat started or ended: the wasted-GCD counter and the history are
        cleared; leaving combat also ends a limit break in progress. */
    method OnCombat(enteredCombat: bool, inCombat: bool) returns (events: seq<TrackerEvent>)
      requires Valid()
      modifies this
      ensures Valid()
      ensures currentWastedGcd == 0.0 && actionHistory == []
      ensures enteredCombat || (old(limitBreakCast).None? && !old(limitBreakWatch).running) ==>
        limitBreakCast == old(limitBreakCast) && limitBreakWatch == old(limitBreakWatch) && events == []
      ensures !enteredCombat && (old(limitBreakCast).Some? || old(limitBreakWatch).running) ==>
        limitBreakCast == None && limitBreakWatch == Stopped
        && events == (if inCombat then [UsingLimitBreak(false, false)] else [])
    {
      currentWastedGcd := 0.0;
      actionHistory := [];
      events := [];
      if !enteredCombat {
        if limitBreakCast.Some? || limitBreakWatch.running {
          events := ResetLimitBreakUse(inCombat);
        }
      }
    }

    /** The limit break is over: forget it and stop its timer. */
    method ResetLimitBreakUse(inCombat: bool) returns (events: seq<TrackerEvent>)
      requires Valid()
      modifies this`limitBreakCast, this`limitBreakWatch
      ensures Valid()
      ensures limitBreakCast == None && limitBreakWatch == Stopped
      ensures events == if inCombat then [UsingLimitBreak(false, false)] else []
    {
      limitBreakWatch := limitBreakWatch.Reset();
      limitBreakCast := None;
      events := if inCombat then [UsingLimitBreak(false, false)] else [];
    }

    /** The limit break cast was interrupted: forget it, stop its timer, and in
        combat report the cancellation before the end of the limit break. */
    method CancelLimitBreak(inCombat: bool) returns (events: seq<TrackerEvent>)
      requires Valid()
      modifies this`limitBreakCast, this`limitBreakWatch
      ensures Valid()
      ensures limitBreakCast == None && limitBreakWatch == Stopped
      ensures events == if inCombat then [LimitBreakCanceled, UsingLimitBreak(false, false)] else []
    {
      limitBreakWatch := limitBreakWatch.Reset();
      limitBreakCast := None;
      events := if inCombat then [LimitBreakCanceled, UsingLimitBreak(false, false)] else [];
    }

    /** A limit break starts, unless the player is out of combat, one is already
        being cast, or the player is a tank and the action is not a known tank
        limit break. `castTimeMs` is the action's adjusted cast time and
        `actionName` its sheet name. */
    method StartLimitBreakUse(actionId: nat, inCombat: bool, isTank: bool, castTimeMs: nat, actionName: Option<string>)
      returns (events: seq<TrackerEvent>)
      requires Valid()
      modifies this`limitBreakCast, this`limitBreakWatch
      ensures Valid()
      ensures !inCombat || old(limitBreakCast).Some? || (isTank && actionId !in TankLimitBreakDelaysMs) ==>
        limitBreakCast == old(limitBreakCast) && limitBreakWatch == old(limitBreakWatch) && events == []
      ensures inCombat && old(limitBreakCast).None? && (!isTank || actionId in TankLimitBreakDelaysMs) ==>
        && limitBreakCast.Some?
        && limitBreakCast.value.isTankLb == isTank
        && limitBreakCast.value.name == actionName
        && limitBreakCast.value.gracePeriodMs ==
             (if isTank then TankLimitBreakDelaysMs[actionId] else castTimeMs + CastGraceMs)
        && limitBreakWatch == Stopwatch(true, 0)
        && events == [UsingLimitBreak(isTank, true)]
    {
      events := [];
      if !inCombat || limitBreakCast.Some? {
        return;
      }
      var isTankLb := isTank;
      if isTankLb && actionId !in TankLimitBreakDelaysMs {
        return;
      }
      var gracePeriod := if isTankLb then TankLimitBreakDelaysMs[actionId] else castTimeMs + CastGraceMs;
      limitBreakCast := Some(LimitBreakCast(gracePeriod, isTankLb, actionName));
      limitBreakWatch := limitBreakWatch.Restart();
      events := [UsingLimitBreak(isTankLb, true)];
    }

    /** Per-frame check: once the limit break's grace period has passed, it is over. */
    method HandleLimitBreakUse(inCombat: bool) returns (events: seq<TrackerEvent>)
      requires Valid()
      modifies this`limitBreakCast, this`limitBreakWatch
      ensures Valid()
      ensures old(limitBreakWatch).running && old(limitBreakCast).Some?
              && old(limitBreakWatch).elapsedMs > old(limitBreakCast).value.gracePeriodMs ==>
        limitBreakCast == None && limitBreakWatch == Stopped
        && events == (if inCombat then [UsingLimitBreak(false, false)] else [])
      ensures !(old(limitBreakWatch).running && old(limitBreakCast).Some?
                && old(limitBreakWatch).elapsedMs > old(limitBreakCast).value.gracePeriodMs) ==>
        limitBreakCast == old(limitBreakCast) && limitBreakWatch == old(limitBreakWatch) && events == []
    {
      events := [];
      if !limitBreakWatch.running || limitBreakCast.None? {
        return;
      }
      if limitBreakWatch.elapsedMs > limitBreakCast.value.gracePeriodMs {
        events := ResetLimitBreakUse(inCombat);
      }
    }

    /** The player's death state changed (either way): a limit break in progress is cancelled. */
    method OnDeath() returns (events: seq<TrackerEvent>)
      requires Valid()
      modifies this`limitBreakCast, this`limitBreakWatch
      ensures Valid()
      ensures old(limitBreakCast).Some? ==>
        limitBreakCast == None && limitBreakWatch == Stopped && events == [LimitBreakCanceled]
      ensures old(limitBreakCast).None? ==>
        limitBreakCast == None && limitBreakWatch == old(limitBreakWatch) && events == []
    {
      events := [];
      if limitBreakCast.Some? {
        limitBreakWatch := limitBreakWatch.Reset();
        limitBreakCast := None;
        events := [LimitBreakCanceled];
      }
    }
  }
}
