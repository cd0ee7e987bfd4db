/**
  The battle manager of BattleManager.cs as pure transitions on a value `Core`
  that holds every field of the C# class. Each operation returns the new core
  and the notifications it raises, in the order the C# code invokes them.

  Time is an integer number of milliseconds; the caller passes the current
  time `now` where the C# code reads the engine clock.
*/
module BattleRules {
  import opened BattleTypes

  /** The action label a decision window starts with ("gather"). */
  const GatherAction: string := "攒"

  /** The lower bounds Configure clamps its arguments to (milliseconds). */
  const MinBeats: int := 1
  const MinBeatInterval: int := 50
  const MinDecisionTime: int := 100
  const MinLoopInterval: int := 50

  /** The public tuning fields of the manager. */
  datatype Config = Config(
    beatsBeforeDecision: int,
    beatInterval: int,
    decisionTime: int,
    loopInterval: int,
    dodgeRegenInterval: int,
    autoStartBattle: bool)

  /** The field initialisers of the manager, in milliseconds. */
  const DefaultConfig: Config := Config(2, 500, 500, 500, 5000, true)

  /** Every field of a BattleManager instance. */
  datatype Core = Core(
    config: Config,
    player: Option<Info>,
    enemy: Option<Info>,
    battleState: BattleState,
    rhythmState: RhythmState,
    roundPhase: RoundPhase,
    beatCount: int,
    nextBeatTime: int,
    decisionStartTime: int,
    decisionEndTime: int,
    decisionStarted: bool,
    actedThisDecision: bool,
    windowOpen: bool,
    selectionLocked: bool,
    actionName: string,
    nextDodgeRegenTime: int)

  /** The result of an operation without a return value. */
  datatype Out = Out(core: Core, events: seq<Event>)

  /** The result of a resource spend. */
  datatype Spend = Spend(ok: bool, core: Core, events: seq<Event>)

  /** The result of a skill selection: the return value, the out-parameter, the new state. */
  datatype Selection = Selection(ok: bool, reason: ActionRejectReason, core: Core, events: seq<Event>)

  /** A fresh manager holding the given participants (the field initialisers). */
  function Initial(player: Option<Info>, enemy: Option<Info>): Core
  {
    Core(DefaultConfig, player, enemy, BattleState.None, Idle, RoundPhase.None,
         0, 0, 0, 0, false, false, false, false, GatherAction, 0)
  }

  function Max(a: int, b: int): int { if a >= b then a else b }

  function Min(a: int, b: int): int { if a <= b then a else b }

  // ---------------------------------------------------------------------------
  // Ledger views

  function SpiritOf(c: Core): int
    requires c.player.Some?
  {
    c.player.value.spiritCount
  }

  function DodgeOf(c: Core): int
    requires c.player.Some?
  {
    c.player.value.dodgeCount
  }

  function WithSpirit(c: Core, v: int): Core
    requires c.player.Some?
  {
    c.(player := Some(c.player.value.(spiritCount := v)))
  }

  function WithDodge(c: Core, v: int): Core
    requires c.player.Some?
  {
    c.(player := Some(c.player.value.(dodgeCount := v)))
  }

  /**
    The bounds of a participant record: 0 <= spirit <= spiritMax and
    0 <= dodge <= dodgeMax (a ceiling that is not positive bounds nothing),
    which spending, dodge regeneration and the passive gain never break, and
    hpMin <= hp <= hpMax, which only the record and status overwrites write.
  */
  predicate LedgerBounded(p: Info)
  {
    && p.hpMin <= p.hp <= p.hpMax
    && 0 <= p.spiritCount
    && (p.spiritMax > 0 ==> p.spiritCount <= p.spiritMax)
    && 0 <= p.dodgeCount
    && (p.dodgeMax > 0 ==> p.dodgeCount <= p.dodgeMax)
  }

  predicate PlayerBounded(c: Core)
  {
    c.player.Some? ==> LedgerBounded(c.player.value)
  }

  // ---------------------------------------------------------------------------
  // Queries

  /** TimeToNextBeat: the time left until the next scheduled beat, never negative. */
  function TimeToNextBeat(c: Core, now: int): (r: int)
    ensures r >= 0
    ensures r == 0 <==> now >= c.nextBeatTime
    ensures r > 0 ==> now + r == c.nextBeatTime
  {
    Max(0, c.nextBeatTime - now)
  }

  /** TimeToDecisionEnd: the time left until the decision window's deadline, never negative. */
  function TimeToDecisionEnd(c: Core, now: int): (r: int)
    ensures r >= 0
    ensures r == 0 <==> now >= c.decisionEndTime
    ensures r > 0 ==> now + r == c.decisionEndTime
  {
    Max(0, c.decisionEndTime - now)
  }

  // ---------------------------------------------------------------------------
  // Change-guarded state setters

  function SetBattleState(c: Core, next: BattleState): (r: Out)
    ensures r.core == c.(battleState := next)
    ensures r.events == [] <==> c.battleState == next
    ensures r.events != [] ==> r.events == [BattleStateChanged(next)]
  {
    if c.battleState == next then Out(c, [])
    else Out(c.(battleState := next), [BattleStateChanged(next)])
  }

  function SetRoundPhase(c: Core, next: RoundPhase): (r: Out)
    ensures r.core == c.(roundPhase := next)
    ensures r.events == [] <==> c.roundPhase == next
    ensures r.events != [] ==> r.events == [RoundPhaseChanged(next)]
  {
    if c.roundPhase == next then Out(c, [])
    else Out(c.(roundPhase := next), [RoundPhaseChanged(next)])
  }

  /** The notification SetRoundPhase raises when moving from `from` to `to`. */
  function PhaseChange(from: RoundPhase, to: RoundPhase): seq<Event>
  {
    if from == to then [] else [RoundPhaseChanged(to)]
  }

  /** The notification SetBattleState raises when moving from `from` to `to`. */
  function StateChange(from: BattleState, to: BattleState): seq<Event>
  {
    if from == to then [] else [BattleStateChanged(to)]
  }

  // ---------------------------------------------------------------------------
  // Configuration and lifecycle

  /** Configure: the four rhythm settings, each clamped to its floor; nothing else changes. */
  function Configure(c: Core, beats: int, interval: int, decision: int, loop: int): (r: Core)
    ensures r.config.beatsBeforeDecision >= MinBeats && r.config.beatInterval >= MinBeatInterval
    ensures r.config.decisionTime >= MinDecisionTime && r.config.loopInterval >= MinLoopInterval
    ensures beats >= MinBeats ==> r.config.beatsBeforeDecision == beats
    ensures interval >= MinBeatInterval ==> r.config.beatInterval == interval
    ensures decision >= MinDecisionTime ==> r.config.decisionTime == decision
    ensures loop >= MinLoopInterval ==> r.config.loopInterval == loop
    ensures beats < MinBeats ==> r.config.beatsBeforeDecision == MinBeats
    ensures interval < MinBeatInterval ==> r.config.beatInterval == MinBeatInterval
    ensures decision < MinDecisionTime ==> r.config.decisionTime == MinDecisionTime
    ensures loop < MinLoopInterval ==> r.config.loopInterval == MinLoopInterval
    ensures r.config.dodgeRegenInterval == c.config.dodgeRegenInterval
    ensures r.config.autoStartBattle == c.config.autoStartBattle
    ensures r == c.(config := r.config)
  {
    c.(config := c.config.(
      beatsBeforeDecision := Max(MinBeats, beats),
      beatInterval := Max(MinBeatInterval, interval),
      decisionTime := Max(MinDecisionTime, decision),
      loopInterval := Max(MinLoopInterval, loop)))
  }

  /**
    A direct write of the five public tuning fields: unlike Configure, nothing
    is clamped (the inspector's minimums do not apply to writes from code), and
    the regeneration interval is written too.
  */
  function SetTuning(c: Core, beats: int, interval: int, decision: int, loop: int, regen: int): (r: Core)
    ensures r.config.beatsBeforeDecision == beats && r.config.beatInterval == interval
    ensures r.config.decisionTime == decision && r.config.loopInterval == loop
    ensures r.config.dodgeRegenInterval == regen
    ensures r.config.autoStartBattle == c.config.autoStartBattle
    ensures r == c.(config := r.config)
  {
    c.(config := Config(beats, interval, decision, loop, regen, c.config.autoStartBattle))
  }

  /** StartBeating: a fresh beat cycle; count 0, first beat one interval from now. */
  function StartBeating(c: Core, now: int): (r: Out)
    ensures r.core == c.(rhythmState := Beating, beatCount := 0,
                         nextBeatTime := now + c.config.beatInterval, roundPhase := RoundPhase.Beat)
    ensures r.events == PhaseChange(c.roundPhase, RoundPhase.Beat)
  {
    SetRoundPhase(c.(rhythmState := Beating, beatCount := 0, nextBeatTime := now + c.config.beatInterval),
                  RoundPhase.Beat)
  }

  /** The assignments of EnterDecision: a window from now, with the per-window selection state reset. */
  function ScheduleWindow(c: Core, now: int): (r: Core)
  {
    c.(rhythmState := RhythmState.Decision, decisionStarted := false,
       actedThisDecision := false, selectionLocked := false,
       actionName := GatherAction, decisionStartTime := now,
       decisionEndTime := now + c.config.decisionTime)
  }

  /** EnterDecision: schedules a window from now and resets the per-window selection state. */
  function EnterDecision(c: Core, now: int): (r: Out)
    ensures r.core == c.(rhythmState := RhythmState.Decision, decisionStarted := false,
                         actedThisDecision := false, selectionLocked := false,
                         actionName := GatherAction, decisionStartTime := now,
                         decisionEndTime := now + c.config.decisionTime,
                         battleState := BattleState.Decision, roundPhase := RoundPhase.Decision)
    ensures r.events == StateChange(c.battleState, BattleState.Decision)
                        + PhaseChange(c.roundPhase, RoundPhase.Decision)
  {
    var o1 := SetBattleState(ScheduleWindow(c, now), BattleState.Decision);
    var o2 := SetRoundPhase(o1.core, RoundPhase.Decision);
    Out(o2.core, o1.events + o2.events)
  }

  /** StartRhythm: starts a beat cycle and moves the battle to Rhythm. */
  function StartRhythm(c: Core, now: int): (r: Out)
    ensures r.core == c.(rhythmState := Beating, beatCount := 0,
                         nextBeatTime := now + c.config.beatInterval, roundPhase := RoundPhase.Beat,
                         battleState := BattleState.Rhythm)
    ensures r.events == PhaseChange(c.roundPhase, RoundPhase.Beat)
                        + StateChange(c.battleState, BattleState.Rhythm)
  {
    var o1 := StartBeating(c, now);
    var o2 := SetBattleState(o1.core, BattleState.Rhythm);
    Out(o2.core, o1.events + o2.events)
  }

  /**
    StopRhythm: rhythm Idle, beat count 0, phase None. The window flags and the
    scheduled next beat are left as they were.
  */
  function StopRhythm(c: Core): (r: Out)
    ensures r.core.rhythmState == Idle && r.core.beatCount == 0 && r.core.roundPhase == RoundPhase.None
    ensures r.core.windowOpen == c.windowOpen && r.core.nextBeatTime == c.nextBeatTime
    ensures r.core == c.(rhythmState := Idle, beatCount := 0, roundPhase := RoundPhase.None)
    ensures r.events == PhaseChange(c.roundPhase, RoundPhase.None)
  {
    SetRoundPhase(c.(rhythmState := Idle, beatCount := 0), RoundPhase.None)
  }

  /**
    StartBattle: Preparing, then a beat cycle and Rhythm, then the first dodge
    regeneration deadline. Preparing and Rhythm are announced again when the
    battle was already running.
  */
  function StartBattle(c: Core, now: int): (r: Out)
    ensures r.core.battleState == BattleState.Rhythm && r.core.rhythmState == Beating
    ensures r.core.beatCount == 0 && r.core.roundPhase == RoundPhase.Beat
    ensures r.core.nextBeatTime == now + c.config.beatInterval
    ensures r.core.nextDodgeRegenTime == now + c.config.dodgeRegenInterval
    ensures r.core == c.(battleState := BattleState.Rhythm, rhythmState := Beating, beatCount := 0,
                         nextBeatTime := now + c.config.beatInterval, roundPhase := RoundPhase.Beat,
                         nextDodgeRegenTime := now + c.config.dodgeRegenInterval)
    ensures r.events == StateChange(c.battleState, BattleState.Preparing)
                        + PhaseChange(c.roundPhase, RoundPhase.Beat)
                        + [BattleStateChanged(BattleState.Rhythm)]
  {
    var o1 := SetBattleState(c, BattleState.Preparing);
    var o2 := StartRhythm(o1.core, now);
    Out(o2.core.(nextDodgeRegenTime := now + c.config.dodgeRegenInterval), o1.events + o2.events)
  }

  /** EndBattle: stops the rhythm and finishes the battle; an open window stays open. */
  function EndBattle(c: Core): (r: Out)
    ensures r.core.battleState == Finished && r.core.rhythmState == Idle
    ensures r.core.roundPhase == RoundPhase.None && r.core.beatCount == 0
    ensures r.core == c.(battleState := Finished, rhythmState := Idle, beatCount := 0,
                         roundPhase := RoundPhase.None)
    ensures r.events == PhaseChange(c.roundPhase, RoundPhase.None) + StateChange(c.battleState, Finished)
  {
    var o1 := StopRhythm(c);
    var o2 := SetBattleState(o1.core, Finished);
    Out(o2.core, o1.events + o2.events)
  }

  /** Start (the engine's first frame): announce the participants, then start the battle if configured to. */
  function Start(c: Core, now: int): (r: Out)
    ensures c.config.autoStartBattle ==> r.core == StartBattle(c, now).core
    ensures !c.config.autoStartBattle ==> r.core == c
    ensures r.events == [BattleInfoChanged] + (if c.config.autoStartBattle then StartBattle(c, now).events else [])
  {
    if c.config.autoStartBattle then
      var o := StartBattle(c, now);
      Out(o.core, [BattleInfoChanged] + o.events)
    else Out(c, [BattleInfoChanged])
  }

  // ---------------------------------------------------------------------------
  // Roster and status updates

  /** SetPlayerInfo: replaces the player record wholesale. */
  function SetPlayerInfo(c: Core, info: Option<Info>): (r: Out)
    ensures r.core == c.(player := info) && r.events == [BattleInfoChanged]
  {
    Out(c.(player := info), [BattleInfoChanged])
  }

  /** SetEnemyInfo: replaces the enemy record wholesale. */
  function SetEnemyInfo(c: Core, info: Option<Info>): (r: Out)
    ensures r.core == c.(enemy := info) && r.events == [BattleInfoChanged]
  {
    Out(c.(enemy := info), [BattleInfoChanged])
  }

  /** UpdatePlayerStatus: overwrites hp, dodge and spirit without clamping; nothing happens without a player. */
  function UpdatePlayerStatus(c: Core, hp: int, dodge: int, spirit: int): (r: Out)
    ensures c.player.Null? ==> r.core == c && r.events == []
    ensures c.player.Some? ==>
      && r.core.player.Some?
      && r.core.player.value == c.player.value.(hp := hp, dodgeCount := dodge, spiritCount := spirit)
      && r.core == c.(player := r.core.player)
      && r.events == [BattleInfoChanged]
  {
    match c.player
    case Null => Out(c, [])
    case Some(p) =>
      Out(c.(player := Some(p.(hp := hp, dodgeCount := dodge, spiritCount := spirit))), [BattleInfoChanged])
  }

  /** UpdateEnemyStatus: overwrites hp, dodge and spirit without clamping; nothing happens without an enemy. */
  function UpdateEnemyStatus(c: Core, hp: int, dodge: int, spirit: int): (r: Out)
    ensures c.enemy.Null? ==> r.core == c && r.events == []
    ensures c.enemy.Some? ==>
      && r.core.enemy.Some?
      && r.core.enemy.value == c.enemy.value.(hp := hp, dodgeCount := dodge, spiritCount := spirit)
      && r.core == c.(enemy := r.core.enemy)
      && r.events == [BattleInfoChanged]
  {
    match c.enemy
    case Null => Out(c, [])
    case Some(p) =>
      Out(c.(enemy := Some(p.(hp := hp, dodgeCount := dodge, spiritCount := spirit))), [BattleInfoChanged])
  }

  // ---------------------------------------------------------------------------
  // Resource ledger

  /**
    TrySpendPlayerSpirit: a non-positive cost always succeeds for free; otherwise
    the spend succeeds exactly when the player can afford it, and then takes
    exactly `cost` and announces the change.
  */
  function TrySpendPlayerSpirit(c: Core, cost: int): (r: Spend)
    ensures r.ok <==> c.player.Some? && (cost <= 0 || cost <= SpiritOf(c))
    ensures r.ok && cost > 0 ==> r.core == WithSpirit(c, SpiritOf(c) - cost) && r.events == [BattleInfoChanged]
    ensures !(r.ok && cost > 0) ==> r.core == c && r.events == []
    ensures r.ok && cost > 0 ==> SpiritOf(r.core) >= 0
    ensures PlayerBounded(c) ==> PlayerBounded(r.core)
  {
    if c.player.Null? then Spend(false, c, [])
    else if cost <= 0 then Spend(true, c, [])
    else if SpiritOf(c) < cost then Spend(false, c, [])
    else Spend(true, WithSpirit(c, SpiritOf(c) - cost), [BattleInfoChanged])
  }

  /** TrySpendPlayerDodge: succeeds exactly when there is a player with a positive dodge count, and then takes one. */
  function TrySpendPlayerDodge(c: Core): (r: Spend)
    ensures r.ok <==> c.player.Some? && DodgeOf(c) > 0
    ensures r.ok ==> r.core == WithDodge(c, DodgeOf(c) - 1) && r.events == [BattleInfoChanged]
    ensures !r.ok ==> r.core == c && r.events == []
    ensures r.ok ==> DodgeOf(r.core) >= 0
    ensures PlayerBounded(c) ==> PlayerBounded(r.core)
  {
    if c.player.Null? then Spend(false, c, [])
    else if DodgeOf(c) <= 0 then Spend(false, c, [])
    else Spend(true, WithDodge(c, DodgeOf(c) - 1), [BattleInfoChanged])
  }

  /** The player's skill at `index`, or Null when the list is null, the index is out of range or the entry is null. */
  function SkillAt(c: Core, index: int): (r: Option<Skill>)
    ensures r.Some? ==> c.player.Some? && c.player.value.skills.Some?
                        && 0 <= index < |c.player.value.skills.value|
                        && c.player.value.skills.value[index] == r
    ensures c.player.Some? && c.player.value.skills.Some? && 0 <= index < |c.player.value.skills.value| ==>
              r == c.player.value.skills.value[index]
    ensures c.player.Null? || c.player.value.skills.Null? || index < 0 || index >= |c.player.value.skills.value| ==>
              r == Null
  {
    if c.player.Null? || c.player.value.skills.Null? then Null
    else if index < 0 || index >= |c.player.value.skills.value| then Null
    else c.player.value.skills.value[index]
  }

  /** What a skill costs: a dodge charge for a Dodge skill, its spirit cost otherwise. */
  function Pay(c: Core, s: Skill): (r: Spend)
    ensures r.ok <==> c.player.Some? && if s.kind == Dodge then DodgeOf(c) > 0 else s.cast <= 0 || s.cast <= SpiritOf(c)
    ensures r.ok && s.kind == Dodge ==> r.core == WithDodge(c, DodgeOf(c) - 1) && r.events == [BattleInfoChanged]
    ensures r.ok && s.kind != Dodge && s.cast > 0 ==>
              r.core == WithSpirit(c, SpiritOf(c) - s.cast) && r.events == [BattleInfoChanged]
    ensures !r.ok || (s.kind != Dodge && s.cast <= 0) ==> r.core == c && r.events == []
    ensures PlayerBounded(c) ==> PlayerBounded(r.core)
  {
    if s.kind == Dodge then TrySpendPlayerDodge(c) else TrySpendPlayerSpirit(c, s.cast)
  }

  /** The three rejections that happen before anything is paid. */
  predicate EarlyRejection(reason: ActionRejectReason)
  {
    reason == NotInDecision || reason == AlreadySelected || reason == InvalidSkill
  }

  /**
    TrySelectPlayerSkill: the first failing check decides the reason, in the
    order window open, not locked, skill valid, resource affordable. Early
    rejections change nothing; a failed payment still locks the window and
    marks the player as having acted; success records the skill's name.
  */
  function TrySelectPlayerSkill(c: Core, index: int): (r: Selection)
    ensures r.ok <==> r.reason == ActionRejectReason.None
    ensures !c.windowOpen ==> r.reason == NotInDecision
    ensures c.windowOpen && c.selectionLocked ==> r.reason == AlreadySelected
    ensures c.windowOpen && !c.selectionLocked && SkillAt(c, index).Null? ==> r.reason == InvalidSkill
    ensures c.windowOpen && !c.selectionLocked && SkillAt(c, index).Some? ==>
      var s := SkillAt(c, index).value;
      && r.ok == Pay(c, s).ok
      && (!r.ok ==> r.reason == if s.kind == Dodge then DodgeNotEnough else SpiritNotEnough)
    ensures EarlyRejection(r.reason) ==> r.core == c && r.events == []
    ensures r.reason == DodgeNotEnough || r.reason == SpiritNotEnough ==>
      && r.core == c.(actedThisDecision := true, selectionLocked := true)
      && r.events == [ActionRejected(r.reason)]
    ensures r.ok ==>
      var s := SkillAt(c, index).value;
      && r.core == Pay(c, s).core.(actionName := s.name, actedThisDecision := true, selectionLocked := true)
      && r.events == Pay(c, s).events + [DecisionActionChanged(s.name)]
    ensures !EarlyRejection(r.reason) ==> r.core.selectionLocked && r.core.actedThisDecision
    ensures r.core.windowOpen == c.windowOpen
    ensures PlayerBounded(c) ==> PlayerBounded(r.core)
  {
    if !c.windowOpen then Selection(false, NotInDecision, c, [])
    else if c.selectionLocked then Selection(false, AlreadySelected, c, [])
    else match SkillAt(c, index)
      case Null => Selection(false, InvalidSkill, c, [])
      case Some(s) => Commit(c, s)
  }

  /**
    The part of TrySelectPlayerSkill after the checks: pay for the skill; a
    failed payment is rejected, a successful one records the skill's name.
    Either way the player has acted and the selection is locked.
  */
  function Commit(c: Core, s: Skill): (r: Selection)
    ensures r.ok <==> Pay(c, s).ok
    ensures r.ok <==> r.reason == ActionRejectReason.None
    ensures !r.ok ==>
      && r.reason == (if s.kind == Dodge then DodgeNotEnough else SpiritNotEnough)
      && r.core == c.(actedThisDecision := true, selectionLocked := true)
      && r.events == [ActionRejected(r.reason)]
    ensures r.ok ==>
      && r.core.player == Pay(c, s).core.player
      && r.core == c.(player := r.core.player, actionName := s.name, actedThisDecision := true, selectionLocked := true)
      && r.events == Pay(c, s).events + [DecisionActionChanged(s.name)]
    ensures PlayerBounded(c) ==> PlayerBounded(r.core)
  {
    var paid := Pay(c, s);
    if !paid.ok then
      var reason := if s.kind == Dodge then DodgeNotEnough else SpiritNotEnough;
      Selection(false, reason, c.(actedThisDecision := true, selectionLocked := true), [ActionRejected(reason)])
    else
      Selection(true, ActionRejectReason.None,
                paid.core.(actionName := s.name, actedThisDecision := true, selectionLocked := true),
                paid.events + [DecisionActionChanged(s.name)])
  }

  /** Dodge regeneration runs only in a live battle with a positive interval and a positive ceiling. */
  predicate RegenActive(c: Core)
  {
    && c.player.Some?
    && c.battleState != BattleState.None && c.battleState != Finished
    && c.config.dodgeRegenInterval > 0
    && c.player.value.dodgeMax > 0
  }

  /**
    TickDodgeRegen: at or above the ceiling only the deadline moves to
    now + interval; below it, one charge is added once the deadline has passed.
    Only the player's dodge count and the deadline can change.
  */
  function TickDodgeRegen(c: Core, now: int): (r: Out)
    ensures !RegenActive(c) ==> r == Out(c, [])
    ensures RegenActive(c) && DodgeOf(c) >= c.player.value.dodgeMax ==>
      r == Out(c.(nextDodgeRegenTime := now + c.config.dodgeRegenInterval), [])
    ensures RegenActive(c) && DodgeOf(c) < c.player.value.dodgeMax && now < c.nextDodgeRegenTime ==>
      r == Out(c, [])
    ensures RegenActive(c) && DodgeOf(c) < c.player.value.dodgeMax && now >= c.nextDodgeRegenTime ==>
      r == Out(WithDodge(c, DodgeOf(c) + 1).(nextDodgeRegenTime := now + c.config.dodgeRegenInterval),
               [BattleInfoChanged])
    ensures r.core.player.Some? == c.player.Some?
    ensures c.player.Some? ==> r.core.player.value.dodgeMax == c.player.value.dodgeMax
    ensures c.player.Some? && c.player.value.dodgeMax > 0 && DodgeOf(c) <= c.player.value.dodgeMax ==>
      DodgeOf(r.core) <= c.player.value.dodgeMax
    ensures c.player.Some? ==> DodgeOf(c) <= DodgeOf(r.core) <= DodgeOf(c) + 1
    ensures r.events == [] || r.events == [BattleInfoChanged]
    ensures r.core == c.(player := r.core.player, nextDodgeRegenTime := r.core.nextDodgeRegenTime)
    ensures PlayerBounded(c) ==> PlayerBounded(r.core)
  {
    if !RegenActive(c) then Out(c, [])
    else if DodgeOf(c) >= c.player.value.dodgeMax then
      Out(c.(nextDodgeRegenTime := now + c.config.dodgeRegenInterval), [])
    else if now < c.nextDodgeRegenTime then Out(c, [])
    else Out(WithDodge(c, DodgeOf(c) + 1).(nextDodgeRegenTime := now + c.config.dodgeRegenInterval),
             [BattleInfoChanged])
  }

  /**
    ApplyDecisionResult: the passive spirit gain at window close. Nothing happens
    when the player acted; otherwise spirit becomes old + 1, capped at spiritMax
    when that is positive, and the change (if any) is announced.
  */
  function ApplyDecisionResult(c: Core): (r: Out)
    ensures c.player.Null? || c.actedThisDecision ==> r == Out(c, [])
    ensures c.player.Some? && !c.actedThisDecision && c.player.value.spiritMax > 0 ==>
      r.core == WithSpirit(c, Min(SpiritOf(c) + 1, c.player.value.spiritMax))
    ensures c.player.Some? && !c.actedThisDecision && c.player.value.spiritMax <= 0 ==>
      r.core == WithSpirit(c, SpiritOf(c) + 1)
    ensures r.core.player.Some? == c.player.Some?
    ensures r.events == [BattleInfoChanged] <==> r.core != c
    ensures r.events == [] || r.events == [BattleInfoChanged]
    ensures PlayerBounded(c) ==> PlayerBounded(r.core)
  {
    if c.player.Null? || c.actedThisDecision then Out(c, [])
    else
      var next := if c.player.value.spiritMax > 0 then Min(SpiritOf(c) + 1, c.player.value.spiritMax)
                  else SpiritOf(c) + 1;
      if next == SpiritOf(c) then Out(c, [])
      else Out(WithSpirit(c, next), [BattleInfoChanged])
  }

  // ---------------------------------------------------------------------------
  // The per-frame step

  /** The Beating branch of Update. */
  function BeatStep(c: Core, now: int): (r: Out)
    ensures now < c.nextBeatTime ==> r == Out(c, [])
    ensures now >= c.nextBeatTime && c.beatCount + 1 < c.config.beatsBeforeDecision ==>
      r == Out(c.(beatCount := c.beatCount + 1, nextBeatTime := now + c.config.beatInterval),
               [OnBeat(c.beatCount + 1)])
    ensures now >= c.nextBeatTime && c.beatCount + 1 >= c.config.beatsBeforeDecision ==>
      var entered := EnterDecision(c.(beatCount := c.beatCount + 1), now);
      r == Out(entered.core, [OnBeat(c.beatCount + 1)] + entered.events)
  {
    if now < c.nextBeatTime then Out(c, [])
    else
      var c1 := c.(beatCount := c.beatCount + 1);
      if c1.beatCount >= c.config.beatsBeforeDecision then
        var o := EnterDecision(c1, now);
        Out(o.core, [OnBeat(c1.beatCount)] + o.events)
      else Out(c1.(nextBeatTime := now + c.config.beatInterval), [OnBeat(c1.beatCount)])
  }

  /** The first half of closing the window: passive gain, window closed, phase Result, DecisionEnd. */
  function SettleDecision(c: Core): (r: Out)
    ensures !r.core.windowOpen && r.core.roundPhase == Result
    ensures r.core == ApplyDecisionResult(c).core.(windowOpen := false, roundPhase := Result)
    ensures r.events == ApplyDecisionResult(c).events + PhaseChange(c.roundPhase, Result) + [DecisionEnd]
  {
    var o1 := ApplyDecisionResult(c);
    var o2 := SetRoundPhase(o1.core.(windowOpen := false), Result);
    Out(o2.core, o1.events + o2.events + [DecisionEnd])
  }

  /**
    The closing half of the Decision branch: SettleDecision, then Idle until
    now + loop interval with phase LoopDelay.
  */
  function CloseDecision(c: Core, now: int): (r: Out)
    ensures r.core.rhythmState == Idle && !r.core.windowOpen
    ensures r.core.nextBeatTime == now + c.config.loopInterval
    ensures r.core.roundPhase == LoopDelay
    ensures r.core == ApplyDecisionResult(c).core.(windowOpen := false, rhythmState := Idle,
                         nextBeatTime := now + c.config.loopInterval, roundPhase := LoopDelay)
    ensures r.events == ApplyDecisionResult(c).events + PhaseChange(c.roundPhase, Result)
                        + [DecisionEnd, RoundPhaseChanged(LoopDelay)]
  {
    var settled := SettleDecision(c);
    var o := SetRoundPhase(settled.core.(rhythmState := Idle, nextBeatTime := now + c.config.loopInterval), LoopDelay);
    Out(o.core, settled.events + o.events)
  }

  /** The Decision branch of Update: open the window once its start is due, close it once its end is due. */
  function DecisionStep(c: Core, now: int): (r: Out)
    ensures !c.decisionStarted && now < c.decisionStartTime ==> r == Out(c, [])
    ensures !c.decisionStarted && now >= c.decisionStartTime ==>
      r == Out(c.(decisionStarted := true, windowOpen := true), [DecisionStart])
    ensures c.decisionStarted && now < c.decisionEndTime ==> r == Out(c, [])
    ensures c.decisionStarted && now >= c.decisionEndTime ==> r == CloseDecision(c, now)
  {
    if !c.decisionStarted then
      if now >= c.decisionStartTime then Out(c.(decisionStarted := true, windowOpen := true), [DecisionStart])
      else Out(c, [])
    else if now >= c.decisionEndTime then CloseDecision(c, now)
    else Out(c, [])
  }

  /** The rhythm part of Update, dispatched on the rhythm state. */
  function RhythmStep(c: Core, now: int): (r: Out)
    ensures r.core.battleState == c.battleState || r.core.battleState == BattleState.Decision
    ensures PlayerBounded(c) ==> PlayerBounded(r.core)
  {
    match c.rhythmState
    case Beating => BeatStep(c, now)
    case Decision => DecisionStep(c, now)
    case Idle => if now >= c.nextBeatTime then StartBeating(c, now) else Out(c, [])
  }

  /** RhythmStep unfolded one case at a time. */
  lemma RhythmStepCases(c: Core, now: int)
    ensures c.rhythmState == Beating ==> RhythmStep(c, now) == BeatStep(c, now)
    ensures c.rhythmState == RhythmState.Decision ==> RhythmStep(c, now) == DecisionStep(c, now)
    ensures c.rhythmState == Idle && now >= c.nextBeatTime ==> RhythmStep(c, now) == StartBeating(c, now)
    ensures c.rhythmState == Idle && now < c.nextBeatTime ==> RhythmStep(c, now) == Out(c, [])
  {
  }

  /**
    Update: dodge regeneration first, then one step of the rhythm machine. The
    battle state can only move to Decision here; no frame moves it back to Rhythm.
  */
  function Update(c: Core, now: int): (r: Out)
    ensures var regen := TickDodgeRegen(c, now);
      && |regen.events| <= |r.events| && r.events[..|regen.events|] == regen.events
    ensures r.core.battleState == c.battleState || r.core.battleState == BattleState.Decision
    ensures PlayerBounded(c) ==> PlayerBounded(r.core)
  {
    var regen := TickDodgeRegen(c, now);
    var step := RhythmStep(regen.core, now);
    Out(step.core, regen.events + step.events)
  }

  /** The rhythm machine's notifications do not depend on the player or the regeneration deadline. */
  lemma RhythmEventsIgnoreRegen(c: Core, d: Core, now: int)
    requires d == c.(player := d.player, nextDodgeRegenTime := d.nextDodgeRegenTime)
    requires c.player.Some? == d.player.Some?
    requires c.player.Some? ==> SpiritOf(d) == SpiritOf(c) && d.player.value.spiritMax == c.player.value.spiritMax
    ensures RhythmStep(d, now).events == RhythmStep(c, now).events
  {
    match c.rhythmState
    case Idle =>
    case Beating =>
      assert BeatStep(d, now).events == BeatStep(c, now).events;
    case Decision =>
      if c.decisionStarted && now >= c.decisionEndTime {
        assert ApplyDecisionResult(d).events == ApplyDecisionResult(c).events;
      }
  }

  /** Dodge regeneration changes none of the fields the rhythm machine reads. */
  lemma RegenKeepsRhythm(c: Core, now: int)
    ensures var c1 := TickDodgeRegen(c, now).core;
      && c1 == c.(player := c1.player, nextDodgeRegenTime := c1.nextDodgeRegenTime)
      && RhythmStep(c1, now).events == RhythmStep(c, now).events
      && Update(c, now).events == TickDodgeRegen(c, now).events + RhythmStep(c, now).events
  {
    RhythmEventsIgnoreRegen(c, TickDodgeRegen(c, now).core, now);
  }

  /** Idle, next beat due: a new beat cycle starts with count 0. */
  lemma UpdateStartsBeating(c: Core, now: int)
    requires c.rhythmState == Idle && now >= c.nextBeatTime
    ensures var r := Update(c, now);
      && r.core.rhythmState == Beating && r.core.beatCount == 0
      && r.core.nextBeatTime == now + c.config.beatInterval && r.core.roundPhase == RoundPhase.Beat
  {
    RegenKeepsRhythm(c, now);
  }

  /** Beating, beat due and below the threshold: the count goes up by one, announced, and the next beat is now + interval. */
  lemma UpdateCountsBeat(c: Core, now: int)
    requires c.rhythmState == Beating && now >= c.nextBeatTime
    requires c.beatCount + 1 < c.config.beatsBeforeDecision
    ensures var r := Update(c, now);
      && r.core.rhythmState == Beating && r.core.beatCount == c.beatCount + 1
      && r.core.nextBeatTime == now + c.config.beatInterval
      && r.events[|r.events| - 1] == OnBeat(c.beatCount + 1)
  {
    RegenKeepsRhythm(c, now);
  }

  /**
    Beating, beat due at the threshold: the beat is announced and the machine
    enters Decision with a fresh, unlocked selection; the window is scheduled
    from now but not yet opened by this frame.
  */
  lemma UpdateEntersDecision(c: Core, now: int)
    requires c.rhythmState == Beating && now >= c.nextBeatTime
    requires c.beatCount + 1 >= c.config.beatsBeforeDecision
    ensures var r := Update(c, now);
      && r.core.rhythmState == RhythmState.Decision
      && r.core.battleState == BattleState.Decision && r.core.roundPhase == RoundPhase.Decision
      && !r.core.decisionStarted && r.core.windowOpen == c.windowOpen
      && !r.core.selectionLocked && !r.core.actedThisDecision && r.core.actionName == GatherAction
      && r.core.decisionStartTime == now && r.core.decisionEndTime == now + c.config.decisionTime
      && OnBeat(c.beatCount + 1) in r.events
  {
    RegenKeepsRhythm(c, now);
    var regen := TickDodgeRegen(c, now);
    assert Update(c, now).events[|regen.events|] == OnBeat(c.beatCount + 1);
  }

  /** Decision, not yet started, start due: the window opens and DecisionStart is the last notification. */
  lemma UpdateOpensWindow(c: Core, now: int)
    requires c.rhythmState == RhythmState.Decision && !c.decisionStarted && now >= c.decisionStartTime
    ensures var r := Update(c, now);
      && r.core.decisionStarted && r.core.windowOpen && r.core.rhythmState == RhythmState.Decision
      && r.events[|r.events| - 1] == DecisionStart
  {
    RegenKeepsRhythm(c, now);
  }

  /**
    Decision, started, end due: the window closes; the last two notifications
    are DecisionEnd and the LoopDelay phase, and the next cycle starts one loop
    interval from now.
  */
  lemma UpdateClosesWindow(c: Core, now: int)
    requires c.rhythmState == RhythmState.Decision && c.decisionStarted && now >= c.decisionEndTime
    ensures var r := Update(c, now);
      && r.core.rhythmState == Idle && !r.core.windowOpen && r.core.roundPhase == LoopDelay
      && r.core.nextBeatTime == now + c.config.loopInterval
      && |r.events| >= 2 && r.events[|r.events| - 2..] == [DecisionEnd, RoundPhaseChanged(LoopDelay)]
  {
    RegenKeepsRhythm(c, now);
  }

  /** Idle or Beating with no beat due: only dodge regeneration happens. */
  lemma UpdateWaits(c: Core, now: int)
    requires c.rhythmState != RhythmState.Decision && now < c.nextBeatTime
    ensures Update(c, now) == TickDodgeRegen(c, now)
  {
    RegenKeepsRhythm(c, now);
  }
}
