/**
  The battle manager as the stateful class of BattleManager.cs. The fields are
  the C# fields (times in milliseconds); `events` records every notification
  the C# events would deliver, in order. Each method named after a C# method
  is proved to perform the transition of the same name in BattleRules, so the
  properties proved there hold of this class. The methods that model one block
  of a C# method say in their contracts which rule or field update they meet;
  the remaining small methods only group consecutive assignments.
*/
module Manager {
  import opened BattleTypes
  import BattleRules

  class BattleManager {
    // Rhythm settings
    var beatsBeforeDecision: int
    var beatInterval: int
    var decisionTime: int
    var loopInterval: int
    var dodgeRegenInterval: int
    var autoStartBattle: bool

    // Participants
    var playerInfo: Option<Info>
    var enemyInfo: Option<Info>

    // Battle and rhythm state
    var battleState: BattleState
    var rhythmState: RhythmState
    var currentBeatCount: int
    var nextBeatTime: int
    var decisionStartTime: int
    var decisionEndTime: int
    var decisionStarted: bool
    var playerActedThisDecision: bool
    var decisionWindowOpen: bool
    var selectionLocked: bool
    var decisionActionName: string
    var nextDodgeRegenTime: int
    var roundPhase: RoundPhase

    /** Every notification raised so far, in emission order. */
    ghost var events: seq<Event>

    /** The fields as one value. */
    ghost function Model(): BattleRules.Core
      reads this
    {
      BattleRules.Core(
        BattleRules.Config(beatsBeforeDecision, beatInterval, decisionTime, loopInterval,
                           dodgeRegenInterval, autoStartBattle),
        playerInfo, enemyInfo, battleState, rhythmState, roundPhase,
        currentBeatCount, nextBeatTime, decisionStartTime, decisionEndTime,
        decisionStarted, playerActedThisDecision, decisionWindowOpen, selectionLocked,
        decisionActionName, nextDodgeRegenTime)
    }

    /** The field initialisers, with the participants the engine's Awake would install. */
    constructor (player: Option<Info>, enemy: Option<Info>)
      ensures Model() == BattleRules.Initial(player, enemy) && events == []
    {
      beatsBeforeDecision := 2;
      beatInterval := 500;
      decisionTime := 500;
      loopInterval := 500;
      dodgeRegenInterval := 5000;
      autoStartBattle := true;
      playerInfo := player;
      enemyInfo := enemy;
      battleState := BattleState.None;
      rhythmState := Idle;
      currentBeatCount := 0;
      nextBeatTime := 0;
      decisionStartTime := 0;
      decisionEndTime := 0;
      decisionStarted := false;
      playerActedThisDecision := false;
      decisionWindowOpen := false;
      selectionLocked := false;
      decisionActionName := BattleRules.GatherAction;
      nextDodgeRegenTime := 0;
      roundPhase := RoundPhase.None;
      events := [];
    }

    // -------------------------------------------------------------------------
    // Queries

    function TimeToNextBeat(now: int): (r: int)
      reads this
      ensures r == BattleRules.TimeToNextBeat(Model(), now)
    {
      if nextBeatTime - now >= 0 then nextBeatTime - now else 0
    }

    function TimeToDecisionEnd(now: int): (r: int)
      reads this
      ensures r == BattleRules.TimeToDecisionEnd(Model(), now)
    {
      if decisionEndTime - now >= 0 then decisionEndTime - now else 0
    }

    /** Whether the decision window is open: exactly when a selection gets past its first check. */
    function IsDecisionWindow(): (r: bool)
      reads this
      ensures r == Model().windowOpen
      ensures forall index :: BattleRules.TrySelectPlayerSkill(Model(), index).reason == NotInDecision <==> !r
    {
      decisionWindowOpen
    }

    // -------------------------------------------------------------------------
    // Change-guarded setters

    method SetBattleState(next: BattleState)
      modifies this`battleState, this`events
      ensures Model() == BattleRules.SetBattleState(old(Model()), next).core
      ensures events == old(events) + BattleRules.SetBattleState(old(Model()), next).events
    {
      if battleState == next {
        return;
      }
      battleState := next;
      events := events + [BattleStateChanged(next)];
    }

    method SetRoundPhase(next: RoundPhase)
      modifies this`roundPhase, this`events
      ensures Model() == BattleRules.SetRoundPhase(old(Model()), next).core
      ensures events == old(events) + BattleRules.SetRoundPhase(old(Model()), next).events
    {
      if roundPhase == next {
        return;
      }
      roundPhase := next;
      events := events + [RoundPhaseChanged(next)];
    }

    // -------------------------------------------------------------------------
    // Lifecycle

    /** The engine's first frame. */
    method Start(now: int)
      modifies this
      ensures Model() == BattleRules.Start(old(Model()), now).core
      ensures events == old(events) + BattleRules.Start(old(Model()), now).events
    {
      Emit(BattleInfoChanged);
      if autoStartBattle {
        ghost var started := BattleRules.StartBattle(Model(), now);
        StartBattle(now);
        AppendAssoc(old(events), [BattleInfoChanged], started.events);
      }
    }

    method Configure(beats: int, interval: int, decision: int, loop: int)
      modifies this`beatsBeforeDecision, this`beatInterval, this`decisionTime, this`loopInterval
      ensures Model() == BattleRules.Configure(old(Model()), beats, interval, decision, loop)
      ensures events == old(events)
    {
      SetRhythmSettings(beats, interval, decision, loop);
    }

    /** The four clamped assignments of Configure. */
    method SetRhythmSettings(beats: int, interval: int, decision: int, loop: int)
      modifies this`beatsBeforeDecision, this`beatInterval, this`decisionTime, this`loopInterval
      ensures beatsBeforeDecision == BattleRules.Max(BattleRules.MinBeats, beats)
      ensures beatInterval == BattleRules.Max(BattleRules.MinBeatInterval, interval)
      ensures decisionTime == BattleRules.Max(BattleRules.MinDecisionTime, decision)
      ensures loopInterval == BattleRules.Max(BattleRules.MinLoopInterval, loop)
    {
      beatsBeforeDecision := if beats >= BattleRules.MinBeats then beats else BattleRules.MinBeats;
      beatInterval := if interval >= BattleRules.MinBeatInterval then interval else BattleRules.MinBeatInterval;
      decisionTime := if decision >= BattleRules.MinDecisionTime then decision else BattleRules.MinDecisionTime;
      loopInterval := if loop >= BattleRules.MinLoopInterval then loop else BattleRules.MinLoopInterval;
    }

    method StartBattle(now: int)
      modifies this
      ensures Model() == BattleRules.StartBattle(old(Model()), now).core
      ensures events == old(events) + BattleRules.StartBattle(old(Model()), now).events
    {
      ghost var prepared := BattleRules.SetBattleState(Model(), BattleState.Preparing);
      SetBattleState(BattleState.Preparing);
      ghost var started := BattleRules.StartRhythm(Model(), now);
      StartRhythm(now);
      AppendAssoc(old(events), prepared.events, started.events);
      nextDodgeRegenTime := now + dodgeRegenInterval;
    }

    method EndBattle()
      modifies this
      ensures Model() == BattleRules.EndBattle(old(Model())).core
      ensures events == old(events) + BattleRules.EndBattle(old(Model())).events
    {
      ghost var stopped := BattleRules.StopRhythm(Model());
      StopRhythm();
      ghost var finished := BattleRules.SetBattleState(Model(), Finished);
      SetBattleState(Finished);
      AppendAssoc(old(events), stopped.events, finished.events);
    }

    method StartRhythm(now: int)
      modifies this
      ensures Model() == BattleRules.StartRhythm(old(Model()), now).core
      ensures events == old(events) + BattleRules.StartRhythm(old(Model()), now).events
    {
      ghost var beating := BattleRules.StartBeating(Model(), now);
      StartBeating(now);
      ghost var stated := BattleRules.SetBattleState(Model(), BattleState.Rhythm);
      SetBattleState(BattleState.Rhythm);
      AppendAssoc(old(events), beating.events, stated.events);
    }

    method StopRhythm()
      modifies this`rhythmState, this`currentBeatCount, this`roundPhase, this`events
      ensures Model() == BattleRules.StopRhythm(old(Model())).core
      ensures events == old(events) + BattleRules.StopRhythm(old(Model())).events
    {
      rhythmState := Idle;
      currentBeatCount := 0;
      SetRoundPhase(RoundPhase.None);
    }

    // -------------------------------------------------------------------------
    // Roster and status

    method SetPlayerInfo(info: Option<Info>)
      modifies this`playerInfo, this`events
      ensures Model() == BattleRules.SetPlayerInfo(old(Model()), info).core
      ensures events == old(events) + BattleRules.SetPlayerInfo(old(Model()), info).events
    {
      playerInfo := info;
      events := events + [BattleInfoChanged];
    }

    method SetEnemyInfo(info: Option<Info>)
      modifies this`enemyInfo, this`events
      ensures Model() == BattleRules.SetEnemyInfo(old(Model()), info).core
      ensures events == old(events) + BattleRules.SetEnemyInfo(old(Model()), info).events
    {
      enemyInfo := info;
      events := events + [BattleInfoChanged];
    }

    method UpdatePlayerStatus(hp: int, dodge: int, spirit: int)
      modifies this`playerInfo, this`events
      ensures Model() == BattleRules.UpdatePlayerStatus(old(Model()), hp, dodge, spirit).core
      ensures events == old(events) + BattleRules.UpdatePlayerStatus(old(Model()), hp, dodge, spirit).events
    {
      if playerInfo.Null? {
        return;
      }
      playerInfo := Some(playerInfo.value.(hp := hp, dodgeCount := dodge, spiritCount := spirit));
      events := events + [BattleInfoChanged];
    }

    method UpdateEnemyStatus(hp: int, dodge: int, spirit: int)
      modifies this`enemyInfo, this`events
      ensures Model() == BattleRules.UpdateEnemyStatus(old(Model()), hp, dodge, spirit).core
      ensures events == old(events) + BattleRules.UpdateEnemyStatus(old(Model()), hp, dodge, spirit).events
    {
      if enemyInfo.Null? {
        return;
      }
      enemyInfo := Some(enemyInfo.value.(hp := hp, dodgeCount := dodge, spiritCount := spirit));
      events := events + [BattleInfoChanged];
    }

    // -------------------------------------------------------------------------
    // Resource ledger

    method TrySpendPlayerSpirit(cost: int) returns (ok: bool)
      modifies this`playerInfo, this`events
      ensures ok == BattleRules.TrySpendPlayerSpirit(old(Model()), cost).ok
      ensures Model() == BattleRules.TrySpendPlayerSpirit(old(Model()), cost).core
      ensures events == old(events) + BattleRules.TrySpendPlayerSpirit(old(Model()), cost).events
    {
      if playerInfo.Null? {
        return false;
      }
      if cost <= 0 {
        return true;
      }
      if playerInfo.value.spiritCount < cost {
        return false;
      }
      playerInfo := Some(playerInfo.value.(spiritCount := playerInfo.value.spiritCount - cost));
      events := events + [BattleInfoChanged];
      return true;
    }

    method TrySpendPlayerDodge() returns (ok: bool)
      modifies this`playerInfo, this`events
      ensures ok == BattleRules.TrySpendPlayerDodge(old(Model())).ok
      ensures Model() == BattleRules.TrySpendPlayerDodge(old(Model())).core
      ensures events == old(events) + BattleRules.TrySpendPlayerDodge(old(Model())).events
    {
      if playerInfo.Null? {
        return false;
      }
      if playerInfo.value.dodgeCount <= 0 {
        return false;
      }
      playerInfo := Some(playerInfo.value.(dodgeCount := playerInfo.value.dodgeCount - 1));
      events := events + [BattleInfoChanged];
      return true;
    }

    // -------------------------------------------------------------------------
    // Decision window

    method TrySelectPlayerSkill(index: int) returns (ok: bool, reason: ActionRejectReason)
      modifies this`playerInfo, this`playerActedThisDecision, this`selectionLocked,
               this`decisionActionName, this`events
      ensures ok == BattleRules.TrySelectPlayerSkill(old(Model()), index).ok
      ensures reason == BattleRules.TrySelectPlayerSkill(old(Model()), index).reason
      ensures Model() == BattleRules.TrySelectPlayerSkill(old(Model()), index).core
      ensures events == old(events) + BattleRules.TrySelectPlayerSkill(old(Model()), index).events
    {
      if !decisionWindowOpen {
        return false, NotInDecision;
      }
      if selectionLocked {
        return false, AlreadySelected;
      }
      var skills := if playerInfo.Some? then playerInfo.value.skills else Null;
      if skills.Null? || index < 0 || index >= |skills.value| {
        return false, InvalidSkill;
      }
      var entry := skills.value[index];
      if entry.Null? {
        return false, InvalidSkill;
      }
      ok, reason := Commit(entry.value);
    }

    /** Pays for a valid skill, then records it, or rejects it when the resource is short. */
    method Commit(skill: Skill) returns (ok: bool, reason: ActionRejectReason)
      modifies this`playerInfo, this`playerActedThisDecision, this`selectionLocked,
               this`decisionActionName, this`events
      ensures ok == BattleRules.Commit(old(Model()), skill).ok
      ensures reason == BattleRules.Commit(old(Model()), skill).reason
      ensures Model() == BattleRules.Commit(old(Model()), skill).core
      ensures events == old(events) + BattleRules.Commit(old(Model()), skill).events
    {
      ghost var paid := BattleRules.Pay(Model(), skill);
      var spent := Pay(skill);
      if !spent {
        reason := if skill.kind == Dodge then DodgeNotEnough else SpiritNotEnough;
        Refuse(reason);
        return false, reason;
      }
      Accept(skill.name);
      AppendAssoc(old(events), paid.events, [DecisionActionChanged(skill.name)]);
      return true, ActionRejectReason.None;
    }

    /** A refused payment: the window is locked as if the player had acted, and the reason is announced. */
    method Refuse(reason: ActionRejectReason)
      modifies this`playerActedThisDecision, this`selectionLocked, this`events
      ensures Model() == old(Model()).(actedThisDecision := true, selectionLocked := true)
      ensures events == old(events) + [ActionRejected(reason)]
    {
      MarkActed();
      Emit(ActionRejected(reason));
    }

    /** An accepted selection: the skill becomes the window's action, the window is locked, the action is announced. */
    method Accept(name: string)
      modifies this`playerActedThisDecision, this`selectionLocked, this`decisionActionName, this`events
      ensures Model() == old(Model()).(actionName := name, actedThisDecision := true, selectionLocked := true)
      ensures events == old(events) + [DecisionActionChanged(name)]
    {
      SetActionName(name);
      MarkActed();
      Emit(DecisionActionChanged(name));
    }

    /** A dodge charge for a Dodge skill, the skill's spirit cost otherwise. */
    method Pay(skill: Skill) returns (spent: bool)
      modifies this`playerInfo, this`events
      ensures spent == BattleRules.Pay(old(Model()), skill).ok
      ensures Model() == BattleRules.Pay(old(Model()), skill).core
      ensures events == old(events) + BattleRules.Pay(old(Model()), skill).events
    {
      if skill.kind == Dodge {
        spent := TrySpendPlayerDodge();
      } else {
        spent := TrySpendPlayerSpirit(skill.cast);
      }
    }

    /** The player has acted in this window and the selection is locked. */
    method MarkActed()
      modifies this`playerActedThisDecision, this`selectionLocked
      ensures Model() == old(Model()).(actedThisDecision := true, selectionLocked := true)
    {
      playerActedThisDecision := true;
      selectionLocked := true;
    }

    method SetActionName(name: string)
      modifies this`decisionActionName
      ensures Model() == old(Model()).(actionName := name)
    {
      decisionActionName := name;
    }

    /** Raises one notification. */
    method Emit(e: Event)
      modifies this`events
      ensures events == old(events) + [e]
    {
      events := events + [e];
    }

    // -------------------------------------------------------------------------
    // Rhythm machine

    method StartBeating(now: int)
      modifies this`rhythmState, this`currentBeatCount, this`nextBeatTime, this`roundPhase, this`events
      ensures Model() == BattleRules.StartBeating(old(Model()), now).core
      ensures events == old(events) + BattleRules.StartBeating(old(Model()), now).events
    {
      BeginBeats(now);
      assert Model() == old(Model()).(rhythmState := Beating, beatCount := 0,
                                      nextBeatTime := now + beatInterval);
      SetRoundPhase(RoundPhase.Beat);
    }

    /** The assignments of StartBeating: a fresh count, the first beat one interval from now. */
    method BeginBeats(now: int)
      modifies this`rhythmState, this`currentBeatCount, this`nextBeatTime
      ensures rhythmState == Beating && currentBeatCount == 0 && nextBeatTime == now + beatInterval
    {
      rhythmState := Beating;
      currentBeatCount := 0;
      nextBeatTime := now + beatInterval;
    }

    method EnterDecision(now: int)
      modifies this`rhythmState, this`decisionStarted, this`playerActedThisDecision, this`selectionLocked,
               this`decisionActionName, this`decisionStartTime, this`decisionEndTime,
               this`battleState, this`roundPhase, this`events
      ensures Model() == BattleRules.EnterDecision(old(Model()), now).core
      ensures events == old(events) + BattleRules.EnterDecision(old(Model()), now).events
    {
      ScheduleWindow(now);
      assert Model() == BattleRules.ScheduleWindow(old(Model()), now);
      ghost var stated := BattleRules.SetBattleState(Model(), BattleState.Decision);
      SetBattleState(BattleState.Decision);
      ghost var phased := BattleRules.SetRoundPhase(Model(), RoundPhase.Decision);
      SetRoundPhase(RoundPhase.Decision);
      AppendAssoc(old(events), stated.events, phased.events);
    }

    /** The assignments of EnterDecision: a window scheduled from now, with the selection state reset. */
    method ScheduleWindow(now: int)
      modifies this`rhythmState, this`decisionStarted, this`playerActedThisDecision, this`selectionLocked,
               this`decisionActionName, this`decisionStartTime, this`decisionEndTime
      ensures rhythmState == RhythmState.Decision && !decisionStarted
      ensures !playerActedThisDecision && !selectionLocked && decisionActionName == BattleRules.GatherAction
      ensures decisionStartTime == now && decisionEndTime == now + decisionTime
    {
      rhythmState := RhythmState.Decision;
      decisionStarted := false;
      playerActedThisDecision := false;
      selectionLocked := false;
      decisionActionName := BattleRules.GatherAction;
      decisionStartTime := now;
      decisionEndTime := decisionStartTime + decisionTime;
    }

    method TickDodgeRegen(now: int)
      modifies this`playerInfo, this`nextDodgeRegenTime, this`events
      ensures Model() == BattleRules.TickDodgeRegen(old(Model()), now).core
      ensures events == old(events) + BattleRules.TickDodgeRegen(old(Model()), now).events
    {
      if playerInfo.Null? || battleState == BattleState.None || battleState == Finished
         || dodgeRegenInterval <= 0 || playerInfo.value.dodgeMax <= 0 {
        return;
      }
      RegenerateDodge(now);
    }

    /** The regeneration branch, once the player, the battle state and both settings allow it. */
    method RegenerateDodge(now: int)
      requires BattleRules.RegenActive(Model())
      modifies this`playerInfo, this`nextDodgeRegenTime, this`events
      ensures Model() == BattleRules.TickDodgeRegen(old(Model()), now).core
      ensures events == old(events) + BattleRules.TickDodgeRegen(old(Model()), now).events
    {
      if playerInfo.value.dodgeCount >= playerInfo.value.dodgeMax {
        nextDodgeRegenTime := now + dodgeRegenInterval;
        return;
      }
      if now < nextDodgeRegenTime {
        return;
      }
      GainDodge(now);
      Emit(BattleInfoChanged);
    }

    /** The regeneration itself: one more dodge charge, and a new deadline one interval from now. */
    method GainDodge(now: int)
      requires playerInfo.Some?
      modifies this`playerInfo, this`nextDodgeRegenTime
      ensures Model() == BattleRules.WithDodge(old(Model()), BattleRules.DodgeOf(old(Model())) + 1)
                           .(nextDodgeRegenTime := now + dodgeRegenInterval)
    {
      playerInfo := Some(playerInfo.value.(dodgeCount := playerInfo.value.dodgeCount + 1));
      nextDodgeRegenTime := now + dodgeRegenInterval;
    }

    method ApplyDecisionResult()
      modifies this`playerInfo, this`events
      ensures Model() == BattleRules.ApplyDecisionResult(old(Model())).core
      ensures events == old(events) + BattleRules.ApplyDecisionResult(old(Model())).events
    {
      if playerInfo.Null? {
        return;
      }
      if playerActedThisDecision {
        return;
      }
      var next := playerInfo.value.spiritCount + 1;
      if playerInfo.value.spiritMax > 0 {
        next := if next <= playerInfo.value.spiritMax then next else playerInfo.value.spiritMax;
      }
      if next == playerInfo.value.spiritCount {
        return;
      }
      playerInfo := Some(playerInfo.value.(spiritCount := next));
      events := events + [BattleInfoChanged];
    }

    /** The Beating branch of Update: count a due beat, then enter Decision or schedule the next beat. */
    method BeatStep(now: int)
      modifies this
      ensures Model() == BattleRules.BeatStep(old(Model()), now).core
      ensures events == old(events) + BattleRules.BeatStep(old(Model()), now).events
    {
      if now >= nextBeatTime {
        AdvanceBeat(now);
      }
    }

    /** A due beat: count it, announce it, and either enter the decision window or schedule the next beat. */
    method AdvanceBeat(now: int)
      requires now >= nextBeatTime
      modifies this`rhythmState, this`decisionStarted, this`playerActedThisDecision, this`selectionLocked,
               this`decisionActionName, this`decisionStartTime, this`decisionEndTime, this`battleState,
               this`roundPhase, this`currentBeatCount, this`nextBeatTime, this`events
      ensures Model() == BattleRules.BeatStep(old(Model()), now).core
      ensures events == old(events) + BattleRules.BeatStep(old(Model()), now).events
    {
      ghost var r := BattleRules.BeatStep(Model(), now);
      CountBeat();
      Emit(OnBeat(currentBeatCount));
      if currentBeatCount >= beatsBeforeDecision {
        ghost var entered := BattleRules.EnterDecision(Model(), now);
        assert r == BattleRules.Out(entered.core, [OnBeat(currentBeatCount)] + entered.events);
        EnterDecision(now);
        AppendAssoc(old(events), [OnBeat(currentBeatCount)], entered.events);
      } else {
        assert r.core == Model().(nextBeatTime := now + beatInterval);
        ScheduleBeat(now);
      }
    }

    /** One more beat in the current cycle. */
    method CountBeat()
      modifies this`currentBeatCount
      ensures Model() == old(Model()).(beatCount := old(currentBeatCount) + 1)
    {
      currentBeatCount := currentBeatCount + 1;
    }

    /** The next beat is due one beat interval from now. */
    method ScheduleBeat(now: int)
      modifies this`nextBeatTime
      ensures Model() == old(Model()).(nextBeatTime := now + beatInterval)
    {
      nextBeatTime := now + beatInterval;
    }

    /** The first half of closing the window: passive gain, window closed, phase Result, DecisionEnd. */
    method SettleDecision()
      modifies this
      ensures Model() == BattleRules.SettleDecision(old(Model())).core
      ensures events == old(events) + BattleRules.SettleDecision(old(Model())).events
    {
      ghost var gained := BattleRules.ApplyDecisionResult(Model());
      ApplyDecisionResult();
      decisionWindowOpen := false;
      assert Model() == gained.core.(windowOpen := false);
      ghost var phased := BattleRules.SetRoundPhase(Model(), Result);
      SetRoundPhase(Result);
      Emit(DecisionEnd);
      AppendAssoc(old(events), gained.events, phased.events);
      AppendAssoc(old(events), gained.events + phased.events, [DecisionEnd]);
    }

    /** The closing half of the Decision branch of Update. */
    method CloseDecision(now: int)
      modifies this
      ensures Model() == BattleRules.CloseDecision(old(Model()), now).core
      ensures events == old(events) + BattleRules.CloseDecision(old(Model()), now).events
    {
      ghost var settled := BattleRules.SettleDecision(Model());
      SettleDecision();
      rhythmState := Idle;
      nextBeatTime := now + loopInterval;
      ghost var looped := BattleRules.SetRoundPhase(Model(), LoopDelay);
      SetRoundPhase(LoopDelay);
      AppendAssoc(old(events), settled.events, looped.events);
    }

    /** The Decision branch of Update: open the window once its start is due, close it once its end is due. */
    method DecisionStep(now: int)
      modifies this
      ensures Model() == BattleRules.DecisionStep(old(Model()), now).core
      ensures events == old(events) + BattleRules.DecisionStep(old(Model()), now).events
    {
      if !decisionStarted {
        if now >= decisionStartTime {
          decisionStarted := true;
          decisionWindowOpen := true;
          events := events + [DecisionStart];
        }
      } else if now >= decisionEndTime {
        CloseDecision(now);
      }
    }

    /** The rhythm half of Update, dispatched on the rhythm state. */
    method RhythmStep(now: int)
      modifies this
      ensures Model() == BattleRules.RhythmStep(old(Model()), now).core
      ensures events == old(events) + BattleRules.RhythmStep(old(Model()), now).events
    {
      BattleRules.RhythmStepCases(Model(), now);
      if rhythmState == Beating {
        BeatStep(now);
      } else if rhythmState == RhythmState.Decision {
        DecisionStep(now);
      } else if now >= nextBeatTime {
        StartBeating(now);
      }
    }

    /** One engine frame at time `now`: dodge regeneration, then the rhythm machine. */
    method Update(now: int)
      modifies this
      ensures Model() == BattleRules.Update(old(Model()), now).core
      ensures events == old(events) + BattleRules.Update(old(Model()), now).events
    {
      ghost var regen := BattleRules.TickDodgeRegen(Model(), now);
      TickDodgeRegen(now);
      ghost var step := BattleRules.RhythmStep(Model(), now);
      RhythmStep(now);
      AppendAssoc(old(events), regen.events, step.events);
    }
  }

  /** Appending in two steps is appending the concatenation. */
  lemma AppendAssoc(a: seq<Event>, b: seq<Event>, c: seq<Event>)
    ensures (a + b) + c == a + (b + c)
  {
  }
}
