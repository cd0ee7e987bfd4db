/**
  A concrete script of calls into the battle manager that shows what the
  selection rules do not promise: after EndBattle leaves a decision window
  open, the next beat cycle's entry into Decision unlocks the selection, and a
  second action is accepted in the same window, with no DecisionStart or
  DecisionEnd between the two. Each call is proved one stage at a time.
*/
module BattleScenarios {
  import opened BattleTypes
  import BattleRules
  import opened BattleTraces

  /** A player whose first skill is a free non-Dodge skill and who has no dodge ceiling, so no frame regenerates. */
  predicate FreeFirstSkill(p: Info)
  {
    && p.dodgeMax <= 0
    && p.skills.Some? && |p.skills.value| > 0 && p.skills.value[0].Some?
    && p.skills.value[0].value.kind != Dodge && p.skills.value[0].value.cast <= 0
  }

  function FirstSkillName(p: Info): string
    requires FreeFirstSkill(p)
  {
    p.skills.value[0].value.name
  }

  /**
    A battle whose first window EndBattle interrupts: the window opens and an
    action is accepted, the battle ends with the window still open, and three
    frames later the next cycle has entered Decision again.
  */
  const ReopenScript: seq<Command> :=
    [StartBattle(0), Update(500), Update(1000), Update(1000), TrySelectPlayerSkill(0),
     EndBattle, Update(1000), Update(1500), Update(2000), TrySelectPlayerSkill(0)]

  /** The states a fresh manager holding p passes through under ReopenScript. */
  function ReopenStage(p: Info, k: nat): BattleRules.Core
    requires FreeFirstSkill(p) && k <= 10
  {
    var c0 := BattleRules.Initial(Some(p), Null);
    var c1 := c0.(battleState := BattleState.Rhythm, rhythmState := Beating, roundPhase := RoundPhase.Beat,
                  nextBeatTime := 500, nextDodgeRegenTime := 5000);
    var c2 := c1.(beatCount := 1, nextBeatTime := 1000);
    var c3 := c2.(beatCount := 2, rhythmState := RhythmState.Decision, battleState := BattleState.Decision,
                  roundPhase := RoundPhase.Decision, decisionStartTime := 1000, decisionEndTime := 1500);
    var c4 := c3.(decisionStarted := true, windowOpen := true);
    var c5 := c4.(actionName := FirstSkillName(p), actedThisDecision := true, selectionLocked := true);
    var c6 := c5.(battleState := Finished, rhythmState := Idle, beatCount := 0, roundPhase := RoundPhase.None);
    var c7 := c6.(rhythmState := Beating, roundPhase := RoundPhase.Beat, nextBeatTime := 1500);
    var c8 := c7.(beatCount := 1, nextBeatTime := 2000);
    var c9 := c8.(beatCount := 2, rhythmState := RhythmState.Decision, battleState := BattleState.Decision,
                  roundPhase := RoundPhase.Decision, decisionStarted := false, actedThisDecision := false,
                  selectionLocked := false, actionName := BattleRules.GatherAction,
                  decisionStartTime := 2000, decisionEndTime := 2500);
    var c10 := c9.(actionName := FirstSkillName(p), actedThisDecision := true, selectionLocked := true);
    [c0, c1, c2, c3, c4, c5, c6, c7, c8, c9, c10][k]
  }

  /** The notifications of call k of ReopenScript, for an action named a. */
  function ReopenEvents(a: string, k: nat): seq<Event>
    requires k < 10
  {
    match k
    case 0 => [BattleStateChanged(BattleState.Preparing), RoundPhaseChanged(RoundPhase.Beat), BattleStateChanged(BattleState.Rhythm)]
    case 1 => [OnBeat(1)]
    case 2 => [OnBeat(2), BattleStateChanged(BattleState.Decision), RoundPhaseChanged(RoundPhase.Decision)]
    case 3 => [DecisionStart]
    case 4 => [DecisionActionChanged(a)]
    case 5 => [RoundPhaseChanged(RoundPhase.None), BattleStateChanged(Finished)]
    case 6 => [RoundPhaseChanged(RoundPhase.Beat)]
    case 7 => [OnBeat(1)]
    case 8 => [OnBeat(2), BattleStateChanged(BattleState.Decision), RoundPhaseChanged(RoundPhase.Decision)]
    case _ => [DecisionActionChanged(a)]
  }

  /** The notifications of ReopenScript from call k on. */
  function ReopenTrace(a: string, k: nat): seq<Event>
    requires k <= 10
    decreases 10 - k
  {
    if k == 10 then [] else ReopenEvents(a, k) + ReopenTrace(a, k + 1)
  }

  /** Call 0 of ReopenScript: StartBattle(0) starts the first cycle. */
  lemma ReopenStarts(p: Info)
    requires FreeFirstSkill(p)
    ensures Exec(ReopenStage(p, 0), ReopenScript[0])
            == BattleRules.Out(ReopenStage(p, 1), ReopenEvents(FirstSkillName(p), 0))
  {
  }

  /** Call 1 of ReopenScript: the first beat of the first cycle. */
  lemma ReopenFirstBeat(p: Info)
    requires FreeFirstSkill(p)
    ensures Exec(ReopenStage(p, 1), ReopenScript[1])
            == BattleRules.Out(ReopenStage(p, 2), ReopenEvents(FirstSkillName(p), 1))
  {
  }

  /** Call 2 of ReopenScript: the final beat enters Decision. */
  lemma ReopenFirstDecision(p: Info)
    requires FreeFirstSkill(p)
    ensures Exec(ReopenStage(p, 2), ReopenScript[2])
            == BattleRules.Out(ReopenStage(p, 3), ReopenEvents(FirstSkillName(p), 2))
  {
  }

  /** Call 3 of ReopenScript: the window opens. */
  lemma ReopenFirstWindow(p: Info)
    requires FreeFirstSkill(p)
    ensures Exec(ReopenStage(p, 3), ReopenScript[3])
            == BattleRules.Out(ReopenStage(p, 4), ReopenEvents(FirstSkillName(p), 3))
  {
  }

  /** Call 4 of ReopenScript: the free skill is accepted and locks the window. */
  lemma ReopenFirstAction(p: Info)
    requires FreeFirstSkill(p)
    ensures Exec(ReopenStage(p, 4), ReopenScript[4])
            == BattleRules.Out(ReopenStage(p, 5), ReopenEvents(FirstSkillName(p), 4))
  {
  }

  /** Call 5 of ReopenScript: EndBattle leaves the window open. */
  lemma ReopenEnds(p: Info)
    requires FreeFirstSkill(p)
    ensures Exec(ReopenStage(p, 5), ReopenScript[5])
            == BattleRules.Out(ReopenStage(p, 6), ReopenEvents(FirstSkillName(p), 5))
  {
  }

  /** Call 6 of ReopenScript: the Idle branch starts a new cycle. */
  lemma ReopenRestarts(p: Info)
    requires FreeFirstSkill(p)
    ensures Exec(ReopenStage(p, 6), ReopenScript[6])
            == BattleRules.Out(ReopenStage(p, 7), ReopenEvents(FirstSkillName(p), 6))
  {
  }

  /** Call 7 of ReopenScript: the first beat of the second cycle. */
  lemma ReopenSecondBeat(p: Info)
    requires FreeFirstSkill(p)
    ensures Exec(ReopenStage(p, 7), ReopenScript[7])
            == BattleRules.Out(ReopenStage(p, 8), ReopenEvents(FirstSkillName(p), 7))
  {
  }

  /** Call 8 of ReopenScript: the second entry into Decision unlocks the open window. */
  lemma ReopenSecondDecision(p: Info)
    requires FreeFirstSkill(p)
    ensures Exec(ReopenStage(p, 8), ReopenScript[8])
            == BattleRules.Out(ReopenStage(p, 9), ReopenEvents(FirstSkillName(p), 8))
  {
  }

  /** Call 9 of ReopenScript: the free skill is accepted again. */
  lemma ReopenSecondAction(p: Info)
    requires FreeFirstSkill(p)
    ensures Exec(ReopenStage(p, 9), ReopenScript[9])
            == BattleRules.Out(ReopenStage(p, 10), ReopenEvents(FirstSkillName(p), 9))
  {
  }

  /** Each call of ReopenScript takes the manager to the next stage with that call's notifications. */
  lemma ReopenStep(p: Info, k: nat)
    requires FreeFirstSkill(p) && k < 10
    ensures Exec(ReopenStage(p, k), ReopenScript[k])
            == BattleRules.Out(ReopenStage(p, k + 1), ReopenEvents(FirstSkillName(p), k))
  {
    if k == 0 {
      ReopenStarts(p);
    } else if k == 1 {
      ReopenFirstBeat(p);
    } else if k == 2 {
      ReopenFirstDecision(p);
    } else if k == 3 {
      ReopenFirstWindow(p);
    } else if k == 4 {
      ReopenFirstAction(p);
    } else if k == 5 {
      ReopenEnds(p);
    } else if k == 6 {
      ReopenRestarts(p);
    } else if k == 7 {
      ReopenSecondBeat(p);
    } else if k == 8 {
      ReopenSecondDecision(p);
    } else {
      ReopenSecondAction(p);
    }
  }

  /** The rest of ReopenScript from stage k. */
  lemma {:induction false} ReopenRun(p: Info, k: nat)
    requires FreeFirstSkill(p) && k <= 10
    ensures Run(ReopenStage(p, k), ReopenScript[k..])
            == BattleRules.Out(ReopenStage(p, 10), ReopenTrace(FirstSkillName(p), k))
    decreases 10 - k
  {
    if k < 10 {
      ReopenStep(p, k);
      ReopenRun(p, k + 1);
      assert ReopenScript[k..][1..] == ReopenScript[k + 1..];
    }
  }

  /** The trace of ReopenScript from EndBattle on: the calls between the two actions, then the second action. */
  lemma ReopenTraceTail(a: string)
    ensures ReopenTrace(a, 5) == (ReopenEvents(a, 5) + ReopenEvents(a, 6) + ReopenEvents(a, 7) + ReopenEvents(a, 8))
                                 + [DecisionActionChanged(a)]
  {
    assert ReopenTrace(a, 9) == [DecisionActionChanged(a)];
    assert ReopenTrace(a, 7) == ReopenEvents(a, 7) + (ReopenEvents(a, 8) + ReopenTrace(a, 9));
  }

  /** The trace of ReopenScript: the calls before the first action, the action, the calls between, the action. */
  lemma ReopenTraceShape(a: string)
    ensures var before := ReopenEvents(a, 0) + ReopenEvents(a, 1) + ReopenEvents(a, 2) + ReopenEvents(a, 3);
      var between := ReopenEvents(a, 5) + ReopenEvents(a, 6) + ReopenEvents(a, 7) + ReopenEvents(a, 8);
      ReopenTrace(a, 0) == before + ([DecisionActionChanged(a)] + (between + [DecisionActionChanged(a)]))
  {
    ReopenTraceTail(a);
    assert ReopenTrace(a, 3) == ReopenEvents(a, 3) + ([DecisionActionChanged(a)] + ReopenTrace(a, 5));
    assert ReopenTrace(a, 1) == ReopenEvents(a, 1) + (ReopenEvents(a, 2) + ReopenTrace(a, 3));
  }

  /** Between the two actions of ReopenScript the window neither opens nor closes. */
  lemma ReopenMidQuiet(a: string)
    ensures var between := ReopenEvents(a, 5) + ReopenEvents(a, 6) + ReopenEvents(a, 7) + ReopenEvents(a, 8);
      DecisionStart !in between && DecisionEnd !in between
  {
    assert ReopenEvents(a, 5) == [RoundPhaseChanged(RoundPhase.None), BattleStateChanged(Finished)];
    assert ReopenEvents(a, 6) == [RoundPhaseChanged(RoundPhase.Beat)];
    assert ReopenEvents(a, 7) == [OnBeat(1)];
    assert ReopenEvents(a, 8) == [OnBeat(2), BattleStateChanged(BattleState.Decision), RoundPhaseChanged(RoundPhase.Decision)];
  }

  /** Two actions with no window notification between them, read as positions in the trace. */
  lemma ActionsWithoutWindowBetween(evs: seq<Event>, pre: seq<Event>, a: string, mid: seq<Event>, b: string)
    requires evs == pre + ([DecisionActionChanged(a)] + (mid + [DecisionActionChanged(b)]))
    requires DecisionStart !in mid && DecisionEnd !in mid
    ensures exists i, j :: 0 <= i < j < |evs| && evs[i].DecisionActionChanged? && evs[j].DecisionActionChanged?
              && forall k :: i < k < j ==> evs[k] != DecisionStart && evs[k] != DecisionEnd
  {
    var i, j := |pre|, |pre| + 1 + |mid|;
    assert evs[i] == DecisionActionChanged(a) && evs[j] == DecisionActionChanged(b);
    forall k | i < k < j
      ensures evs[k] != DecisionStart && evs[k] != DecisionEnd
    {
      assert evs[k] == mid[k - i - 1];
    }
  }

  /**
    The code does not promise one action per window: after EndBattle leaves a
    window open, the next cycle's entry into Decision unlocks the selection, and
    a second action is accepted with no DecisionStart or DecisionEnd since the
    first.
  */
  lemma SecondActionInOpenWindow(p: Info)
    requires FreeFirstSkill(p)
    ensures var evs := Run(BattleRules.Initial(Some(p), Null), ReopenScript).events;
      exists i, j :: 0 <= i < j < |evs| && evs[i].DecisionActionChanged? && evs[j].DecisionActionChanged?
              && forall k :: i < k < j ==> evs[k] != DecisionStart && evs[k] != DecisionEnd
  {
    var a := FirstSkillName(p);
    ReopenRun(p, 0);
    assert ReopenScript[0..] == ReopenScript;
    ReopenTraceShape(a);
    ReopenMidQuiet(a);
    ActionsWithoutWindowBetween(ReopenTrace(a, 0),
                                ReopenEvents(a, 0) + ReopenEvents(a, 1) + ReopenEvents(a, 2) + ReopenEvents(a, 3), a,
                                ReopenEvents(a, 5) + ReopenEvents(a, 6) + ReopenEvents(a, 7) + ReopenEvents(a, 8), a);
  }
}
