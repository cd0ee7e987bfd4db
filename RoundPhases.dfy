/**
  The round phase, the UI-facing view of the cycle, agrees with the rhythm
  machine after every sequence of calls: it is Decision exactly while a
  decision window is open or pending.
*/
module RoundPhases {
  import opened BattleTypes
  import BattleRules
  import opened BattleTraces

  /**
    The round phase is Decision exactly when the rhythm machine is in Decision
    with its window open or still pending; and in Decision a started window is
    always open.
  */
  predicate PhaseConsistent(c: BattleRules.Core)
  {
    && (c.roundPhase == RoundPhase.Decision <==>
          c.rhythmState == RhythmState.Decision && (c.windowOpen || !c.decisionStarted))
    && (c.rhythmState == RhythmState.Decision ==> c.windowOpen || !c.decisionStarted)
  }

  /** The rhythm step keeps the round phase consistent, whichever state the machine is in. */
  lemma RhythmKeepsPhase(c: BattleRules.Core, now: int)
    requires PhaseConsistent(c)
    ensures PhaseConsistent(BattleRules.RhythmStep(c, now).core)
  {
    BattleRules.RhythmStepCases(c, now);
    if c.rhythmState == Beating {
      assert PhaseConsistent(BattleRules.BeatStep(c, now).core);
    } else if c.rhythmState == RhythmState.Decision {
      assert PhaseConsistent(BattleRules.DecisionStep(c, now).core);
    }
  }

  /** An engine frame keeps the round phase consistent: regeneration leaves every field the invariant reads. */
  lemma FrameKeepsPhase(c: BattleRules.Core, now: int)
    requires PhaseConsistent(c)
    ensures PhaseConsistent(BattleRules.Update(c, now).core)
  {
    var c1 := BattleRules.TickDodgeRegen(c, now).core;
    assert PhaseConsistent(c1);
    RhythmKeepsPhase(c1, now);
  }

  /** The lifecycle calls keep the round phase consistent: each sets the rhythm state and the phase together. */
  lemma LifecycleKeepsPhase(c: BattleRules.Core, cmd: Command)
    requires PhaseConsistent(c)
    requires cmd.Start? || cmd.StartBattle? || cmd.EndBattle? || cmd.StartRhythm? || cmd.StopRhythm?
    ensures PhaseConsistent(Exec(c, cmd).core)
  {
    match cmd
    case Start(now) =>
      assert PhaseConsistent(BattleRules.StartBattle(c, now).core);
    case StartBattle(now) =>
    case EndBattle =>
    case StartRhythm(now) =>
    case StopRhythm =>
  }

  /** Every call, and every direct write of the tuning fields, keeps the round phase consistent. */
  lemma ExecKeepsPhase(c: BattleRules.Core, cmd: Command)
    requires PhaseConsistent(c)
    ensures PhaseConsistent(Exec(c, cmd).core)
  {
    if cmd.Start? || cmd.StartBattle? || cmd.EndBattle? || cmd.StartRhythm? || cmd.StopRhythm? {
      LifecycleKeepsPhase(c, cmd);
    } else if cmd.Update? {
      FrameKeepsPhase(c, cmd.now);
    } else if cmd.TrySelectPlayerSkill? {
      assert Exec(c, cmd).core == BattleRules.TrySelectPlayerSkill(c, cmd.index).core;
    }
  }

  /** Any script keeps the round phase consistent. */
  lemma {:induction false} RunKeepsPhase(c: BattleRules.Core, script: seq<Command>)
    requires PhaseConsistent(c)
    ensures PhaseConsistent(Run(c, script).core)
    decreases |script|
  {
    if script != [] {
      ExecKeepsPhase(c, script[0]);
      RunKeepsPhase(Exec(c, script[0]).core, script[1..]);
    }
  }

  /** From a fresh manager, the round phase agrees with the rhythm machine after any script. */
  lemma FreshPhases(player: Option<Info>, enemy: Option<Info>, script: seq<Command>)
    ensures PhaseConsistent(Run(BattleRules.Initial(player, enemy), script).core)
  {
    RunKeepsPhase(BattleRules.Initial(player, enemy), script);
  }
}
