/**
  The value types of the battle scene: the enumerations of BattleEnum.cs and the
  records of BattleInfoModel.cs, plus the notifications BattleManager raises.

  C# references that may be null (a record, a list, a list entry) are modelled
  with `Option`, whose empty case is called `Null` because every enumeration of
  the source already owns a constructor named `None`.
*/
module BattleTypes {

  /** A C# reference that may be null. */
  datatype Option<T> = Null | Some(value: T)

  datatype SkillType = Dodge | NormalAttack | AttackSkill | DefenseSkill | FunctionalSkill

  datatype BattleState = None | Preparing | Rhythm | Decision | Resolve | Finished

  datatype RhythmState = Idle | Beating | Decision

  datatype ActionRejectReason = None | NotInDecision | AlreadySelected | InvalidSkill | SpiritNotEnough | DodgeNotEnough

  datatype RoundPhase = None | Beat | Decision | Result | LoopDelay

  /** SkillModel; the C# field `type` is called `kind` here (`type` is a Dafny keyword). */
  datatype Skill = Skill(name: string, description: string, cast: int, kind: SkillType)

  /** BuffModel: carried data only. */
  datatype Buff = Buff(name: string, description: string, stack: int)

  /**
    BattleInfoModel, with the fields `name`, `dodgeMax` and `spiritMax` that the
    battle manager and the info panels read from it. Both lists may be null and
    may hold null entries.
  */
  datatype Info = Info(
    name: string,
    hpMax: int,
    hpMin: int,
    hp: int,
    spiritCount: int,
    spiritMax: int,
    dodgeCount: int,
    dodgeMax: int,
    skills: Option<seq<Option<Skill>>>,
    buffs: Option<seq<Option<Buff>>>)

  /** One invocation of one of BattleManager's C# events, with its argument. */
  datatype Event =
    | BattleStateChanged(state: BattleState)
    | BattleInfoChanged
    | OnBeat(count: int)
    | DecisionStart
    | DecisionEnd
    | DecisionActionChanged(action: string)
    | ActionRejected(reason: ActionRejectReason)
    | RoundPhaseChanged(phase: RoundPhase)
}
