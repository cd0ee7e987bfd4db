# BoboFight battle manager, modelled in Dafny

This project models the battle controller of a rhythm-driven two-party battle.
A beat cadence opens a short decision window. In that window the player commits
one skill, paid for with spirit or with a dodge charge. The window then closes,
the round resolves and the cycle repeats.

The controller is the Unity component `BattleManager`. It is one stateful object
advanced once per rendered frame. The model keeps that shape:

- `BattleTypes.dfy` holds the enumerations of `BattleEnum.cs`, the records of
  `BattleInfoModel.cs` and the notifications the manager raises (`Event`).
- `BattleRules.dfy` holds every field of the manager as one value `Core`. It
  gives one transition function per operation, returning the new core and the
  notifications in the order the code raises them. The behaviour is proved here:
  the ledger contracts, the selection order, dodge regeneration and the passive
  gain, and the per-frame rhythm steps.
- `BattleManager.dfy` holds the class `Manager.BattleManager`. It has the C#
  fields and a ghost `events` trace, and each method updates the fields step by
  step, as the C# does. The methods fall into four groups:
  - Each method named after a C# method performs the `BattleRules` transition
    of the same name: its new state is `BattleRules.X(old(Model()))` and its
    trace grows by exactly that transition's notifications (none for
    `Configure`, whose rule raises nothing). The queries
    `TimeToNextBeat` and `TimeToDecisionEnd` return the rule's value;
    `IsDecisionWindow` returns the open-window flag.
  - `Pay`, `Commit`, `BeatStep`, `SettleDecision`, `CloseDecision`,
    `DecisionStep` and `RhythmStep` each model one block of a C# method
    (`TrySelectPlayerSkill` or `Update`) and perform the `BattleRules` function
    of the same name.
  - Four block methods meet something other than a rule of their own name:
    - `Refuse` and `Accept` have no rule; their `ensures` give the field update
      and the one notification directly, which are the rejection and
      acceptance arms of `BattleRules.Commit`.
    - `RegenerateDodge` performs `BattleRules.TickDodgeRegen`, under
      `BattleRules.RegenActive`; its only caller, `TickDodgeRegen`, checks that
      first.
    - `AdvanceBeat` performs `BattleRules.BeatStep` for a beat that is due;
      its only caller, `BeatStep`, checks that first.
  - `MarkActed`, `SetActionName`, `Emit`, `BeginBeats`, `ScheduleWindow`,
    `GainDodge`, `CountBeat`, `ScheduleBeat` and `SetRhythmSettings`, and the
    lemma `AppendAssoc`, have no C# counterpart and no row. Each of those
    methods groups a few consecutive assignments of the method that calls it,
    so that every proof reasons about a small frame. The lemma joins the
    traces of two consecutive steps.
- `BattleTraces.dfy` runs arbitrary scripts of public calls from a fresh manager.
  It proves three things that hold for every script:
  - The player's spirit, dodge charges and health stay within their bounds
    unless a caller overwrites them.
  - Two accepted actions always have an entry into the Decision phase between
    them.
  - Two window openings always have a whole beat cycle between them: the cycle's
    first beat `OnBeat(1)`, then the entry into the Decision phase.
- `RoundPhases.dfy` proves, for every script of the same calls, that the round
  phase is Decision exactly while the rhythm machine is in Decision with its
  window open or still pending.
- `BattleScenarios.dfy` runs one concrete script, call by call: a window that
  `EndBattle` leaves open accepts a second action once the next cycle enters
  Decision.
- `EnemyInfoPanel.dfy` holds the static helpers of the enemy info panel:
  - the skill filter is a loop proved equal to an order-preserving filter;
  - the count labels are proved to read back as the numbers they show.

Time is an integer number of milliseconds. Every operation that reads the engine
clock takes the current time `now` as a parameter. The field initialisers
become 2 beats, 500 ms, 500 ms, 500 ms and 5000 ms. The `Configure` floors become
1 beat, 50 ms, 100 ms and 50 ms.

## Model

| member | source | states |
|---|---|---|
| BattleRules.TimeToNextBeat | Assets/Scripts/BattleScene/BattleManager.cs:26 | the time left is never negative; it is zero exactly when the next beat is due, and otherwise now plus it is the beat's deadline |
| BattleRules.TimeToDecisionEnd | Assets/Scripts/BattleScene/BattleManager.cs:27 | the same for the decision window's deadline |
| BattleRules.SetBattleState | Assets/Scripts/BattleScene/BattleManager.cs:285-290 | the battle state becomes the argument; a notification carrying the new state is raised exactly when the state changed |
| BattleRules.SetRoundPhase | Assets/Scripts/BattleScene/BattleManager.cs:292-297 | the round phase becomes the argument; a notification carrying the new phase is raised exactly when the phase changed |
| BattleRules.SetTuning | Assets/Scripts/BattleScene/BattleManager.cs:9-13 | a direct write of the five public tuning fields stores each value unclamped and changes nothing else |
| BattleRules.Configure | Assets/Scripts/BattleScene/BattleManager.cs:120-126 | each of the four settings is at least its floor; it is the argument when that reaches the floor, otherwise the floor; the regeneration interval, the auto-start flag and every other field are unchanged |
| BattleRules.StartBeating | Assets/Scripts/BattleScene/BattleManager.cs:264-270 | a fresh cycle: Beating, count 0, first beat one interval from now, phase Beat, announced only when the phase changed |
| BattleRules.EnterDecision | Assets/Scripts/BattleScene/BattleManager.cs:272-283 | the window is scheduled from now to now plus the decision time, not yet started; the acted flag, the lock and the action label are reset to "gather"; battle state and phase become Decision, each announced only on a change |
| BattleRules.StartRhythm | Assets/Scripts/BattleScene/BattleManager.cs:141-145 | a fresh beat cycle and battle state Rhythm; the phase change comes before the state change |
| BattleRules.StopRhythm | Assets/Scripts/BattleScene/BattleManager.cs:147-152 | rhythm Idle, count 0, phase None; the open-window flag and the next beat time are left as they were |
| BattleRules.StartBattle | Assets/Scripts/BattleScene/BattleManager.cs:128-133 | ends in Rhythm with a fresh beat cycle and the first regeneration deadline one interval from now; Preparing (on a change), the Beat phase (on a change) and Rhythm are announced in that order |
| BattleRules.EndBattle | Assets/Scripts/BattleScene/BattleManager.cs:135-139 | stops the rhythm and finishes the battle; nothing else changes, so an open window stays open |
| BattleRules.Start | Assets/Scripts/BattleScene/BattleManager.cs:59-66 | the participants are announced first and then, exactly when auto-start is on, the battle is started and its notifications follow; with auto-start off nothing else changes and the info notification is the whole trace |
| BattleRules.SetPlayerInfo | Assets/Scripts/BattleScene/BattleManager.cs:154-158 | the player record is replaced, one info notification |
| BattleRules.SetEnemyInfo | Assets/Scripts/BattleScene/BattleManager.cs:160-164 | the enemy record is replaced, one info notification |
| BattleRules.UpdatePlayerStatus | Assets/Scripts/BattleScene/BattleManager.cs:166-173 | without a player nothing happens; otherwise exactly hp, dodge and spirit take the given values, unclamped, with one info notification |
| BattleRules.UpdateEnemyStatus | Assets/Scripts/BattleScene/BattleManager.cs:175-182 | the same for the enemy |
| BattleRules.TrySpendPlayerSpirit | Assets/Scripts/BattleScene/BattleManager.cs:184-193 | succeeds exactly when there is a player and the cost is not positive or affordable; a positive cost takes exactly that much, leaves spirit non-negative and raises one notification; every other outcome changes nothing and raises nothing; bounds are kept |
| BattleRules.TrySpendPlayerDodge | Assets/Scripts/BattleScene/BattleManager.cs:195-203 | succeeds exactly when there is a player with a positive dodge count; then takes exactly one charge and raises one notification; a failure changes nothing; bounds are kept |
| BattleRules.SkillAt | Assets/Scripts/BattleScene/BattleManager.cs:219-231 | with a player, a skill list and an index in range, the result is the entry at that index (null when the entry is null); otherwise it is null; a skill is found only at a valid index |
| BattleRules.Pay | Assets/Scripts/BattleScene/BattleManager.cs:233-254 | a Dodge skill succeeds exactly when the player has a dodge charge and takes one; any other skill succeeds exactly when its cost is not positive or affordable, and a positive cost takes exactly that much spirit; a failure or a free skill changes nothing and raises nothing; bounds are kept |
| BattleRules.Commit | Assets/Scripts/BattleScene/BattleManager.cs:233-261 | accepted exactly when the payment succeeds; a failed payment is rejected with DodgeNotEnough or SpiritNotEnough by the skill's kind, leaves the resources alone, marks acted, locks and raises one rejection; an accepted one keeps the payment's resources, records the skill's name, marks acted, locks and announces the action after the payment's notification; bounds are kept |
| BattleRules.TrySelectPlayerSkill | Assets/Scripts/BattleScene/BattleManager.cs:205-262 | the first failing check gives the reason: NotInDecision, AlreadySelected, InvalidSkill, then the payment; success is exactly reason None; the three early rejections change nothing and raise nothing; a failed payment leaves the resources alone but locks the window and marks the player as acted, raising one rejection; success pays, records the skill's name, locks, and announces the action after the payment notification; the window flag never changes |
| BattleRules.TickDodgeRegen | Assets/Scripts/BattleScene/BattleManager.cs:299-317 | inert without a player, outside a live battle, or with a non-positive interval or ceiling; at or above the ceiling only the deadline moves to now plus the interval; below it, exactly one charge is added, only once the deadline has passed; the count never rises past the ceiling; only the dodge count and the deadline can change |
| BattleRules.ApplyDecisionResult | Assets/Scripts/BattleScene/BattleManager.cs:319-333 | nothing when there is no player or the player acted; otherwise spirit becomes old plus one, capped at a positive ceiling; the info notification is raised exactly when the state changed |
| BattleRules.BeatStep | Assets/Scripts/BattleScene/BattleManager.cs:72-88 | nothing before the deadline; a due beat below the threshold counts up by one, is announced and schedules the next beat at now plus the interval; at the threshold the beat is announced and then the manager enters Decision |
| BattleRules.SettleDecision | Assets/Scripts/BattleScene/BattleManager.cs:102-105 | passive gain, window closed, phase Result; notifications are the gain's, the Result phase, then DecisionEnd |
| BattleRules.CloseDecision | Assets/Scripts/BattleScene/BattleManager.cs:100-109 | the window closes, rhythm Idle, next beat one loop interval from now, phase LoopDelay; DecisionEnd comes between the Result and LoopDelay phase notifications |
| BattleRules.DecisionStep | Assets/Scripts/BattleScene/BattleManager.cs:89-110 | a scheduled window opens once its start is due, raising DecisionStart; a started window closes once its end is due; otherwise nothing happens |
| BattleRules.RhythmStep | Assets/Scripts/BattleScene/BattleManager.cs:72-117 | the battle state either stays or becomes Decision; resource bounds are kept |
| BattleRules.RhythmStepCases | Assets/Scripts/BattleScene/BattleManager.cs:72-117 | an unfolding helper with no content of its own: it restates the three-way dispatch of the rhythm step (the beat step when Beating, the decision step in Decision, a new cycle when Idle with the beat due) so that other proofs can use it one case at a time |
| BattleRules.Update | Assets/Scripts/BattleScene/BattleManager.cs:68-118 | the regeneration's notifications come first; the battle state either stays or becomes Decision, never back to Rhythm; resource bounds are kept |
| BattleRules.RhythmEventsIgnoreRegen | Assets/Scripts/BattleScene/BattleManager.cs:72-117 | the rhythm step's notifications do not depend on the dodge count or the regeneration deadline |
| BattleRules.RegenKeepsRhythm | Assets/Scripts/BattleScene/BattleManager.cs:68-118 | regeneration changes no field the rhythm machine reads, so a frame's notifications are the regeneration's followed by the rhythm step's |
| BattleRules.UpdateStartsBeating | Assets/Scripts/BattleScene/BattleManager.cs:111-117 | an Idle frame with the beat due starts a cycle at count 0 with phase Beat and the first beat one interval from now |
| BattleRules.UpdateCountsBeat | Assets/Scripts/BattleScene/BattleManager.cs:74-86 | a due beat below the threshold raises the count by one, ends the frame's trace with that beat, and schedules the next one at now plus the interval |
| BattleRules.UpdateEntersDecision | Assets/Scripts/BattleScene/BattleManager.cs:72-88 | a due beat at the threshold is announced and enters Decision with a fresh unlocked selection and the "gather" label; the window is scheduled from now but not opened in this frame |
| BattleRules.UpdateOpensWindow | Assets/Scripts/BattleScene/BattleManager.cs:91-99 | a scheduled window whose start is due opens, and DecisionStart is the frame's last notification |
| BattleRules.UpdateClosesWindow | Assets/Scripts/BattleScene/BattleManager.cs:100-109 | a started window whose end is due closes; the frame ends with DecisionEnd then the LoopDelay phase; the next cycle is one loop interval away |
| BattleRules.UpdateWaits | Assets/Scripts/BattleScene/BattleManager.cs:68-118 | outside Decision with no beat due, a frame only regenerates |
| Manager.BattleManager.constructor | Assets/Scripts/BattleScene/BattleManager.cs:8-51 | the field initialisers, with the given participants and an empty trace |
| Manager.BattleManager.TimeToNextBeat | Assets/Scripts/BattleScene/BattleManager.cs:26 | the query on the fields agrees with the rule |
| Manager.BattleManager.TimeToDecisionEnd | Assets/Scripts/BattleScene/BattleManager.cs:27 | the query on the fields agrees with the rule |
| Manager.BattleManager.IsDecisionWindow | Assets/Scripts/BattleScene/BattleManager.cs:28 | the getter is the open-window flag, and it is false exactly when every selection is rejected with NotInDecision |
| Manager.BattleManager.SetBattleState | Assets/Scripts/BattleScene/BattleManager.cs:285-290 | performs the rule's transition and appends its notifications |
| Manager.BattleManager.SetRoundPhase | Assets/Scripts/BattleScene/BattleManager.cs:292-297 | performs the rule's transition and appends its notifications |
| Manager.BattleManager.Start | Assets/Scripts/BattleScene/BattleManager.cs:59-66 | performs the rule's transition and appends its notifications |
| Manager.BattleManager.Configure | Assets/Scripts/BattleScene/BattleManager.cs:120-126 | performs the rule's clamping and raises nothing |
| Manager.BattleManager.StartBattle | Assets/Scripts/BattleScene/BattleManager.cs:128-133 | performs the rule's transition and appends its notifications |
| Manager.BattleManager.EndBattle | Assets/Scripts/BattleScene/BattleManager.cs:135-139 | performs the rule's transition and appends its notifications |
| Manager.BattleManager.StartRhythm | Assets/Scripts/BattleScene/BattleManager.cs:141-145 | performs the rule's transition and appends its notifications |
| Manager.BattleManager.StopRhythm | Assets/Scripts/BattleScene/BattleManager.cs:147-152 | performs the rule's transition and appends its notifications |
| Manager.BattleManager.SetPlayerInfo | Assets/Scripts/BattleScene/BattleManager.cs:154-158 | performs the rule's transition and appends its notification |
| Manager.BattleManager.SetEnemyInfo | Assets/Scripts/BattleScene/BattleManager.cs:160-164 | performs the rule's transition and appends its notification |
| Manager.BattleManager.UpdatePlayerStatus | Assets/Scripts/BattleScene/BattleManager.cs:166-173 | performs the rule's transition and appends its notifications |
| Manager.BattleManager.UpdateEnemyStatus | Assets/Scripts/BattleScene/BattleManager.cs:175-182 | performs the rule's transition and appends its notifications |
| Manager.BattleManager.TrySpendPlayerSpirit | Assets/Scripts/BattleScene/BattleManager.cs:184-193 | returns the rule's verdict, performs its transition and appends its notifications |
| Manager.BattleManager.TrySpendPlayerDodge | Assets/Scripts/BattleScene/BattleManager.cs:195-203 | returns the rule's verdict, performs its transition and appends its notifications |
| Manager.BattleManager.TrySelectPlayerSkill | Assets/Scripts/BattleScene/BattleManager.cs:205-262 | returns the rule's verdict and reason, performs its transition and appends its notifications |
| Manager.BattleManager.Commit | Assets/Scripts/BattleScene/BattleManager.cs:233-261 | pays for a valid skill, then records it or rejects it, as the rule's part after the checks |
| Manager.BattleManager.Pay | Assets/Scripts/BattleScene/BattleManager.cs:233-254 | spends a dodge charge for a Dodge skill and the skill's cost in spirit otherwise |
| Manager.BattleManager.Refuse | Assets/Scripts/BattleScene/BattleManager.cs:237-241 | a refused payment only marks the player as acted, locks the window and raises one rejection |
| Manager.BattleManager.Accept | Assets/Scripts/BattleScene/BattleManager.cs:256-260 | an accepted skill only sets the label, marks acted, locks and raises the action notification carrying the skill's name |
| Manager.BattleManager.StartBeating | Assets/Scripts/BattleScene/BattleManager.cs:264-270 | performs the rule's transition and appends its notifications |
| Manager.BattleManager.EnterDecision | Assets/Scripts/BattleScene/BattleManager.cs:272-283 | performs the rule's transition and appends its notifications |
| Manager.BattleManager.TickDodgeRegen | Assets/Scripts/BattleScene/BattleManager.cs:299-317 | performs the rule's transition and appends its notifications |
| Manager.BattleManager.RegenerateDodge | Assets/Scripts/BattleScene/BattleManager.cs:306-316 | once regeneration is active, performs the rule's transition: the deadline alone at the ceiling, one more charge once the deadline has passed below it |
| Manager.BattleManager.ApplyDecisionResult | Assets/Scripts/BattleScene/BattleManager.cs:319-333 | performs the rule's transition and appends its notifications |
| Manager.BattleManager.BeatStep | Assets/Scripts/BattleScene/BattleManager.cs:72-88 | performs the rule's Beating branch and appends its notifications |
| Manager.BattleManager.AdvanceBeat | Assets/Scripts/BattleScene/BattleManager.cs:76-86 | a due beat is counted, announced, and followed by the entry into Decision or the next beat's schedule, as the rule says |
| Manager.BattleManager.SettleDecision | Assets/Scripts/BattleScene/BattleManager.cs:102-105 | performs the rule's first half of the window close |
| Manager.BattleManager.CloseDecision | Assets/Scripts/BattleScene/BattleManager.cs:100-109 | performs the rule's window close |
| Manager.BattleManager.DecisionStep | Assets/Scripts/BattleScene/BattleManager.cs:89-110 | performs the rule's Decision branch and appends its notifications |
| Manager.BattleManager.RhythmStep | Assets/Scripts/BattleScene/BattleManager.cs:72-117 | performs the rule's rhythm step and appends its notifications |
| Manager.BattleManager.Update | Assets/Scripts/BattleScene/BattleManager.cs:68-118 | one frame: performs the rule's frame, regeneration then the rhythm step, and appends its notifications |
| BattleTraces.ExecKeepsBounds | Assets/Scripts/BattleScene/BattleManager.cs:184-203 | every public call, and every direct write of the tuning fields, keeps 0 <= spirit <= spiritMax, 0 <= dodge <= dodgeMax (a non-positive ceiling bounds nothing) and hpMin <= hp <= hpMax, except installing an out-of-bounds player record and the status overwrite |
| BattleTraces.RunKeepsBounds | Assets/Scripts/BattleScene/BattleManager.cs:299-333 | any script without those two kinds of overwrite keeps the spirit, dodge and health bounds, which covers regeneration, the passive gain and installing in-bounds player records |
| BattleTraces.StatusOverwriteBreaksBounds | Assets/Scripts/BattleScene/BattleManager.cs:166-173 | the status overwrite can store a negative spirit value, so the bounds need the exclusion above |
| BattleTraces.SelectWhileLocked | Assets/Scripts/BattleScene/BattleManager.cs:213-217 | an open, locked window rejects with AlreadySelected and changes nothing |
| BattleTraces.SelectOnce | Assets/Scripts/BattleScene/BattleManager.cs:205-262 | once a selection gets past the early checks, accepted or not, the next selection is AlreadySelected |
| BattleTraces.RepeatedSelect | Assets/Scripts/BattleScene/BattleManager.cs:213-217 | any number of selections against a locked window leave the state and the trace untouched |
| BattleTraces.FramesReachOnlyDecision | Assets/Scripts/BattleScene/BattleManager.cs:68-118 | across any number of frames the battle state either stays or becomes Decision |
| BattleTraces.FramesStayInDecision | Assets/Scripts/BattleScene/BattleManager.cs:100-117 | once in Decision, frames never move the battle state back to Rhythm |
| BattleTraces.LastBeatStep | Assets/Scripts/BattleScene/BattleManager.cs:76-82 | the last beat of a cycle announces the beat, the battle state when it changes, and then the Decision phase, and clears the lock and the window-start flag |
| BattleTraces.UpdateLastBeatShape | Assets/Scripts/BattleScene/BattleManager.cs:74-82 | a frame with the last beat of a cycle announces background news, the beat, the state change and the Decision phase, in that order; the lock and the window-start flag are cleared |
| BattleTraces.UpdateBeatShape | Assets/Scripts/BattleScene/BattleManager.cs:74-86 | a frame with an earlier beat announces background news and the beat only |
| BattleTraces.UpdateOpenShape | Assets/Scripts/BattleScene/BattleManager.cs:91-99 | a frame that opens a window announces background news and then DecisionStart, and sets the window-start flag |
| BattleTraces.UpdateQuietShape | Assets/Scripts/BattleScene/BattleManager.cs:68-118 | every other frame announces neither an action, nor the Decision phase, nor a beat, nor an opening, and leaves the lock and the window-start flag alone |
| BattleTraces.QuietClose | Assets/Scripts/BattleScene/BattleManager.cs:100-109 | closing a window announces only background news and keeps the lock and the window-start flag |
| BattleTraces.FrameKeepsAdmission | Assets/Scripts/BattleScene/BattleManager.cs:68-118 | a frame announces no action and leaves the lock alone unless its last beat enters Decision, which ends any wait for that entry |
| BattleTraces.ExecKeepsAdmission | Assets/Scripts/BattleScene/BattleManager.cs:205-283 | every public call keeps the admission invariant: no action while an earlier one still waits for an entry into Decision, and the selection locked while one waits |
| BattleTraces.RunKeepsAdmission | Assets/Scripts/BattleScene/BattleManager.cs:205-283 | every script keeps the admission invariant |
| BattleTraces.FreshAdmissions | Assets/Scripts/BattleScene/BattleManager.cs:205-283 | from a fresh manager, whatever the calls, no accepted action comes while an earlier one waits for an entry into Decision |
| BattleTraces.SingleAdmission | Assets/Scripts/BattleScene/BattleManager.cs:205-283 | from a fresh manager, whatever the calls, between any two accepted actions the round enters the Decision phase again |
| RoundPhases.RhythmKeepsPhase | Assets/Scripts/BattleScene/BattleManager.cs:72-117 | every rhythm step (a beat, the decision step, a new cycle) keeps the round phase in agreement with the rhythm state and the window |
| RoundPhases.FrameKeepsPhase | Assets/Scripts/BattleScene/BattleManager.cs:68-118 | an engine frame keeps that agreement; regeneration touches none of the fields it reads |
| RoundPhases.LifecycleKeepsPhase | Assets/Scripts/BattleScene/BattleManager.cs:128-152 | Start, StartBattle, EndBattle, StartRhythm and StopRhythm keep it, because each sets the rhythm state and the phase together |
| RoundPhases.ExecKeepsPhase | Assets/Scripts/BattleScene/BattleManager.cs:264-283 | every public call and every direct write of the tuning fields keeps the phase Decision exactly while the rhythm machine is in Decision with its window open or pending |
| RoundPhases.RunKeepsPhase | Assets/Scripts/BattleScene/BattleManager.cs:264-283 | any script keeps that agreement |
| RoundPhases.FreshPhases | Assets/Scripts/BattleScene/BattleManager.cs:39-51 | from a fresh manager the agreement holds after every script |
| BattleScenarios.ReopenStep | Assets/Scripts/BattleScene/BattleManager.cs:68-262 | each call of the script (StartBattle, the frames, EndBattle, the two selections) takes the manager from one listed stage to the next, with exactly the listed notifications |
| BattleScenarios.ReopenRun | Assets/Scripts/BattleScene/BattleManager.cs:68-262 | the whole script ends at the final stage with the concatenated notifications of its calls |
| BattleScenarios.SecondActionInOpenWindow | Assets/Scripts/BattleScene/BattleManager.cs:135-152 | for a fresh manager whose player's first skill is a free non-Dodge skill and who has no dodge ceiling, the script's trace holds two accepted actions with no DecisionStart or DecisionEnd between them |
| BattleTraces.FrameKeepsWindow | Assets/Scripts/BattleScene/BattleManager.cs:68-118 | a frame opens a window only when no earlier opening waits; the first beat of a fresh cycle moves a waiting opening on, and a last beat ends the wait |
| BattleTraces.ExecKeepsWindow | Assets/Scripts/BattleScene/BattleManager.cs:72-110 | every public call keeps the window invariant: no opening while an earlier one waits for a cycle's first beat and the Decision phase, the window-start flag set while one waits, and no beat counted yet while it waits for the first |
| BattleTraces.RunKeepsWindow | Assets/Scripts/BattleScene/BattleManager.cs:72-110 | every script keeps the window invariant |
| BattleTraces.FreshOpenings | Assets/Scripts/BattleScene/BattleManager.cs:72-110 | from a fresh manager, whatever the calls, no opening comes while an earlier one waits for its beat cycle |
| BattleTraces.SingleOpening | Assets/Scripts/BattleScene/BattleManager.cs:72-110 | from a fresh manager, whatever the calls, between any two window openings come the first beat of a cycle, OnBeat(1), and after it the entry into the Decision phase |
| EnemyPanel.FilterSeq | Assets/Scripts/BattleScene/UI/EnemyInfoPanel.cs:95-99 | the filter is no longer than its input and holds only shown kinds |
| EnemyPanel.Filtered | Assets/Scripts/BattleScene/UI/EnemyInfoPanel.cs:92-93 | a null list gives the empty list; otherwise the result is no longer than the list and holds only shown kinds |
| EnemyPanel.FilterEnemySkills | Assets/Scripts/BattleScene/UI/EnemyInfoPanel.cs:90-103 | a null list gives the empty list; the loop computes exactly the order-preserving filter |
| EnemyPanel.FilterAppend | Assets/Scripts/BattleScene/UI/EnemyInfoPanel.cs:95-100 | the filter distributes over concatenation, so it keeps the input order |
| EnemyPanel.FilterSingle | Assets/Scripts/BattleScene/UI/EnemyInfoPanel.cs:97-99 | a single entry survives exactly when it is not null and its kind is neither Dodge nor NormalAttack |
| EnemyPanel.FilterMembership | Assets/Scripts/BattleScene/UI/EnemyInfoPanel.cs:95-99 | a skill is in the result exactly when some non-null entry holds it and its kind is shown |
| EnemyPanel.FilterCount | Assets/Scripts/BattleScene/UI/EnemyInfoPanel.cs:95-99 | a shown skill occurs in the result as many times as in the input, so nothing is dropped or duplicated |
| EnemyPanel.FilteredFacts | Assets/Scripts/BattleScene/UI/EnemyInfoPanel.cs:90-103 | the method's result, for every input: empty for a null list, no longer than the list, free of Dodge and NormalAttack, and holding exactly the shown non-null skills |
| EnemyPanel.NatToString | Assets/Scripts/BattleScene/UI/EnemyInfoPanel.cs:107 | the decimal text is a non-empty string of digits with no leading zero |
| EnemyPanel.IntToString | Assets/Scripts/BattleScene/UI/EnemyInfoPanel.cs:107 | a non-negative integer's text is all digits; a negative one's is '-' followed by digits |
| EnemyPanel.NatRoundTrip | Assets/Scripts/BattleScene/UI/EnemyInfoPanel.cs:107 | reading the decimal text of a natural number gives the number back |
| EnemyPanel.IntRoundTrip | Assets/Scripts/BattleScene/UI/EnemyInfoPanel.cs:107 | reading the decimal text of any integer, sign included, gives the integer back |
| EnemyPanel.IntToStringHasNoSlash | Assets/Scripts/BattleScene/UI/EnemyInfoPanel.cs:107 | the decimal text of an integer never contains '/' |
| EnemyPanel.FormatCount | Assets/Scripts/BattleScene/UI/EnemyInfoPanel.cs:105-108 | the label holds a '/' exactly when the maximum is positive, and starts with the current value's text |
| EnemyPanel.FormatSpirit | Assets/Scripts/BattleScene/UI/EnemyInfoPanel.cs:110-113 | the label holds no '/' and reads back as the current value |
| EnemyPanel.FormatCountRoundTrip | Assets/Scripts/BattleScene/UI/EnemyInfoPanel.cs:105-108 | a count label reads back as its current value, and holds the maximum exactly when the maximum is positive |
| EnemyPanel.FormatSpiritRoundTrip | Assets/Scripts/BattleScene/UI/EnemyInfoPanel.cs:110-113 | the spirit label is the bare decimal, labels like a count without a maximum, and reads back as the value |
| EnemyPanel.FormatCountInjective | Assets/Scripts/BattleScene/UI/EnemyInfoPanel.cs:105-108 | two count labels with positive maxima are equal only when both numbers are |

## Behaviour as written

Some behaviours of the code are easy to misread, because a round of a rhythm
game is usually expected to behave otherwise. The model follows the code in
each of them, and each point below is proved about the model:

- The beat is rescheduled at now plus the interval, not by adding the interval
  to the old deadline (BattleManager.cs:85; `BattleRules.UpdateCountsBeat`).
- The battle state stays Decision after the first window. No frame moves it
  back to Rhythm; only `StartRhythm` and `StartBattle` do
  (`BattleRules.Update`, `BattleTraces.FramesStayInDecision`).
- `StopRhythm` and `EndBattle` leave the open-window flag and the next beat time
  as they were (`BattleRules.StopRhythm`, `BattleRules.EndBattle`). An open
  window therefore stays open, and a later frame's Idle branch starts beating
  again. A selection can then be accepted in that still-open window once the
  next cycle enters Decision and clears the lock, with no `DecisionStart` or
  `DecisionEnd` in between (`BattleScenarios.SecondActionInOpenWindow`, for a
  player whose first skill is a free non-Dodge skill and who has no dodge
  ceiling). So the code does not promise one action
  per window, only one action per entry into Decision
  (`BattleTraces.SingleAdmission`).
- A second `StartBattle` announces Preparing and Rhythm again
  (`BattleRules.StartBattle`).
- A failed payment also suppresses the passive spirit gain, because it marks
  the player as acted (`BattleRules.TrySelectPlayerSkill`,
  `BattleRules.ApplyDecisionResult`).
- The status updates store hp, dodge and spirit unclamped
  (`BattleTraces.StatusOverwriteBreaksBounds`).
- `Configure` does not touch the dodge regeneration interval
  (`BattleRules.Configure`).
- Dodge regeneration is also inert while the battle state is None or Finished,
  and for any non-positive ceiling, not only a ceiling of 0
  (`BattleRules.TickDodgeRegen`).

## Left out

- Unity lifecycle and reflection: `Awake`, `MonoBehaviour`, and the `[Min]`/`[SerializeField]` attributes are left out. The constructor takes the participants that `Awake` would install, and `Update(now)` is the frame.
- `CreateTestPlayer`/`CreateTestEnemy` (BattleManager.cs:335-377) are test fixtures and are left out. As written they would also fail, adding to a skill list that was never created.
- The engine clock and float arithmetic are replaced by an integer `now` in milliseconds.
- Manager.BattleManager.TimeToNextBeat: this is `max(0, deadline - now)` on integers. It does not model the float subtraction.
- Manager.BattleManager.TimeToDecisionEnd: the same, on integers.
- The plain getters (`CurrentBattleState`, `CurrentRhythmState`, `CurrentRoundPhase`, `PlayerInfo`, `EnemyInfo`, `CurrentBeatCount`, BattleManager.cs:20-25) are not separate members. The class fields are readable directly.
- Multicast delegates: subscribers and their number are not modelled. Each invocation of an event is one entry in the ghost trace.
- `BattleInfoModel` objects are values held in `Option` fields. Aliasing between a record the caller keeps and the manager's copy is not modelled, so a caller mutating a shared record behind the manager's back is not captured.
- 32-bit integer overflow is not modelled. Counts, costs and times are unbounded integers.
- The panel's presentation (`SetInfo`, `UpdateSkills`, avatar sprites, tweens, text widgets) and the other UI panels are left out. So is keyboard polling in the input controller, which only maps keys to skill indices and calls `TrySelectPlayerSkill`.
- BattleTraces.RunKeepsBounds: every `UpdatePlayerStatus` call is excluded, even one whose values are in bounds, because whether they are depends on the record's maxima at the time of the call.
- EnemyPanel.FormatCount: C# interpolation of an `int` is modelled as culture-free decimal text with a leading '-' for negatives. Culture-specific digit or sign forms are not modelled.
- The `avatar` field of the info record is left out, because nothing in the modelled core reads it.
