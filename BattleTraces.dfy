/**
  Sequences of calls into the battle manager, and the properties that hold of
  every such sequence: the player's resources stay in bounds unless a caller
  overwrites them, two accepted actions always have an entry into the Decision
  phase between them, and two window openings always have a whole beat cycle
  between them (its first beat, then the entry into the Decision phase).
*/
module BattleTraces {
  import opened BattleTypes
  import BattleRules

  /**
    One call of one public BattleManager operation (Update is the engine frame),
    or a direct write of the five public tuning fields (SetTuning).
  */
  datatype Command =
    | Start(now: int)
    | Update(now: int)
    | TrySelectPlayerSkill(index: int)
    | TrySpendPlayerSpirit(cost: int)
    | TrySpendPlayerDodge
    | StartBattle(now: int)
    | EndBattle
    | StartRhythm(now: int)
    | StopRhythm
    | Configure(beats: int, interval: int, decision: int, loop: int)
    | SetTuning(beats: int, interval: int, decision: int, loop: int, regen: int)
    | SetPlayerInfo(info: Option<Info>)
    | SetEnemyInfo(info: Option<Info>)
    | UpdatePlayerStatus(hp: int, dodge: int, spirit: int)
    | UpdateEnemyStatus(hp: int, dodge: int, spirit: int)

  /** The new state and the notifications of one call. */
  function Exec(c: BattleRules.Core, cmd: Command): BattleRules.Out
  {
    match cmd
    case Start(now) => BattleRules.Start(c, now)
    case Update(now) => BattleRules.Update(c, now)
    case TrySelectPlayerSkill(index) =>
      var r := BattleRules.TrySelectPlayerSkill(c, index);
      BattleRules.Out(r.core, r.events)
    case TrySpendPlayerSpirit(cost) =>
      var r := BattleRules.TrySpendPlayerSpirit(c, cost);
      BattleRules.Out(r.core, r.events)
    case TrySpendPlayerDodge =>
      var r := BattleRules.TrySpendPlayerDodge(c);
      BattleRules.Out(r.core, r.events)
    case StartBattle(now) => BattleRules.StartBattle(c, now)
    case EndBattle => BattleRules.EndBattle(c)
    case StartRhythm(now) => BattleRules.StartRhythm(c, now)
    case StopRhythm => BattleRules.StopRhythm(c)
    case Configure(beats, interval, decision, loop) =>
      BattleRules.Out(BattleRules.Configure(c, beats, interval, decision, loop), [])
    case SetTuning(beats, interval, decision, loop, regen) =>
      BattleRules.Out(BattleRules.SetTuning(c, beats, interval, decision, loop, regen), [])
    case SetPlayerInfo(info) => BattleRules.SetPlayerInfo(c, info)
    case SetEnemyInfo(info) => BattleRules.SetEnemyInfo(c, info)
    case UpdatePlayerStatus(hp, dodge, spirit) => BattleRules.UpdatePlayerStatus(c, hp, dodge, spirit)
    case UpdateEnemyStatus(hp, dodge, spirit) => BattleRules.UpdateEnemyStatus(c, hp, dodge, spirit)
  }

  /** The calls of a script one after the other, each performed by `step`; the notifications are concatenated in order. */
  function Fold(step: (BattleRules.Core, Command) -> BattleRules.Out, c: BattleRules.Core, script: seq<Command>)
    : (r: BattleRules.Out)
    ensures script == [] ==> r == BattleRules.Out(c, [])
    decreases |script|
  {
    if script == [] then BattleRules.Out(c, [])
    else
      var o := step(c, script[0]);
      var rest := Fold(step, o.core, script[1..]);
      BattleRules.Out(rest.core, o.events + rest.events)
  }

  /** The calls of a script made on the battle manager. */
  function Run(c: BattleRules.Core, script: seq<Command>): (r: BattleRules.Out)
    ensures script == [] ==> r == BattleRules.Out(c, [])
  {
    Fold(Exec, c, script)
  }

  /** Whatever every single step preserves, a whole script preserves, with the notifications accumulated. */
  lemma {:induction false} FoldPreserves(inv: (BattleRules.Core, seq<Event>) -> bool,
                                         step: (BattleRules.Core, Command) -> BattleRules.Out,
                                         c: BattleRules.Core, evs: seq<Event>, script: seq<Command>)
    requires forall c0, e0, cmd :: inv(c0, e0) ==> inv(step(c0, cmd).core, e0 + step(c0, cmd).events)
    requires inv(c, evs)
    ensures inv(Fold(step, c, script).core, evs + Fold(step, c, script).events)
    decreases |script|
  {
    var r := Fold(step, c, script);
    if script == [] {
      assert r.core == c && evs + r.events == evs;
    } else {
      var o := step(c, script[0]);
      FoldPreserves(inv, step, o.core, evs + o.events, script[1..]);
      var rest := Fold(step, o.core, script[1..]);
      assert r.core == rest.core && r.events == o.events + rest.events;
      assert evs + r.events == evs + o.events + rest.events;
    }
  }

  // ---------------------------------------------------------------------------
  // Resource bounds

  /**
    The calls that may write the player's resources out of bounds: installing a
    player record that is itself out of bounds, and every status overwrite.
  */
  predicate OverwritesPlayer(cmd: Command)
  {
    (cmd.SetPlayerInfo? && cmd.info.Some? && !BattleRules.LedgerBounded(cmd.info.value)) || cmd.UpdatePlayerStatus?
  }

  /** Every other call keeps the player's resources in bounds. */
  lemma ExecKeepsBounds(c: BattleRules.Core, cmd: Command)
    requires BattleRules.PlayerBounded(c) && !OverwritesPlayer(cmd)
    ensures BattleRules.PlayerBounded(Exec(c, cmd).core)
  {
    match cmd
    case Start(now) =>
      assert BattleRules.StartBattle(c, now).core.player == c.player;
    case TrySelectPlayerSkill(index) =>
    case TrySpendPlayerSpirit(cost) =>
    case TrySpendPlayerDodge =>
    case Update(now) =>
    case _ =>
  }

  /** A script without such overwrites keeps the player's resources in bounds throughout. */
  lemma {:induction false} RunKeepsBounds(c: BattleRules.Core, script: seq<Command>)
    requires BattleRules.PlayerBounded(c)
    requires forall k :: 0 <= k < |script| ==> !OverwritesPlayer(script[k])
    ensures BattleRules.PlayerBounded(Run(c, script).core)
    decreases |script|
  {
    if script != [] {
      ExecKeepsBounds(c, script[0]);
      RunKeepsBounds(Exec(c, script[0]).core, script[1..]);
    }
  }

  /** The status overwrite is not clamped: a negative spirit value is stored as given. */
  lemma StatusOverwriteBreaksBounds(c: BattleRules.Core)
    requires c.player.Some?
    ensures !BattleRules.PlayerBounded(Exec(c, UpdatePlayerStatus(c.player.value.hp, 0, -1)).core)
  {
  }

  // ---------------------------------------------------------------------------
  // Repeated selection

  /** A locked window rejects every selection as AlreadySelected and changes nothing. */
  lemma SelectWhileLocked(c: BattleRules.Core, index: int)
    requires c.windowOpen && c.selectionLocked
    ensures BattleRules.TrySelectPlayerSkill(c, index) == BattleRules.Selection(false, AlreadySelected, c, [])
  {
  }

  /** The first selection that gets past the early checks locks the window: the next one is AlreadySelected. */
  lemma SelectOnce(c: BattleRules.Core, first: int, second: int)
    requires !BattleRules.EarlyRejection(BattleRules.TrySelectPlayerSkill(c, first).reason)
    ensures var c1 := BattleRules.TrySelectPlayerSkill(c, first).core;
      BattleRules.TrySelectPlayerSkill(c1, second).reason == AlreadySelected
  {
  }

  /** Any number of selections against a locked window leave the state and the notifications untouched. */
  lemma {:induction false} RepeatedSelect(c: BattleRules.Core, script: seq<Command>)
    requires c.windowOpen && c.selectionLocked
    requires forall k :: 0 <= k < |script| ==> script[k].TrySelectPlayerSkill?
    ensures Run(c, script) == BattleRules.Out(c, [])
    decreases |script|
  {
    if script != [] {
      SelectWhileLocked(c, script[0].index);
      RepeatedSelect(c, script[1..]);
    }
  }

  // ---------------------------------------------------------------------------
  // Frames keep the battle in Decision

  /** A run of engine frames never moves the battle state anywhere but to Decision. */
  lemma {:induction false} FramesReachOnlyDecision(c: BattleRules.Core, script: seq<Command>)
    requires forall k :: 0 <= k < |script| ==> script[k].Update?
    ensures var s := Run(c, script).core.battleState;
      s == c.battleState || s == BattleState.Decision
    decreases |script|
  {
    if script != [] {
      FramesReachOnlyDecision(Exec(c, script[0]).core, script[1..]);
    }
  }

  /** Once the battle is in Decision, engine frames keep it there. */
  lemma FramesStayInDecision(c: BattleRules.Core, script: seq<Command>)
    requires c.battleState == BattleState.Decision
    requires forall k :: 0 <= k < |script| ==> script[k].Update?
    ensures Run(c, script).core.battleState == BattleState.Decision
  {
    FramesReachOnlyDecision(c, script);
  }

  // ---------------------------------------------------------------------------
  // Milestones between watched notifications

  /**
    The two trace properties. Each watches one kind of notification and names
    the milestones that must follow it, in order, before it may occur again:
    an accepted action waits for an entry into the Decision phase; a window
    opening waits for the first beat of a cycle and then the Decision phase.
  */
  datatype Watch = Admissions | Openings

  /** The notification a property watches. */
  predicate IsA(w: Watch, e: Event)
  {
    match w
    case Admissions => IsAdmission(e)
    case Openings => IsWindowStart(e)
  }

  /** What must pass, in this order, between two watched notifications. */
  function Milestones(w: Watch): (ms: seq<Event>)
    ensures |ms| > 0
    ensures forall k :: 0 <= k < |ms| ==> !IsA(w, ms[k])
  {
    match w
    case Admissions => [RoundPhaseChanged(RoundPhase.Decision)]
    case Openings => [OnBeat(1), RoundPhaseChanged(RoundPhase.Decision)]
  }

  /**
    How far a trace is through its watch: nothing waits; a watched notification
    waits, with `passed` of its milestones seen since; or one came too early.
  */
  datatype Progress = Clear | Awaiting(passed: nat) | Broken

  /** The progress after one more notification. */
  function Advance(w: Watch, p: Progress, e: Event): Progress
  {
    match p
    case Broken => Broken
    case Clear => if IsA(w, e) then Awaiting(0) else Clear
    case Awaiting(n) =>
      if IsA(w, e) then Broken
      else if n < |Milestones(w)| && e == Milestones(w)[n] then
        (if n + 1 == |Milestones(w)| then Clear else Awaiting(n + 1))
      else p
  }

  /** The progress after a sequence of notifications, starting from `p`. */
  function Replay(w: Watch, p: Progress, evs: seq<Event>): Progress
    decreases |evs|
  {
    if evs == [] then p else Advance(w, Replay(w, p, evs[..|evs| - 1]), evs[|evs| - 1])
  }

  /** The progress of a whole trace. */
  function ProgressOf(w: Watch, evs: seq<Event>): Progress
  {
    Replay(w, Clear, evs)
  }

  /** A progress that is not broken and counts no more milestones than there are. */
  predicate Orderly(w: Watch, p: Progress)
  {
    p.Clear? || (p.Awaiting? && p.passed < |Milestones(w)|)
  }

  lemma {:induction false} ReplayAppend(w: Watch, p: Progress, a: seq<Event>, b: seq<Event>)
    ensures Replay(w, p, a + b) == Replay(w, Replay(w, p, a), b)
    decreases |b|
  {
    if b == [] {
      assert a + b == a;
    } else {
      var b0 := b[..|b| - 1];
      assert (a + b)[..|a + b| - 1] == a + b0;
      assert (a + b)[|a + b| - 1] == b[|b| - 1];
      ReplayAppend(w, p, a, b0);
    }
  }

  lemma ReplayOne(w: Watch, p: Progress, e: Event)
    ensures Replay(w, p, [e]) == Advance(w, p, e)
  {
    assert [e][..0] == [];
  }

  /** Neither the watched notification nor a milestone occurs. */
  predicate Quiet(e: seq<Event>, w: Watch)
  {
    forall k :: 0 <= k < |e| ==> !IsA(w, e[k]) && e[k] !in Milestones(w)
  }

  lemma {:induction false} ReplayQuiet(w: Watch, p: Progress, e: seq<Event>)
    requires Quiet(e, w)
    ensures Replay(w, p, e) == p
    decreases |e|
  {
    if e != [] {
      var e0 := e[..|e| - 1];
      assert Quiet(e0, w) by {
        forall k | 0 <= k < |e0|
          ensures !IsA(w, e0[k]) && e0[k] !in Milestones(w)
        {
          assert e0[k] == e[k];
        }
      }
      ReplayQuiet(w, p, e0);
    }
  }

  /** Quiet notifications, then one more: only the last one counts. */
  lemma QuietThen(w: Watch, p: Progress, g: seq<Event>, x: Event)
    requires Quiet(g, w)
    ensures Replay(w, p, g + [x]) == Advance(w, p, x)
  {
    ReplayAppend(w, p, g, [x]);
    ReplayQuiet(w, p, g);
    ReplayOne(w, p, x);
  }

  /** Quiet notifications around two others: only those two count. */
  lemma QuietAround(w: Watch, p: Progress, g: seq<Event>, x: Event, q: seq<Event>, y: Event)
    requires Quiet(g, w) && Quiet(q, w)
    ensures Replay(w, p, g + [x] + q + [y]) == Advance(w, Advance(w, p, x), y)
  {
    var px := Replay(w, p, g + [x]);
    QuietThen(w, p, g, x);
    ReplayAppend(w, p, g + [x], q);
    ReplayQuiet(w, px, q);
    QuietThen(w, Replay(w, p, g + [x] + q), [], y);
    ReplayAppend(w, p, g + [x] + q, [y]);
    assert [] + [y] == [y];
  }

  /** Broken is the automaton's absorbing state: once broken, a progress stays broken (a fact about the automaton, not the manager). */
  lemma {:induction false} BrokenStays(w: Watch, e: seq<Event>)
    ensures Replay(w, Broken, e) == Broken
    decreases |e|
  {
    if e != [] {
      BrokenStays(w, e[..|e| - 1]);
    }
  }

  /** A trace that is not broken has no broken prefix. */
  lemma PrefixNotBroken(w: Watch, evs: seq<Event>, n: int)
    requires 0 <= n <= |evs| && ProgressOf(w, evs) != Broken
    ensures ProgressOf(w, evs[..n]) != Broken
  {
    assert evs == evs[..n] + evs[n..];
    ReplayAppend(w, Clear, evs[..n], evs[n..]);
    if ProgressOf(w, evs[..n]) == Broken {
      BrokenStays(w, evs[n..]);
    }
  }

  /** The progress of a prefix one notification longer. */
  lemma PrefixStep(w: Watch, evs: seq<Event>, n: int)
    requires 0 < n <= |evs|
    ensures ProgressOf(w, evs[..n]) == Advance(w, ProgressOf(w, evs[..n - 1]), evs[n - 1])
  {
    assert evs[..n][..n - 1] == evs[..n - 1];
  }

  /** Positions `ks`, strictly between `lo` and `hi` and increasing, at which the milestones `ms` occur. */
  predicate InOrder(evs: seq<Event>, lo: int, hi: int, ms: seq<Event>, ks: seq<int>)
  {
    && |ks| == |ms|
    && (forall m :: 0 <= m < |ks| ==> lo < ks[m] < hi && 0 <= ks[m] < |evs| && evs[ks[m]] == ms[m])
    && (forall m :: 0 < m < |ks| ==> ks[m - 1] < ks[m])
  }

  /**
    Since a watched notification at `i`, the milestones counted in the progress
    of the prefix up to `n` have occurred after `i`, in order; all of them when
    nothing waits any more.
  */
  lemma {:induction false} SinceWatched(w: Watch, evs: seq<Event>, i: int, n: int)
    requires 0 <= i < n <= |evs| && IsA(w, evs[i]) && ProgressOf(w, evs[..n]) != Broken
    ensures var p := ProgressOf(w, evs[..n]);
      && (p.Clear? ==> exists ks :: InOrder(evs, i, n, Milestones(w), ks))
      && (p.Awaiting? ==> p.passed < |Milestones(w)|
                          && exists ks :: InOrder(evs, i, n, Milestones(w)[..p.passed], ks))
    decreases n
  {
    var ms := Milestones(w);
    PrefixStep(w, evs, n);
    var q := ProgressOf(w, evs[..n - 1]);
    var p := ProgressOf(w, evs[..n]);
    var e := evs[n - 1];
    if n - 1 == i {
      assert p == Awaiting(0);
      assert InOrder(evs, i, n, ms[..0], []);
    } else {
      assert q != Broken;
      SinceWatched(w, evs, i, n - 1);
      if q.Clear? {
        var ks :| InOrder(evs, i, n - 1, ms, ks);
        if IsA(w, e) {
          assert InOrder(evs, i, n, ms[..0], []);
        } else {
          assert InOrder(evs, i, n, ms, ks);
        }
      } else {
        var m := q.passed;
        var ks :| InOrder(evs, i, n - 1, ms[..m], ks);
        if e == ms[m] {
          var ks2 := ks + [n - 1];
          assert ms[..m + 1] == ms[..m] + [ms[m]];
          assert InOrder(evs, i, n, ms[..m + 1], ks2);
          if m + 1 == |ms| {
            assert ms[..m + 1] == ms;
          }
        } else {
          assert InOrder(evs, i, n, ms[..m], ks);
        }
      }
    }
  }

  /** In a trace that is not broken, all the milestones occur, in order, between any two watched notifications. */
  lemma MilestonesBetween(w: Watch, evs: seq<Event>, i: int, j: int)
    requires ProgressOf(w, evs) != Broken
    requires 0 <= i < j < |evs| && IsA(w, evs[i]) && IsA(w, evs[j])
    ensures exists ks :: InOrder(evs, i, j, Milestones(w), ks)
  {
    PrefixNotBroken(w, evs, j + 1);
    PrefixNotBroken(w, evs, j);
    PrefixStep(w, evs, j + 1);
    SinceWatched(w, evs, i, j);
  }

  // ---------------------------------------------------------------------------
  // The notifications the two trace properties are about

  predicate IsAdmission(e: Event) { e.DecisionActionChanged? }

  predicate IsDecisionPhase(e: Event) { e == RoundPhaseChanged(RoundPhase.Decision) }

  predicate IsWindowStart(e: Event) { e == DecisionStart }

  predicate IsBeat(e: Event) { e.OnBeat? }

  /** A notification neither trace property is about. */
  predicate Background(e: Event)
  {
    !IsAdmission(e) && !IsDecisionPhase(e) && !IsWindowStart(e) && !IsBeat(e)
  }

  predicate AllBackground(e: seq<Event>)
  {
    forall k :: 0 <= k < |e| ==> Background(e[k])
  }

  lemma BackgroundQuiet(e: seq<Event>)
    requires AllBackground(e)
    ensures Quiet(e, Admissions) && Quiet(e, Openings)
  {
  }

  /** A beat cycle always runs in the Beat phase. */
  predicate BeatPhase(c: BattleRules.Core)
  {
    c.rhythmState == Beating ==> c.roundPhase == RoundPhase.Beat
  }

  /** A running beat cycle has not yet counted a beat, so its next beat is OnBeat(1). */
  predicate FreshCycle(c: BattleRules.Core)
  {
    c.rhythmState == Beating ==> c.beatCount == 0
  }

  lemma BackgroundConcat(a: seq<Event>, b: seq<Event>)
    requires AllBackground(a) && AllBackground(b)
    ensures AllBackground(a + b)
  {
    forall k | 0 <= k < |a + b|
      ensures Background((a + b)[k])
    {
      if k >= |a| {
        assert (a + b)[k] == b[k - |a|];
      }
    }
  }

  lemma BackgroundStateChange(from: BattleState, to: BattleState)
    ensures AllBackground(BattleRules.StateChange(from, to))
  {
  }

  lemma BackgroundPhaseChange(from: RoundPhase, to: RoundPhase)
    requires to != RoundPhase.Decision
    ensures AllBackground(BattleRules.PhaseChange(from, to))
  {
  }

  /** The notifications of StartBattle: Preparing, the Beat phase and Rhythm. */
  lemma BackgroundStartBattle(c: BattleRules.Core, now: int)
    ensures AllBackground(BattleRules.StartBattle(c, now).events)
  {
    BackgroundStateChange(c.battleState, BattleState.Preparing);
    BackgroundPhaseChange(c.roundPhase, RoundPhase.Beat);
    BackgroundConcat(BattleRules.StateChange(c.battleState, BattleState.Preparing),
                     BattleRules.PhaseChange(c.roundPhase, RoundPhase.Beat));
    BackgroundConcat(BattleRules.StateChange(c.battleState, BattleState.Preparing)
                     + BattleRules.PhaseChange(c.roundPhase, RoundPhase.Beat),
                     [BattleStateChanged(BattleState.Rhythm)]);
  }

  /** The lifecycle calls raise only background notifications and touch neither the lock nor the window-start flag. */
  lemma LifecycleBookkeeping(c: BattleRules.Core, cmd: Command)
    requires cmd.Start? || cmd.StartBattle? || cmd.StartRhythm? || cmd.EndBattle? || cmd.StopRhythm?
    requires BeatPhase(c)
    ensures var o := Exec(c, cmd);
      && AllBackground(o.events)
      && o.core.selectionLocked == c.selectionLocked
      && o.core.decisionStarted == c.decisionStarted
      && BeatPhase(o.core)
      && (FreshCycle(c) ==> FreshCycle(o.core))
  {
    match cmd
    case Start(now) =>
      BackgroundStartBattle(c, now);
      BackgroundConcat([BattleInfoChanged], BattleRules.StartBattle(c, now).events);
    case StartBattle(now) =>
      BackgroundStartBattle(c, now);
    case StartRhythm(now) =>
      BackgroundPhaseChange(c.roundPhase, RoundPhase.Beat);
      BackgroundStateChange(c.battleState, BattleState.Rhythm);
      BackgroundConcat(BattleRules.PhaseChange(c.roundPhase, RoundPhase.Beat),
                       BattleRules.StateChange(c.battleState, BattleState.Rhythm));
    case EndBattle =>
      BackgroundPhaseChange(c.roundPhase, RoundPhase.None);
      BackgroundStateChange(c.battleState, Finished);
      BackgroundConcat(BattleRules.PhaseChange(c.roundPhase, RoundPhase.None),
                       BattleRules.StateChange(c.battleState, Finished));
    case StopRhythm =>
      BackgroundPhaseChange(c.roundPhase, RoundPhase.None);
  }

  /** The roster, status, spend and configuration calls: at most one BattleInfoChanged, and only participants or settings change. */
  lemma RosterBookkeeping(c: BattleRules.Core, cmd: Command)
    requires cmd.TrySpendPlayerSpirit? || cmd.TrySpendPlayerDodge? || cmd.Configure? || cmd.SetTuning?
          || cmd.SetPlayerInfo? || cmd.SetEnemyInfo? || cmd.UpdatePlayerStatus? || cmd.UpdateEnemyStatus?
    ensures var o := Exec(c, cmd);
      && AllBackground(o.events)
      && o.core == c.(config := o.core.config, player := o.core.player, enemy := o.core.enemy)
  {
  }

  /**
    The calls other than Update and TrySelectPlayerSkill raise only background
    notifications, leave the selection lock and the window-start flag alone,
    keep beat cycles in the Beat phase and count no beat.
  */
  lemma ExecBookkeeping(c: BattleRules.Core, cmd: Command)
    requires !cmd.Update? && !cmd.TrySelectPlayerSkill?
    requires BeatPhase(c)
    ensures var o := Exec(c, cmd);
      && AllBackground(o.events)
      && o.core.selectionLocked == c.selectionLocked
      && o.core.decisionStarted == c.decisionStarted
      && BeatPhase(o.core)
      && (FreshCycle(c) ==> FreshCycle(o.core))
  {
    if cmd.Start? || cmd.StartBattle? || cmd.StartRhythm? || cmd.EndBattle? || cmd.StopRhythm? {
      LifecycleBookkeeping(c, cmd);
    } else {
      RosterBookkeeping(c, cmd);
    }
  }

  // ---------------------------------------------------------------------------
  // What one engine frame announces

  /** A beat is due in a running beat cycle. */
  predicate BeatDue(c: BattleRules.Core, now: int)
  {
    c.rhythmState == Beating && now >= c.nextBeatTime
  }

  /** A scheduled decision window is due to open. */
  predicate WindowDue(c: BattleRules.Core, now: int)
  {
    c.rhythmState == RhythmState.Decision && !c.decisionStarted && now >= c.decisionStartTime
  }

  /** Dodge regeneration before a due beat leaves the beat step as it would have been. */
  lemma RegenThenBeat(c: BattleRules.Core, now: int)
    requires BeatDue(c, now)
    ensures var regen := BattleRules.TickDodgeRegen(c, now);
      var step := BattleRules.BeatStep(regen.core, now);
      && AllBackground(regen.events)
      && BattleRules.Update(c, now) == BattleRules.Out(step.core, regen.events + step.events)
      && regen.core == c.(player := regen.core.player, nextDodgeRegenTime := regen.core.nextDodgeRegenTime)
  {
    var regen := BattleRules.TickDodgeRegen(c, now);
    BattleRules.RhythmStepCases(regen.core, now);
  }

  /** The notifications of the last beat of a cycle: background ones, the beat, the battle state, the Decision phase. */
  predicate LastBeatEvents(e: seq<Event>, g: seq<Event>, b: int, st: BattleState)
  {
    && AllBackground(g)
    && e == g + [OnBeat(b)] + BattleRules.StateChange(st, BattleState.Decision) + [RoundPhaseChanged(RoundPhase.Decision)]
  }

  /** The notifications of an earlier beat: background ones, then the beat. */
  predicate BeatEvents(e: seq<Event>, g: seq<Event>, b: int)
  {
    AllBackground(g) && e == g + [OnBeat(b)]
  }

  /** The notifications of a window opening: background ones, then DecisionStart. */
  predicate OpeningEvents(e: seq<Event>, g: seq<Event>)
  {
    AllBackground(g) && e == g + [DecisionStart]
  }

  /** The last beat of a cycle: regeneration, the beat, then the move into Decision with a fresh lock and window. */
  lemma UpdateLastBeatShape(c: BattleRules.Core, now: int)
    requires BeatPhase(c) && BeatDue(c, now) && c.beatCount + 1 >= c.config.beatsBeforeDecision
    ensures var r := BattleRules.Update(c, now);
      && LastBeatEvents(r.events, BattleRules.TickDodgeRegen(c, now).events, c.beatCount + 1, c.battleState)
      && BeatPhase(r.core)
      && !r.core.selectionLocked && !r.core.decisionStarted
  {
    RegenThenBeat(c, now);
    var regen := BattleRules.TickDodgeRegen(c, now);
    var b := c.beatCount + 1;
    var sc := BattleRules.StateChange(c.battleState, BattleState.Decision);
    LastBeatStep(regen.core, now);
    assert regen.events + ([OnBeat(b)] + sc + [RoundPhaseChanged(RoundPhase.Decision)])
        == regen.events + [OnBeat(b)] + sc + [RoundPhaseChanged(RoundPhase.Decision)];
  }

  /** The beat step of a last beat: the beat, the battle state, then the Decision phase. */
  lemma LastBeatStep(c: BattleRules.Core, now: int)
    requires c.rhythmState == Beating && c.roundPhase == RoundPhase.Beat && now >= c.nextBeatTime
    requires c.beatCount + 1 >= c.config.beatsBeforeDecision
    ensures var r := BattleRules.BeatStep(c, now);
      && r.events == [OnBeat(c.beatCount + 1)] + BattleRules.StateChange(c.battleState, BattleState.Decision)
                     + [RoundPhaseChanged(RoundPhase.Decision)]
      && BeatPhase(r.core) && !r.core.selectionLocked && !r.core.decisionStarted
  {
    var entered := BattleRules.EnterDecision(c.(beatCount := c.beatCount + 1), now);
    assert entered.events == BattleRules.StateChange(c.battleState, BattleState.Decision)
                             + [RoundPhaseChanged(RoundPhase.Decision)];
  }

  /** A beat before the last one: regeneration and the beat, nothing else. */
  lemma UpdateBeatShape(c: BattleRules.Core, now: int)
    requires BeatPhase(c) && BeatDue(c, now) && c.beatCount + 1 < c.config.beatsBeforeDecision
    ensures var r := BattleRules.Update(c, now);
      && BeatEvents(r.events, BattleRules.TickDodgeRegen(c, now).events, c.beatCount + 1)
      && BeatPhase(r.core)
      && r.core.selectionLocked == c.selectionLocked && r.core.decisionStarted == c.decisionStarted
  {
    RegenThenBeat(c, now);
  }

  /** A due window: regeneration, then DecisionStart, and the window-start flag is set. */
  lemma UpdateOpenShape(c: BattleRules.Core, now: int)
    requires WindowDue(c, now)
    ensures var r := BattleRules.Update(c, now);
      && OpeningEvents(r.events, BattleRules.TickDodgeRegen(c, now).events)
      && BeatPhase(r.core) && r.core.rhythmState == RhythmState.Decision
      && r.core.decisionStarted && r.core.selectionLocked == c.selectionLocked
  {
    BattleRules.RegenKeepsRhythm(c, now);
    var c1 := BattleRules.TickDodgeRegen(c, now).core;
    BattleRules.RhythmStepCases(c1, now);
  }

  /** The closing of a window announces only background notifications. */
  lemma BackgroundClose(c: BattleRules.Core, now: int)
    ensures AllBackground(BattleRules.CloseDecision(c, now).events)
  {
    BackgroundPhaseChange(c.roundPhase, Result);
    BackgroundConcat(BattleRules.ApplyDecisionResult(c).events, BattleRules.PhaseChange(c.roundPhase, Result));
    BackgroundConcat(BattleRules.ApplyDecisionResult(c).events + BattleRules.PhaseChange(c.roundPhase, Result),
                     [DecisionEnd, RoundPhaseChanged(LoopDelay)]);
  }

  /** Closing a window announces only background news and keeps the lock and the window-start flag. */
  lemma QuietClose(c: BattleRules.Core, now: int)
    ensures var r := BattleRules.CloseDecision(c, now);
      && AllBackground(r.events)
      && BeatPhase(r.core)
      && r.core.selectionLocked == c.selectionLocked && r.core.decisionStarted == c.decisionStarted
  {
    BackgroundClose(c, now);
    var gained := BattleRules.ApplyDecisionResult(c);
    assert gained.core.selectionLocked == c.selectionLocked && gained.core.decisionStarted == c.decisionStarted;
  }

  /** A rhythm step with no beat and no opening due announces only background news. */
  lemma QuietStep(c: BattleRules.Core, now: int)
    requires BeatPhase(c) && !BeatDue(c, now) && !WindowDue(c, now)
    ensures var r := BattleRules.RhythmStep(c, now);
      && AllBackground(r.events)
      && BeatPhase(r.core)
      && r.core.selectionLocked == c.selectionLocked && r.core.decisionStarted == c.decisionStarted
      && (FreshCycle(c) ==> FreshCycle(r.core))
  {
    BattleRules.RhythmStepCases(c, now);
    if c.rhythmState == RhythmState.Decision && c.decisionStarted && now >= c.decisionEndTime {
      QuietClose(c, now);
    } else if c.rhythmState == Idle && now >= c.nextBeatTime {
      BackgroundPhaseChange(c.roundPhase, RoundPhase.Beat);
    }
  }

  /** Any other frame announces only background notifications and leaves the lock and the window-start flag alone. */
  lemma UpdateQuietShape(c: BattleRules.Core, now: int)
    requires BeatPhase(c) && !BeatDue(c, now) && !WindowDue(c, now)
    ensures var r := BattleRules.Update(c, now);
      && AllBackground(r.events)
      && BeatPhase(r.core)
      && r.core.selectionLocked == c.selectionLocked && r.core.decisionStarted == c.decisionStarted
      && (FreshCycle(c) ==> FreshCycle(r.core))
  {
    BattleRules.RegenKeepsRhythm(c, now);
    var regen := BattleRules.TickDodgeRegen(c, now);
    QuietStep(regen.core, now);
    BackgroundConcat(regen.events, BattleRules.RhythmStep(regen.core, now).events);
  }

  /** A last beat clears whatever waited: it carries the Decision phase, after the cycle's first beat when that was still due. */
  lemma LastBeatClears(w: Watch, p: Progress, e: seq<Event>, g: seq<Event>, b: int, st: BattleState)
    requires LastBeatEvents(e, g, b, st) && Orderly(w, p)
    requires w == Openings && p == Awaiting(0) ==> b == 1
    ensures Replay(w, p, e) == Clear
  {
    var sc := BattleRules.StateChange(st, BattleState.Decision);
    BackgroundStateChange(st, BattleState.Decision);
    BackgroundQuiet(g);
    BackgroundQuiet(sc);
    QuietAround(w, p, g, OnBeat(b), sc, RoundPhaseChanged(RoundPhase.Decision));
  }

  // ---------------------------------------------------------------------------
  // Single admission: one accepted action per entry into Decision

  /**
    The admission invariant: beat cycles run in the Beat phase, no accepted
    action came before the Decision phase was entered again, and while an
    accepted action waits for that entry the selection is locked.
  */
  predicate AdmissionInv(c: BattleRules.Core, evs: seq<Event>)
  {
    AdmissionHolds(c, ProgressOf(Admissions, evs))
  }

  /** The admission invariant, on the progress of the trace. */
  predicate AdmissionHolds(c: BattleRules.Core, p: Progress)
  {
    && BeatPhase(c)
    && Orderly(Admissions, p)
    && (p.Awaiting? ==> c.selectionLocked)
  }

  /** One frame keeps the admission invariant: it announces no action, and a last beat enters Decision. */
  lemma FrameKeepsAdmission(c: BattleRules.Core, p: Progress, now: int)
    requires AdmissionHolds(c, p)
    ensures var r := BattleRules.Update(c, now); AdmissionHolds(r.core, Replay(Admissions, p, r.events))
  {
    var r := BattleRules.Update(c, now);
    var g := BattleRules.TickDodgeRegen(c, now).events;
    if BeatDue(c, now) && c.beatCount + 1 >= c.config.beatsBeforeDecision {
      UpdateLastBeatShape(c, now);
      LastBeatClears(Admissions, p, r.events, g, c.beatCount + 1, c.battleState);
    } else if BeatDue(c, now) {
      UpdateBeatShape(c, now);
      BackgroundQuiet(g);
      QuietThen(Admissions, p, g, OnBeat(c.beatCount + 1));
    } else if WindowDue(c, now) {
      UpdateOpenShape(c, now);
      BackgroundQuiet(g);
      QuietThen(Admissions, p, g, DecisionStart);
    } else {
      UpdateQuietShape(c, now);
      BackgroundQuiet(r.events);
      ReplayQuiet(Admissions, p, r.events);
    }
  }

  lemma UpdateKeepsAdmission(c: BattleRules.Core, evs: seq<Event>, now: int)
    requires AdmissionInv(c, evs)
    ensures var r := BattleRules.Update(c, now); AdmissionInv(r.core, evs + r.events)
  {
    var r := BattleRules.Update(c, now);
    ReplayAppend(Admissions, Clear, evs, r.events);
    FrameKeepsAdmission(c, ProgressOf(Admissions, evs), now);
  }

  lemma SelectKeepsAdmission(c: BattleRules.Core, evs: seq<Event>, index: int)
    requires AdmissionInv(c, evs)
    ensures var r := BattleRules.TrySelectPlayerSkill(c, index); AdmissionInv(r.core, evs + r.events)
  {
    var r := BattleRules.TrySelectPlayerSkill(c, index);
    var p := ProgressOf(Admissions, evs);
    ReplayAppend(Admissions, Clear, evs, r.events);
    if r.ok {
      var s := BattleRules.SkillAt(c, index).value;
      var pay := BattleRules.Pay(c, s);
      assert AllBackground(pay.events);
      BackgroundQuiet(pay.events);
      QuietThen(Admissions, p, pay.events, DecisionActionChanged(s.name));
    } else {
      assert AllBackground(r.events);
      BackgroundQuiet(r.events);
      ReplayQuiet(Admissions, p, r.events);
    }
  }

  lemma ExecKeepsAdmission(c: BattleRules.Core, evs: seq<Event>, cmd: Command)
    requires AdmissionInv(c, evs)
    ensures var o := Exec(c, cmd); AdmissionInv(o.core, evs + o.events)
  {
    match cmd
    case Update(now) => UpdateKeepsAdmission(c, evs, now);
    case TrySelectPlayerSkill(index) => SelectKeepsAdmission(c, evs, index);
    case _ =>
      var o := Exec(c, cmd);
      ExecBookkeeping(c, cmd);
      BackgroundQuiet(o.events);
      ReplayAppend(Admissions, Clear, evs, o.events);
      ReplayQuiet(Admissions, ProgressOf(Admissions, evs), o.events);
  }

  lemma RunKeepsAdmission(c: BattleRules.Core, evs: seq<Event>, script: seq<Command>)
    requires AdmissionInv(c, evs)
    ensures AdmissionInv(Run(c, script).core, evs + Run(c, script).events)
  {
    forall c0: BattleRules.Core, e0: seq<Event>, cmd: Command | AdmissionInv(c0, e0)
      ensures AdmissionInv(Exec(c0, cmd).core, e0 + Exec(c0, cmd).events)
    {
      ExecKeepsAdmission(c0, e0, cmd);
    }
    FoldPreserves((c0, e0) => AdmissionInv(c0, e0), Exec, c, evs, script);
  }

  /**
    From a fresh manager, whatever the calls: between any two accepted actions
    (DecisionActionChanged) the round enters the Decision phase again.
  */
  lemma SingleAdmission(player: Option<Info>, enemy: Option<Info>, script: seq<Command>)
    ensures var evs := Run(BattleRules.Initial(player, enemy), script).events;
      forall i, j :: 0 <= i < j < |evs| && evs[i].DecisionActionChanged? && evs[j].DecisionActionChanged? ==>
        exists k :: i < k < j && evs[k] == RoundPhaseChanged(RoundPhase.Decision)
  {
    var evs := Run(BattleRules.Initial(player, enemy), script).events;
    FreshAdmissions(player, enemy, script);
    forall i, j | 0 <= i < j < |evs| && evs[i].DecisionActionChanged? && evs[j].DecisionActionChanged?
      ensures exists k :: i < k < j && evs[k] == RoundPhaseChanged(RoundPhase.Decision)
    {
      DecisionBetween(evs, i, j);
    }
  }

  /** The trace of every script from a fresh manager keeps its accepted actions in order. */
  lemma FreshAdmissions(player: Option<Info>, enemy: Option<Info>, script: seq<Command>)
    ensures ProgressOf(Admissions, Run(BattleRules.Initial(player, enemy), script).events) != Broken
  {
    var c := BattleRules.Initial(player, enemy);
    assert AdmissionInv(c, []);
    RunKeepsAdmission(c, [], script);
    assert [] + Run(c, script).events == Run(c, script).events;
  }

  /** The milestone between two accepted actions, read plainly. */
  lemma DecisionBetween(evs: seq<Event>, i: int, j: int)
    requires ProgressOf(Admissions, evs) != Broken
    requires 0 <= i < j < |evs| && evs[i].DecisionActionChanged? && evs[j].DecisionActionChanged?
    ensures exists k :: i < k < j && evs[k] == RoundPhaseChanged(RoundPhase.Decision)
  {
    MilestonesBetween(Admissions, evs, i, j);
    var ms := Milestones(Admissions);
    var ks :| InOrder(evs, i, j, ms, ks);
    assert evs[ks[0]] == ms[0];
  }

  // ---------------------------------------------------------------------------
  // A window opens once per beat cycle

  /**
    The window invariant: beat cycles run in the Beat phase; no opening came
    before a beat cycle had started and reached the Decision phase since the
    last one; while an opening waits, the window-start flag is set; and while
    it waits for the cycle's first beat, a running cycle has not counted any.
  */
  predicate WindowInv(c: BattleRules.Core, evs: seq<Event>)
  {
    WindowHolds(c, ProgressOf(Openings, evs))
  }

  /** The window invariant, on the progress of the trace. */
  predicate WindowHolds(c: BattleRules.Core, p: Progress)
  {
    && BeatPhase(c)
    && Orderly(Openings, p)
    && (p.Awaiting? ==> c.decisionStarted)
    && (p == Awaiting(0) ==> FreshCycle(c))
  }

  /** A beat before the last one: the cycle's first beat is announced when the invariant says it is due. */
  lemma BeatKeepsWindow(c: BattleRules.Core, p: Progress, now: int)
    requires WindowHolds(c, p) && BeatDue(c, now) && c.beatCount + 1 < c.config.beatsBeforeDecision
    ensures var r := BattleRules.Update(c, now); WindowHolds(r.core, Replay(Openings, p, r.events))
  {
    UpdateBeatShape(c, now);
    var g := BattleRules.TickDodgeRegen(c, now).events;
    BackgroundQuiet(g);
    QuietThen(Openings, p, g, OnBeat(c.beatCount + 1));
    if p == Awaiting(0) {
      assert c.beatCount == 0;
    }
  }

  /** An opening comes only when nothing waits, and then waits itself with the window started. */
  lemma OpenKeepsWindow(c: BattleRules.Core, p: Progress, now: int)
    requires WindowHolds(c, p) && !BeatDue(c, now) && WindowDue(c, now)
    ensures var r := BattleRules.Update(c, now); WindowHolds(r.core, Replay(Openings, p, r.events))
  {
    UpdateOpenShape(c, now);
    var g := BattleRules.TickDodgeRegen(c, now).events;
    BackgroundQuiet(g);
    QuietThen(Openings, p, g, DecisionStart);
    assert p.Clear?;
  }

  /** A last beat clears any waiting opening. */
  lemma LastBeatKeepsWindow(c: BattleRules.Core, p: Progress, now: int)
    requires WindowHolds(c, p) && BeatDue(c, now) && c.beatCount + 1 >= c.config.beatsBeforeDecision
    ensures var r := BattleRules.Update(c, now); WindowHolds(r.core, Replay(Openings, p, r.events))
  {
    UpdateLastBeatShape(c, now);
    LastBeatClears(Openings, p, BattleRules.Update(c, now).events, BattleRules.TickDodgeRegen(c, now).events,
                   c.beatCount + 1, c.battleState);
  }

  /** Any other frame leaves the progress and what the invariant reads alone. */
  lemma QuietKeepsWindow(c: BattleRules.Core, p: Progress, now: int)
    requires WindowHolds(c, p) && !BeatDue(c, now) && !WindowDue(c, now)
    ensures var r := BattleRules.Update(c, now); WindowHolds(r.core, Replay(Openings, p, r.events))
  {
    UpdateQuietShape(c, now);
    var r := BattleRules.Update(c, now);
    BackgroundQuiet(r.events);
    ReplayQuiet(Openings, p, r.events);
  }

  /** One frame keeps the window invariant, whatever it announces. */
  lemma FrameKeepsWindow(c: BattleRules.Core, p: Progress, now: int)
    requires WindowHolds(c, p)
    ensures var r := BattleRules.Update(c, now); WindowHolds(r.core, Replay(Openings, p, r.events))
  {
    if BeatDue(c, now) && c.beatCount + 1 >= c.config.beatsBeforeDecision {
      LastBeatKeepsWindow(c, p, now);
    } else if BeatDue(c, now) {
      BeatKeepsWindow(c, p, now);
    } else if WindowDue(c, now) {
      OpenKeepsWindow(c, p, now);
    } else {
      QuietKeepsWindow(c, p, now);
    }
  }

  lemma UpdateKeepsWindow(c: BattleRules.Core, evs: seq<Event>, now: int)
    requires WindowInv(c, evs)
    ensures var r := BattleRules.Update(c, now); WindowInv(r.core, evs + r.events)
  {
    var r := BattleRules.Update(c, now);
    ReplayAppend(Openings, Clear, evs, r.events);
    FrameKeepsWindow(c, ProgressOf(Openings, evs), now);
  }

  lemma SelectKeepsWindow(c: BattleRules.Core, evs: seq<Event>, index: int)
    requires WindowInv(c, evs)
    ensures var r := BattleRules.TrySelectPlayerSkill(c, index); WindowInv(r.core, evs + r.events)
  {
    var r := BattleRules.TrySelectPlayerSkill(c, index);
    var p := ProgressOf(Openings, evs);
    ReplayAppend(Openings, Clear, evs, r.events);
    if r.ok {
      var s := BattleRules.SkillAt(c, index).value;
      var pay := BattleRules.Pay(c, s);
      assert AllBackground(pay.events);
      BackgroundQuiet(pay.events);
      QuietThen(Openings, p, pay.events, DecisionActionChanged(s.name));
    } else {
      assert AllBackground(r.events);
      BackgroundQuiet(r.events);
      ReplayQuiet(Openings, p, r.events);
    }
  }

  lemma ExecKeepsWindow(c: BattleRules.Core, evs: seq<Event>, cmd: Command)
    requires WindowInv(c, evs)
    ensures var o := Exec(c, cmd); WindowInv(o.core, evs + o.events)
  {
    match cmd
    case Update(now) => UpdateKeepsWindow(c, evs, now);
    case TrySelectPlayerSkill(index) => SelectKeepsWindow(c, evs, index);
    case _ =>
      var o := Exec(c, cmd);
      ExecBookkeeping(c, cmd);
      BackgroundQuiet(o.events);
      ReplayAppend(Openings, Clear, evs, o.events);
      ReplayQuiet(Openings, ProgressOf(Openings, evs), o.events);
  }

  lemma RunKeepsWindow(c: BattleRules.Core, evs: seq<Event>, script: seq<Command>)
    requires WindowInv(c, evs)
    ensures WindowInv(Run(c, script).core, evs + Run(c, script).events)
  {
    forall c0: BattleRules.Core, e0: seq<Event>, cmd: Command | WindowInv(c0, e0)
      ensures WindowInv(Exec(c0, cmd).core, e0 + Exec(c0, cmd).events)
    {
      ExecKeepsWindow(c0, e0, cmd);
    }
    FoldPreserves((c0, e0) => WindowInv(c0, e0), Exec, c, evs, script);
  }

  /**
    From a fresh manager, whatever the calls: between any two DecisionStart
    notifications a whole beat cycle runs, its first beat OnBeat(1) and, after
    it, the entry into the Decision phase.
  */
  lemma SingleOpening(player: Option<Info>, enemy: Option<Info>, script: seq<Command>)
    ensures var evs := Run(BattleRules.Initial(player, enemy), script).events;
      forall i, j :: 0 <= i < j < |evs| && evs[i] == DecisionStart && evs[j] == DecisionStart ==>
        exists k1, k2 :: i < k1 < k2 < j && evs[k1] == OnBeat(1) && evs[k2] == RoundPhaseChanged(RoundPhase.Decision)
  {
    var evs := Run(BattleRules.Initial(player, enemy), script).events;
    FreshOpenings(player, enemy, script);
    forall i, j | 0 <= i < j < |evs| && evs[i] == DecisionStart && evs[j] == DecisionStart
      ensures exists k1, k2 :: i < k1 < k2 < j && evs[k1] == OnBeat(1)
                               && evs[k2] == RoundPhaseChanged(RoundPhase.Decision)
    {
      CycleBetween(evs, i, j);
    }
  }

  /** The trace of every script from a fresh manager keeps its openings in order. */
  lemma FreshOpenings(player: Option<Info>, enemy: Option<Info>, script: seq<Command>)
    ensures ProgressOf(Openings, Run(BattleRules.Initial(player, enemy), script).events) != Broken
  {
    var c := BattleRules.Initial(player, enemy);
    assert WindowInv(c, []);
    RunKeepsWindow(c, [], script);
    assert [] + Run(c, script).events == Run(c, script).events;
  }

  /** The milestones between two openings, read plainly. */
  lemma CycleBetween(evs: seq<Event>, i: int, j: int)
    requires ProgressOf(Openings, evs) != Broken
    requires 0 <= i < j < |evs| && evs[i] == DecisionStart && evs[j] == DecisionStart
    ensures exists k1, k2 :: i < k1 < k2 < j && evs[k1] == OnBeat(1) && evs[k2] == RoundPhaseChanged(RoundPhase.Decision)
  {
    MilestonesBetween(Openings, evs, i, j);
    var ms := Milestones(Openings);
    var ks :| InOrder(evs, i, j, ms, ks);
    assert ms[0] == OnBeat(1) && ms[1] == RoundPhaseChanged(RoundPhase.Decision);
    assert ks[0] < ks[1];
    assert evs[ks[0]] == OnBeat(1) && evs[ks[1]] == RoundPhaseChanged(RoundPhase.Decision);
  }
}
