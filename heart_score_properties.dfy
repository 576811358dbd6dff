/**
 * Properties of the tracker over several calls: what a run of fails does to
 * the counter and which collaborator calls it makes, that completion takes
 * effect once per play-through and fixes the stars at the hearts left at
 * that moment, and that the save/restore pair gives back the state.
 * The scenario methods at the end drive the class itself.
 */
module HeartScoreProperties {
  import opened HeartScore

  function Min(a: int, b: int): int
  {
    if a < b then a else b
  }

  /** `n` copies of one effect. */
  function Repeat(e: Effect, n: nat): (r: seq<Effect>)
    ensures |r| == n && forall i :: 0 <= i < n ==> r[i] == e
  {
    seq(n, _ => e)
  }

  /** How many of the given waits are false, i.e. ask for an immediate restart. */
  function CountFalse(waits: seq<bool>): nat
  {
    if waits == [] then 0 else (if waits[0] then 0 else 1) + CountFalse(waits[1..])
  }

  /**
   * Of `n` consecutive fails starting from `failCount`, how many end below
   * the budget (only those can ask the zone to restart).
   */
  function CallsBelowBudget(failCount: int, n: nat): nat
  {
    Min(n, Clamp(MaxFailAttempts - 1 - failCount))
  }

  /** OnChallengeFail once per entry of `waits`, every fail reported by `zone`. */
  function FailAll(cfg: Config, t: Tracker, zone: ZoneId, waits: seq<bool>): Tracker
    decreases |waits|
  {
    if waits == [] then t
    else FailAll(cfg, ChallengeFail(cfg, t, zone, waits[0]), zone, waits[1..])
  }

  /** True when a run of `n` fails from `t` makes the fail that first reaches the budget. */
  predicate ReachesBudget(t: Tracker, n: nat)
  {
    !t.stageFailed && n > 0 && t.failCount + n >= MaxFailAttempts
  }

  /**
   * A run of fails: the counter goes up by exactly the number of fails (no
   * cap), and the stage is failed exactly when the budget has been reached.
   */
  lemma {:induction false} FailAllCounter(cfg: Config, t: Tracker, zone: ZoneId, waits: seq<bool>)
    ensures FailAll(cfg, t, zone, waits).failCount == t.failCount + |waits|
    ensures FailAll(cfg, t, zone, waits).stageFailed ==
      (t.stageFailed || (|waits| > 0 && t.failCount + |waits| >= MaxFailAttempts))
    decreases |waits|
  {
    if waits != [] {
      FailAllCounter(cfg, ChallengeFail(cfg, t, zone, waits[0]), zone, waits[1..]);
    }
  }

  /** What a run of fails appends to the effects log. */
  function RunEffects(t: Tracker, zone: ZoneId, waits: seq<bool>): seq<Effect>
  {
    Repeat(ZoneRestartRequested(zone), CountFalse(waits[..CallsBelowBudget(t.failCount, |waits|)]))
    + (if ReachesBudget(t, |waits|) then [FailPanelRoutineStarted] else [])
  }

  /**
   * The collaborator calls of a run of fails: the zone is asked to restart
   * once for every fail below the budget whose caller did not wait, and the
   * fail panel routine starts once, after those, on the fail that reaches
   * the budget, unless the stage had already failed (see RunEffects).
   */
  lemma {:induction false} FailAllEffects(cfg: Config, t: Tracker, zone: ZoneId, waits: seq<bool>)
    ensures FailAll(cfg, t, zone, waits).effects == t.effects + RunEffects(t, zone, waits)
    decreases |waits|, 1
  {
    if waits == [] {
      assert RunEffects(t, zone, waits) == [];
    } else if t.failCount + 1 < MaxFailAttempts {
      FailBelowBudgetEffects(cfg, t, zone, waits);
    } else {
      FailAtBudgetEffects(cfg, t, zone, waits);
    }
  }

  /** The induction step of FailAllEffects when the first fail stays below the budget. */
  lemma {:induction false} FailBelowBudgetEffects(cfg: Config, t: Tracker, zone: ZoneId, waits: seq<bool>)
    requires waits != [] && t.failCount + 1 < MaxFailAttempts
    ensures FailAll(cfg, t, zone, waits).effects == t.effects + RunEffects(t, zone, waits)
    decreases |waits|, 0
  {
    var w, rest := waits[0], waits[1..];
    var t1 := ChallengeFail(cfg, t, zone, w);
    var z := ZoneRestartRequested(zone);
    FailAllEffects(cfg, t1, zone, rest);
    var k := CallsBelowBudget(t.failCount, |waits|);
    var k1 := CallsBelowBudget(t1.failCount, |rest|);
    assert k == k1 + 1;
    assert ReachesBudget(t1, |rest|) == ReachesBudget(t, |waits|);
    assert waits[..k] == [w] + rest[..k1];
    var m := CountFalse(rest[..k1]);
    assert CountFalse(waits[..k]) == (if w then 0 else 1) + m;
    var panel := if ReachesBudget(t, |waits|) then [FailPanelRoutineStarted] else [];
    assert RunEffects(t1, zone, rest) == Repeat(z, m) + panel;
    if w {
      assert t1.effects == t.effects;
      assert RunEffects(t, zone, waits) == Repeat(z, m) + panel;
    } else {
      assert t1.effects == t.effects + [z];
      assert [z] + Repeat(z, m) == Repeat(z, m + 1);
      assert RunEffects(t, zone, waits) == [z] + Repeat(z, m) + panel;
    }
  }

  /** The induction step of FailAllEffects when the first fail reaches the budget. */
  lemma {:induction false} FailAtBudgetEffects(cfg: Config, t: Tracker, zone: ZoneId, waits: seq<bool>)
    requires waits != [] && t.failCount + 1 >= MaxFailAttempts
    ensures FailAll(cfg, t, zone, waits).effects == t.effects + RunEffects(t, zone, waits)
    decreases |waits|, 0
  {
    var t1 := ChallengeFail(cfg, t, zone, waits[0]);
    FailAllEffects(cfg, t1, zone, waits[1..]);
    assert CallsBelowBudget(t.failCount, |waits|) == 0;
    assert CallsBelowBudget(t1.failCount, |waits[1..]|) == 0;
    assert Repeat(ZoneRestartRequested(zone), 0) == [];
    assert RunEffects(t1, zone, waits[1..]) == [];
    assert t1.effects == t.effects + (if ReachesBudget(t, |waits|) then [FailPanelRoutineStarted] else []);
  }

  /** The events of one play-through, between two scene loads. */
  datatype Event = Failed(zone: ZoneId, waitForPlayerRetry: bool) | CompletionRequested

  function Step(cfg: Config, t: Tracker, e: Event): Tracker
  {
    match e
    case Failed(zone, wait) => ChallengeFail(cfg, t, zone, wait)
    case CompletionRequested => Completion(cfg, t)
  }

  function Play(cfg: Config, t: Tracker, events: seq<Event>): Tracker
    decreases |events|
  {
    if events == [] then t else Play(cfg, Step(cfg, t, events[0]), events[1..])
  }

  function FailsIn(events: seq<Event>): nat
  {
    if events == [] then 0 else (if events[0].Failed? then 1 else 0) + FailsIn(events[1..])
  }

  /**
   * Once completion has been shown, no later fail or completion request
   * changes the stars, the progress store, the completion flags or the
   * complete panel; fails still count.
   */
  lemma {:induction false} CompletionIsFinal(cfg: Config, t: Tracker, events: seq<Event>)
    requires t.shownCompletion
    ensures Play(cfg, t, events).shownCompletion
    ensures Play(cfg, t, events).gameCompleted == t.gameCompleted
    ensures Play(cfg, t, events).stars == t.stars
    ensures Play(cfg, t, events).starsPerStage == t.starsPerStage
    ensures Play(cfg, t, events).completePanelVisible == t.completePanelVisible
    ensures Play(cfg, t, events).failCount == t.failCount + FailsIn(events)
    decreases |events|
  {
    if events != [] {
      CompletionIsFinal(cfg, Step(cfg, t, events[0]), events[1..]);
    }
  }

  /**
   * The first completion request fixes the stars at the hearts left after
   * the `k` fails before it, stores them for the active scene and clears the
   * counter; the rest of the play-through changes neither.
   */
  lemma {:induction false} StarsAtFirstCompletion(cfg: Config, t: Tracker, events: seq<Event>, k: nat)
    requires cfg.hasCompletePanel && !t.shownCompletion
    requires k < |events| && events[k].CompletionRequested?
    requires forall j :: 0 <= j < k ==> events[j].Failed?
    ensures Play(cfg, t, events).shownCompletion && Play(cfg, t, events).gameCompleted
    ensures Play(cfg, t, events).stars == RemainingAttempts(t.failCount + k)
    ensures Play(cfg, t, events).starsPerStage ==
      t.starsPerStage[cfg.activeScene := RemainingAttempts(t.failCount + k)]
    ensures Play(cfg, t, events).failCount == FailsIn(events[k + 1..])
    decreases k
  {
    var t1 := Step(cfg, t, events[0]);
    if k == 0 {
      CompletionIsFinal(cfg, t1, events[1..]);
    } else {
      assert events[1..][k - 1] == events[k];
      assert events[1..][k..] == events[k + 1..];
      StarsAtFirstCompletion(cfg, t1, events[1..], k - 1);
    }
  }

  /**
   * Four fails before completing leave -1 stars: neither the counter nor the
   * star count is capped at zero.
   */
  lemma StarsGoNegative(cfg: Config, store: map<string, int>)
    requires cfg.hasCompletePanel
    ensures Play(cfg, Initial(store, false), [Failed(0, true), Failed(0, true), Failed(0, true),
                                             Failed(0, true), CompletionRequested]).stars == -1
  {
  }

  /**
   * During a play-through the complete panel keeps agreeing with the
   * completion flag, so saving and restoring gives the state back.
   */
  lemma {:induction false} PlayKeepsPanelAgreement(cfg: Config, t: Tracker, events: seq<Event>)
    requires PanelAgrees(cfg, t)
    ensures PanelAgrees(cfg, Play(cfg, t, events))
    ensures Restore(cfg, Play(cfg, t, events), Snapshot(Play(cfg, t, events))) == Play(cfg, t, events)
    decreases |events|
  {
    if events != [] {
      PlayKeepsPanelAgreement(cfg, Step(cfg, t, events[0]), events[1..]);
    }
  }

  // ---------------------------------------------------------------------
  // Scenarios on the class
  // ---------------------------------------------------------------------

  /** Three fails in a row, none waiting for the retry button. */
  method ThreeFailsWithoutWaiting(zone: ZoneId) returns (effects: seq<Effect>, failed: bool, hearts: nat)
    ensures effects == [ZoneRestartRequested(zone), ZoneRestartRequested(zone), FailPanelRoutineStarted]
    ensures failed && hearts == 0
  {
    var m := new HeartScoreManager(Config(true, true, "Stage1", Some("Stage2")), map[], false, 3, 0);
    m.OnChallengeFail(zone, false);
    m.OnChallengeFail(zone, false);
    m.OnChallengeFail(zone, false);
    effects, failed, hearts := m.effects, m.isStageFailed, |m.heartIcons|;
  }

  /** A fail below the budget that waits for the retry button: one heart fewer, no restart. */
  method FailWaitingForRetry(zone: ZoneId) returns (effects: seq<Effect>, failed: bool, hearts: nat)
    ensures effects == [] && !failed && hearts == 2
  {
    var m := new HeartScoreManager(Config(true, true, "Stage1", None), map[], false, 0, 0);
    m.OnChallengeFail(zone, true);
    effects, failed, hearts := m.effects, m.isStageFailed, |m.heartIcons|;
  }

  /** One fail, then completion requested twice: the second request changes nothing. */
  method CompletionRequestedTwice() returns (first: Tracker, second: Tracker, stars: nat, hearts: nat)
    ensures first == second
    ensures first.stars == 2 && first.starsPerStage == map["Stage1" := 2] && first.failCount == 0
    ensures stars == 2 && hearts == 3
  {
    var m := new HeartScoreManager(Config(true, false, "Stage1", None), map[], false, 3, 0);
    m.OnChallengeFail(1, true);
    m.ShowGameCompletion();
    first := m.View();
    m.ShowGameCompletion();
    second := m.View();
    stars, hearts := |m.starIcons|, |m.heartIcons|;
  }

  /** A snapshot restored after a restart brings back the fail count but not a different star count. */
  method RestoreAfterRestart() returns (restored: Tracker)
    ensures restored.failCount == 1 && restored.shownCompletion && restored.gameCompleted
    ensures restored.stars == 2
    ensures restored.effects == [SceneLoadRequested("Stage1")]
  {
    var m := new HeartScoreManager(Config(true, false, "Stage1", None), map[], false, 0, 0);
    m.OnChallengeFail(1, true);
    m.ShowGameCompletion();
    m.RestartGame();
    m.RestoreGameState(GameState(true, 1, true, 3));
    restored := m.View();
  }

  /**
   * A fail, then a restart before the reload: the heart row still shows the
   * hearts of the old count. A completion, a restore and a further fail
   * before the reload all still run.
   */
  method FailAfterRestart() returns (staleHearts: nat, stars: int, hearts: nat, failCount: int)
    ensures staleHearts == 2 && stars == 3
    ensures hearts == 1 && failCount == 2
  {
    var m := new HeartScoreManager(Config(true, true, "Stage1", None), map[], false, 0, 0);
    m.OnChallengeFail(1, true);
    m.RestartGame();
    staleHearts := |m.heartIcons|;
    m.ShowGameCompletion();
    stars := m.starCount;
    m.RestoreGameState(GameState(true, 1, true, 0));
    m.OnChallengeFail(1, true);
    hearts, failCount := |m.heartIcons|, m.currentFailCount;
  }

  /** The next-stage button without a configured scene loads nothing. */
  method NextStageUnconfigured() returns (effects: seq<Effect>)
    ensures effects == []
  {
    var m := new HeartScoreManager(Config(true, true, "Stage1", Some("")), map[], false, 0, 0);
    m.OnNextStageButtonClicked();
    effects := m.effects;
  }
}
