/**
 * The fail / life / star / completion tracker of a stage (HeartScoreManager).
 *
 * The tracker counts failed challenge attempts against a fixed budget of
 * three, shows one heart icon per remaining attempt, turns the remaining
 * hearts into a star rating when the stage is completed, writes that rating
 * into the per-scene progress store, and saves/restores a small snapshot.
 *
 * The engine is abstracted as follows:
 *  - each icon container is a sequence of icons; an icon has the prefab it
 *    was instantiated from and a unique instance id, so "the old icons were
 *    destroyed and new ones instantiated" can be stated;
 *  - panels are "visible" booleans; an absent panel (a null reference in the
 *    scene) is a configuration flag;
 *  - calls that leave the tracker (restarting the challenge zone, starting
 *    the stage-fail panel routine, loading a scene) are appended to an
 *    effects log;
 *  - the process-wide progress singleton is a map from scene name to stars,
 *    owned by the tracker.
 */
module HeartScore {

  /** The attempt budget: a stage fails for good after this many fails. */
  const MaxFailAttempts: int := 3

  datatype Option<T> = None | Some(value: T)

  /** Number of icons a `for (i = 0; i < n; i++)` loop instantiates. */
  function Clamp(n: int): nat
  {
    if n < 0 then 0 else n
  }

  /** Attempts left for a given fail count; not capped, so it can be negative. */
  function RemainingAttempts(failCount: int): int
  {
    MaxFailAttempts - failCount
  }

  datatype Prefab = HeartIcon | StarIcon

  /** One instantiated icon: its prefab and its instance id. */
  datatype Icon = Icon(prefab: Prefab, id: nat)

  /** The challenge zone that reported a fail, by identity. */
  type ZoneId = nat

  /** Calls the tracker makes into collaborators, in order. */
  datatype Effect =
    | ZoneRestartRequested(zone: ZoneId)
    | FailPanelRoutineStarted
    | SceneLoadRequested(scene: string)

  /**
   * The scene wiring the tracker sees: whether the stage-complete and
   * stage-fail panels are assigned, the active scene's name and the
   * configured next scene (None stands for a null string).
   */
  datatype Config = Config(
    hasCompletePanel: bool,
    hasFailPanel: bool,
    activeScene: string,
    nextSceneName: Option<string>)

  /** The save-system snapshot. */
  datatype GameState = GameState(
    isCompleted: bool,
    currentFailCount: int,
    hasShownCompletion: bool,
    starCount: int)

  /** The abstract state of the tracker, without its icon containers. */
  datatype Tracker = Tracker(
    failCount: int,
    stageFailed: bool,
    shownCompletion: bool,
    gameCompleted: bool,
    stars: int,
    completePanelVisible: bool,
    failPanelVisible: bool,
    resultPanelVisible: bool,
    starsPerStage: map<string, int>,
    effects: seq<Effect>)

  // ---------------------------------------------------------------------
  // Specification of each operation on the abstract state
  // ---------------------------------------------------------------------

  /** The state right after Start: nothing failed, nothing completed, both panels hidden. */
  function Initial(starsPerStage: map<string, int>, resultPanelVisible: bool): Tracker
  {
    Tracker(0, false, false, false, 0, false, false, resultPanelVisible, starsPerStage, [])
  }

  /**
   * OnChallengeFail(zone, waitForPlayerRetry): one more fail is counted.
   * At or past the budget the stage is marked failed, the result overlay is
   * hidden and the fail-panel routine starts, the latter only the first time;
   * below the budget the zone is asked to restart unless the caller waits
   * for the player's retry.
   */
  function ChallengeFail(cfg: Config, t: Tracker, zone: ZoneId, waitForPlayerRetry: bool): (r: Tracker)
    ensures r.failCount == t.failCount + 1
    ensures r.stageFailed <==> t.stageFailed || r.failCount >= MaxFailAttempts
    ensures r.failCount >= MaxFailAttempts ==>
      r.effects == t.effects + (if t.stageFailed then [] else [FailPanelRoutineStarted])
    ensures r.failCount < MaxFailAttempts ==>
      r.effects == t.effects + (if waitForPlayerRetry then [] else [ZoneRestartRequested(zone)])
    ensures r.resultPanelVisible == (t.resultPanelVisible && r.failCount < MaxFailAttempts)
    ensures r.failPanelVisible ==
      (t.failPanelVisible || (r.failCount >= MaxFailAttempts && !t.stageFailed && cfg.hasFailPanel))
    ensures r.(failCount := t.failCount, stageFailed := t.stageFailed, effects := t.effects,
               resultPanelVisible := t.resultPanelVisible, failPanelVisible := t.failPanelVisible) == t
  {
    var count := t.failCount + 1;
    if count >= MaxFailAttempts then
      if t.stageFailed then
        t.(failCount := count, resultPanelVisible := false)
      else
        t.(failCount := count, resultPanelVisible := false, stageFailed := true,
           failPanelVisible := t.failPanelVisible || cfg.hasFailPanel,
           effects := t.effects + [FailPanelRoutineStarted])
    else if waitForPlayerRetry then
      t.(failCount := count)
    else
      t.(failCount := count, effects := t.effects + [ZoneRestartRequested(zone)])
  }

  /**
   * ShowGameCompletion(): effective only the first time and only when the
   * complete panel exists. The stars are the hearts left at that moment;
   * they are stored for the active scene and the fail count is cleared.
   */
  function Completion(cfg: Config, t: Tracker): (r: Tracker)
    ensures t.shownCompletion || !cfg.hasCompletePanel ==> r == t
    ensures !t.shownCompletion && cfg.hasCompletePanel ==>
      && r.shownCompletion && r.gameCompleted && r.completePanelVisible
      && r.stars == RemainingAttempts(t.failCount)
      && r.starsPerStage == t.starsPerStage[cfg.activeScene := r.stars]
      && r.failCount == 0
      && r.stageFailed == t.stageFailed && r.effects == t.effects
      && r.failPanelVisible == t.failPanelVisible && r.resultPanelVisible == t.resultPanelVisible
    ensures r.shownCompletion || !cfg.hasCompletePanel
  {
    if t.shownCompletion || !cfg.hasCompletePanel then
      t
    else
      var stars := RemainingAttempts(t.failCount);
      t.(shownCompletion := true, gameCompleted := true, completePanelVisible := true,
         stars := stars, starsPerStage := t.starsPerStage[cfg.activeScene := stars],
         failCount := 0)
  }

  /**
   * RestartGame(): clears the fail count and both completion flags, then
   * asks for the active scene to be reloaded. The star count and the
   * stage-failed flag are left as they are.
   */
  function Restart(cfg: Config, t: Tracker): (r: Tracker)
    ensures r.failCount == 0 && !r.shownCompletion && !r.gameCompleted
    ensures r.stars == t.stars && r.stageFailed == t.stageFailed
    ensures r.effects == t.effects + [SceneLoadRequested(cfg.activeScene)]
    ensures r.(failCount := t.failCount, shownCompletion := t.shownCompletion,
               gameCompleted := t.gameCompleted, effects := t.effects) == t
    ensures r.completePanelVisible == t.completePanelVisible && r.starsPerStage == t.starsPerStage
  {
    t.(failCount := 0, shownCompletion := false, gameCompleted := false,
       effects := t.effects + [SceneLoadRequested(cfg.activeScene)])
  }

  /** GetGameState(): the snapshot of the four tracked fields. */
  function Snapshot(t: Tracker): GameState
  {
    GameState(t.gameCompleted, t.failCount, t.shownCompletion, t.stars)
  }

  /**
   * RestoreGameState(state): copies the completion flag, the fail count and
   * the shown-completion flag from the snapshot and re-applies the complete
   * panel's visibility. The snapshot's star count is never read.
   */
  function Restore(cfg: Config, t: Tracker, state: GameState): (r: Tracker)
    ensures r.gameCompleted == state.isCompleted
    ensures r.failCount == state.currentFailCount
    ensures r.shownCompletion == state.hasShownCompletion
    ensures r.stars == t.stars
    ensures cfg.hasCompletePanel ==> r.completePanelVisible == state.hasShownCompletion
    ensures !cfg.hasCompletePanel ==> r.completePanelVisible == t.completePanelVisible
    ensures r.effects == t.effects && r.starsPerStage == t.starsPerStage
    ensures r.stageFailed == t.stageFailed
    ensures r.failPanelVisible == t.failPanelVisible && r.resultPanelVisible == t.resultPanelVisible
  {
    t.(gameCompleted := state.isCompleted,
       failCount := state.currentFailCount,
       shownCompletion := state.hasShownCompletion,
       completePanelVisible :=
         if cfg.hasCompletePanel then state.hasShownCompletion else t.completePanelVisible)
  }

  /** True when the scene name is null or empty. */
  predicate IsNullOrEmpty(name: Option<string>)
  {
    name.None? || name.value == ""
  }

  /** OnNextStageButtonClicked(): loads the next scene, or does nothing when none is configured. */
  function NextStage(cfg: Config, t: Tracker): (r: Tracker)
    ensures IsNullOrEmpty(cfg.nextSceneName) ==> r == t
    ensures !IsNullOrEmpty(cfg.nextSceneName) ==>
      r == t.(effects := t.effects + [SceneLoadRequested(cfg.nextSceneName.value)])
  {
    if IsNullOrEmpty(cfg.nextSceneName) then t
    else t.(effects := t.effects + [SceneLoadRequested(cfg.nextSceneName.value)])
  }

  /** The complete panel shows exactly when completion has been shown (if the panel exists). */
  predicate PanelAgrees(cfg: Config, t: Tracker)
  {
    cfg.hasCompletePanel ==> t.completePanelVisible == t.shownCompletion
  }

  // ---------------------------------------------------------------------
  // Icon containers
  // ---------------------------------------------------------------------

  /** A container that holds exactly max(0, n) icons, all of the given prefab. */
  ghost predicate IconRow(icons: seq<Icon>, prefab: Prefab, n: int)
  {
    |icons| == Clamp(n) && forall i :: 0 <= i < |icons| ==> icons[i].prefab == prefab
  }

  /** Every icon was instantiated at or after instance id `since`. */
  ghost predicate InstantiatedSince(icons: seq<Icon>, since: nat)
  {
    forall i :: 0 <= i < |icons| ==> icons[i].id >= since
  }

  /** Every icon was instantiated before instance id `next`. */
  ghost predicate InstantiatedBefore(icons: seq<Icon>, next: nat)
  {
    forall i :: 0 <= i < |icons| ==> icons[i].id < next
  }

  function IdsOf(icons: seq<Icon>): set<nat>
  {
    set i | 0 <= i < |icons| :: icons[i].id
  }

  class HeartScoreManager {
    const config: Config

    var currentFailCount: int
    var isStageFailed: bool
    var hasShownCompletion: bool
    var isGameCompleted: bool
    var starCount: int

    var completePanelVisible: bool
    var failPanelVisible: bool
    /** The pose result panel together with its black filter and result icon. */
    var resultPanelVisible: bool
    /** The process-wide progress store: stars earned per scene. */
    var starsPerStage: map<string, int>
    var effects: seq<Effect>

    var heartIcons: seq<Icon>
    var starIcons: seq<Icon>
    /** The instance id the next instantiated icon receives. */
    var nextIconId: nat
    /** Instance ids of every icon destroyed so far. */
    var destroyedIds: set<nat>

    function View(): Tracker
      reads this
    {
      Tracker(currentFailCount, isStageFailed, hasShownCompletion, isGameCompleted, starCount,
              completePanelVisible, failPanelVisible, resultPanelVisible, starsPerStage, effects)
    }

    /** Every icon in either container was instantiated by this tracker's counter. */
    ghost predicate IconsTracked()
      reads this
    {
      InstantiatedBefore(heartIcons, nextIconId) && InstantiatedBefore(starIcons, nextIconId)
    }

    /**
     * The heart container shows one heart per remaining attempt. This holds
     * after every heart refresh; RestartGame clears the fail count without a
     * refresh, so it does not hold again until the next refresh or reload.
     */
    ghost predicate Valid()
      reads this
    {
      IconsTracked() && IconRow(heartIcons, HeartIcon, RemainingAttempts(currentFailCount))
    }

    /**
     * Creation followed by Start. The containers hold the icons placed in
     * the scene (`placedHearts`, `placedStars` of them); Start hides both
     * panels and rebuilds the heart container, destroying the placed hearts
     * (instance ids 0 .. placedHearts - 1) before instantiating three new ones.
     */
    constructor (config: Config, starsPerStage: map<string, int>, resultPanelVisible: bool,
                 placedHearts: nat, placedStars: nat)
      ensures Valid()
      ensures this.config == config
      ensures View() == Initial(starsPerStage, resultPanelVisible)
      ensures IconRow(heartIcons, HeartIcon, MaxFailAttempts)
      ensures |starIcons| == placedStars
      ensures forall i :: 0 <= i < placedHearts ==> i in destroyedIds
      ensures InstantiatedSince(heartIcons, placedHearts + placedStars)
    {
      this.config := config;
      currentFailCount := 0;
      isStageFailed := false;
      hasShownCompletion := false;
      isGameCompleted := false;
      starCount := 0;
      completePanelVisible := false;
      failPanelVisible := false;
      this.resultPanelVisible := resultPanelVisible;
      this.starsPerStage := starsPerStage;
      effects := [];
      heartIcons := seq(placedHearts, i requires 0 <= i => Icon(HeartIcon, i));
      starIcons := seq(placedStars, i requires 0 <= i => Icon(StarIcon, placedHearts + i));
      nextIconId := placedHearts + placedStars;
      destroyedIds := {};
      new;
      ghost var placed := heartIcons;
      UpdateAttemptsRemainingUI();
      forall i | 0 <= i < placedHearts
        ensures i in destroyedIds
      {
        assert placed[i].id == i && placed[i].id in IdsOf(placed);
      }
    }

    /**
     * Destroys every icon of `container`, then instantiates `count` new icons
     * of `prefab` (none when `count` is not positive).
     */
    method Rebuild(container: seq<Icon>, prefab: Prefab, count: int) returns (icons: seq<Icon>)
      modifies this`nextIconId, this`destroyedIds
      ensures destroyedIds == old(destroyedIds) + IdsOf(container)
      ensures IconRow(icons, prefab, count)
      ensures InstantiatedSince(icons, old(nextIconId)) && InstantiatedBefore(icons, nextIconId)
      ensures nextIconId == old(nextIconId) + Clamp(count)
    {
      var k := 0;
      while k < |container|
        invariant 0 <= k <= |container|
        invariant nextIconId == old(nextIconId)
        invariant destroyedIds == old(destroyedIds) + IdsOf(container[..k])
      {
        destroyedIds := destroyedIds + {container[k].id};
        k := k + 1;
        assert IdsOf(container[..k]) == IdsOf(container[..k - 1]) + {container[k - 1].id} by {
          assert container[..k] == container[..k - 1] + [container[k - 1]];
        }
      }
      assert container[..k] == container;

      icons := [];
      var i := 0;
      while i < count
        invariant 0 <= i <= Clamp(count)
        invariant destroyedIds == old(destroyedIds) + IdsOf(container)
        invariant |icons| == i && nextIconId == old(nextIconId) + i
        invariant forall j :: 0 <= j < i ==> icons[j] == Icon(prefab, old(nextIconId) + j)
      {
        icons := icons + [Icon(prefab, nextIconId)];
        nextIconId := nextIconId + 1;
        i := i + 1;
      }
    }

    /** Rebuilds the heart container from the fail count. */
    method UpdateAttemptsRemainingUI()
      requires InstantiatedBefore(starIcons, nextIconId)
      modifies this`heartIcons, this`nextIconId, this`destroyedIds
      ensures Valid()
      ensures destroyedIds == old(destroyedIds) + IdsOf(old(heartIcons))
      ensures InstantiatedSince(heartIcons, old(nextIconId))
      ensures nextIconId == old(nextIconId) + Clamp(RemainingAttempts(currentFailCount))
    {
      heartIcons := Rebuild(heartIcons, HeartIcon, RemainingAttempts(currentFailCount));
    }

    /** Records a fail reported by `zone`; see ChallengeFail. */
    method OnChallengeFail(zone: ZoneId, waitForPlayerRetry: bool)
      requires IconsTracked()
      modifies this
      ensures Valid()
      ensures View() == ChallengeFail(config, old(View()), zone, waitForPlayerRetry)
      ensures destroyedIds == old(destroyedIds) + IdsOf(old(heartIcons))
      ensures InstantiatedSince(heartIcons, old(nextIconId))
      ensures starIcons == old(starIcons)
    {
      currentFailCount := currentFailCount + 1;
      UpdateAttemptsRemainingUI();
      if currentFailCount >= MaxFailAttempts {
        if resultPanelVisible {
          resultPanelVisible := false;
        }
        if !isStageFailed {
          isStageFailed := true;
          ShowStageFailPanel();
        }
      } else {
        if !waitForPlayerRetry {
          effects := effects + [ZoneRestartRequested(zone)];
        }
      }
    }

    /** Starts the stage-fail panel routine, which shows the panel when it exists. */
    method ShowStageFailPanel()
      modifies this`effects, this`failPanelVisible
      ensures effects == old(effects) + [FailPanelRoutineStarted]
      ensures failPanelVisible == (old(failPanelVisible) || config.hasFailPanel)
    {
      effects := effects + [FailPanelRoutineStarted];
      if config.hasFailPanel {
        failPanelVisible := true;
      }
    }

    /** The retry button's listener. */
    method OnPlayerPressedRestart()
      modifies this
      ensures old(IconsTracked()) ==> IconsTracked()
      ensures View() == Restart(config, old(View()))
      ensures heartIcons == old(heartIcons) && starIcons == old(starIcons)
      ensures nextIconId == old(nextIconId) && destroyedIds == old(destroyedIds)
    {
      RestartGame();
    }

    /** Clears the progress of this play-through and asks for the scene to be reloaded. */
    method RestartGame()
      modifies this
      ensures old(IconsTracked()) ==> IconsTracked()
      ensures View() == Restart(config, old(View()))
      ensures heartIcons == old(heartIcons) && starIcons == old(starIcons)
      ensures nextIconId == old(nextIconId) && destroyedIds == old(destroyedIds)
    {
      currentFailCount := 0;
      hasShownCompletion := false;
      isGameCompleted := false;
      effects := effects + [SceneLoadRequested(config.activeScene)];
    }

    /** Shows the completion once; see Completion. */
    method ShowGameCompletion()
      requires IconsTracked()
      modifies this
      ensures IconsTracked()
      ensures old(Valid()) || (!old(hasShownCompletion) && config.hasCompletePanel) ==> Valid()
      ensures View() == Completion(config, old(View()))
      ensures old(hasShownCompletion) || !config.hasCompletePanel ==> unchanged(this)
      ensures !old(hasShownCompletion) && config.hasCompletePanel ==>
        && IconRow(starIcons, StarIcon, starCount)
        && InstantiatedSince(starIcons, old(nextIconId))
        && InstantiatedSince(heartIcons, old(nextIconId))
        && destroyedIds == old(destroyedIds) + IdsOf(old(starIcons)) + IdsOf(old(heartIcons))
    {
      if !hasShownCompletion && config.hasCompletePanel {
        hasShownCompletion := true;
        isGameCompleted := true;
        completePanelVisible := true;
        ShowStarsBasedOnRemainingHearts();
        starsPerStage := starsPerStage[config.activeScene := starCount];
        currentFailCount := 0;
        UpdateAttemptsRemainingUI();
      }
    }

    /** Turns the remaining hearts into the star count and rebuilds the star container. */
    method ShowStarsBasedOnRemainingHearts()
      requires InstantiatedBefore(heartIcons, nextIconId)
      modifies this`starCount, this`starIcons, this`nextIconId, this`destroyedIds
      ensures starCount == RemainingAttempts(currentFailCount)
      ensures IconRow(starIcons, StarIcon, starCount)
      ensures InstantiatedSince(starIcons, old(nextIconId))
      ensures InstantiatedBefore(starIcons, nextIconId) && InstantiatedBefore(heartIcons, nextIconId)
      ensures destroyedIds == old(destroyedIds) + IdsOf(old(starIcons))
      ensures nextIconId == old(nextIconId) + Clamp(starCount)
    {
      starCount := RemainingAttempts(currentFailCount);
      starIcons := Rebuild(starIcons, StarIcon, starCount);
    }

    /** Rebuilds the star container from the stored star count. */
    method ShowStarsBasedOnStarCount()
      requires InstantiatedBefore(heartIcons, nextIconId)
      modifies this`starIcons, this`nextIconId, this`destroyedIds
      ensures IconRow(starIcons, StarIcon, starCount)
      ensures InstantiatedSince(starIcons, old(nextIconId))
      ensures InstantiatedBefore(starIcons, nextIconId) && InstantiatedBefore(heartIcons, nextIconId)
      ensures destroyedIds == old(destroyedIds) + IdsOf(old(starIcons))
      ensures nextIconId == old(nextIconId) + Clamp(starCount)
    {
      starIcons := Rebuild(starIcons, StarIcon, starCount);
    }

    /**
     * The snapshot for the save system. Restoring it gives back the same
     * state whenever the complete panel agrees with the completion flag.
     */
    function GetGameState(): (state: GameState)
      reads this
      ensures Restore(config, View(), state).(completePanelVisible := completePanelVisible) == View()
      ensures PanelAgrees(config, View()) ==> Restore(config, View(), state) == View()
      ensures state.isCompleted == isGameCompleted && state.currentFailCount == currentFailCount
      ensures state.hasShownCompletion == hasShownCompletion && state.starCount == starCount
    {
      Snapshot(View())
    }

    /** Restores a snapshot and redraws the stars (when completion was shown) and the hearts. */
    method RestoreGameState(state: GameState)
      requires IconsTracked()
      modifies this
      ensures Valid()
      ensures View() == Restore(config, old(View()), state)
      ensures state.hasShownCompletion ==>
        && IconRow(starIcons, StarIcon, old(starCount))
        && InstantiatedSince(starIcons, old(nextIconId))
        && destroyedIds == old(destroyedIds) + IdsOf(old(starIcons)) + IdsOf(old(heartIcons))
      ensures !state.hasShownCompletion ==>
        && starIcons == old(starIcons)
        && destroyedIds == old(destroyedIds) + IdsOf(old(heartIcons))
      ensures InstantiatedSince(heartIcons, old(nextIconId))
    {
      isGameCompleted := state.isCompleted;
      currentFailCount := state.currentFailCount;
      hasShownCompletion := state.hasShownCompletion;

      if hasShownCompletion {
        ShowStarsBasedOnStarCount();
      }

      UpdateAttemptsRemainingUI();
      if config.hasCompletePanel {
        completePanelVisible := hasShownCompletion;
      }
    }

    /** The next-stage button: loads the configured scene, if any. */
    method OnNextStageButtonClicked()
      modifies this`effects
      ensures View() == NextStage(config, old(View()))
    {
      if IsNullOrEmpty(config.nextSceneName) {
        return;
      }
      effects := effects + [SceneLoadRequested(config.nextSceneName.value)];
    }
  }
}
