# Heart/star tracker and player movement flags, modelled in Dafny

This project models the two small state machines of a 2D platformer's
gameplay scripts:

- **HeartScoreManager** (`heart_score.dfy`, `heart_score_properties.dfy`):
  the stage's attempt budget of three fails, the heart icons that show the
  attempts left, the terminal stage-failed flag, the one-time stage
  completion that turns the hearts left into a star rating and stores it per
  scene, the retry/restart and next-stage buttons, and the save/restore
  snapshot `{IsCompleted, CurrentFailCount, HasShownCompletion, StarCount}`.
  The class `HeartScore.HeartScoreManager` keeps the source's fields and
  rebuilds its icon containers with the source's destroy-then-instantiate
  loops. Every public operation is specified against a function on the
  abstract `Tracker` record (`ChallengeFail`, `Completion`, `Restart`,
  `Restore`, `NextStage`), and the multi-call properties are lemmas about
  those functions.
- **PlayerController** (`player_controller.dfy`): the `canMove` and
  `isJumping` flags, the animator's Idle/Walk/Jump triggers, the rigidbody's
  velocity and the impulses applied to it, driven by Start, PerformJump,
  EnableMovement, StopMovement, ResetVelocity, the per-frame Update and the
  landing collision. The class invariant `Valid()` states that, once both
  components are found, exactly one trigger is set and it is Jump exactly
  while jumping.

How the engine is abstracted:

- An icon container is a sequence of `Icon(prefab, id)`; ids are handed out
  by a counter on instantiation, and destroyed ids are collected in a set,
  so "all old icons are destroyed, the new ones are fresh" can be stated.
- Panels are booleans; a panel that is not assigned in the scene is a flag
  of the `Config` record. The pose result panel, its black filter and its
  result icon are one boolean.
- Calls out of the tracker are appended to an `effects` log: the zone's
  `RestartChallenge()` (with the zone's identity), the start of the
  stage-fail panel routine, and `SceneManager.LoadScene(name)`.
- The process-wide progress singleton's `starsPerStage` dictionary is a
  `map<string, int>` owned by the tracker.
- Floats are reals; the two threshold tests of PlayerController
  (`|velocity.x| > 0.1`, `contacts[0].normal.y > 0.7`) are boolean arguments.
- A rigidbody or animator reference that is null is a boolean that is false.
  Where the source dereferences a null animator (possible only when the
  Animator component is missing), the method returns `NullAnimator`, after
  the assignments the source makes before the exception.

Behaviour of the code that a reader might not expect, all modelled as
written:

- The fail counter has no cap. After more than three fails the hearts
  shown stay at zero. A completion after four fails stores -1 stars
  (`HeartScoreProperties.StarsGoNegative`), so the star rating is not
  confined to 0..3.
- The stage is marked failed when the count reaches *or passes* three.
- `RestoreGameState` never reads the snapshot's `StarCount`. When the
  restored state has shown completion, it redraws the stars from the
  tracker's current `starCount` field.
- Restoring a snapshot taken in the same state gives that state back, but
  only while the complete panel's visibility agrees with the completion
  flag. That agreement holds throughout a play-through. `RestartGame`
  breaks it until the scene reloads, because it clears the flag without
  hiding the panel.
- `RestartGame` leaves `starCount` and `isStageFailed` as they are. Only the
  scene reload that it requests discards them.
- `RestartGame` clears the fail count without refreshing the hearts. Until
  the reload, the heart row still shows the hearts of the old count. The
  class invariant `Valid()` (one heart per remaining attempt) therefore does
  not hold until the next refresh. The tracker's operations still run in
  that state: they require only that every icon came from the tracker's own
  counter (`IconsTracked()`). See `HeartScoreProperties.FailAfterRestart`.

## Model

| member | source | states |
|---|---|---|
| `HeartScore.ChallengeFail` | Assets/Scripts/Stage/HeartScoreManager.cs:97-133 | a fail adds exactly one to the counter with no cap; the stage-failed flag is set iff it was set or the count reached the budget; at the budget the fail-panel routine starts only if the stage was not failed yet and no restart is asked; below it the zone restarts iff the caller does not wait; the result overlay is hidden exactly when the budget is reached, and the fail panel is shown only on the fail that first reaches it and only if it exists; nothing else changes |
| `HeartScore.Completion` | Assets/Scripts/Stage/HeartScoreManager.cs:194-222 | a no-op once completion was shown or without a complete panel; otherwise sets both completion flags and the panel, stars = hearts left, stores them under the active scene, clears the counter, touches neither the failed flag, the fail panel, the result overlay nor the effects |
| `HeartScore.Restart` | Assets/Scripts/Stage/HeartScoreManager.cs:182-192 | counter and both completion flags cleared, a reload of the active scene requested; every other field kept, including stars, failed flag, progress store and the complete panel (which stays visible) |
| `HeartScore.Restore` | Assets/Scripts/Stage/HeartScoreManager.cs:237-254 | the three restored fields come from the snapshot, the star count is kept whatever the snapshot says, the complete panel follows the restored flag when it exists; the failed flag, the fail and result panels, the store and the effects are kept |
| `HeartScore.NextStage` | Assets/Scripts/Stage/HeartScoreManager.cs:289-299 | a null or empty next-scene name changes nothing; otherwise exactly one load of that scene is requested |
| `HeartScore.HeartScoreManager.constructor` | Assets/Scripts/Stage/HeartScoreManager.cs:45-75 | initial fields (no fail, not completed, 0 stars), both panels hidden; Start's heart refresh destroys every heart placed in the scene and leaves three fresh hearts |
| `HeartScore.HeartScoreManager.Rebuild` | Assets/Scripts/Stage/HeartScoreManager.cs:86-94 | every old icon of the container is destroyed, then exactly max(0, n) fresh icons of the prefab are instantiated |
| `HeartScore.HeartScoreManager.UpdateAttemptsRemainingUI` | Assets/Scripts/Stage/HeartScoreManager.cs:82-95 | after the refresh the container holds max(0, 3 - failCount) fresh hearts and all old hearts are destroyed |
| `HeartScore.HeartScoreManager.OnChallengeFail` | Assets/Scripts/Stage/HeartScoreManager.cs:97-134 | accepted in any state, including after a restart; the new state is ChallengeFail of the old one; the hearts are redrawn from scratch, so the heart invariant holds afterwards; the stars are untouched |
| `HeartScore.HeartScoreManager.ShowStageFailPanel` | Assets/Scripts/Stage/HeartScoreManager.cs:136-154 | the routine's start is recorded once per call and the fail panel is shown when it exists |
| `HeartScore.HeartScoreManager.OnPlayerPressedRestart` | Assets/Scripts/Stage/HeartScoreManager.cs:176-180 | same as RestartGame |
| `HeartScore.HeartScoreManager.RestartGame` | Assets/Scripts/Stage/HeartScoreManager.cs:182-192 | the new state is Restart of the old one; icons untouched, so the heart row goes stale |
| `HeartScore.HeartScoreManager.ShowGameCompletion` | Assets/Scripts/Stage/HeartScoreManager.cs:194-222 | accepted in any state, including after a restart; the new state is Completion of the old one; a repeated or panel-less call changes no field, icon or store entry; an effective one shows starCount fresh stars and three fresh hearts |
| `HeartScore.HeartScoreManager.ShowStarsBasedOnRemainingHearts` | Assets/Scripts/Stage/HeartScoreManager.cs:269-287 | starCount = 3 - failCount and the star container is rebuilt with that many fresh stars |
| `HeartScore.HeartScoreManager.ShowStarsBasedOnStarCount` | Assets/Scripts/Stage/HeartScoreManager.cs:256-267 | the star container is rebuilt with starCount fresh stars |
| `HeartScore.HeartScoreManager.GetGameState` | Assets/Scripts/Stage/HeartScoreManager.cs:224-233 | the snapshot holds the four tracked fields (including starCount); restoring it gives the same state back, up to the complete panel, and exactly when the panel agrees with the completion flag |
| `HeartScore.HeartScoreManager.RestoreGameState` | Assets/Scripts/Stage/HeartScoreManager.cs:237-254 | accepted in any state, including after a restart; the new state is Restore of the old one; stars are redrawn from the old starCount only when completion is restored as shown; hearts are redrawn |
| `HeartScore.HeartScoreManager.OnNextStageButtonClicked` | Assets/Scripts/Stage/HeartScoreManager.cs:289-299 | the new state is NextStage of the old one |
| `HeartScoreProperties.FailAllCounter` | Assets/Scripts/Stage/HeartScoreManager.cs:97-121 | after n fails the counter has grown by exactly n, and the stage is failed iff it was or the budget was reached |
| `HeartScoreProperties.FailAllEffects` | Assets/Scripts/Stage/HeartScoreManager.cs:104-133 | over any run of fails, one zone restart per non-waiting fail below the budget, then the fail-panel routine exactly once on the fail that reaches it (never if already failed), nothing else |
| `HeartScoreProperties.CompletionIsFinal` | Assets/Scripts/Stage/HeartScoreManager.cs:194-198 | once completion was shown, later fails and completions never change stars, store, completion flags or panel |
| `HeartScoreProperties.StarsAtFirstCompletion` | Assets/Scripts/Stage/HeartScoreManager.cs:194-222 | after k fails and a completion, the stars are 3 - (fails before + k) for the rest of the play-through, stored for the active scene, and the counter restarts from 0 |
| `HeartScoreProperties.StarsGoNegative` | Assets/Scripts/Stage/HeartScoreManager.cs:278-279 | four fails then completion gives -1 stars |
| `HeartScoreProperties.PlayKeepsPanelAgreement` | Assets/Scripts/Stage/HeartScoreManager.cs:224-254 | fails and completions keep the panel consistent with the completion flag, so save then restore is the identity throughout |
| `HeartScoreProperties.ThreeFailsWithoutWaiting` | Assets/Scripts/Stage/HeartScoreManager.cs:97-133 | three fails without waiting: two zone restarts, then the fail panel, stage failed, no heart left |
| `HeartScoreProperties.FailWaitingForRetry` | Assets/Scripts/Stage/HeartScoreManager.cs:122-133 | a waiting fail below the budget requests nothing and removes one heart |
| `HeartScoreProperties.CompletionRequestedTwice` | Assets/Scripts/Stage/HeartScoreManager.cs:194-222 | the second completion leaves the state as the first left it: 2 stars shown and stored, 3 hearts |
| `HeartScoreProperties.RestoreAfterRestart` | Assets/Scripts/Stage/HeartScoreManager.cs:237-254 | a snapshot claiming 3 stars restores the flags and counter but the star count stays 2 |
| `HeartScoreProperties.FailAfterRestart` | Assets/Scripts/Stage/HeartScoreManager.cs:182-254 | after a fail then a restart, 2 stale hearts remain; a completion (3 stars), a restore and another fail still run, and the fail refreshes the hearts |
| `HeartScoreProperties.NextStageUnconfigured` | Assets/Scripts/Stage/HeartScoreManager.cs:289-295 | an empty next-scene name loads nothing |
| `Player.PlayerController.constructor` | Assets/Scripts/Core/PlayerController.cs:9-12 | references null, movement allowed, not jumping, no trigger, no impulse |
| `Player.PlayerController.Start` | Assets/Scripts/Core/PlayerController.cs:19-41 | the component disables itself iff the rigidbody or animator is missing; otherwise Idle is the only trigger |
| `Player.PlayerController.PerformJump` | Assets/Scripts/Core/PlayerController.cs:43-58 | no change at all when movement is disabled or the body is missing; otherwise jumping, only Jump set, exactly one impulse (forward, upward) |
| `Player.PlayerController.EnableMovement` | Assets/Scripts/Core/PlayerController.cs:60-67 | canMove = enable; disabling also performs StopMovement; enabling changes nothing else |
| `Player.PlayerController.StopMovement` | Assets/Scripts/Core/PlayerController.cs:69-81 | horizontal velocity zeroed, vertical kept; Idle only when not jumping; flags unchanged |
| `Player.PlayerController.ResetVelocity` | Assets/Scripts/Core/PlayerController.cs:83-96 | both velocity components and the angular velocity zeroed; Idle only when not jumping; flags unchanged |
| `Player.PlayerController.Update` | Assets/Scripts/Core/PlayerController.cs:98-118 | nothing when movement is disabled, the body missing or jumping; else only Walk above the speed threshold, only Idle otherwise |
| `Player.PlayerController.OnCollisionEnter2D` | Assets/Scripts/Core/PlayerController.cs:120-130 | a landing contact while jumping ends the jump and leaves only Idle; any other collision changes nothing |
| `Player.JumpScenario` | Assets/Scripts/Core/PlayerController.cs:43-67 | a jump while disabled applies nothing; after re-enabling it sets Jump and applies one impulse; landing returns to Idle |
| `Player.MissingAnimatorScenario` | Assets/Scripts/Core/PlayerController.cs:19-51 | without an animator Start disables the component and a jump ends in the null-animator exception with no trigger set |

## Left out

- Assets/Scripts/Stage/DogChaseChallenge.cs is not part of this model. That covers its collider, canvas and camera wiring, its coroutines, and its `isActive` guard around calls into collaborators whose source is not part of this model. The zone appears only as the identity passed to `OnChallengeFail`.
- The stage-fail panel's camera positioning, its child activation, `Canvas.ForceUpdateCanvases`, the completion text, audio clips and `Debug.Log` output are engine presentation. They are not modelled.
- Start's binding of the retry button's listener is not modelled. `OnPlayerPressedRestart` is modelled as a plain method. An unassigned retry button is not modelled either: Start would throw on it before the heart refresh, while the constructor always refreshes the hearts.
- A scene reload is recorded as an effect. Discarding the component's state on reload is not modelled: a reloaded scene is a new `HeartScoreManager`.
- Unity's `Destroy` takes effect at the end of the frame. The model removes the icons at once.
- `currentFailCount` is a 32-bit `int` in the source. The model uses unbounded integers, so it does not capture overflow after 2^31 fails.
- The result panel is shown by the pose system, which is not part of this model. Its visibility is a constructor argument that only `OnChallengeFail` changes.
- Null `zone` or `state` arguments, which would throw, are not modelled.
- An empty `collision.contacts` array, which would throw, is not modelled either.
- Physics integration is not modelled: velocity changes between calls, collisions, and the animator's consumption of triggers. The velocity holds only what the controller writes.
- The engine calls `Start` once before any `Update`, and never calls `Update` on a disabled component. This dispatch is not modelled: `Start` requires that it has not run, and `Update` models its own body.
- `Player.PlayerController.Update`: the float test `Mathf.Abs(rb.velocity.x) > 0.1f` is the boolean argument `movingHorizontally`. It is not derived from the modelled velocity, because physics moves the body between frames.
- `Player.PlayerController.OnCollisionEnter2D`: the float test `contacts[0].normal.y > 0.7f` is the boolean argument `landingNormal`.
