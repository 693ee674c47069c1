# Swipe game: verified model of the scene's gameplay logic

This project models the gameplay core of `GameScene`, the single scene of a small
SpriteKit reflex game. Swiping left or right launches a white block across the
screen. Enemies fall from the top at random intervals. A block that completes its
crossing scores a point, and every tenth point changes the background colour. Any
physics contact ends the round.

Modules:

- `ArrayExtension` (`remove_object.dfy`): the generic `Array.removeObject`. Its loop
  keeps overwriting `index`, so it removes the element at the **highest** index equal
  to the argument. `RemoveObject` is that loop, proved against the specification
  function `RemoveLast`.
- `Rules` (`game_rules.dfy`): the Menu/Play/Over state machine with the score, as a
  pure `Step` over events and its fold `Run`. There are lemmas over whole event
  sequences, plus the every-tenth-point theme rule.
- `Timing` (`timing.dfy`): the two timing rules in `update`. The frame clock is
  `FrameDelta`, where the first frame gives 0. The enemy-spawn accumulator is
  `SpawnStep`. The lemmas cover runs of frames.
- `Scene` (`game_scene.dfy`): the `GameScene` class. It has the source's fields
  `state`, `score`, `gameObjects`, `lastUpdateTime`, `dt` and `lastGenTime`, and one
  method per event handler or completion closure. Sprite nodes are a `Sprite` class,
  so equality is object identity, as it is for the scene's `SKSpriteNode`s. Each
  method is tied to `Step` and to `RemoveLast`, `FrameDelta` and `SpawnStep`, and keeps
  the invariant `Valid()`: the score is never negative, no node is listed twice, and
  the spawn accumulator stays below 1.5 s. Every method except `AddEnemy` also keeps
  `OnlyPlayHasObjects()`: outside Play, no node is live.
- `Scenarios` (`scenarios.dfy`): client methods that derive the game's example
  situations from the contracts alone. Examples are swiping from the menu, the 9 → 10
  theme change, and a contact during play.

How the outside world is represented:

- Rendering and audio calls are appended to the scene's `requests` log, in the order
  the handlers make them. These cover sounds, label text, description fades, adding
  and removing nodes, camera shake, splash and background colour.
- Every random draw becomes a method parameter with a precondition: the spawn
  threshold, the enemy's x position and the enemy's traversal time.
- The swipe's y coordinate is a parameter that is already in scene coordinates.
- Timestamps are `real` seconds.

Four points of the code's behaviour are easy to misread, and the model follows the
code on each of them:

- `CGFloat.random(min:max:)` returns `random() * (max - min) + min` with
  `random() = arc4random() / UInt32.max`, which lies in [0, 1]. So the draws lie in
  **closed** ranges: the threshold in [0.5, 1.5], the enemy x position in
  [0.2·width, 0.8·width], and the traversal time in [2, 3]. None of them is
  half-open.
- The spawn threshold is drawn afresh on **every** Play frame (`Update` takes it as a
  parameter on every call). It is not drawn once per spawn.
- Removal goes through `removeObject`, which removes by equality and takes the last
  match. Nodes are distinct objects, and `RemoveLastDistinct` with `Valid()` shows
  that this removes exactly the given node. No duplicate-identity error exists in the
  code, because `append` never checks. The model proves instead that duplicates
  cannot arise.
- A block's completion closure, whenever it runs, removes the block (a no-op if it is
  absent) and adds one point. The model does not state whether the engine still runs
  it after the contact handler has removed the node.

## Model

| member | source | states |
|---|---|---|
| ArrayExtension.LastIndexOf | Game/GameScene.swift:14-21 | The scan's final `index` is -1 exactly when no element equals the argument. Otherwise the element at `index` equals it and none after it does. |
| ArrayExtension.RemoveLast | Game/GameScene.swift:13-25 | If nothing equals the argument, the array is unchanged. Otherwise exactly one element is removed. |
| ArrayExtension.RemoveObject | Game/GameScene.swift:13-25 | The loop that overwrites `index` on every match, followed by `removeAtIndex`, produces `RemoveLast`. |
| ArrayExtension.RemoveLastFromEnd | Game/GameScene.swift:13-25 | Removing `x` from `s + [x]` gives back `s`, so the last copy goes even when earlier copies exist. Removing `x` from `s + [y]` with `y != x` keeps `y` last and the others in order. |
| ArrayExtension.RemoveLastMultiset | Game/GameScene.swift:22-24 | The result's multiset is the old one minus one copy of the argument: at most one element goes, and only an equal one. |
| ArrayExtension.RemoveLastDistinct | Game/GameScene.swift:13-25 | On a duplicate-free array the argument disappears completely, every other element stays, and the array stays duplicate-free. |
| Rules.Step | Game/GameScene.swift:126-165 | An event leads to Over iff it is a contact, or the state was Over and the event is not a swipe. It leads to Play iff it is a swipe, or the state was Play and the event is not a contact. A swipe outside Play sets the score to 0 whatever it was, and every block completion adds exactly 1. The score changes in no other case. A non-negative score stays non-negative. |
| Rules.RunKeepsScoreNonNegative | Game/GameScene.swift:42 | From a non-negative score, every event sequence ends with a non-negative score (the only writes are `= 0` and `++`). |
| Rules.RunEndsOver | Game/GameScene.swift:300-301 | After any event sequence the state is Over iff some contact has no swipe after it, or the start state was Over and no swipe occurred. |
| Rules.OverOnlyByContact | Game/GameScene.swift:300-301 | Starting outside Over, reaching Over requires a contact event. |
| Rules.PlayOnlyBySwipe | Game/GameScene.swift:127-128 | Starting outside Play, reaching Play requires a swipe event. |
| Rules.RunScoreInPlay | Game/GameScene.swift:154-165 | From Play, with no contact, the state stays Play. The score grows by exactly the number of block completions: swipes during Play do not reset it and enemy completions add nothing. |
| Rules.ThemeChangesCount | Game/GameScene.swift:162-164 | Among the scores `s + 1` to `s + n`, the number that pass the multiple-of-10 test is `(s + n) / 10 - s / 10`. |
| Timing.DeltasTelescope | Game/GameScene.swift:250-256 | With positive timestamps, the frames' `dt`s sum to the last timestamp minus the baseline. With no baseline yet (`lastUpdateTime` 0), the first frame's `dt` is 0 and that frame becomes the baseline. |
| Timing.SpawnStepBelowThreshold | Game/GameScene.swift:259-265 | A spawn happens iff `lastGenTime + dt` reaches the frame's threshold. Afterwards the accumulator is strictly below that threshold. |
| Timing.SpawnRate | Game/GameScene.swift:259-265 | With thresholds of at least 0.5 s, the final accumulator plus 0.5 s per spawn is at most the initial accumulator plus the summed `dt`s. |
| Timing.SpawnRunNonNegative | Game/GameScene.swift:259-265 | With non-negative `dt`s, an accumulator that starts non-negative stays non-negative over any run of Play frames. |
| Timing.SpawnsPerHalfSecond | Game/GameScene.swift:259-265 | With non-negative `dt`s, a non-negative start value and thresholds of at least 0.5 s, 0.5 s per spawn is at most the start value plus the summed `dt`s. So there is at most one enemy per half-second of Play time, plus what had already accumulated. |
| Timing.SpawnRunBelowMax | Game/GameScene.swift:259-265 | With thresholds in [0.5, 1.5], the accumulator is below 1.5 s after any non-empty run of Play frames, whatever its start value. |
| Scene.BlockDoneThemeRequest | Game/GameScene.swift:162-164 | One completion's requests contain one colour change if the new score is a multiple of 10, and none otherwise. |
| Scene.CompletionThemeRequests | Game/GameScene.swift:154-165 | The requests of `n` consecutive completions from score `s` contain exactly `(s + n) / 10 - s / 10` colour changes, one per multiple of 10 reached (9 → 10 fires, 10 → 11 does not). |
| Scene.GameScene.constructor | Game/GameScene.swift:41-49 | The scene starts in Menu with score 0, no live objects, all clocks at 0 and no requests. The invariant holds from the start. |
| Scene.GameScene.Swiped | Game/GameScene.swift:127-151 | Outside Play: the state becomes Play, the score becomes 0, and the label reset and fade-out are requested. In Play: state and score are unchanged. In both cases the launch sound is requested and exactly one fresh 20-point block is appended, travelling from `fromX` to `toX` at height `y` over 0.8 s. Nothing else changes. |
| Scene.GameScene.SwipedRight | Game/GameScene.swift:126-151 | Same as `Swiped`, with the block starting at x = 0 and targeting x = width at the same y. |
| Scene.GameScene.SwipedLeft | Game/GameScene.swift:167-192 | Same as `Swiped`, with the block starting at x = width and targeting x = 0 at the same y. |
| Scene.GameScene.BlockFinished | Game/GameScene.swift:154-165 | The completion closure, the same at lines 195-206. The block is removed with `RemoveLast` and is no longer listed. The score goes up by exactly 1 and the state is unchanged. Shake, level-up sound and label update are requested, and a background-colour change is requested iff the new score is a multiple of 10. The timers are untouched. |
| Scene.GameScene.AddEnemy | Game/GameScene.swift:208-228 | Exactly one fresh 40-point enemy is appended. It starts at the drawn x on the top edge and falls straight to y = 0 over the drawn time `d`, turning by `d·π`. Its attachment is requested. State, score and timers are unchanged. |
| Scene.GameScene.EnemyFinished | Game/GameScene.swift:229-232 | The enemy's completion closure removes it from `gameObjects` and requests its removal from the scene. State and score are unchanged. |
| Scene.GameScene.ClearGameObjects | Game/GameScene.swift:242-248 | The list always ends empty. One removal is requested per old node, in order. On an empty list nothing changes, so a second call is a no-op. |
| Scene.GameScene.Update | Game/GameScene.swift:250-266 | `dt` is 0 when `lastUpdateTime <= 0` and `currentTime - lastUpdateTime` otherwise, and `lastUpdateTime` becomes `currentTime`. In Play, the accumulator takes `SpawnStep`'s value, and exactly one enemy is appended iff that step spawns. Outside Play, neither the accumulator nor the list nor the requests change. State and score never change. |
| Scene.GameScene.DidBeginContact | Game/GameScene.swift:300-307 | From any state, the state becomes Over and the score is kept. The game-over sound, splash(1) and shake(1) are requested, then every live node is removed, then the description fade-in. The list ends empty. |

## Left out

- Random draws: `CGFloat.random` itself (Game/CGFloatsExtensions.swift) is left out. Its results are parameters restricted to the ranges it can return. Its float rounding is not modelled.
- Scene setup in `didMoveToView` is left out: background music, sound loading, labels, the light, gesture recognisers, physics-world settings, and the initial background colour. These are engine and UIKit configuration.
- The colour palette and the random pick in `changeBackgroundColor` are left out. So are the random jitter in `shakeCamera` and the layer `splash` creates. Only the fact that each was requested is recorded.
- Physics: category and contact bitmasks, contact detection, motion and rotation interpolation are engine behaviour. `DidBeginContact` takes no contact argument because the handler never reads it.
- The first, completion-less `enemy.runAction(group)` at line 228 is left out: it does not affect the scene's state.
- Scene.GameScene.BlockFinished: does not model the trap that Swift's 64-bit `score++` raises on overflow. The score is an unbounded integer.
- Whether the engine runs a completion closure after its node was removed by the contact handler is not modelled.
- `NSTimeInterval` and `CGFloat` are `real`: double-precision rounding, and the `CGFloat(lastGenTime)` conversion, are not modelled. Rotation is recorded as a multiple of π.
- ArrayExtension.RemoveObject: does not model the `as? U` cast at line 16, which skips elements of another type. The element type and the argument's type are the same here, as they are in the scene's calls on `[SKSpriteNode]`, so the cast always succeeds.
- The `scoreLabel` and `descriptionLabel` nodes are left out. Their updates appear only as `SetScoreText`, `FadeOutDescription` and `FadeInDescription` requests.
