# CG4002 Visualiser: game-state synchronisation, modelled in Dafny

The visualiser is the AR client of a two-player laser-tag game. A broker publishes the game
server's state, and the client mirrors it in a singleton state store (`GameState`). This
project models the parts of the client that keep and reconcile that state:

- **State store** (`game_state_spec.dfy`, module `GameStateSpec`; `game_state.dfy`, module
  `Logic`). Both players' stats sit behind clamping property setters. The four hit flags raise
  their event on every write of `true`. The `EnemyActive` visibility flag raises
  `EnemyActiveChanged` only when its value changes. There are helpers that increment or
  decrement the local player's ammunition, a reload, the two action channels, and a registry of
  enemy bombs keyed by an id counter that only goes up (an unbounded integer here; see "Left out"). `GameState` is a class with the source's
  own fields. Each of its methods is specified by a pure function on the `Store` value that its
  fields make up. Raised events are appended to a ghost log.
- **Message router and reconciler** (`comms_spec.dfy`, module `CommsSpec`;
  `mqtt_comms_manager.dfy`, module `Communications`):
  - Incoming payloads are routed by topic.
  - The queue is drained once per frame, in arrival order.
  - Each payload is tried first as an action message, then as a bare snapshot.
  - An action is attributed to the local or the remote player, and the hit flags follow.
  - The action string is dispatched on exactly one of two channels.
  - The snapshot's p1/p2 halves are mapped onto the local player and the enemy.
  - The hand-built JSON reply to a visibility request is modelled, with a decoder proved to
    invert it (integer rendering in `decimal.dfy`, module `Decimal`).
- **Snow-bomb occupancy trackers** (`bomb_occupancy.dfy`, module `BombOccupancy`;
  `snow_bomb_colliders.dfy`, module `Bomb`). Each keeps a per-bomb inside/outside dictionary
  and a running count. The count moves only on enter and exit transitions, and only then is it
  copied into the game state.
- **Trail buffer** (`projectile_trail.dfy`, module `ProjectilePhysics`). This is a bounded
  first-in first-out list of recorded positions, filled at a fixed interval of accumulated
  frame time.

`wrappers.dfy` (an `Option` type), `sets.dfy` (picking an element of a non-empty set) and
`unity_types.dfy` (`Vector3`, `Transform`, `Mathf.Clamp`/`Min`/`Max`) are support modules.

Inputs from the engine become parameters:
- whether the MQTT client is connected;
- the JSON decoders;
- the bombs that `FindGameObjectsWithTag` returns (integer ids in scene order);
- each distance test, as a boolean function;
- whether the main camera is found;
- the frame time, in whole milliseconds.

A publish is what a method returns. A `NullReferenceException` thrown partway through a
snapshot merge is an early stop: the writes done before it stay, and the caller's `catch`
decides what happens next.

Behaviour of the code worth knowing, which the model keeps:
- An action with `hit == false` clears no flag; it leaves both hit flags as they were.
- A snapshot with one half missing does not throw at once. Its present half's first four
  fields are written, then the access to the missing half throws (MQTTCommsManager.cs lines 332
  and 355). In `ProcessMessage` such a throw inside the action path falls through to the
  bare-snapshot trial.
- The visibility reply carries `EnemyActive` (whether this client sees the opponent) and
  `EnemyInBombCount`, not `PlayerVisibleToEnemy`.
- Only the game-state and visibility-request topics are handled; any payload that is not a
  visibility request is queued for the game-state path.
- The colliders copy their count into the game state only when some flag flips. A frame that
  only drops a vanished bomb the body was inside lowers the collider's count, but it leaves
  `PlayerInBombCount`/`EnemyInBombCount` at the old value. The `Update` contracts state this
  behaviour exactly.

## Model

| member | source | states |
|---|---|---|
| UnityTypes.Clamp | Assets/Scripts/Logic/GameState.cs:221 | `Mathf.Clamp`: the result lies in [lo, hi]; an in-range value is kept; a value below gives lo, one above gives hi |
| UnityTypes.ClampIdempotent | Assets/Scripts/Logic/GameState.cs:218-240 | clamping an already clamped value changes nothing |
| UnityTypes.ClampMonotonic | Assets/Scripts/Logic/GameState.cs:218-240 | a larger raw value never gives a smaller stored value |
| UnityTypes.Min | Assets/Scripts/Logic/GameState.cs:359 | `Mathf.Min`: the result is one of the two arguments and at most both |
| UnityTypes.Max | Assets/Scripts/Logic/GameState.cs:364 | `Mathf.Max`: the result is one of the two arguments and at least both |
| GameStateSpec.Stats.WithHealth | Assets/Scripts/Logic/GameState.cs:218-234 | stored health lies in [0, 100]; an in-range value is stored unchanged; no other stat changes; the range invariant is kept |
| GameStateSpec.Stats.WithShield | Assets/Scripts/Logic/GameState.cs:224-240 | stored shield HP lies in [0, 30]; an in-range value is stored unchanged; nothing else changes |
| GameStateSpec.Stats.WithShieldCount | Assets/Scripts/Logic/GameState.cs:254-276 | stored shield count lies in [0, 3]; an in-range value is stored unchanged; nothing else changes |
| GameStateSpec.Stats.WithBulletCount | Assets/Scripts/Logic/GameState.cs:260-282 | stored bullet count lies in [0, 6]; an in-range value is stored unchanged; nothing else changes |
| GameStateSpec.Stats.WithBombCount | Assets/Scripts/Logic/GameState.cs:266-288 | stored bomb count lies in [0, 2]; an in-range value is stored unchanged; nothing else changes |
| GameStateSpec.Stats.WithInBombCount | Assets/Scripts/Logic/GameState.cs:296-305 | the in-bomb count is clamped to [0, 999]; nothing else changes |
| GameStateSpec.Stats.WithScore | Assets/Scripts/Logic/GameState.cs:242-252 | the score stores any value unclamped, and the range invariant still holds |
| GameStateSpec.Store.SetPlayerHit | Assets/Scripts/Logic/GameState.cs:148-159 | the flag stores the value written; `PlayerHitEvent` is raised on every write of true and never on false |
| GameStateSpec.Store.SetPlayerShieldHit | Assets/Scripts/Logic/GameState.cs:161-172 | the same level-triggered behaviour for `PlayerShieldHitEvent` |
| GameStateSpec.Store.SetEnemyHit | Assets/Scripts/Logic/GameState.cs:174-185 | the same level-triggered behaviour for `EnemyHitEvent` |
| GameStateSpec.Store.SetEnemyShieldHit | Assets/Scripts/Logic/GameState.cs:187-198 | the same level-triggered behaviour for `EnemyShieldHitEvent` |
| GameStateSpec.Store.SetEnemyActive | Assets/Scripts/Logic/GameState.cs:200-210 | the flag takes the value; `EnemyActiveChanged` is raised exactly when the value differs from the stored one |
| GameStateSpec.Store.IncrementBombCount | Assets/Scripts/Logic/GameState.cs:357-360 | the bomb count rises by exactly 1 below the maximum, is a no-op at the maximum, and stays in range; nothing else changes |
| GameStateSpec.Store.DecrementBombCount | Assets/Scripts/Logic/GameState.cs:362-365 | the bomb count falls by exactly 1 above the minimum, is a no-op at the minimum, and stays in range |
| GameStateSpec.Store.IncrementShieldCount | Assets/Scripts/Logic/GameState.cs:367-370 | the shield count rises by 1 below the maximum and is a no-op at the maximum |
| GameStateSpec.Store.DecrementShieldCount | Assets/Scripts/Logic/GameState.cs:372-375 | the shield count falls by 1 above the minimum and is a no-op at the minimum |
| GameStateSpec.Store.IncrementBulletCount | Assets/Scripts/Logic/GameState.cs:377-380 | the bullet count rises by 1 below the maximum and is a no-op at the maximum |
| GameStateSpec.Store.DecrementBulletCount | Assets/Scripts/Logic/GameState.cs:382-385 | the bullet count falls by 1 above the minimum and is a no-op at the minimum |
| GameStateSpec.Store.PlayerReload | Assets/Scripts/Logic/GameState.cs:387-391 | the local magazine is full (6) and a "Reload" action is announced on the local channel; nothing else changes |
| GameStateSpec.Store.EnemyReload | Assets/Scripts/Logic/GameState.cs:393-396 | the enemy's magazine is full and nothing else changes |
| GameStateSpec.Store.RegisterBomb | Assets/Scripts/Logic/GameState.cs:309-314 | the bomb is added under the counter's current value, which was unused; the counter advances by one; every other entry is kept; the store stays valid |
| GameStateSpec.Store.MoveBomb | Assets/Scripts/Logic/GameState.cs:317-325 | a registered bomb gets its new position; an unknown id changes nothing; the set of ids is unchanged |
| GameStateSpec.Store.ClearAllBombs | Assets/Scripts/Logic/GameState.cs:348-352 | the registry is empty and `EnemyInBombCount` is 0; nothing else changes |
| GameStateSpec.InitialStore | Assets/Scripts/Logic/GameState.cs:80-108 | the store `Start` sets up is valid, with player id 1; both players have full health, bullets, bombs and shield charges, zero shield HP, zero score and no hit flag; neither player is visible; there are no bombs (counter 0) and no events |
| GameStateSpec.BombsNear | Assets/Scripts/Logic/GameState.cs:328-345 | exactly the registered bombs whose distance test from the enemy holds |
| GameStateSpec.EnemyActiveEventsCountChanges | Assets/Scripts/Logic/GameState.cs:200-210 | a series of visibility writes raises exactly one event per actual change of value and nothing else, and leaves the last value written |
| GameStateSpec.EnemyActiveRepeatedWriteIsSilent | Assets/Scripts/Logic/GameState.cs:200-210 | writing the same value twice is the same as writing it once; one write raises an event only on a change |
| GameStateSpec.PlayerHitEventsCountTrues | Assets/Scripts/Logic/GameState.cs:148-159 | a series of hit writes raises one `PlayerHitEvent` per true written, repeated trues included |
| GameStateSpec.RegisterAllFreshIds | Assets/Scripts/Logic/GameState.cs:309-314 | registering n bombs adds exactly n entries under the n consecutive counter values, keeps every earlier entry and keeps the store valid: ids never collide |
| Logic.GameState.constructor | Assets/Scripts/Logic/GameState.cs:80-108 | the fields hold `InitialStore()` |
| Logic.GameState.SetPlayerVisibleToEnemy | Assets/Scripts/Logic/GameState.cs:142-146 | the new state is `SetPlayerVisibleToEnemy` of the old one |
| Logic.GameState.SetPlayerHit | Assets/Scripts/Logic/GameState.cs:148-159 | the new state is `Store.SetPlayerHit` of the old one, so the event is raised on every true |
| Logic.GameState.SetPlayerShieldHit | Assets/Scripts/Logic/GameState.cs:161-172 | the new state is `Store.SetPlayerShieldHit` of the old one |
| Logic.GameState.SetEnemyHit | Assets/Scripts/Logic/GameState.cs:174-185 | the new state is `Store.SetEnemyHit` of the old one |
| Logic.GameState.SetEnemyShieldHit | Assets/Scripts/Logic/GameState.cs:187-198 | the new state is `Store.SetEnemyShieldHit` of the old one |
| Logic.GameState.SetEnemyActive | Assets/Scripts/Logic/GameState.cs:200-210 | the new state is `Store.SetEnemyActive` of the old one, so the event is raised only on a change |
| Logic.GameState.SetPlayerID | Assets/Scripts/Logic/GameState.cs:212-216 | the id is stored as written |
| Logic.GameState.SetPlayerCurrentHealth | Assets/Scripts/Logic/GameState.cs:218-222 | the new state is the old one with the clamped health |
| Logic.GameState.SetPlayerCurrentShield | Assets/Scripts/Logic/GameState.cs:224-228 | the new state is the old one with the clamped shield HP |
| Logic.GameState.SetEnemyCurrentHealth | Assets/Scripts/Logic/GameState.cs:230-234 | the enemy's clamped health |
| Logic.GameState.SetEnemyCurrentShield | Assets/Scripts/Logic/GameState.cs:236-240 | the enemy's clamped shield HP |
| Logic.GameState.SetPlayerScore | Assets/Scripts/Logic/GameState.cs:242-246 | the local score, unclamped |
| Logic.GameState.SetEnemyScore | Assets/Scripts/Logic/GameState.cs:248-252 | the enemy score, unclamped |
| Logic.GameState.SetPlayerShieldCount | Assets/Scripts/Logic/GameState.cs:254-258 | the clamped local shield count |
| Logic.GameState.SetPlayerBulletCount | Assets/Scripts/Logic/GameState.cs:260-264 | the clamped local bullet count |
| Logic.GameState.SetPlayerBombCount | Assets/Scripts/Logic/GameState.cs:266-270 | the clamped local bomb count |
| Logic.GameState.SetEnemyShieldCount | Assets/Scripts/Logic/GameState.cs:272-276 | the clamped enemy shield count |
| Logic.GameState.SetEnemyBulletCount | Assets/Scripts/Logic/GameState.cs:278-282 | the clamped enemy bullet count |
| Logic.GameState.SetEnemyBombCount | Assets/Scripts/Logic/GameState.cs:284-288 | the clamped enemy bomb count |
| Logic.GameState.SetEnemyCoordinateTransform | Assets/Scripts/Logic/GameState.cs:290-294 | the transform reference is stored as given |
| Logic.GameState.SetPlayerInBombCount | Assets/Scripts/Logic/GameState.cs:296-300 | the local in-bomb count, clamped to [0, 999] |
| Logic.GameState.SetEnemyInBombCount | Assets/Scripts/Logic/GameState.cs:301-305 | the enemy in-bomb count, clamped to [0, 999] |
| Logic.GameState.RegisterBomb | Assets/Scripts/Logic/GameState.cs:309-314 | returns the counter's old value, an id not yet in the registry; the new state is `Store.RegisterBomb` of the old one |
| Logic.GameState.UpdateBombPosition | Assets/Scripts/Logic/GameState.cs:317-325 | an unknown id changes nothing; a known one is moved and then the enemy's in-bomb count is recounted (when there is an enemy transform) |
| Logic.GameState.UpdateEnemyInBombCount | Assets/Scripts/Logic/GameState.cs:328-345 | without an enemy transform nothing changes; otherwise `EnemyInBombCount` becomes the number of registered bombs within range, and nothing else changes |
| Logic.GameState.ClearAllBombs | Assets/Scripts/Logic/GameState.cs:348-352 | the new state is `Store.ClearAllBombs` of the old one |
| Logic.GameState.IncrementBombCount | Assets/Scripts/Logic/GameState.cs:357-360 | the new state is `Store.IncrementBombCount` of the old one |
| Logic.GameState.DecrementBombCount | Assets/Scripts/Logic/GameState.cs:362-365 | the new state is `Store.DecrementBombCount` of the old one |
| Logic.GameState.IncrementShieldCount | Assets/Scripts/Logic/GameState.cs:367-370 | the new state is `Store.IncrementShieldCount` of the old one |
| Logic.GameState.DecrementShieldCount | Assets/Scripts/Logic/GameState.cs:372-375 | the new state is `Store.DecrementShieldCount` of the old one |
| Logic.GameState.IncrementBulletCount | Assets/Scripts/Logic/GameState.cs:377-380 | the new state is `Store.IncrementBulletCount` of the old one |
| Logic.GameState.DecrementBulletCount | Assets/Scripts/Logic/GameState.cs:382-385 | the new state is `Store.DecrementBulletCount` of the old one |
| Logic.GameState.PlayerReload | Assets/Scripts/Logic/GameState.cs:387-391 | the new state is `Store.PlayerReload` of the old one |
| Logic.GameState.EnemyReload | Assets/Scripts/Logic/GameState.cs:393-396 | the new state is `Store.EnemyReload` of the old one |
| Logic.GameState.HandleGameAction | Assets/Scripts/Logic/GameState.cs:402-407 | the action string is announced unchanged on the local channel and nothing else changes |
| Logic.GameState.HandleEnemyGameAction | Assets/Scripts/Logic/GameState.cs:409-414 | the action string is announced unchanged on the enemy channel and nothing else changes |
| CommsSpec.GameStateData.Swapped | Assets/Scripts/Communications/MQTTCommsManager.cs:322-323 | a helper of `MergeSwapSymmetric`, not an operation of the source: the snapshot with p1 and p2 exchanged |
| CommsSpec.WriteLocalVitals | Assets/Scripts/Communications/MQTTCommsManager.cs:328-331 | the local player's health, bullets, bombs and shield HP are the snapshot's, clamped; nothing else changes |
| CommsSpec.WriteEnemyVitals | Assets/Scripts/Communications/MQTTCommsManager.cs:351-354 | the enemy's health, bullets, bombs and shield HP are the snapshot's, clamped; nothing else changes |
| CommsSpec.CompleteLocal | Assets/Scripts/Communications/MQTTCommsManager.cs:326-334 | the local writes of a complete merge: the four vitals, the score from the opponent's deaths, the shield count |
| CommsSpec.CompleteEnemy | Assets/Scripts/Communications/MQTTCommsManager.cs:349-359 | the enemy writes: the four vitals, the score from the local deaths, the shield count, the hit flags from the local half's opponent_hit / opponent_shield_hit, raising their events when true |
| CommsSpec.CompleteMerge | Assets/Scripts/Communications/MQTTCommsManager.cs:317-360 | a snapshot with both halves: exactly the player, enemy and log change, as above; the log only grows, and only by enemy hit events; validity is kept |
| CommsSpec.MergeSnapshot | Assets/Scripts/Communications/MQTTCommsManager.cs:317-360 | only player, enemy and log change; validity is kept; the merge completes exactly when both halves or neither are present; the log grows only by enemy hit events |
| CommsSpec.SnapshotFor | Assets/Scripts/Communications/MQTTCommsManager.cs:322-323 | for id 1 the local half is p1 and the enemy half p2; for any other id the reverse |
| CommsSpec.MergeCompleteSnapshot | Assets/Scripts/Communications/MQTTCommsManager.cs:322-359 | a snapshot with both halves is merged completely, whatever the local id |
| CommsSpec.MergeHalfSnapshot | Assets/Scripts/Communications/MQTTCommsManager.cs:326-355 | with one half missing, only the present half's four vitals are written and the merge does not complete |
| CommsSpec.MergeSwapSymmetric | Assets/Scripts/Communications/MQTTCommsManager.cs:322-323 | player 1 receiving a snapshot and any other player receiving it swapped end in the same state |
| CommsSpec.MergeTwiceSameStats | Assets/Scripts/Communications/MQTTCommsManager.cs:317-360 | merging the same complete snapshot twice leaves every stat as after the first merge; only the log grows |
| CommsSpec.MarkHit | Assets/Scripts/Communications/MQTTCommsManager.cs:274-294 | with hit true, PlayerHit is set for the opponent's action and EnemyHit for the local one, raising its event; with hit false nothing changes |
| CommsSpec.Dispatch | Assets/Scripts/Communications/MQTTCommsManager.cs:296-307 | exactly one event is appended: the action string unchanged, on the enemy channel iff `player_id != PlayerID` |
| CommsSpec.ApplyAction | Assets/Scripts/Communications/MQTTCommsManager.cs:271-314 | `ProcessActionMessage` keeps the player id and the store's validity |
| CommsSpec.ActionStepAttribution | Assets/Scripts/Communications/MQTTCommsManager.cs:274-307 | the hit and dispatch steps together: exactly one hit flag on a hit, none otherwise, then exactly one channel event, and nothing else changes |
| CommsSpec.ActionWithoutSnapshot | Assets/Scripts/Communications/MQTTCommsManager.cs:310-313 | an action without a snapshot completes after the hit and dispatch steps |
| CommsSpec.ActionOf | Assets/Scripts/Communications/MQTTCommsManager.cs:238-245 | a payload is an action exactly when it decodes as one with a non-empty action string |
| CommsSpec.StateTrial | Assets/Scripts/Communications/MQTTCommsManager.cs:252-267 | the second trial keeps the player id and validity |
| CommsSpec.ProcessPayload | Assets/Scripts/Communications/MQTTCommsManager.cs:231-268 | processing a payload keeps the player id and validity |
| CommsSpec.UnrecognisedPayloadIsIgnored | Assets/Scripts/Communications/MQTTCommsManager.cs:231-268 | a payload that is neither an action nor a non-null snapshot changes nothing |
| CommsSpec.SnapshotPayloadMerges | Assets/Scripts/Communications/MQTTCommsManager.cs:252-262 | a bare snapshot payload is merged |
| CommsSpec.ActionPayloadTakesActionPath | Assets/Scripts/Communications/MQTTCommsManager.cs:235-245 | an action payload whose snapshot merge completes takes only the action path |
| CommsSpec.Drain | Assets/Scripts/Communications/MQTTCommsManager.cs:116-123 | the drain keeps the player id and validity |
| CommsSpec.DrainAppend | Assets/Scripts/Communications/MQTTCommsManager.cs:116-123 | draining q1 + q2 is draining q1 and then q2: first in, first out |
| CommsSpec.MergeKeepsChannelEvents | Assets/Scripts/Communications/MQTTCommsManager.cs:317-360 | a snapshot merge announces no action |
| CommsSpec.StateTrialKeepsChannelEvents | Assets/Scripts/Communications/MQTTCommsManager.cs:252-267 | the snapshot trial announces no action |
| CommsSpec.ProcessPayloadChannelEvents | Assets/Scripts/Communications/MQTTCommsManager.cs:231-314 | processing a payload announces exactly its own action, once, on its sender's channel, and nothing for a non-action payload |
| CommsSpec.VisibilityReply | Assets/Scripts/Communications/MQTTCommsManager.cs:363-377 | a reply is published exactly when the client is connected |
| CommsSpec.AnswerVisibilityRequest | Assets/Scripts/Communications/MQTTCommsManager.cs:209-228 | a reply is sent exactly when connected and the request decodes and names the local player id |
| CommsSpec.VisibilityPayloadRoundTrip | Assets/Scripts/Communications/MQTTCommsManager.cs:368 | the reply string reads back into the id, visibility and bomb count it was built from |
| CommsSpec.VisibilityPayloadInjective | Assets/Scripts/Communications/MQTTCommsManager.cs:368 | different reports give different reply strings |
| CommsSpec.AnsweredRequestReports | Assets/Scripts/Communications/MQTTCommsManager.cs:218-222 | an answered request carries the local id, `EnemyActive` and `EnemyInBombCount` |
| Decimal.NatToString | Assets/Scripts/Communications/MQTTCommsManager.cs:368 | a non-empty digit string with no leading zero |
| Decimal.IntToString | Assets/Scripts/Communications/MQTTCommsManager.cs:368 | numeric characters only, with a leading '-' exactly for a negative number |
| Decimal.ParseIntToString | Assets/Scripts/Communications/MQTTCommsManager.cs:368 | parsing inverts the rendering of every integer |
| Decimal.IntToStringInjective | Assets/Scripts/Communications/MQTTCommsManager.cs:368 | different integers render differently |
| Communications.MQTTCommsManager.constructor | Assets/Scripts/Communications/MQTTCommsManager.cs:68 | the queue starts empty |
| Communications.MQTTCommsManager.DecodeMessage | Assets/Scripts/Communications/MQTTCommsManager.cs:192-206 | a visibility request is answered at once and never queued; any other payload is appended to the end of the queue and nothing else happens |
| Communications.MQTTCommsManager.ProcessVisibilityRequest | Assets/Scripts/Communications/MQTTCommsManager.cs:209-228 | publishes `AnswerVisibilityRequest`, and what it publishes reads back as the current report |
| Communications.MQTTCommsManager.SendPlayerVisibilityMessage | Assets/Scripts/Communications/MQTTCommsManager.cs:363-377 | publishes the reply when connected, and the string reads back as (PlayerID, EnemyActive, EnemyInBombCount) |
| Communications.MQTTCommsManager.Update | Assets/Scripts/Communications/MQTTCommsManager.cs:116-123 | every queued payload is processed in arrival order (the state is `Drain` of the old state and queue), and the queue ends empty |
| Communications.MQTTCommsManager.ProcessMessage | Assets/Scripts/Communications/MQTTCommsManager.cs:231-268 | the new state is `ProcessPayload` of the old one |
| Communications.MQTTCommsManager.ProcessActionMessage | Assets/Scripts/Communications/MQTTCommsManager.cs:271-314 | the new state and whether it completed are `ApplyAction` of the old state |
| Communications.MQTTCommsManager.ProcessGameStateMessage | Assets/Scripts/Communications/MQTTCommsManager.cs:317-360 | a null snapshot changes nothing; otherwise the new state and whether it completed are `MergeSnapshot` of the old state |
| BombOccupancy.Inside | Assets/Scripts/AR/Bomb/PlayerSnowBombCollider.cs:15 | the bombs whose tracked flag is true |
| BombOccupancy.InsideAfterSet | Assets/Scripts/AR/Bomb/PlayerSnowBombCollider.cs:84-103 | setting a flag moves the inside count by +1 on false to true, -1 on true to false, 0 otherwise |
| BombOccupancy.InsideAfterRemove | Assets/Scripts/AR/Bomb/PlayerSnowBombCollider.cs:62-70 | dropping a bomb lowers the inside count by one exactly when its flag was true |
| BombOccupancy.Retain | Assets/Scripts/AR/Bomb/PlayerSnowBombCollider.cs:52-70 | exactly the tracked bombs still in the scene, with their flags |
| BombOccupancy.Refreshed | Assets/Scripts/AR/Bomb/PlayerSnowBombCollider.cs:73-111 | exactly the bombs in the scene, each flagged by its distance test |
| BombOccupancy.RefreshedInside | Assets/Scripts/AR/Bomb/PlayerSnowBombCollider.cs:73-111 | after a full pass the bombs flagged inside are those in the scene whose test holds |
| BombOccupancy.Pass | Assets/Scripts/AR/Bomb/PlayerSnowBombCollider.cs:73-111 | partway through the pass the tracker holds the retained bombs and the evaluated ones |
| BombOccupancy.PassStart | Assets/Scripts/AR/Bomb/PlayerSnowBombCollider.cs:72-73 | the pass starts from the retained tracker |
| BombOccupancy.PassStep | Assets/Scripts/AR/Bomb/PlayerSnowBombCollider.cs:79-90 | evaluating the next bomb sets its flag to its test; a bomb met for the first time starts from false or its retained flag |
| BombOccupancy.PassEnd | Assets/Scripts/AR/Bomb/PlayerSnowBombCollider.cs:73-118 | at the end of the pass the tracker is `Refreshed` |
| BombOccupancy.AnyTransitionStep | Assets/Scripts/AR/Bomb/PlayerSnowBombCollider.cs:84-88 | the pass so far flips some flag exactly when an earlier bomb did or this bomb, met for the first time, does |
| Bomb.PlayerSnowBombCollider.constructor | Assets/Scripts/AR/Bomb/PlayerSnowBombCollider.cs:14-16 | an empty tracker and a zero count |
| Bomb.PlayerSnowBombCollider.DropVanishedBombs | Assets/Scripts/AR/Bomb/PlayerSnowBombCollider.cs:52-70 | the tracker keeps exactly the bombs still in the scene, and the count stays the number of flags that are true |
| Bomb.PlayerSnowBombCollider.TrackBomb | Assets/Scripts/AR/Bomb/PlayerSnowBombCollider.cs:78-111 | the bomb's flag becomes its test; the count only moves on a flip; `PlayerInBombCount` is written exactly on a flip |
| Bomb.PlayerSnowBombCollider.EvaluateBombs | Assets/Scripts/AR/Bomb/PlayerSnowBombCollider.cs:73-118 | after the per-bomb loop the tracker is `Refreshed`; the count equals the true flags; `PlayerInBombCount` holds the final count exactly when some flag flipped, and is untouched otherwise |
| Bomb.PlayerSnowBombCollider.Update | Assets/Scripts/AR/Bomb/PlayerSnowBombCollider.cs:36-119 | without a camera nothing changes; otherwise the tracker is exactly the scene's bombs with their tests, the count equals the true flags, and the game state is written exactly when a flag flipped |
| Bomb.PlayerSnowBombCollider.ResetBombCounter | Assets/Scripts/AR/Bomb/PlayerSnowBombCollider.cs:143-154 | an empty tracker, a zero count, and `PlayerInBombCount` 0 when there is a game state |
| Bomb.PlayerSnowBombCollider.OnDisable | Assets/Scripts/AR/Bomb/PlayerSnowBombCollider.cs:121-131 | resets only when there is a game state and the count is positive; otherwise nothing changes |
| Bomb.EnemySnowBombCollider.constructor | Assets/Scripts/AR/Bomb/EnemySnowBombCollider.cs:14-17 | an empty tracker, a zero count, no enemy transform |
| Bomb.EnemySnowBombCollider.DropVanishedBombs | Assets/Scripts/AR/Bomb/EnemySnowBombCollider.cs:44-62 | the tracker keeps exactly the bombs still in the scene, and the count stays the number of flags that are true |
| Bomb.EnemySnowBombCollider.TrackBomb | Assets/Scripts/AR/Bomb/EnemySnowBombCollider.cs:73-103 | the bomb's flag becomes its test; the count only moves on a flip; `EnemyInBombCount` is written exactly on a flip |
| Bomb.EnemySnowBombCollider.EvaluateBombs | Assets/Scripts/AR/Bomb/EnemySnowBombCollider.cs:65-110 | after the per-bomb loop the tracker is `Refreshed`, the count equals the true flags, and `EnemyInBombCount` holds the final count exactly when some flag flipped |
| Bomb.EnemySnowBombCollider.Update | Assets/Scripts/AR/Bomb/EnemySnowBombCollider.cs:32-111 | without a game state nothing changes; without an enemy transform the first bomb throws after the vanished bombs are dropped; otherwise as for the player, writing `EnemyInBombCount` |
| Bomb.EnemySnowBombCollider.ResetBombCounter | Assets/Scripts/AR/Bomb/EnemySnowBombCollider.cs:134-145 | an empty tracker, a zero count, and `EnemyInBombCount` 0 when there is a game state |
| Bomb.EnemySnowBombCollider.OnDisable | Assets/Scripts/AR/Bomb/EnemySnowBombCollider.cs:113-123 | resets only when there is a game state and the count is positive; otherwise nothing changes |
| ProjectilePhysics.Recorded | Assets/Scripts/AR/ARLogic/ProjectilePhysics/ProjectileTrailRenderer.cs:37-44 | one recording keeps a suffix of the old trail plus the new point, grows by one unless it overflows, ends with the new point, and never exceeds `max(maxTrailPoints, 0)` from within it |
| ProjectilePhysics.RecordedWithinBound | Assets/Scripts/AR/ARLogic/ProjectilePhysics/ProjectileTrailRenderer.cs:39 | a recording that fits appends the point and keeps every earlier one |
| ProjectilePhysics.RecordedOverflowDropsOldest | Assets/Scripts/AR/ARLogic/ProjectilePhysics/ProjectileTrailRenderer.cs:40-43 | on overflow exactly the element at index 0 goes and the rest keep their order |
| ProjectilePhysics.RecordedKeepsLastN | Assets/Scripts/AR/ARLogic/ProjectilePhysics/ProjectileTrailRenderer.cs:37-44 | recording into the last points of a history gives the last points of the extended history |
| ProjectilePhysics.RecordAllKeepsLastN | Assets/Scripts/AR/ARLogic/ProjectilePhysics/ProjectileTrailRenderer.cs:37-44 | after any number of recordings the trail is the last `min(n, max(maxTrailPoints, 0))` positions, in recording order |
| ProjectilePhysics.RecordAllFromEmpty | Assets/Scripts/AR/ARLogic/ProjectilePhysics/ProjectileTrailRenderer.cs:37-44 | from an empty trail: the last recorded positions, never more than the maximum |
| ProjectilePhysics.ProjectileTrailRenderer.constructor | Assets/Scripts/AR/ARLogic/ProjectilePhysics/ProjectileTrailRenderer.cs:9-14 | an empty trail and a zero accumulator with the given settings |
| ProjectilePhysics.ProjectileTrailRenderer.Default | Assets/Scripts/AR/ARLogic/ProjectilePhysics/ProjectileTrailRenderer.cs:9-14 | the serialized defaults: 15 points, 50 ms |
| ProjectilePhysics.ProjectileTrailRenderer.Update | Assets/Scripts/AR/ARLogic/ProjectilePhysics/ProjectileTrailRenderer.cs:25-34 | a point is recorded exactly when the accumulated time reaches the interval, and the accumulator then restarts from 0; otherwise only the accumulator grows |
| ProjectilePhysics.ProjectileTrailRenderer.RecordTrailPoint | Assets/Scripts/AR/ARLogic/ProjectilePhysics/ProjectileTrailRenderer.cs:37-44 | the trail becomes `Recorded` of the old one, stays the last recorded positions, is within the maximum, and ends with the new position |

## Left out

- MQTT transport: `Connect`, `SubscribeTopics`, `client.Publish`, the TLS protocol listing, `IsNetworkAvailable`, `OnConnected`/`OnConnectionFailed` and the `M2MqttUnityClient` base class are I/O and a foreign library. Whether the client is connected is an input.
- `JsonUtility.FromJson` is not modelled. The three decoders are parameters that give a record or `None` (a parse that throws). A JSON `null` nested record is `None`, and a null `action` string is the empty string.
- UTF-8 decoding of the raw bytes in `DecodeMessage`: the payload is taken as a string.
- Threading between the broker callback (`DecodeMessage`) and the frame loop (`Update`): the queue is modelled sequentially.
- The connection flags (`MqConnected`, `ActionQueueConnected`, `StatusUpdateConnected`, `PredictionConnected`), `HandlePredictionMessage` and the prediction event are plain stores or an event nobody in the modelled core raises.
- Device-status tracking: the router handles no such topic, so there is nothing to model.
- GameStateSpec.Store.RegisterBomb: the id counter is an unbounded integer. C#'s 32-bit `nextEnemyBombId++` wraps after 2^31 registrations, and after 2^32 an id repeats and `Dictionary.Add` throws. The fresh-id claims of `RegisterBomb`, `Logic.GameState.RegisterBomb` and `RegisterAllFreshIds` hold only below that many registrations.
- ProjectilePhysics.ProjectileTrailRenderer: `maxTrailPoints` and `recordInterval` are public fields the inspector or another script may change at run time; the model fixes them at construction. A maximum lowered below the current length would leave the list over the new bound for some recordings, since only one point is dropped per recording. `Valid` does not describe that state.
- `Vector3.Distance` tests (in the colliders and `UpdateEnemyInBombCount`) are floating-point: each is a boolean function of the bomb.
- `Time.deltaTime` accumulates seconds as a float: the trail counts whole milliseconds (the default interval of 0.05 s is 50 ms), so float rounding of the accumulator is not modelled.
- `RenderTrail` and the `LineRenderer` it drives are rendering.
- Debug logging, gizmos and the periodic distance log are output only.
- Unity object identity: bombs are integer ids, the main camera lookup is a boolean input, and `Awake`'s singleton handling is not modelled.
- `int.ToString()` is modelled in the invariant-culture form (an optional '-' and digits).
- Animation, UI, AR tracking and projectile launch physics are outside the modelled core.
- CommsSpec.ApplyAction: its own contract states only that the player id and validity are kept. The hit and dispatch steps are stated by `ActionStepAttribution`, and the merge by `MergeSnapshot`.
- Communications.MQTTCommsManager.Update: the per-payload announcement of actions is proved for one payload (`ProcessPayloadChannelEvents`), and draining is proved first in, first out (`DrainAppend`). The combined statement over a whole queue is not stated as one lemma.
