/**
 * The two snow-bomb occupancy trackers. Each keeps a per-bomb inside/outside tracker and a running
 * count that moves only on enter and exit transitions, and copies the count into the game state
 * (PlayerInBombCount or EnemyInBombCount) when a transition happens.
 *
 * The scene query `FindGameObjectsWithTag` is an input (`snowbombs`, bomb ids in scene order), and
 * so is each bomb's distance test (`inside`, "distance <= detectionRadius").
 */
module Bomb {

  import opened GameStateSpec
  import opened Logic
  import opened BombOccupancy
  import opened Sets

  /** Tracks the bombs the local player (the camera) stands in. */
  class PlayerSnowBombCollider {
    const gameState: GameState?
    var bombStatusTracker: Tracker
    var currentInBombCount: int

    /** The count is the number of tracked bombs flagged inside. */
    ghost predicate Valid()
      reads this
    {
      currentInBombCount == |Inside(bombStatusTracker)|
    }

    constructor (gameState: GameState?)
      ensures Valid() && this.gameState == gameState
      ensures bombStatusTracker == map[] && currentInBombCount == 0
    {
      this.gameState := gameState;
      bombStatusTracker := map[];
      currentInBombCount := 0;
    }

    /**
     * The first half of `Update`: collects the tracked bombs that are no longer in the scene,
     * then drops them, lowering the count for each one the player was inside.
     */
    method DropVanishedBombs(snowbombs: seq<int>)
      requires Valid()
      modifies this
      ensures Valid()
      ensures bombStatusTracker == Retain(old(bombStatusTracker), snowbombs)
    {
      var bombsToRemove: seq<int> := [];
      var keys := bombStatusTracker.Keys;
      while keys != {}
        invariant keys <= bombStatusTracker.Keys
        invariant forall k :: 0 <= k < |bombsToRemove| ==>
          bombsToRemove[k] in bombStatusTracker && bombsToRemove[k] !in keys && bombsToRemove[k] !in snowbombs
        invariant forall b :: b in bombStatusTracker && b !in keys && b !in snowbombs ==> b in bombsToRemove
        invariant forall j, k :: 0 <= j < k < |bombsToRemove| ==> bombsToRemove[j] != bombsToRemove[k]
        modifies {}
        decreases keys
      {
        NonEmptyHasMember(keys);
        var bomb :| bomb in keys;
        if bomb !in snowbombs {
          bombsToRemove := bombsToRemove + [bomb];
        }
        keys := keys - {bomb};
      }

      ghost var t0 := bombStatusTracker;
      for i := 0 to |bombsToRemove|
        invariant Valid()
        invariant forall b :: b in bombStatusTracker <==> b in t0 && b !in bombsToRemove[..i]
        invariant forall b :: b in bombStatusTracker ==> bombStatusTracker[b] == t0[b]
      {
        var bomb := bombsToRemove[i];
        assert bomb !in bombsToRemove[..i];
        InsideAfterRemove(bombStatusTracker, bomb);
        if bombStatusTracker[bomb] {
          currentInBombCount := currentInBombCount - 1;
        }
        bombStatusTracker := bombStatusTracker - {bomb};
        assert bombsToRemove[..i + 1] == bombsToRemove[..i] + [bomb];
      }
      assert bombsToRemove[..|bombsToRemove|] == bombsToRemove;
      forall b ensures b in bombStatusTracker <==> b in t0 && b in snowbombs {
        if b in t0 && b !in snowbombs {
          assert b in bombsToRemove;
        }
      }
      ghost var r := Retain(t0, snowbombs);
      assert bombStatusTracker.Keys == r.Keys;
      assert forall b :: b in r ==> bombStatusTracker[b] == r[b];
    }

    /**
     * The body of the per-bomb loop: a bomb seen for the first time is tracked as outside; then,
     * if its flag differs from the distance test, the flag flips, the count moves by one and the
     * count is copied into PlayerInBombCount.
     */
    method TrackBomb(bomb: int, isInBomb: bool)
      requires Valid()
      requires gameState != null ==> gameState.Valid()
      modifies this`bombStatusTracker, this`currentInBombCount, gameState
      ensures Valid()
      ensures gameState != null ==> gameState.Valid()
      ensures bombStatusTracker == old(bombStatusTracker)[bomb := isInBomb]
      ensures Flag(old(bombStatusTracker), bomb) == isInBomb ==> currentInBombCount == old(currentInBombCount)
      ensures gameState != null ==>
        gameState.View() == (if Flag(old(bombStatusTracker), bomb) != isInBomb
         then old(gameState.View()).SetPlayerInBombCount(currentInBombCount)
         else old(gameState.View()))
    {
      if bomb !in bombStatusTracker {
        InsideAfterSet(bombStatusTracker, bomb, false);
        bombStatusTracker := bombStatusTracker[bomb := false];
      }
      var wasInBomb := bombStatusTracker[bomb];
      if wasInBomb != isInBomb {
        InsideAfterSet(bombStatusTracker, bomb, isInBomb);
        bombStatusTracker := bombStatusTracker[bomb := isInBomb];
        if isInBomb {
          currentInBombCount := currentInBombCount + 1;
        } else {
          currentInBombCount := currentInBombCount - 1;
        }
        if gameState != null {
          gameState.SetPlayerInBombCount(currentInBombCount);
        }
      }
    }

    /**
     * The per-bomb loop of `Update`: every bomb in the scene is evaluated in turn. `t0` is the
     * tracker as the frame found it.
     */
    method EvaluateBombs(ghost t0: Tracker, snowbombs: seq<int>, inside: int -> bool)
      requires Valid()
      requires gameState != null ==> gameState.Valid()
      requires bombStatusTracker == Retain(t0, snowbombs)
      modifies this`bombStatusTracker, this`currentInBombCount, gameState
      ensures Valid()
      ensures gameState != null ==> gameState.Valid()
      ensures bombStatusTracker == Refreshed(snowbombs, inside)
      ensures gameState != null ==>
        gameState.View() == (if AnyTransition(t0, snowbombs, inside)
          then old(gameState.View()).SetPlayerInBombCount(currentInBombCount)
          else old(gameState.View()))
    {
      PassStart(t0, snowbombs, inside);
      for i := 0 to |snowbombs|
        invariant Valid()
        invariant gameState != null ==> gameState.Valid()
        invariant bombStatusTracker == Pass(t0, snowbombs[..i], snowbombs, inside)
        invariant gameState != null ==>
          gameState.View() == (if AnyTransition(t0, snowbombs[..i], inside)
            then old(gameState.View()).SetPlayerInBombCount(currentInBombCount)
            else old(gameState.View()))
      {
        var bomb := snowbombs[i];
        PassStep(t0, snowbombs, i, inside);
        AnyTransitionStep(t0, snowbombs, i, inside);
        TrackBomb(bomb, inside(bomb));
      }
      assert snowbombs[..|snowbombs|] == snowbombs;
      PassEnd(t0, snowbombs, inside);
    }

    /**
     * One frame. Without a camera nothing happens. Otherwise the vanished bombs are dropped and
     * every bomb in the scene is evaluated: afterwards the tracker holds exactly the bombs in the
     * scene, each flagged by its distance test, and PlayerInBombCount has been written (with the
     * final count) exactly when some bomb's flag flipped during the pass.
     */
    method Update(cameraFound: bool, snowbombs: seq<int>, inside: int -> bool)
      requires Valid()
      requires gameState != null ==> gameState.Valid()
      modifies this, gameState
      ensures Valid()
      ensures gameState != null ==> gameState.Valid()
      ensures !cameraFound ==> bombStatusTracker == old(bombStatusTracker)
      ensures !cameraFound && gameState != null ==> gameState.View() == old(gameState.View())
      ensures cameraFound ==> bombStatusTracker == Refreshed(snowbombs, inside)
      ensures cameraFound && gameState != null ==>
        gameState.View() == (if AnyTransition(old(bombStatusTracker), snowbombs, inside)
          then old(gameState.View()).SetPlayerInBombCount(currentInBombCount)
          else old(gameState.View()))
    {
      if !cameraFound {
        return;
      }
      ghost var t0 := bombStatusTracker;
      DropVanishedBombs(snowbombs);
      EvaluateBombs(t0, snowbombs, inside);
    }

    /** Forgets every bomb and zeroes both counts. */
    method ResetBombCounter()
      requires gameState != null ==> gameState.Valid()
      modifies this, gameState
      ensures Valid()
      ensures bombStatusTracker == map[] && currentInBombCount == 0
      ensures gameState != null ==> gameState.Valid() && gameState.View() == old(gameState.View()).SetPlayerInBombCount(0)
    {
      bombStatusTracker := map[];
      currentInBombCount := 0;
      if gameState != null {
        gameState.SetPlayerInBombCount(0);
      }
    }

    /** Resets like `ResetBombCounter`, but only when there is a game state and the count is positive. */
    method OnDisable()
      requires Valid()
      requires gameState != null ==> gameState.Valid()
      modifies this, gameState
      ensures Valid()
      ensures gameState != null ==> gameState.Valid()
      ensures old(gameState != null && currentInBombCount > 0) ==>
        bombStatusTracker == map[] && currentInBombCount == 0
        && gameState.View() == old(gameState.View()).SetPlayerInBombCount(0)
      ensures !old(gameState != null && currentInBombCount > 0) ==>
        bombStatusTracker == old(bombStatusTracker) && currentInBombCount == old(currentInBombCount)
        && (gameState != null ==> gameState.View() == old(gameState.View()))
    {
      if gameState != null && currentInBombCount > 0 {
        bombStatusTracker := map[];
        currentInBombCount := 0;
        gameState.SetPlayerInBombCount(0);
      }
    }
  }

  /** Tracks the bombs the opponent stands in, measured from the enemy transform the game state holds. */
  class EnemySnowBombCollider {
    const gameState: GameState?
    var enemyTransform: UnityTypes.Transform?
    var bombStatusTracker: Tracker
    var currentEnemyInBombCount: int

    /** The count is the number of tracked bombs flagged inside. */
    ghost predicate Valid()
      reads this
    {
      currentEnemyInBombCount == |Inside(bombStatusTracker)|
    }

    constructor (gameState: GameState?)
      ensures Valid() && this.gameState == gameState
      ensures bombStatusTracker == map[] && currentEnemyInBombCount == 0 && enemyTransform == null
    {
      this.gameState := gameState;
      enemyTransform := null;
      bombStatusTracker := map[];
      currentEnemyInBombCount := 0;
    }

    /** The first half of `Update`, as for the player's collider. */
    method DropVanishedBombs(snowbombs: seq<int>)
      requires Valid()
      modifies this
      ensures Valid()
      ensures bombStatusTracker == Retain(old(bombStatusTracker), snowbombs)
      ensures enemyTransform == old(enemyTransform)
    {
      var bombsToRemove: seq<int> := [];
      var keys := bombStatusTracker.Keys;
      while keys != {}
        invariant keys <= bombStatusTracker.Keys
        invariant forall k :: 0 <= k < |bombsToRemove| ==>
          bombsToRemove[k] in bombStatusTracker && bombsToRemove[k] !in keys && bombsToRemove[k] !in snowbombs
        invariant forall b :: b in bombStatusTracker && b !in keys && b !in snowbombs ==> b in bombsToRemove
        invariant forall j, k :: 0 <= j < k < |bombsToRemove| ==> bombsToRemove[j] != bombsToRemove[k]
        modifies {}
        decreases keys
      {
        NonEmptyHasMember(keys);
        var bomb :| bomb in keys;
        if bomb !in snowbombs {
          bombsToRemove := bombsToRemove + [bomb];
        }
        keys := keys - {bomb};
      }

      ghost var t0 := bombStatusTracker;
      for i := 0 to |bombsToRemove|
        invariant Valid()
        invariant enemyTransform == old(enemyTransform)
        invariant forall b :: b in bombStatusTracker <==> b in t0 && b !in bombsToRemove[..i]
        invariant forall b :: b in bombStatusTracker ==> bombStatusTracker[b] == t0[b]
      {
        var bomb := bombsToRemove[i];
        assert bomb !in bombsToRemove[..i];
        InsideAfterRemove(bombStatusTracker, bomb);
        if bombStatusTracker[bomb] {
          currentEnemyInBombCount := currentEnemyInBombCount - 1;
        }
        bombStatusTracker := bombStatusTracker - {bomb};
        assert bombsToRemove[..i + 1] == bombsToRemove[..i] + [bomb];
      }
      assert bombsToRemove[..|bombsToRemove|] == bombsToRemove;
      forall b ensures b in bombStatusTracker <==> b in t0 && b in snowbombs {
        if b in t0 && b !in snowbombs {
          assert b in bombsToRemove;
        }
      }
      ghost var r := Retain(t0, snowbombs);
      assert bombStatusTracker.Keys == r.Keys;
      assert forall b :: b in r ==> bombStatusTracker[b] == r[b];
    }

    /** The body of the per-bomb loop; a transition always writes EnemyInBombCount. */
    method TrackBomb(bomb: int, isInBomb: bool)
      requires Valid()
      requires gameState != null && gameState.Valid()
      modifies this`bombStatusTracker, this`currentEnemyInBombCount, gameState
      ensures Valid() && gameState.Valid()
      ensures bombStatusTracker == old(bombStatusTracker)[bomb := isInBomb]
      ensures Flag(old(bombStatusTracker), bomb) == isInBomb ==> currentEnemyInBombCount == old(currentEnemyInBombCount)
      ensures gameState.View() ==
        if Flag(old(bombStatusTracker), bomb) != isInBomb
        then old(gameState.View()).SetEnemyInBombCount(currentEnemyInBombCount)
        else old(gameState.View())
    {
      if bomb !in bombStatusTracker {
        InsideAfterSet(bombStatusTracker, bomb, false);
        bombStatusTracker := bombStatusTracker[bomb := false];
      }
      var wasInBomb := bombStatusTracker[bomb];
      if wasInBomb != isInBomb {
        InsideAfterSet(bombStatusTracker, bomb, isInBomb);
        bombStatusTracker := bombStatusTracker[bomb := isInBomb];
        if isInBomb {
          currentEnemyInBombCount := currentEnemyInBombCount + 1;
        } else {
          currentEnemyInBombCount := currentEnemyInBombCount - 1;
        }
        gameState.SetEnemyInBombCount(currentEnemyInBombCount);
      }
    }

    /**
     * The second half of `Update` once the enemy transform is known: every bomb in the scene is
     * evaluated in turn. `t0` is the tracker as the frame found it.
     */
    method EvaluateBombs(ghost t0: Tracker, snowbombs: seq<int>, inside: int -> bool)
      requires Valid()
      requires gameState != null && gameState.Valid()
      requires bombStatusTracker == Retain(t0, snowbombs)
      modifies this`bombStatusTracker, this`currentEnemyInBombCount, gameState
      ensures Valid() && gameState.Valid()
      ensures bombStatusTracker == Refreshed(snowbombs, inside)
      ensures gameState.View() ==
        (if AnyTransition(t0, snowbombs, inside)
         then old(gameState.View()).SetEnemyInBombCount(currentEnemyInBombCount)
         else old(gameState.View()))
    {
      PassStart(t0, snowbombs, inside);
      for i := 0 to |snowbombs|
        invariant Valid() && gameState.Valid()
        invariant bombStatusTracker == Pass(t0, snowbombs[..i], snowbombs, inside)
        invariant gameState.View() ==
          (if AnyTransition(t0, snowbombs[..i], inside)
           then old(gameState.View()).SetEnemyInBombCount(currentEnemyInBombCount)
           else old(gameState.View()))
      {
        var bomb := snowbombs[i];
        PassStep(t0, snowbombs, i, inside);
        AnyTransitionStep(t0, snowbombs, i, inside);
        TrackBomb(bomb, inside(bomb));
      }
      assert snowbombs[..|snowbombs|] == snowbombs;
      PassEnd(t0, snowbombs, inside);
    }

    /**
     * One frame. Without a game state nothing happens. Otherwise the enemy transform is fetched
     * and the vanished bombs are dropped. With no enemy transform the first distance computation
     * throws, so a scene with bombs ends the frame there. Otherwise, as for the player's collider,
     * the tracker ends up holding exactly the bombs in the scene, and EnemyInBombCount is written
     * (with the final count) exactly when some flag flipped.
     */
    method Update(snowbombs: seq<int>, inside: int -> bool)
      requires Valid()
      requires gameState != null ==> gameState.Valid()
      modifies this, gameState
      ensures Valid()
      ensures gameState != null ==> gameState.Valid()
      ensures gameState == null ==>
        bombStatusTracker == old(bombStatusTracker) && enemyTransform == old(enemyTransform)
      ensures gameState != null ==> enemyTransform == old(gameState.enemyCoordinateTransform)
      ensures gameState != null && enemyTransform == null && snowbombs != [] ==>
        bombStatusTracker == Retain(old(bombStatusTracker), snowbombs) && gameState.View() == old(gameState.View())
      ensures gameState != null && (enemyTransform != null || snowbombs == []) ==>
        && bombStatusTracker == Refreshed(snowbombs, inside)
        && gameState.View() ==
             (if AnyTransition(old(bombStatusTracker), snowbombs, inside)
              then old(gameState.View()).SetEnemyInBombCount(currentEnemyInBombCount)
              else old(gameState.View()))
    {
      if gameState == null {
        return;
      }
      enemyTransform := gameState.enemyCoordinateTransform;
      ghost var t0 := bombStatusTracker;
      DropVanishedBombs(snowbombs);
      if enemyTransform == null && snowbombs != [] {
        // enemyTransform.position throws on the first bomb
        return;
      }
      EvaluateBombs(t0, snowbombs, inside);
    }

    /** Forgets every bomb and zeroes both counts. */
    method ResetBombCounter()
      requires gameState != null ==> gameState.Valid()
      modifies this, gameState
      ensures Valid() && enemyTransform == old(enemyTransform)
      ensures bombStatusTracker == map[] && currentEnemyInBombCount == 0
      ensures gameState != null ==> gameState.Valid() && gameState.View() == old(gameState.View()).SetEnemyInBombCount(0)
    {
      bombStatusTracker := map[];
      currentEnemyInBombCount := 0;
      if gameState != null {
        gameState.SetEnemyInBombCount(0);
      }
    }

    /** Resets like `ResetBombCounter`, but only when there is a game state and the count is positive. */
    method OnDisable()
      requires Valid()
      requires gameState != null ==> gameState.Valid()
      modifies this, gameState
      ensures Valid() && enemyTransform == old(enemyTransform)
      ensures gameState != null ==> gameState.Valid()
      ensures old(gameState != null && currentEnemyInBombCount > 0) ==>
        bombStatusTracker == map[] && currentEnemyInBombCount == 0
        && gameState.View() == old(gameState.View()).SetEnemyInBombCount(0)
      ensures !old(gameState != null && currentEnemyInBombCount > 0) ==>
        bombStatusTracker == old(bombStatusTracker) && currentEnemyInBombCount == old(currentEnemyInBombCount)
        && (gameState != null ==> gameState.View() == old(gameState.View()))
    {
      if gameState != null && currentEnemyInBombCount > 0 {
        bombStatusTracker := map[];
        currentEnemyInBombCount := 0;
        gameState.SetEnemyInBombCount(0);
      }
    }
  }
}
