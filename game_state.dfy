/**
 * The game's state store as an object (Assets/Scripts/Logic/GameState.cs): private fields that the
 * property setters overwrite, events raised by some setters (kept here as a ghost log), the enemy
 * bomb registry, and the increment/decrement and action helpers. Every method is specified by the
 * matching pure function on `GameStateSpec.Store`, through the ghost view `View()`.
 */
module Logic {

  import opened UnityTypes
  import opened GameStateSpec
  import opened Sets

  class GameState {
    // Local player
    var playerId: int
    var playerCurrentHealth: int
    var playerCurrentShield: int
    var playerScore: int
    var playerShieldCount: int
    var playerBulletCount: int
    var playerBombCount: int
    var playerInBombCount: int
    var playerVisibleToEnemy: bool
    var playerHit: bool
    var playerShieldHit: bool

    // Enemy
    var enemyCurrentHealth: int
    var enemyCurrentShield: int
    var enemyScore: int
    var enemyShieldCount: int
    var enemyBulletCount: int
    var enemyBombCount: int
    var enemyInBombCount: int
    var enemyActive: bool
    var enemyHit: bool
    var enemyShieldHit: bool
    var enemyCoordinateTransform: Transform?
    var activeEnemyBombs: map<int, Vector3>
    var nextEnemyBombId: int

    /** Every event invocation so far, oldest first. */
    ghost var events: seq<Event>

    /** The store's fields as one value. */
    ghost function View(): Store
      reads this
    {
      Store(
        playerId,
        Stats(playerCurrentHealth, playerCurrentShield, playerScore, playerShieldCount,
              playerBulletCount, playerBombCount, playerInBombCount, playerHit, playerShieldHit),
        Stats(enemyCurrentHealth, enemyCurrentShield, enemyScore, enemyShieldCount,
              enemyBulletCount, enemyBombCount, enemyInBombCount, enemyHit, enemyShieldHit),
        playerVisibleToEnemy, enemyActive, enemyCoordinateTransform,
        activeEnemyBombs, nextEnemyBombId, events)
    }

    ghost predicate Valid()
      reads this
    {
      View().Valid()
    }

    /** `Awake` followed by `Start`: the initial values of every field. */
    constructor ()
      ensures Valid() && View() == InitialStore()
    {
      playerId := 1;
      playerCurrentHealth := MAX_HEALTH;
      playerCurrentShield := MIN_SHIELD;
      playerScore := 0;
      playerShieldCount := MAX_SHIELD_COUNT;
      playerBulletCount := MAX_BULLET_COUNT;
      playerBombCount := MAX_BOMB_COUNT;
      playerInBombCount := 0;
      playerVisibleToEnemy := false;
      playerHit := false;
      playerShieldHit := false;
      enemyCurrentHealth := MAX_HEALTH;
      enemyCurrentShield := MIN_SHIELD;
      enemyScore := 0;
      enemyShieldCount := MAX_SHIELD_COUNT;
      enemyBulletCount := MAX_BULLET_COUNT;
      enemyBombCount := MAX_BOMB_COUNT;
      enemyInBombCount := 0;
      enemyActive := false;
      enemyHit := false;
      enemyShieldHit := false;
      enemyCoordinateTransform := null;
      activeEnemyBombs := map[];
      nextEnemyBombId := 0;
      events := [];
    }

    // ---- Flags ----

    method SetPlayerVisibleToEnemy(value: bool)
      requires Valid()
      modifies this
      ensures Valid() && View() == old(View()).SetPlayerVisibleToEnemy(value)
    {
      playerVisibleToEnemy := value;
    }

    method SetPlayerHit(value: bool)
      requires Valid()
      modifies this
      ensures Valid() && View() == old(View()).SetPlayerHit(value)
    {
      playerHit := value;
      if playerHit {
        events := events + [PlayerHitEvent];
      }
    }

    method SetPlayerShieldHit(value: bool)
      requires Valid()
      modifies this
      ensures Valid() && View() == old(View()).SetPlayerShieldHit(value)
    {
      playerShieldHit := value;
      if playerShieldHit {
        events := events + [PlayerShieldHitEvent];
      }
    }

    method SetEnemyHit(value: bool)
      requires Valid()
      modifies this
      ensures Valid() && View() == old(View()).SetEnemyHit(value)
    {
      enemyHit := value;
      if enemyHit {
        events := events + [EnemyHitEvent];
      }
    }

    method SetEnemyShieldHit(value: bool)
      requires Valid()
      modifies this
      ensures Valid() && View() == old(View()).SetEnemyShieldHit(value)
    {
      enemyShieldHit := value;
      if enemyShieldHit {
        events := events + [EnemyShieldHitEvent];
      }
    }

    method SetEnemyActive(value: bool)
      requires Valid()
      modifies this
      ensures Valid() && View() == old(View()).SetEnemyActive(value)
    {
      if enemyActive != value {
        enemyActive := value;
        events := events + [EnemyActiveChanged];
      }
    }

    method SetPlayerID(value: int)
      requires Valid()
      modifies this
      ensures Valid() && View() == old(View()).SetPlayerID(value)
    {
      playerId := value;
    }

    // ---- Clamped and plain integer setters ----

    method SetPlayerCurrentHealth(value: int)
      requires Valid()
      modifies this
      ensures Valid() && View() == old(View()).SetPlayerCurrentHealth(value)
    {
      playerCurrentHealth := Clamp(value, MIN_HEALTH, MAX_HEALTH);
    }

    method SetPlayerCurrentShield(value: int)
      requires Valid()
      modifies this
      ensures Valid() && View() == old(View()).SetPlayerCurrentShield(value)
    {
      playerCurrentShield := Clamp(value, MIN_SHIELD, MAX_SHIELD);
    }

    method SetEnemyCurrentHealth(value: int)
      requires Valid()
      modifies this
      ensures Valid() && View() == old(View()).SetEnemyCurrentHealth(value)
    {
      enemyCurrentHealth := Clamp(value, MIN_HEALTH, MAX_HEALTH);
    }

    method SetEnemyCurrentShield(value: int)
      requires Valid()
      modifies this
      ensures Valid() && View() == old(View()).SetEnemyCurrentShield(value)
    {
      enemyCurrentShield := Clamp(value, MIN_SHIELD, MAX_SHIELD);
    }

    method SetPlayerScore(value: int)
      requires Valid()
      modifies this
      ensures Valid() && View() == old(View()).SetPlayerScore(value)
    {
      playerScore := value;
    }

    method SetEnemyScore(value: int)
      requires Valid()
      modifies this
      ensures Valid() && View() == old(View()).SetEnemyScore(value)
    {
      enemyScore := value;
    }

    method SetPlayerShieldCount(value: int)
      requires Valid()
      modifies this
      ensures Valid() && View() == old(View()).SetPlayerShieldCount(value)
    {
      playerShieldCount := Clamp(value, MIN_SHIELD_COUNT, MAX_SHIELD_COUNT);
    }

    method SetPlayerBulletCount(value: int)
      requires Valid()
      modifies this
      ensures Valid() && View() == old(View()).SetPlayerBulletCount(value)
    {
      playerBulletCount := Clamp(value, MIN_BULLET_COUNT, MAX_BULLET_COUNT);
    }

    method SetPlayerBombCount(value: int)
      requires Valid()
      modifies this
      ensures Valid() && View() == old(View()).SetPlayerBombCount(value)
    {
      playerBombCount := Clamp(value, MIN_BOMB_COUNT, MAX_BOMB_COUNT);
    }

    method SetEnemyShieldCount(value: int)
      requires Valid()
      modifies this
      ensures Valid() && View() == old(View()).SetEnemyShieldCount(value)
    {
      enemyShieldCount := Clamp(value, MIN_SHIELD_COUNT, MAX_SHIELD_COUNT);
    }

    method SetEnemyBulletCount(value: int)
      requires Valid()
      modifies this
      ensures Valid() && View() == old(View()).SetEnemyBulletCount(value)
    {
      enemyBulletCount := Clamp(value, MIN_BULLET_COUNT, MAX_BULLET_COUNT);
    }

    method SetEnemyBombCount(value: int)
      requires Valid()
      modifies this
      ensures Valid() && View() == old(View()).SetEnemyBombCount(value)
    {
      enemyBombCount := Clamp(value, MIN_BOMB_COUNT, MAX_BOMB_COUNT);
    }

    method SetEnemyCoordinateTransform(value: Transform?)
      requires Valid()
      modifies this
      ensures Valid() && View() == old(View()).SetEnemyCoordinateTransform(value)
    {
      enemyCoordinateTransform := value;
    }

    method SetPlayerInBombCount(value: int)
      requires Valid()
      modifies this
      ensures Valid() && View() == old(View()).SetPlayerInBombCount(value)
    {
      playerInBombCount := Clamp(value, MIN_IN_BOMB_COUNT, MAX_IN_BOMB_COUNT);
    }

    method SetEnemyInBombCount(value: int)
      requires Valid()
      modifies this
      ensures Valid() && View() == old(View()).SetEnemyInBombCount(value)
    {
      enemyInBombCount := Clamp(value, MIN_IN_BOMB_COUNT, MAX_IN_BOMB_COUNT);
    }

    // ---- Enemy bomb registry ----

    /** Registers a bomb under a fresh id: the counter's current value, which then advances. */
    method RegisterBomb(position: Vector3) returns (bombId: int)
      requires Valid()
      modifies this
      ensures Valid() && View() == old(View()).RegisterBomb(position)
      ensures bombId == old(nextEnemyBombId) && bombId !in old(activeEnemyBombs)
    {
      bombId := nextEnemyBombId;
      nextEnemyBombId := nextEnemyBombId + 1;
      // Dictionary.Add would throw on a duplicate key; the invariant rules that out.
      assert bombId !in activeEnemyBombs;
      activeEnemyBombs := activeEnemyBombs[bombId := position];
    }

    /** Moves a registered bomb and recounts; an unknown id changes nothing. */
    method UpdateBombPosition(bombId: int, position: Vector3, near: (Vector3, Vector3) -> bool)
      requires Valid()
      modifies this
      ensures Valid()
      ensures bombId !in old(activeEnemyBombs) ==> View() == old(View())
      ensures bombId in old(activeEnemyBombs) && enemyCoordinateTransform == null ==>
        View() == old(View()).MoveBomb(bombId, position)
      ensures bombId in old(activeEnemyBombs) && enemyCoordinateTransform != null ==>
        View() == old(View()).MoveBomb(bombId, position).SetEnemyInBombCount(
          |BombsNear(activeEnemyBombs, enemyCoordinateTransform.position, near)|)
    {
      if bombId in activeEnemyBombs {
        activeEnemyBombs := activeEnemyBombs[bombId := position];
        UpdateEnemyInBombCount(near);
      }
    }

    /**
     * Counts the registered bombs within range of the enemy's current position; `near` stands for
     * the test `Vector3.Distance(enemy, bomb) <= 1.0f`. Without an enemy transform nothing changes.
     */
    method UpdateEnemyInBombCount(near: (Vector3, Vector3) -> bool)
      requires Valid()
      modifies this
      ensures Valid()
      ensures enemyCoordinateTransform == old(enemyCoordinateTransform)
      ensures enemyCoordinateTransform == null ==> View() == old(View())
      ensures enemyCoordinateTransform != null ==>
        View() == old(View()).SetEnemyInBombCount(
          |BombsNear(activeEnemyBombs, enemyCoordinateTransform.position, near)|)
    {
      if enemyCoordinateTransform == null {
        return;
      }
      var count := 0;
      var enemyPosition := enemyCoordinateTransform.position;
      var bombs := activeEnemyBombs;
      var remaining := bombs.Keys;
      ghost var found: set<int> := {};
      while remaining != {}
        invariant remaining <= bombs.Keys
        invariant found == BombsNear(bombs, enemyPosition, near) - remaining
        invariant count == |found|
        modifies {}
        decreases remaining
      {
        NonEmptyHasMember(remaining);
        var bombId :| bombId in remaining;
        if near(enemyPosition, bombs[bombId]) {
          count := count + 1;
          found := found + {bombId};
        }
        remaining := remaining - {bombId};
      }
      SetEnemyInBombCount(count);
    }

    /** Empties the registry and zeroes the enemy's in-bomb count; the id counter keeps its value. */
    method ClearAllBombs()
      requires Valid()
      modifies this
      ensures Valid() && View() == old(View()).ClearAllBombs()
    {
      activeEnemyBombs := map[];
      SetEnemyInBombCount(0);
    }

    // ---- Increment / decrement helpers ----

    method IncrementBombCount()
      requires Valid()
      modifies this
      ensures Valid() && View() == old(View()).IncrementBombCount()
    {
      SetPlayerBombCount(Min(playerBombCount + 1, MAX_BOMB_COUNT));
    }

    method DecrementBombCount()
      requires Valid()
      modifies this
      ensures Valid() && View() == old(View()).DecrementBombCount()
    {
      SetPlayerBombCount(Max(playerBombCount - 1, MIN_BOMB_COUNT));
    }

    method IncrementShieldCount()
      requires Valid()
      modifies this
      ensures Valid() && View() == old(View()).IncrementShieldCount()
    {
      SetPlayerShieldCount(Min(playerShieldCount + 1, MAX_SHIELD_COUNT));
    }

    method DecrementShieldCount()
      requires Valid()
      modifies this
      ensures Valid() && View() == old(View()).DecrementShieldCount()
    {
      SetPlayerShieldCount(Max(playerShieldCount - 1, MIN_SHIELD_COUNT));
    }

    method IncrementBulletCount()
      requires Valid()
      modifies this
      ensures Valid() && View() == old(View()).IncrementBulletCount()
    {
      SetPlayerBulletCount(Min(playerBulletCount + 1, MAX_BULLET_COUNT));
    }

    method DecrementBulletCount()
      requires Valid()
      modifies this
      ensures Valid() && View() == old(View()).DecrementBulletCount()
    {
      SetPlayerBulletCount(Max(playerBulletCount - 1, MIN_BULLET_COUNT));
    }

    method PlayerReload()
      requires Valid()
      modifies this
      ensures Valid() && View() == old(View()).PlayerReload()
    {
      SetPlayerBulletCount(MAX_BULLET_COUNT);
      HandleGameAction("Reload");
    }

    method EnemyReload()
      requires Valid()
      modifies this
      ensures Valid() && View() == old(View()).EnemyReload()
    {
      SetEnemyBulletCount(MAX_BULLET_COUNT);
    }

    // ---- Action channels ----

    /** Invokes `gameActionOccurred` (local action confirmed) with the action string. */
    method HandleGameAction(actionType: string)
      requires Valid()
      modifies this
      ensures Valid() && View() == old(View()).HandleGameAction(actionType)
    {
      events := events + [GameActionOccurred(actionType)];
    }

    /** Invokes `enemyGameActionOccurred` (remote action occurred) with the action string. */
    method HandleEnemyGameAction(actionType: string)
      requires Valid()
      modifies this
      ensures Valid() && View() == old(View()).HandleEnemyGameAction(actionType)
    {
      events := events + [EnemyGameActionOccurred(actionType)];
    }
  }
}
