/**
 * The message router and reconciler as the object the source runs: a queue of raw payloads that
 * `DecodeMessage` appends to and `Update` drains, and the handlers that write into the shared
 * `GameState`. Each handler is specified by the matching function of `CommsSpec` on the game
 * state's abstract view.
 *
 * The transport is not modelled: whether the client is connected is an input, and a publish is
 * the string a method returns (`None` when nothing is sent).
 */
module Communications {

  import opened Wrappers
  import opened GameStateSpec
  import opened Logic
  import opened CommsSpec

  class MQTTCommsManager {
    /** Payloads received on the game-state topic and not yet processed, oldest first. */
    var messageQueue: seq<string>
    const gameState: GameState
    const decoders: Decoders

    constructor (gameState: GameState, decoders: Decoders)
      ensures this.gameState == gameState && this.decoders == decoders
      ensures messageQueue == []
    {
      this.gameState := gameState;
      this.decoders := decoders;
      messageQueue := [];
    }

    /**
     * Routing by topic: a visibility request is answered at once and never queued; a payload on
     * any other topic goes to the back of the queue and nothing else happens.
     */
    method DecodeMessage(topic: string, message: string, connected: bool) returns (published: Option<string>)
      modifies this
      ensures topic == VISIBILITY_REQUEST_TOPIC ==>
        messageQueue == old(messageQueue) && published == AnswerVisibilityRequest(decoders, gameState.View(), message, connected)
      ensures topic != VISIBILITY_REQUEST_TOPIC ==>
        messageQueue == old(messageQueue) + [message] && published == None
    {
      if topic == VISIBILITY_REQUEST_TOPIC {
        published := ProcessVisibilityRequest(message, connected);
      } else {
        messageQueue := messageQueue + [message];
        published := None;
      }
    }

    /** Answers a request that decodes and names the local player; ignores any other. */
    method ProcessVisibilityRequest(message: string, connected: bool) returns (published: Option<string>)
      ensures published == AnswerVisibilityRequest(decoders, gameState.View(), message, connected)
      ensures published.Some? ==> DecodeVisibilityPayload(published.value) == Some(ReportOf(gameState.View()))
    {
      published := None;
      var request := decoders.request(message);
      if request.Some? && request.value.playerId == gameState.playerId {
        published := SendPlayerVisibilityMessage(connected);
      }
    }

    /** Publishes the local player's id, EnemyActive and EnemyInBombCount when connected. */
    method SendPlayerVisibilityMessage(connected: bool) returns (published: Option<string>)
      ensures published == VisibilityReply(gameState.View(), connected)
      ensures published.Some? ==>
        DecodeVisibilityPayload(published.value)
          == Some(VisibilityReport(gameState.playerId, gameState.enemyActive, gameState.enemyInBombCount))
    {
      if connected {
        var report := VisibilityReport(gameState.playerId, gameState.enemyActive, gameState.enemyInBombCount);
        VisibilityPayloadRoundTrip(report);
        published := Some(VisibilityPayload(report));
      } else {
        published := None;
      }
    }

    /** `Update`: processes every queued payload in arrival order, then empties the queue. */
    method Update()
      requires gameState.Valid()
      modifies this, gameState
      ensures gameState.Valid()
      ensures messageQueue == []
      ensures gameState.View() == Drain(decoders, old(gameState.View()), old(messageQueue))
    {
      var queue := messageQueue;
      if |queue| > 0 {
        for i := 0 to |queue|
          invariant gameState.Valid()
          invariant gameState.View() == Drain(decoders, old(gameState.View()), queue[..i])
        {
          DrainAppend(decoders, old(gameState.View()), queue[..i], [queue[i]]);
          assert queue[..i + 1] == queue[..i] + [queue[i]];
          ProcessMessage(queue[i]);
        }
        assert queue[..|queue|] == queue;
        messageQueue := [];
      }
    }

    /**
     * The trial classification: an action payload with a non-empty action string takes the action
     * path; if that path throws in its embedded snapshot, or the payload is not an action, it is
     * tried as a bare snapshot.
     */
    method ProcessMessage(message: string)
      requires gameState.Valid()
      modifies gameState
      ensures gameState.Valid()
      ensures gameState.View() == ProcessPayload(decoders, old(gameState.View()), message)
    {
      var actionMsg := decoders.action(message);
      if actionMsg.Some? && actionMsg.value.action != [] {
        var completed := ProcessActionMessage(actionMsg.value);
        if completed {
          return;
        }
      }
      var stateMsg := decoders.state(message);
      if stateMsg.Some? && stateMsg.value.gameState.Some? {
        var _ := ProcessGameStateMessage(stateMsg.value.gameState);
      }
    }

    /** Hit flags, then the dispatch on one channel, then the embedded snapshot if any. */
    method ProcessActionMessage(actionMsg: ActionMessage) returns (completed: bool)
      requires gameState.Valid()
      modifies gameState
      ensures gameState.Valid()
      ensures Merge(gameState.View(), completed) == ApplyAction(old(gameState.View()), actionMsg)
    {
      var isFromOpponent := actionMsg.playerId != gameState.playerId;
      if actionMsg.hit {
        if isFromOpponent {
          gameState.SetPlayerHit(true);
        } else {
          gameState.SetEnemyHit(true);
        }
      }
      if isFromOpponent {
        gameState.HandleEnemyGameAction(actionMsg.action);
      } else {
        gameState.HandleGameAction(actionMsg.action);
      }
      completed := true;
      if actionMsg.gameState.Some? {
        completed := ProcessGameStateMessage(actionMsg.gameState);
      }
    }

    /**
     * The snapshot merge, write by write. `completed` is false when an access to a missing half
     * throws; the writes made before it stay.
     */
    method ProcessGameStateMessage(stateData: Option<GameStateData>) returns (completed: bool)
      requires gameState.Valid()
      modifies gameState
      ensures gameState.Valid()
      ensures stateData.None? ==> completed && gameState.View() == old(gameState.View())
      ensures stateData.Some? ==> Merge(gameState.View(), completed) == MergeSnapshot(old(gameState.View()), stateData.value)
    {
      if stateData.None? {
        return true;
      }
      var data := stateData.value;
      var localPlayerState := if gameState.playerId == 1 then data.p1 else data.p2;
      var enemyPlayerState := if gameState.playerId == 1 then data.p2 else data.p1;

      if localPlayerState.Some? {
        var l := localPlayerState.value;
        gameState.SetPlayerCurrentHealth(l.hp);
        gameState.SetPlayerBulletCount(l.bullets);
        gameState.SetPlayerBombCount(l.bombs);
        gameState.SetPlayerCurrentShield(l.shieldHp);
        if enemyPlayerState.None? {
          // enemyPlayerState.deaths throws
          return false;
        }
        gameState.SetPlayerScore(enemyPlayerState.value.deaths);
        gameState.SetPlayerShieldCount(l.shields);
      }

      if enemyPlayerState.Some? {
        var e := enemyPlayerState.value;
        gameState.SetEnemyCurrentHealth(e.hp);
        gameState.SetEnemyBulletCount(e.bullets);
        gameState.SetEnemyBombCount(e.bombs);
        gameState.SetEnemyCurrentShield(e.shieldHp);
        if localPlayerState.None? {
          // localPlayerState.deaths throws
          return false;
        }
        gameState.SetEnemyScore(localPlayerState.value.deaths);
        gameState.SetEnemyShieldCount(e.shields);
        gameState.SetEnemyHit(localPlayerState.value.opponentHit);
        gameState.SetEnemyShieldHit(localPlayerState.value.opponentShieldHit);
      }
      completed := true;
    }
  }
}
