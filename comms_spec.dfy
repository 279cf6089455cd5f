/**
 * The pure part of the message router and reconciler: the records the broker sends, the
 * p1/p2 selection and the snapshot merge, the action step, the trial classification of a
 * payload, the queue drain and the visibility reply string.
 *
 * JSON decoding is not modelled. A `Decoders` value stands for `JsonUtility.FromJson` applied
 * to each record type; `None` means FromJson threw, or gave back a record whose first field
 * access throws. A JSON `null` for a nested record is `None` in an `Option` field, and a null
 * `action` string is modelled as the empty string (the router treats both alike).
 *
 * A NullReferenceException in the merge is modelled as an early stop: the writes done before
 * it are kept and `completed` is false. The caller's `catch` then decides what happens next.
 */
module CommsSpec {

  import opened Wrappers
  import opened UnityTypes
  import opened GameStateSpec
  import opened Decimal

  const GAME_STATE_TOPIC := "visualiser/game_state"
  const VISIBILITY_FEEDBACK_TOPIC := "visualiser/visibility_feedback"
  const VISIBILITY_REQUEST_TOPIC := "visualiser/req_visibility"

  // ---- Payload records ----

  /** One player's half of a snapshot. */
  datatype PlayerState = PlayerState(
    hp: int,
    bullets: int,
    bombs: int,
    shieldHp: int,
    deaths: int,
    shields: int,
    opponentHit: bool,
    opponentShieldHit: bool,
    isVisible: bool,
    numBombsPlayerOn: int,
    gloveConnected: bool,
    vestConnected: bool,
    disconnected: bool,
    login: bool)

  /** A snapshot: the halves of player 1 and player 2, either of which may be null. */
  datatype GameStateData = GameStateData(p1: Option<PlayerState>, p2: Option<PlayerState>)
  {
    function Swapped(): (r: GameStateData)
      ensures r.p1 == p2 && r.p2 == p1
    {
      GameStateData(p2, p1)
    }
  }

  datatype GameStateMessage = GameStateMessage(gameState: Option<GameStateData>)

  datatype ActionMessage = ActionMessage(action: string, playerId: int, hit: bool, gameState: Option<GameStateData>)

  datatype VisibilityRequestMessage = VisibilityRequestMessage(playerId: int, topic: string)

  /** FromJson for each of the three record types a payload is tried as. */
  datatype Decoders = Decoders(
    action: string -> Option<ActionMessage>,
    state: string -> Option<GameStateMessage>,
    request: string -> Option<VisibilityRequestMessage>)

  // ---- Snapshot merge ----

  /** The outcome of a merge: the store after it, and whether it ran to the end without throwing. */
  datatype Merge = Merge(store: Store, completed: bool)

  /** The half of the snapshot that describes the local player: p1 for player id 1, p2 for any other id. */
  function LocalHalf(playerId: int, data: GameStateData): Option<PlayerState> {
    if playerId == 1 then data.p1 else data.p2
  }

  /** The half that describes the opponent: the other one. */
  function EnemyHalf(playerId: int, data: GameStateData): Option<PlayerState> {
    if playerId == 1 then data.p2 else data.p1
  }

  /** The four local writes that come before the first access to the other half. */
  function WriteLocalVitals(st: Store, l: PlayerState): (r: Store)
    ensures r == st.(player := st.player.(
      health := Clamp(l.hp, MIN_HEALTH, MAX_HEALTH),
      bulletCount := Clamp(l.bullets, MIN_BULLET_COUNT, MAX_BULLET_COUNT),
      bombCount := Clamp(l.bombs, MIN_BOMB_COUNT, MAX_BOMB_COUNT),
      shield := Clamp(l.shieldHp, MIN_SHIELD, MAX_SHIELD)))
    ensures st.Valid() ==> r.Valid()
  {
    st.SetPlayerCurrentHealth(l.hp).SetPlayerBulletCount(l.bullets).SetPlayerBombCount(l.bombs).SetPlayerCurrentShield(l.shieldHp)
  }

  /** The four enemy writes that come before the first access to the local half. */
  function WriteEnemyVitals(st: Store, e: PlayerState): (r: Store)
    ensures r == st.(enemy := st.enemy.(
      health := Clamp(e.hp, MIN_HEALTH, MAX_HEALTH),
      bulletCount := Clamp(e.bullets, MIN_BULLET_COUNT, MAX_BULLET_COUNT),
      bombCount := Clamp(e.bombs, MIN_BOMB_COUNT, MAX_BOMB_COUNT),
      shield := Clamp(e.shieldHp, MIN_SHIELD, MAX_SHIELD)))
    ensures st.Valid() ==> r.Valid()
  {
    st.SetEnemyCurrentHealth(e.hp).SetEnemyBulletCount(e.bullets).SetEnemyBombCount(e.bombs).SetEnemyCurrentShield(e.shieldHp)
  }

  /** The local half of a complete merge: the four vitals, then the score (the opponent's deaths) and the shield count. */
  function CompleteLocal(st: Store, l: PlayerState, e: PlayerState): (r: Store)
    ensures r.player == st.player.(
      health := Clamp(l.hp, MIN_HEALTH, MAX_HEALTH),
      bulletCount := Clamp(l.bullets, MIN_BULLET_COUNT, MAX_BULLET_COUNT),
      bombCount := Clamp(l.bombs, MIN_BOMB_COUNT, MAX_BOMB_COUNT),
      shield := Clamp(l.shieldHp, MIN_SHIELD, MAX_SHIELD),
      score := e.deaths,
      shieldCount := Clamp(l.shields, MIN_SHIELD_COUNT, MAX_SHIELD_COUNT))
    ensures r == st.(player := r.player)
    ensures st.Valid() ==> r.Valid()
  {
    WriteLocalVitals(st, l).SetPlayerScore(e.deaths).SetPlayerShieldCount(l.shields)
  }

  /**
   * The enemy half of a complete merge: the four vitals, the score (the local deaths), the shield
   * count, then the hit flags from the local half's opponent_hit / opponent_shield_hit, each
   * raising its event when true.
   */
  function CompleteEnemy(st: Store, l: PlayerState, e: PlayerState): (r: Store)
    ensures r.enemy == st.enemy.(
      health := Clamp(e.hp, MIN_HEALTH, MAX_HEALTH),
      bulletCount := Clamp(e.bullets, MIN_BULLET_COUNT, MAX_BULLET_COUNT),
      bombCount := Clamp(e.bombs, MIN_BOMB_COUNT, MAX_BOMB_COUNT),
      shield := Clamp(e.shieldHp, MIN_SHIELD, MAX_SHIELD),
      score := l.deaths,
      shieldCount := Clamp(e.shields, MIN_SHIELD_COUNT, MAX_SHIELD_COUNT),
      hit := l.opponentHit,
      shieldHit := l.opponentShieldHit)
    ensures r.log == st.log + (if l.opponentHit then [EnemyHitEvent] else [])
                            + (if l.opponentShieldHit then [EnemyShieldHitEvent] else [])
    ensures r == st.(enemy := r.enemy, log := r.log)
    ensures st.Valid() ==> r.Valid()
  {
    WriteEnemyVitals(st, e).SetEnemyScore(l.deaths).SetEnemyShieldCount(e.shields)
      .SetEnemyHit(l.opponentHit).SetEnemyShieldHit(l.opponentShieldHit)
  }

  /**
   * Every write of a snapshot whose two halves are both present, in the source's order: the local
   * half's vitals go to the player and the opponent's to the enemy, each clamped; the player's
   * score is the opponent's deaths and the enemy's score the local deaths; the enemy hit flags
   * come from the local half. The log grows only by the hit events. Nothing else changes.
   */
  function CompleteMerge(st: Store, l: PlayerState, e: PlayerState): (r: Store)
    ensures r == st.(player := r.player, enemy := r.enemy, log := r.log)
    ensures r.player == CompleteLocal(st, l, e).player
    ensures r.enemy == CompleteEnemy(st, l, e).enemy && r.log == CompleteEnemy(st, l, e).log
    ensures st.Valid() ==> r.Valid()
    ensures st.log <= r.log
    ensures forall k :: |st.log| <= k < |r.log| ==> r.log[k] == EnemyHitEvent || r.log[k] == EnemyShieldHitEvent
  {
    var s1 := CompleteLocal(st, l, e);
    var r := CompleteEnemy(s1, l, e);
    assert r.log == st.log + (if l.opponentHit then [EnemyHitEvent] else [])
                           + (if l.opponentShieldHit then [EnemyShieldHitEvent] else []);
    r
  }

  /**
   * `ProcessGameStateMessage` on a non-null snapshot. With both halves present every write is
   * done; with only one present, its four vitals are written and the access to the missing half
   * throws; with neither, nothing happens.
   */
  function MergeSnapshot(st: Store, data: GameStateData): (r: Merge)
    ensures r.store == st.(player := r.store.player, enemy := r.store.enemy, log := r.store.log)
    ensures st.Valid() ==> r.store.Valid()
    ensures r.completed <==> (LocalHalf(st.playerId, data).Some? <==> EnemyHalf(st.playerId, data).Some?)
    ensures st.log <= r.store.log
    ensures forall k :: |st.log| <= k < |r.store.log| ==> r.store.log[k] == EnemyHitEvent || r.store.log[k] == EnemyShieldHitEvent
  {
    match (LocalHalf(st.playerId, data), EnemyHalf(st.playerId, data))
    case (None, None) => Merge(st, true)
    case (Some(l), None) => Merge(WriteLocalVitals(st, l), false)
    case (None, Some(e)) => Merge(WriteEnemyVitals(st, e), false)
    case (Some(l), Some(e)) => Merge(CompleteMerge(st, l, e), true)
  }

  /** The snapshot a local player with id `playerId` receives when its own half is `l` and the opponent's is `e`. */
  function SnapshotFor(playerId: int, l: PlayerState, e: PlayerState): (d: GameStateData)
    ensures LocalHalf(playerId, d) == Some(l) && EnemyHalf(playerId, d) == Some(e)
  {
    if playerId == 1 then GameStateData(Some(l), Some(e)) else GameStateData(Some(e), Some(l))
  }

  /** A snapshot with both halves present is merged completely, whichever id the local player has. */
  lemma MergeCompleteSnapshot(st: Store, l: PlayerState, e: PlayerState)
    ensures MergeSnapshot(st, SnapshotFor(st.playerId, l, e)) == Merge(CompleteMerge(st, l, e), true)
  {
  }

  /**
   * A snapshot with only one half present: that half's health, bullets, bombs and shield HP are
   * written, the merge throws at the first access to the missing half, and nothing else changes.
   */
  lemma MergeHalfSnapshot(st: Store, d: GameStateData)
    requires d.p1.Some? != d.p2.Some?
    ensures var r := MergeSnapshot(st, d);
      var l := LocalHalf(st.playerId, d);
      var e := EnemyHalf(st.playerId, d);
      && !r.completed
      && (l.Some? ==> r.store == WriteLocalVitals(st, l.value))
      && (e.Some? ==> r.store == WriteEnemyVitals(st, e.value))
  {
  }

  /**
   * Player 1 receiving `d` and any other player receiving `d` with its halves swapped end in the
   * same state: only the player id tells the halves apart.
   */
  lemma MergeSwapSymmetric(st: Store, d: GameStateData, otherId: int)
    requires otherId != 1
    ensures MergeSnapshot(st.(playerId := otherId), d.Swapped())
         == var r := MergeSnapshot(st.(playerId := 1), d); r.(store := r.store.(playerId := otherId))
  {
  }

  /**
   * Merging the same complete snapshot twice leaves the stats as the first merge left them
   * (the clamps are idempotent); only the log grows, by the hit events raised again.
   */
  lemma MergeTwiceSameStats(st: Store, d: GameStateData)
    requires LocalHalf(st.playerId, d).Some? && EnemyHalf(st.playerId, d).Some?
    ensures var r1 := MergeSnapshot(st, d).store;
      var r2 := MergeSnapshot(r1, d).store;
      r2 == r1.(log := r2.log)
  {
    var l := LocalHalf(st.playerId, d).value;
    var e := EnemyHalf(st.playerId, d).value;
    assert d == SnapshotFor(st.playerId, l, e);
    var r1 := MergeSnapshot(st, d).store;
    MergeCompleteSnapshot(st, l, e);
    MergeCompleteSnapshot(r1, l, e);
    ClampIdempotent(l.hp, MIN_HEALTH, MAX_HEALTH);
    ClampIdempotent(l.bullets, MIN_BULLET_COUNT, MAX_BULLET_COUNT);
    ClampIdempotent(l.bombs, MIN_BOMB_COUNT, MAX_BOMB_COUNT);
    ClampIdempotent(l.shieldHp, MIN_SHIELD, MAX_SHIELD);
    ClampIdempotent(l.shields, MIN_SHIELD_COUNT, MAX_SHIELD_COUNT);
    ClampIdempotent(e.hp, MIN_HEALTH, MAX_HEALTH);
    ClampIdempotent(e.bullets, MIN_BULLET_COUNT, MAX_BULLET_COUNT);
    ClampIdempotent(e.bombs, MIN_BOMB_COUNT, MAX_BOMB_COUNT);
    ClampIdempotent(e.shieldHp, MIN_SHIELD, MAX_SHIELD);
    ClampIdempotent(e.shields, MIN_SHIELD_COUNT, MAX_SHIELD_COUNT);
  }

  // ---- Action messages ----

  /** True when the action was performed by the opponent rather than the local player. */
  predicate FromOpponent(st: Store, msg: ActionMessage) {
    msg.playerId != st.playerId
  }

  /** The hit step: a hit by the opponent sets PlayerHit, a hit by the local player sets EnemyHit. */
  function MarkHit(st: Store, msg: ActionMessage): (r: Store)
    ensures r.player == (if msg.hit && FromOpponent(st, msg) then st.player.(hit := true) else st.player)
    ensures r.enemy == (if msg.hit && !FromOpponent(st, msg) then st.enemy.(hit := true) else st.enemy)
    ensures r.log == st.log + if msg.hit then [if FromOpponent(st, msg) then PlayerHitEvent else EnemyHitEvent] else []
    ensures r == st.(player := r.player, enemy := r.enemy, log := r.log)
  {
    if !msg.hit then st
    else if FromOpponent(st, msg) then st.SetPlayerHit(true)
    else st.SetEnemyHit(true)
  }

  /** The event an action is announced with: the enemy channel for the opponent, the local one otherwise. */
  function ChannelEvent(st: Store, msg: ActionMessage): Event {
    if FromOpponent(st, msg) then EnemyGameActionOccurred(msg.action) else GameActionOccurred(msg.action)
  }

  /** The dispatch step: the action string, unchanged, on exactly one of the two channels. */
  function Dispatch(st: Store, msg: ActionMessage): (r: Store)
    ensures r == st.(log := st.log + [ChannelEvent(st, msg)])
  {
    if FromOpponent(st, msg) then st.HandleEnemyGameAction(msg.action) else st.HandleGameAction(msg.action)
  }

  /** `ProcessActionMessage`: hit step, dispatch, then the embedded snapshot if there is one. */
  function ApplyAction(st: Store, msg: ActionMessage): (r: Merge)
    ensures r.store.playerId == st.playerId
    ensures st.Valid() ==> r.store.Valid()
  {
    var h := MarkHit(st, msg);
    assert st.Valid() ==> h.Valid();
    var s := Dispatch(h, msg);
    assert st.Valid() ==> s.Valid();
    if msg.gameState.Some? then MergeSnapshot(s, msg.gameState.value) else Merge(s, true)
  }

  /**
   * The hit and dispatch steps of an action: exactly one hit flag is raised when `hit` is true
   * (PlayerHit for the opponent's action, EnemyHit for the local player's), none when it is false,
   * and the action string is then announced unchanged on exactly one channel.
   */
  lemma ActionStepAttribution(st: Store, msg: ActionMessage)
    ensures var s := Dispatch(MarkHit(st, msg), msg);
      var remote := msg.playerId != st.playerId;
      && s.player == (if msg.hit && remote then st.player.(hit := true) else st.player)
      && s.enemy == (if msg.hit && !remote then st.enemy.(hit := true) else st.enemy)
      && s.log == st.log + (if msg.hit then [if remote then PlayerHitEvent else EnemyHitEvent] else [])
                         + [if remote then EnemyGameActionOccurred(msg.action) else GameActionOccurred(msg.action)]
      && s == st.(player := s.player, enemy := s.enemy, log := s.log)
  {
  }

  /** An action without a snapshot completes and does only the hit and dispatch steps. */
  lemma ActionWithoutSnapshot(st: Store, msg: ActionMessage)
    requires msg.gameState.None?
    ensures ApplyAction(st, msg) == Merge(Dispatch(MarkHit(st, msg), msg), true)
  {
  }

  // ---- Trial classification ----

  /** The payload as an action, when it decodes as one with a non-empty action string. */
  function ActionOf(dec: Decoders, message: string): (a: Option<ActionMessage>)
    ensures a.Some? ==> a.value.action != [] && dec.action(message) == a
    ensures a.None? ==> dec.action(message).None? || dec.action(message).value.action == []
  {
    match dec.action(message)
    case Some(msg) => if msg.action != [] then Some(msg) else None
    case None => None
  }

  /** The second trial: the payload as a bare snapshot. */
  function StateTrial(dec: Decoders, st: Store, message: string): (r: Store)
    ensures r.playerId == st.playerId
    ensures st.Valid() ==> r.Valid()
  {
    match dec.state(message)
    case Some(GameStateMessage(Some(data))) => MergeSnapshot(st, data).store
    case _ => st
  }

  /**
   * `ProcessMessage`: the action trial first; when it does not apply, or when the action path
   * throws in its embedded snapshot, the snapshot trial runs on the state reached so far.
   */
  function ProcessPayload(dec: Decoders, st: Store, message: string): (r: Store)
    ensures r.playerId == st.playerId
    ensures st.Valid() ==> r.Valid()
  {
    match ActionOf(dec, message)
    case Some(msg) =>
      var a := ApplyAction(st, msg);
      if a.completed then a.store else StateTrial(dec, a.store, message)
    case None => StateTrial(dec, st, message)
  }

  /** A payload that neither decodes as an action nor carries a snapshot changes nothing. */
  lemma UnrecognisedPayloadIsIgnored(dec: Decoders, st: Store, message: string)
    requires ActionOf(dec, message).None?
    requires dec.state(message).None? || dec.state(message).value.gameState.None?
    ensures ProcessPayload(dec, st, message) == st
  {
  }

  /** A payload that is a bare snapshot merges it and raises no action event. */
  lemma SnapshotPayloadMerges(dec: Decoders, st: Store, message: string, data: GameStateData)
    requires ActionOf(dec, message).None?
    requires dec.state(message) == Some(GameStateMessage(Some(data)))
    ensures ProcessPayload(dec, st, message) == MergeSnapshot(st, data).store
  {
  }

  /** An action payload whose embedded snapshot merges without throwing takes only the action path. */
  lemma ActionPayloadTakesActionPath(dec: Decoders, st: Store, message: string)
    requires ActionOf(dec, message).Some?
    requires ApplyAction(st, ActionOf(dec, message).value).completed
    ensures ProcessPayload(dec, st, message) == ApplyAction(st, ActionOf(dec, message).value).store
  {
  }

  // ---- Draining the queue ----

  /** `Update`: every queued payload processed in arrival order. */
  function Drain(dec: Decoders, st: Store, queue: seq<string>): (r: Store)
    ensures r.playerId == st.playerId
    ensures st.Valid() ==> r.Valid()
    decreases |queue|
  {
    if queue == [] then st else Drain(dec, ProcessPayload(dec, st, queue[0]), queue[1..])
  }

  /** Draining `q1 + q2` is draining `q1` and then `q2`: the queue is processed first-in, first-out. */
  lemma {:induction false} DrainAppend(dec: Decoders, st: Store, q1: seq<string>, q2: seq<string>)
    ensures Drain(dec, st, q1 + q2) == Drain(dec, Drain(dec, st, q1), q2)
    decreases |q1|
  {
    if q1 == [] {
      assert q1 + q2 == q2;
    } else {
      assert (q1 + q2)[1..] == q1[1..] + q2;
      DrainAppend(dec, ProcessPayload(dec, st, q1[0]), q1[1..], q2);
    }
  }

  predicate IsChannelEvent(e: Event) {
    e.GameActionOccurred? || e.EnemyGameActionOccurred?
  }

  /** The events of a log that announce actions, in order. */
  function ChannelEvents(log: seq<Event>): (r: seq<Event>)
    ensures forall k :: 0 <= k < |r| ==> IsChannelEvent(r[k])
    decreases |log|
  {
    if log == [] then []
    else (if IsChannelEvent(log[0]) then [log[0]] else []) + ChannelEvents(log[1..])
  }

  lemma {:induction false} ChannelEventsAppend(a: seq<Event>, b: seq<Event>)
    ensures ChannelEvents(a + b) == ChannelEvents(a) + ChannelEvents(b)
    decreases |a|
  {
    if a == [] {
      assert a + b == b;
    } else {
      assert (a + b)[1..] == a[1..] + b;
      ChannelEventsAppend(a[1..], b);
    }
  }

  /** Appending events that announce no action leaves the announced actions as they were. */
  lemma {:induction false} ChannelEventsIgnoreHits(a: seq<Event>, b: seq<Event>)
    requires a <= b
    requires forall k :: |a| <= k < |b| ==> !IsChannelEvent(b[k])
    ensures ChannelEvents(b) == ChannelEvents(a)
    decreases |b|
  {
    if |b| > |a| {
      var b' := b[..|b| - 1];
      assert b == b' + [b[|b| - 1]];
      ChannelEventsIgnoreHits(a, b');
      ChannelEventsAppend(b', [b[|b| - 1]]);
      assert ChannelEvents([b[|b| - 1]]) == [] by {
        assert [b[|b| - 1]][1..] == [];
      }
    } else {
      assert a == b;
    }
  }

  /** The action events one payload raises: one on the channel of its sender when it is an action, none otherwise. */
  function PayloadChannelEvents(dec: Decoders, playerId: int, message: string): seq<Event> {
    match ActionOf(dec, message)
    case Some(msg) => [if msg.playerId != playerId then EnemyGameActionOccurred(msg.action) else GameActionOccurred(msg.action)]
    case None => []
  }

  lemma MergeKeepsChannelEvents(st: Store, data: GameStateData)
    ensures ChannelEvents(MergeSnapshot(st, data).store.log) == ChannelEvents(st.log)
  {
    var r := MergeSnapshot(st, data).store;
    ChannelEventsIgnoreHits(st.log, r.log);
  }

  lemma StateTrialKeepsChannelEvents(dec: Decoders, st: Store, message: string)
    ensures ChannelEvents(StateTrial(dec, st, message).log) == ChannelEvents(st.log)
  {
    match dec.state(message)
    case Some(GameStateMessage(Some(data))) => MergeKeepsChannelEvents(st, data);
    case _ =>
  }

  /** Processing one payload announces exactly its own action, if it has one, on its sender's channel. */
  lemma ProcessPayloadChannelEvents(dec: Decoders, st: Store, message: string)
    ensures ChannelEvents(ProcessPayload(dec, st, message).log)
         == ChannelEvents(st.log) + PayloadChannelEvents(dec, st.playerId, message)
  {
    match ActionOf(dec, message)
    case None =>
      StateTrialKeepsChannelEvents(dec, st, message);
    case Some(msg) =>
      var h := MarkHit(st, msg);
      var s := Dispatch(h, msg);
      ActionStepAttribution(st, msg);
      assert s.log == h.log + [ChannelEvent(st, msg)];
      ChannelEventsIgnoreHits(st.log, h.log);
      ChannelEventsAppend(h.log, [ChannelEvent(st, msg)]);
      assert ChannelEvents([ChannelEvent(st, msg)]) == [ChannelEvent(st, msg)] by {
        assert [ChannelEvent(st, msg)][1..] == [];
      }
      var a := ApplyAction(st, msg);
      if msg.gameState.Some? {
        MergeKeepsChannelEvents(s, msg.gameState.value);
      }
      if !a.completed {
        StateTrialKeepsChannelEvents(dec, a.store, message);
      }
  }

  // ---- Visibility reply ----

  /** The three values a visibility reply carries. */
  datatype VisibilityReport = VisibilityReport(playerId: int, isVisible: bool, bombsOnPlayer: int)

  const REPLY_OPEN := "{\"player_id\": "
  const REPLY_VISIBLE := ", \"is_visible\": \""
  const REPLY_BOMBS := "\", \"bombs_on_player\": "
  const REPLY_CLOSE := "}"

  /** `b.ToString().ToLower()`. */
  function BoolText(b: bool): string {
    if b then "true" else "false"
  }

  /** The reply string, built by hand in the source rather than by the JSON serializer. */
  function VisibilityPayload(r: VisibilityReport): string {
    REPLY_OPEN + (IntToString(r.playerId) + (REPLY_VISIBLE + (BoolText(r.isVisible) + (REPLY_BOMBS + (IntToString(r.bombsOnPlayer) + REPLY_CLOSE)))))
  }

  /** What the local player reports: its id, whether it currently sees the opponent, and how many bombs the opponent stands in. */
  function ReportOf(st: Store): VisibilityReport {
    VisibilityReport(st.playerId, st.enemyActive, st.enemy.inBombCount)
  }

  /** `SendPlayerVisibilityMessage`: the string published, or None when the client is not connected. */
  function VisibilityReply(st: Store, connected: bool): (r: Option<string>)
    ensures r.Some? <==> connected
  {
    if connected then Some(VisibilityPayload(ReportOf(st))) else None
  }

  /** `ProcessVisibilityRequest`: replies only to a request that decodes and names the local player. */
  function AnswerVisibilityRequest(dec: Decoders, st: Store, message: string, connected: bool): (r: Option<string>)
    ensures r.Some? <==> connected && dec.request(message).Some? && dec.request(message).value.playerId == st.playerId
    ensures r.Some? ==> r == VisibilityReply(st, connected)
  {
    match dec.request(message)
    case Some(req) => if req.playerId == st.playerId then VisibilityReply(st, connected) else None
    case None => None
  }

  /** Reads a rendered integer at the front of `s`; gives its value and what follows it. */
  function ReadInt(s: string): Option<(int, string)> {
    var k := NumberSpan(s);
    match ParseInt(s[..k])
    case Some(v) => Some((v, s[k..]))
    case None => None
  }

  /** Strips `p` from the front of `s`, when `s` starts with it. */
  function StripPrefix(p: string, s: string): (r: Option<string>)
    ensures r.Some? ==> s == p + r.value
  {
    if p <= s then Some(s[|p|..]) else None
  }

  /** The inverse of `VisibilityPayload`: reads a reply back into its three values. */
  function DecodeVisibilityPayload(s: string): Option<VisibilityReport> {
    match StripPrefix(REPLY_OPEN, s)
    case None => None
    case Some(s1) =>
      match ReadInt(s1)
      case None => None
      case Some((id, s2)) =>
        match StripPrefix(REPLY_VISIBLE, s2)
        case None => None
        case Some(s3) =>
          var vis: Option<(bool, string)> := if "true" <= s3 then Some((true, s3[4..])) else if "false" <= s3 then Some((false, s3[5..])) else None;
          match vis
          case None => None
          case Some((v, s4)) =>
            match StripPrefix(REPLY_BOMBS, s4)
            case None => None
            case Some(s5) =>
              match ReadInt(s5)
              case None => None
              case Some((n, s6)) => if s6 == REPLY_CLOSE then Some(VisibilityReport(id, v, n)) else None
  }

  lemma StripPrefixOf(p: string, t: string)
    ensures StripPrefix(p, p + t) == Some(t)
  {
    assert p <= p + t;
    assert (p + t)[|p|..] == t;
  }

  lemma ReadIntOf(i: int, rest: string)
    requires rest == [] || !IsNumeric(rest[0])
    ensures ReadInt(IntToString(i) + rest) == Some((i, rest))
  {
    var t := IntToString(i);
    NumberSpanOf(t, rest);
    assert (t + rest)[..|t|] == t;
    assert (t + rest)[|t|..] == rest;
    ParseIntToString(i);
  }

  /** Every reply reads back into the values it was built from. */
  lemma VisibilityPayloadRoundTrip(r: VisibilityReport)
    ensures DecodeVisibilityPayload(VisibilityPayload(r)) == Some(r)
  {
    var tail := REPLY_BOMBS + (IntToString(r.bombsOnPlayer) + REPLY_CLOSE);
    var s3 := BoolText(r.isVisible) + tail;
    var s2 := REPLY_VISIBLE + s3;
    var s1 := IntToString(r.playerId) + s2;
    StripPrefixOf(REPLY_OPEN, s1);
    ReadIntOf(r.playerId, s2);
    StripPrefixOf(REPLY_VISIBLE, s3);
    if r.isVisible {
      assert "true" <= s3 && s3[4..] == tail;
    } else {
      assert s3[0] == 'f';
      assert !("true" <= s3);
      assert "false" <= s3 && s3[5..] == tail;
    }
    StripPrefixOf(REPLY_BOMBS, IntToString(r.bombsOnPlayer) + REPLY_CLOSE);
    ReadIntOf(r.bombsOnPlayer, REPLY_CLOSE);
  }

  /** Different reports give different replies. */
  lemma VisibilityPayloadInjective(a: VisibilityReport, b: VisibilityReport)
    requires VisibilityPayload(a) == VisibilityPayload(b)
    ensures a == b
  {
    VisibilityPayloadRoundTrip(a);
    VisibilityPayloadRoundTrip(b);
  }

  /**
   * An answered request carries the local player id, the current EnemyActive flag and the
   * current EnemyInBombCount, and nothing else.
   */
  lemma AnsweredRequestReports(dec: Decoders, st: Store, message: string, connected: bool)
    requires AnswerVisibilityRequest(dec, st, message, connected).Some?
    ensures DecodeVisibilityPayload(AnswerVisibilityRequest(dec, st, message, connected).value)
         == Some(VisibilityReport(st.playerId, st.enemyActive, st.enemy.inBombCount))
  {
    VisibilityPayloadRoundTrip(ReportOf(st));
  }
}
