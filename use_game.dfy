/**
 * The hook `useGame` of `src/hooks/useGame.js`: guarded intents that emit on
 * the socket and update the store, the derived predicates and counters, and
 * the object the hook returns.
 *
 * An intent is a function from the store's state to an `Effect`: the event
 * it asks the socket to emit, if any, and the store's next state. Whether the
 * socket actually sends is decided by `UseSocket`.
 */
module UseGame {
  import opened Wrappers
  import opened Constants
  import opened GameContext

  /** The signed-in user of the authentication context. */
  datatype User = User(id: PlayerId, username: string)

  /** The events the hook emits, with their payloads. */
  datatype Outgoing =
    | RoomCreate(settings: Settings)
    | RoomJoin(roomCode: string, userId: PlayerId)
    | RoomLeave(userId: PlayerId, roomId: Option<RoomId>)
    | PlayerReady(userId: PlayerId, roomId: Option<RoomId>, isReady: bool)
    | GameStart(roomId: Option<RoomId>)
    | GameVote(voterId: PlayerId, targetId: PlayerId, roomId: Option<RoomId>)
    | GameActionSent(playerId: PlayerId, role: Role, action: ActionKind, targetId: PlayerId, roomId: Option<RoomId>)
    | ChatMessage(message: Message, roomId: Option<RoomId>)
  {
    function EventName(): string {
      match this
      case RoomCreate(_) => "room:create"
      case RoomJoin(_, _) => "room:join"
      case RoomLeave(_, _) => "room:leave"
      case PlayerReady(_, _, _) => "player:ready"
      case GameStart(_) => "game:start"
      case GameVote(_, _, _) => "game:vote"
      case GameActionSent(_, _, _, _, _) => "game:action"
      case ChatMessage(_, _) => "chat:message"
    }
  }

  /** What an intent does: the event it emits, if any, and the store's next state. */
  datatype Effect = Effect(emitted: Option<Outgoing>, state: GameState)

  /** What a chat input's submit handler did, and the text left in the input box. */
  datatype Submission = Submission(effect: Effect, input: string)

  /**
   * A context dispatcher: it emits nothing and its state is the reducer's
   * result for that one action (the `GameContext` lemmas say what each is).
   */
  function Dispatch(s: GameState, a: GameAction): (e: Effect)
    ensures e.emitted.None?
    ensures e.state == Reduce(s, a)
  {
    Effect(None, Reduce(s, a))
  }

  /** The update `{isReady}` that `setReady` dispatches. */
  function ReadyOnly(isReady: bool): PlayerUpdates {
    PlayerUpdates(Keep, Keep, Set(isReady), Keep, Keep)
  }

  // ---------------------------------------------------------------------
  // Intents

  function CreateRoom(s: GameState, settings: Settings): (e: Effect)
    ensures e.emitted == Some(RoomCreate(settings)) && e.state == s
  {
    Effect(Some(RoomCreate(settings)), s)
  }

  function JoinRoom(s: GameState, user: User, roomCode: string): (e: Effect)
    ensures e.emitted == Some(RoomJoin(roomCode, user.id)) && e.state == s
  {
    Effect(Some(RoomJoin(roomCode, user.id)), s)
  }

  /** `leaveRoom`: asks the server to remove the user and removes only the user's entry locally. */
  function LeaveRoom(s: GameState, user: User): (e: Effect)
    ensures e.emitted == Some(RoomLeave(user.id, s.room.id))
    ensures e.state.players.Keys == s.players.Keys - {user.id}
    ensures OthersUnchanged(s.players, e.state.players, user.id)
    ensures SameButPlayers(s, e.state)
  {
    LeaveRoomEffect(s, user.id);
    Effect(Some(RoomLeave(user.id, s.room.id)), Reduce(s, GameContext.LeaveRoom(user.id)))
  }

  /** `setReady`: changes only the caller's `isReady`. */
  function SetReady(s: GameState, user: User, isReady: bool): (e: Effect)
    ensures e.emitted == Some(PlayerReady(user.id, s.room.id, isReady))
    ensures user.id in e.state.players && e.state.players[user.id].isReady == Some(isReady)
    ensures var before, after := RecordOf(s.players, user.id), e.state.players[user.id];
      after.id == before.id && after.username == before.username
      && after.state == before.state && after.role == before.role
    ensures e.state.players.Keys == s.players.Keys + {user.id}
    ensures OthersUnchanged(s.players, e.state.players, user.id)
    ensures SameButPlayers(s, e.state)
  {
    UpdatePlayerEffect(s, user.id, ReadyOnly(isReady));
    Effect(Some(PlayerReady(user.id, s.room.id, isReady)), Reduce(s, UpdatePlayer(user.id, ReadyOnly(isReady))))
  }

  /** `startGame`: emits `game:start` only for the room's host and never touches the store. */
  function StartGame(s: GameState, user: User): (e: Effect)
    ensures e.emitted.Some? <==> s.room.host == Some(user.id)
    ensures e.emitted.Some? ==> e.emitted.value == GameStart(s.room.id)
    ensures e.state == s
  {
    if s.room.host == Some(user.id) then Effect(Some(GameStart(s.room.id)), s) else Effect(None, s)
  }

  /** `castVote`: outside DAY_VOTING nothing happens; otherwise it emits and records `votes[user.id] = targetId`. */
  function CastVote(s: GameState, user: User, targetId: PlayerId): (e: Effect)
    ensures e.emitted.Some? <==> s.phase == DayVoting
    ensures s.phase != DayVoting ==> e.state == s
    ensures s.phase == DayVoting ==>
      && e.emitted.value == GameVote(user.id, targetId, s.room.id)
      && e.state == s.(currentPhase := s.currentPhase.(votes := s.currentPhase.votes[user.id := targetId]))
  {
    if s.phase != DayVoting then Effect(None, s)
    else Effect(Some(GameVote(user.id, targetId, s.room.id)), Reduce(s, GameContext.CastVote(user.id, targetId)))
  }

  /** The caller's role, `state.players[user.id]?.role`. */
  function RoleOf(s: GameState, user: User): Option<Role> {
    if user.id in s.players then s.players[user.id].role else None
  }

  /**
   * `performAction`: nothing happens outside NIGHT_ACTION or when the caller
   * has no role; otherwise it emits with the caller's role and records the
   * action. It checks neither that the caller is alive nor which role it is.
   */
  function PerformAction(s: GameState, user: User, action: ActionKind, targetId: PlayerId): (e: Effect)
    ensures e.emitted.Some? <==> s.phase == NightAction && RoleOf(s, user).Some?
    ensures e.emitted.None? ==> e.state == s
    ensures e.emitted.Some? ==>
      && e.emitted.value == GameActionSent(user.id, RoleOf(s, user).value, action, targetId, s.room.id)
      && e.state == s.(currentPhase := s.currentPhase.(
           actions := s.currentPhase.actions[user.id := ActionEntry(action, targetId)]))
  {
    if s.phase != NightAction then Effect(None, s)
    else match RoleOf(s, user)
      case None => Effect(None, s)
      case Some(role) =>
        Effect(Some(GameActionSent(user.id, role, action, targetId, s.room.id)),
               Reduce(s, GameContext.PerformAction(user.id, action, targetId)))
  }

  /** `sendMessage`: emits a chat message from the user and appends it to `messages` only. */
  function SendMessage(s: GameState, user: User, content: string, now: int, timestamp: string): (e: Effect)
    ensures var m := Message(now, user.username, content, timestamp, false);
      && e.emitted == Some(ChatMessage(m, s.room.id))
      && e.state == s.(messages := s.messages + [m])
  {
    var m := Message(now, user.username, content, timestamp, false);
    Effect(Some(ChatMessage(m, s.room.id)), Reduce(s, AddMessage(m, false)))
  }

  // ---------------------------------------------------------------------
  // Derived predicates

  /** A record whose `state` is ALIVE. */
  predicate AliveRecord(p: Player) {
    p.state == Some(Alive)
  }

  /** `isAlive`: `state.players[user.id]?.state === "ALIVE"`. */
  predicate IsAlive(s: GameState, user: User) {
    user.id in s.players && AliveRecord(s.players[user.id])
  }

  /** `canVote`. */
  predicate CanVote(s: GameState, user: User) {
    IsAlive(s, user) && s.phase == DayVoting
  }

  /** The roles that `canPerformAction` accepts. */
  predicate ActingRole(r: Option<Role>) {
    r == Some(Mafia) || r == Some(Detective) || r == Some(Doctor)
  }

  /** `canPerformAction`. */
  predicate CanPerformAction(s: GameState, user: User) {
    IsAlive(s, user) && s.phase == NightAction && ActingRole(RoleOf(s, user))
  }

  /**
   * The predicates follow the store: after `updatePlayer(user.id, {state})`
   * the caller may vote exactly when that state is ALIVE in DAY_VOTING, and
   * may act exactly when it is ALIVE at night with an acting role.
   */
  lemma GuardsFollowStateUpdate(s: GameState, user: User, st: PlayerState)
    ensures var t := Reduce(s, UpdatePlayer(user.id, PlayerUpdates(Keep, Keep, Keep, Set(st), Keep)));
      && (CanVote(t, user) <==> st == Alive && s.phase == DayVoting)
      && (CanPerformAction(t, user) <==> st == Alive && s.phase == NightAction && ActingRole(RoleOf(s, user)))
  {
  }

  /** Villagers and players without a role may never act, and nobody may both vote and act. */
  lemma CanPerformActionMeaning(s: GameState, user: User)
    ensures RoleOf(s, user) == Some(Villager) || RoleOf(s, user) == None ==> !CanPerformAction(s, user)
    ensures !(CanVote(s, user) && CanPerformAction(s, user))
  {
  }

  /** Whoever may vote, the hook's `castVote` lets through. */
  lemma CanVoteLetsVoteThrough(s: GameState, user: User, target: PlayerId)
    requires CanVote(s, user)
    ensures CastVote(s, user, target).emitted.Some?
    ensures CastVote(s, user, target).state.currentPhase.votes[user.id] == target
  {
  }

  /** Whoever may act, the hook's `performAction` lets through. */
  lemma CanPerformActionLetsActionThrough(s: GameState, user: User, kind: ActionKind, target: PlayerId)
    requires CanPerformAction(s, user)
    ensures PerformAction(s, user, kind, target).emitted.Some?
  {
  }

  /** The guards are weaker than the predicates: a dead villager's vote and night action are still emitted. */
  lemma GuardsIgnoreLiveness()
    ensures var dead := Player(Some("d"), Some("dee"), Some(true), Some(Dead), Some(Villager));
      var s := Initial.(players := map["d" := dead]);
      var u := User("d", "dee");
      && !CanVote(s.(phase := DayVoting), u) && CastVote(s.(phase := DayVoting), u, "x").emitted.Some?
      && !CanPerformAction(s.(phase := NightAction), u) && PerformAction(s.(phase := NightAction), u, "kill", "x").emitted.Some?
  {
  }

  // ---------------------------------------------------------------------
  // getRemainingPlayers

  datatype Remaining = Remaining(total: nat, mafia: nat, villagers: nat)

  function AliveIds(players: map<PlayerId, Player>): set<PlayerId> {
    set k | k in players && AliveRecord(players[k])
  }

  function AliveMafiaIds(players: map<PlayerId, Player>): set<PlayerId> {
    set k | k in players && AliveRecord(players[k]) && players[k].role == Some(Mafia)
  }

  /** Every alive non-mafia record, including the ones without a role. */
  function AliveOtherIds(players: map<PlayerId, Player>): set<PlayerId> {
    set k | k in players && AliveRecord(players[k]) && players[k].role != Some(Mafia)
  }

  /** `getRemainingPlayers`: the three counts of alive players. */
  function GetRemainingPlayers(s: GameState): (r: Remaining)
    ensures r.total == |AliveIds(s.players)| <= |s.players|
    ensures r.mafia == |AliveMafiaIds(s.players)| && r.villagers == |AliveOtherIds(s.players)|
    ensures r.mafia + r.villagers == r.total
  {
    var alive, mafia, others := AliveIds(s.players), AliveMafiaIds(s.players), AliveOtherIds(s.players);
    assert alive == mafia + others && mafia * others == {};
    assert s.players.Keys == alive + (s.players.Keys - alive);
    Remaining(|alive|, |mafia|, |others|)
  }

  /** Only alive players are counted: turning a player dead lowers the total by one and keeps the sum. */
  lemma {:induction false} KillingLowersTotal(s: GameState, id: PlayerId)
    requires id in s.players && AliveRecord(s.players[id])
    ensures var t := s.(players := s.players[id := s.players[id].(state := Some(Dead))]);
      GetRemainingPlayers(t).total + 1 == GetRemainingPlayers(s).total
  {
    var q := s.players[id := s.players[id].(state := Some(Dead))];
    assert AliveIds(q) == AliveIds(s.players) - {id};
  }

  // ---------------------------------------------------------------------
  // The object the hook returns

  /** Where a key of the returned object comes from: the hook's own binding or the context's `gameActions`. */
  datatype Binding = HookOwn | ContextDispatcher

  /** A JavaScript object literal: its entries in source order, a later key overwriting an earlier one. */
  function ObjectLiteral<V>(entries: seq<(string, V)>): map<string, V>
    decreases |entries|
  {
    if |entries| == 0 then map[]
    else ObjectLiteral(entries[..|entries| - 1])[entries[|entries| - 1].0 := entries[|entries| - 1].1]
  }

  function Tagged(keys: seq<string>, b: Binding): (es: seq<(string, Binding)>)
    ensures |es| == |keys|
    ensures forall i :: 0 <= i < |es| ==> es[i] == (keys[i], b)
  {
    if |keys| == 0 then [] else Tagged(keys[..|keys| - 1], b) + [(keys[|keys| - 1], b)]
  }

  /** The keys the hook lists before `...gameActions`. */
  const HookKeys := ["state", "createRoom", "joinRoom", "leaveRoom", "setReady", "startGame", "castVote",
                     "performAction", "sendMessage", "isAlive", "canVote", "canPerformAction", "getRemainingPlayers"]

  /** The keys of the context's `gameActions`. */
  const ContextKeys := ["joinRoom", "leaveRoom", "updatePlayer", "startGame", "changePhase", "castVote",
                        "performAction", "addMessage", "endGame", "resetGame"]

  /** The object `useGame` returns. */
  function Returned(): map<string, Binding> {
    ObjectLiteral(Tagged(HookKeys, HookOwn) + Tagged(ContextKeys, ContextDispatcher))
  }

  function KeysOf<V>(entries: seq<(string, V)>): set<string> {
    set i | 0 <= i < |entries| :: entries[i].0
  }

  /** A spread placed last decides every key it carries; the earlier entries decide the rest. */
  lemma {:induction false} LaterSpreadWins<V>(xs: seq<(string, V)>, ys: seq<(string, V)>, k: string)
    ensures k in ObjectLiteral(xs + ys) <==> k in ObjectLiteral(xs) || k in ObjectLiteral(ys)
    ensures k in ObjectLiteral(ys) ==> ObjectLiteral(xs + ys)[k] == ObjectLiteral(ys)[k]
    ensures k !in ObjectLiteral(ys) && k in ObjectLiteral(xs) ==> ObjectLiteral(xs + ys)[k] == ObjectLiteral(xs)[k]
    decreases |ys|
  {
    if |ys| > 0 {
      var ys' := ys[..|ys| - 1];
      assert (xs + ys)[..|xs + ys| - 1] == xs + ys';
      LaterSpreadWins(xs, ys', k);
    } else {
      assert xs + ys == xs;
    }
  }

  /** Every key of a literal is one of its entries' keys, and every entry's key is a key of the literal. */
  lemma {:induction false} LiteralKeys<V>(es: seq<(string, V)>)
    ensures ObjectLiteral(es).Keys == KeysOf(es)
    decreases |es|
  {
    if |es| > 0 {
      var es' := es[..|es| - 1];
      LiteralKeys(es');
      assert KeysOf(es) == KeysOf(es') + {es[|es| - 1].0} by {
        forall k | k in KeysOf(es) ensures k in KeysOf(es') + {es[|es| - 1].0} {
          var i :| 0 <= i < |es| && es[i].0 == k;
          if i < |es| - 1 { assert es'[i].0 == k; }
        }
        forall k | k in KeysOf(es') ensures k in KeysOf(es) {
          var i :| 0 <= i < |es'| && es'[i].0 == k;
          assert es[i].0 == k;
        }
      }
    }
  }

  /** In a literal whose entries all carry `b`, every key is bound to `b`. */
  lemma {:induction false} UniformLiteral(es: seq<(string, Binding)>, b: Binding, k: string)
    requires forall i :: 0 <= i < |es| ==> es[i].1 == b
    requires k in ObjectLiteral(es)
    ensures ObjectLiteral(es)[k] == b
    decreases |es|
  {
    if |es| > 0 && es[|es| - 1].0 != k {
      UniformLiteral(es[..|es| - 1], b, k);
    }
  }

  /**
   * In `{...first, ...second}` with uniform bindings, a key the second part
   * carries takes its binding, and a key only the first carries keeps the
   * first's.
   */
  lemma SpreadOrder(first: seq<string>, b1: Binding, second: seq<string>, b2: Binding, k: string)
    requires k in first || k in second
    ensures var o := ObjectLiteral(Tagged(first, b1) + Tagged(second, b2));
      k in o && o[k] == (if k in second then b2 else b1)
  {
    var fs, ss := Tagged(first, b1), Tagged(second, b2);
    LiteralKeys(fs);
    LiteralKeys(ss);
    LaterSpreadWins(fs, ss, k);
    if k in second {
      var i :| 0 <= i < |second| && second[i] == k;
      assert ss[i].0 == k;
      UniformLiteral(ss, b2, k);
    } else {
      var i :| 0 <= i < |first| && first[i] == k;
      assert fs[i].0 == k;
      assert k !in KeysOf(ss);
      UniformLiteral(fs, b1, k);
    }
  }

  /** The key at position `i` of the spread placed last is bound as that spread binds it. */
  lemma LastSpreadKey(first: seq<string>, b1: Binding, second: seq<string>, b2: Binding, i: nat)
    requires i < |second|
    ensures var o := ObjectLiteral(Tagged(first, b1) + Tagged(second, b2));
      second[i] in o && o[second[i]] == b2
  {
    SpreadOrder(first, b1, second, b2, second[i]);
  }

  /** A key of the first spread that the second does not carry keeps the first's binding. */
  lemma FirstOnlyKey(first: seq<string>, b1: Binding, second: seq<string>, b2: Binding, i: nat)
    requires i < |first| && first[i] !in second
    ensures var o := ObjectLiteral(Tagged(first, b1) + Tagged(second, b2));
      first[i] in o && o[first[i]] == b1
  {
    SpreadOrder(first, b1, second, b2, first[i]);
  }

  /**
   * Because `...gameActions` is spread last, `joinRoom`, `leaveRoom`,
   * `startGame`, `castVote` and `performAction` of the returned object are
   * the context's plain dispatchers, not the guarded intents above; only
   * `setReady`, `sendMessage`, `createRoom` and the predicates are the hook's.
   */
  lemma ReturnedBindings()
    ensures "joinRoom" in Returned() && Returned()["joinRoom"] == ContextDispatcher
    ensures "leaveRoom" in Returned() && Returned()["leaveRoom"] == ContextDispatcher
    ensures "startGame" in Returned() && Returned()["startGame"] == ContextDispatcher
    ensures "castVote" in Returned() && Returned()["castVote"] == ContextDispatcher
    ensures "performAction" in Returned() && Returned()["performAction"] == ContextDispatcher
    ensures "createRoom" in Returned() && Returned()["createRoom"] == HookOwn
    ensures "setReady" in Returned() && Returned()["setReady"] == HookOwn
    ensures "sendMessage" in Returned() && Returned()["sendMessage"] == HookOwn
  {
    LastSpreadKey(HookKeys, HookOwn, ContextKeys, ContextDispatcher, 0);
    LastSpreadKey(HookKeys, HookOwn, ContextKeys, ContextDispatcher, 1);
    LastSpreadKey(HookKeys, HookOwn, ContextKeys, ContextDispatcher, 3);
    LastSpreadKey(HookKeys, HookOwn, ContextKeys, ContextDispatcher, 5);
    LastSpreadKey(HookKeys, HookOwn, ContextKeys, ContextDispatcher, 6);
    FirstOnlyKey(HookKeys, HookOwn, ContextKeys, ContextDispatcher, 1);
    FirstOnlyKey(HookKeys, HookOwn, ContextKeys, ContextDispatcher, 4);
    FirstOnlyKey(HookKeys, HookOwn, ContextKeys, ContextDispatcher, 8);
  }

  /**
   * The object with `...gameActions` spread first, so the hook's own intents
   * win. Which of the two orders was meant is not evident: the views call
   * these names with the context's signatures.
   */
  function IntendedReturned(): map<string, Binding> {
    ObjectLiteral(Tagged(ContextKeys, ContextDispatcher) + Tagged(HookKeys, HookOwn))
  }

  /**
   * With the spread first, every intent the hook defines is its own guarded
   * one, and the context-only actions stay reachable.
   */
  lemma IntendedBindings()
    ensures "joinRoom" in IntendedReturned() && IntendedReturned()["joinRoom"] == HookOwn
    ensures "leaveRoom" in IntendedReturned() && IntendedReturned()["leaveRoom"] == HookOwn
    ensures "startGame" in IntendedReturned() && IntendedReturned()["startGame"] == HookOwn
    ensures "castVote" in IntendedReturned() && IntendedReturned()["castVote"] == HookOwn
    ensures "performAction" in IntendedReturned() && IntendedReturned()["performAction"] == HookOwn
    ensures "updatePlayer" in IntendedReturned() && IntendedReturned()["updatePlayer"] == ContextDispatcher
    ensures "addMessage" in IntendedReturned() && IntendedReturned()["addMessage"] == ContextDispatcher
  {
    LastSpreadKey(ContextKeys, ContextDispatcher, HookKeys, HookOwn, 2);
    LastSpreadKey(ContextKeys, ContextDispatcher, HookKeys, HookOwn, 3);
    LastSpreadKey(ContextKeys, ContextDispatcher, HookKeys, HookOwn, 5);
    LastSpreadKey(ContextKeys, ContextDispatcher, HookKeys, HookOwn, 6);
    LastSpreadKey(ContextKeys, ContextDispatcher, HookKeys, HookOwn, 7);
    FirstOnlyKey(ContextKeys, ContextDispatcher, HookKeys, HookOwn, 2);
    FirstOnlyKey(ContextKeys, ContextDispatcher, HookKeys, HookOwn, 7);
  }

}
