/**
 * The lobby view of `src/components/lobby/WaitingRoom.jsx`: start
 * eligibility, the start handler and its error banner, the ready toggle,
 * the chat filter and input, and the leave button.
 *
 * Its `startGame` and `leaveRoom` are the ones `useGame` returns, which are
 * the context's dispatchers (`UseGame.ReturnedBindings`); its `setReady` and
 * `sendMessage` are the hook's own.
 */
module WaitingRoom {
  import opened Wrappers
  import opened Constants
  import opened GameContext
  import opened UseGame
  import opened JsText

  /** `isHost`. */
  predicate IsHost(s: GameState, user: User) {
    s.room.host == Some(user.id)
  }

  /** `allPlayersReady`: `every` record has a truthy `isReady`. */
  predicate AllPlayersReady(s: GameState) {
    forall k :: k in s.players ==> s.players[k].isReady == Some(true)
  }

  /** `minPlayers`. */
  function MinPlayers(maxPlayers: int): (m: int)
    ensures m == 7 || m == 5
  {
    if maxPlayers >= 7 then 7 else 5
  }

  /** `hasEnoughPlayers`: `Object.keys(players).length >= minPlayers`. */
  predicate HasEnoughPlayers(s: GameState) {
    |s.players| >= MinPlayers(s.room.settings.maxPlayers)
  }

  /**
   * An empty room is vacuously ready but never large enough; a newcomer,
   * who joins not ready, keeps the room large enough and makes it not ready.
   */
  lemma EligibilityAfterJoin(s: GameState, roomId: RoomId, roomCode: string, host: PlayerId, pid: PlayerId, name: string)
    ensures s.players == map[] ==> AllPlayersReady(s) && !HasEnoughPlayers(s)
    ensures var t := Reduce(s, JoinRoom(roomId, roomCode, host, pid, name));
      && (HasEnoughPlayers(s) ==> HasEnoughPlayers(t))
      && !AllPlayersReady(t)
  {
    var t := Reduce(s, JoinRoom(roomId, roomCode, host, pid, name));
    assert s.players.Keys <= t.players.Keys;
    assert |s.players.Keys| <= |t.players.Keys| by {
      SubsetCard(s.players.Keys, t.players.Keys);
    }
    assert t.players[pid].isReady == Some(false);
  }

  lemma {:induction false} SubsetCard<T>(a: set<T>, b: set<T>)
    requires a <= b
    ensures |a| <= |b|
  {
    assert b == a + (b - a);
  }

  /** Six players are enough in a room of fewer than seven seats and too few from seven seats up. */
  lemma SixPlayers(s: GameState)
    requires |s.players| == 6
    ensures s.room.settings.maxPlayers < 7 ==> HasEnoughPlayers(s)
    ensures s.room.settings.maxPlayers >= 7 ==> !HasEnoughPlayers(s)
  {
  }

  /** The text of the start error banner. */
  datatype StartError = NeedAtLeast(minPlayers: int) | AllMustBeReady

  /** The banner text: the player-count message takes precedence. */
  function StartErrorText(s: GameState): (e: StartError)
    ensures e.NeedAtLeast? <==> !HasEnoughPlayers(s)
    ensures e.NeedAtLeast? ==> e.minPlayers == MinPlayers(s.room.settings.maxPlayers)
  {
    if !HasEnoughPlayers(s) then NeedAtLeast(MinPlayers(s.room.settings.maxPlayers)) else AllMustBeReady
  }

  /** What a click on Start does: show the banner, or call `startGame`. */
  datatype StartClick = ShowError(error: StartError) | Started(effect: Effect)

  /**
   * `handleStartGame`. The `startGame()` it calls is the context's
   * dispatcher with no argument: `START_GAME` with `playerRoles` undefined,
   * whose spread adds no player. So the click sets the local phase to
   * STARTING and emits nothing.
   */
  function HandleStartGame(s: GameState): (c: StartClick)
    ensures c.Started? <==> HasEnoughPlayers(s) && AllPlayersReady(s)
    ensures c.ShowError? ==> c.error == StartErrorText(s)
    ensures c.ShowError? && !HasEnoughPlayers(s) ==> c.error.NeedAtLeast?
    ensures c.Started? ==> c.effect.emitted.None? && c.effect.state == s.(phase := Starting)
  {
    if !HasEnoughPlayers(s) || !AllPlayersReady(s) then ShowError(StartErrorText(s))
    else
      assert s.players + map[] == s.players;
      Started(Dispatch(s, StartGame(map[])))
  }

  /** The Start button exists only for the host; it is enabled exactly when a click would start. */
  predicate StartButtonShown(s: GameState, user: User) {
    IsHost(s, user)
  }

  predicate StartButtonEnabled(s: GameState) {
    HasEnoughPlayers(s) && AllPlayersReady(s)
  }

  lemma EnabledButtonStarts(s: GameState)
    ensures StartButtonEnabled(s) <==> HandleStartGame(s).Started?
  {
  }

  /** The caller's `isReady` as the button reads it: `state.players[user.id]?.isReady`, truthy. */
  predicate ShownReady(s: GameState, user: User) {
    user.id in s.players && s.players[user.id].isReady == Some(true)
  }

  /** The ready button: `setReady(!state.players[user.id]?.isReady)`. */
  function ToggleReady(s: GameState, user: User): (e: Effect)
    ensures e.emitted == Some(PlayerReady(user.id, s.room.id, !ShownReady(s, user)))
    ensures ShownReady(e.state, user) <==> !ShownReady(s, user)
    ensures user.id in e.state.players
    ensures var before, after := RecordOf(s.players, user.id), e.state.players[user.id];
      after.id == before.id && after.username == before.username
      && after.state == before.state && after.role == before.role
    ensures e.state.players.Keys == s.players.Keys + {user.id}
    ensures OthersUnchanged(s.players, e.state.players, user.id)
    ensures SameButPlayers(s, e.state)
  {
    SetReady(s, user, !ShownReady(s, user))
  }

  /** Pressing the ready button twice restores what the button shows. */
  lemma ToggleTwice(s: GameState, user: User)
    ensures ShownReady(ToggleReady(ToggleReady(s, user).state, user).state, user) == ShownReady(s, user)
  {
  }

  /** The lobby chat: the messages that are not game events, in order. */
  function LobbyChat(ms: seq<Message>): (r: seq<Message>)
    ensures |r| <= |ms|
    ensures forall i :: 0 <= i < |r| ==> !r[i].isGameEvent
    ensures forall m :: m in r <==> m in ms && !m.isGameEvent
  {
    if |ms| == 0 then []
    else LobbyChat(ms[..|ms| - 1]) + (if ms[|ms| - 1].isGameEvent then [] else [ms[|ms| - 1]])
  }

  /** The filter keeps the order of what it keeps: it distributes over concatenation. */
  lemma {:induction false} LobbyChatAppend(a: seq<Message>, b: seq<Message>)
    ensures LobbyChat(a + b) == LobbyChat(a) + LobbyChat(b)
    decreases |b|
  {
    if |b| == 0 {
      assert a + b == a;
    } else {
      var b' := b[..|b| - 1];
      assert (a + b)[..|a + b| - 1] == a + b';
      LobbyChatAppend(a, b');
    }
  }

  /** A new message shows in the lobby chat, at its end, exactly when it is not a game event. */
  lemma LobbyChatAfterAddMessage(s: GameState, m: Message, isGameEvent: bool)
    ensures LobbyChat(Reduce(s, AddMessage(m, isGameEvent)).messages)
         == LobbyChat(s.messages) + (if m.isGameEvent then [] else [m])
  {
    LobbyChatAppend(s.messages, [m]);
    assert LobbyChat([m]) == LobbyChat([]) + (if m.isGameEvent then [] else [m]);
  }

  /** `handleSendMessage`: a blank input sends nothing; any other is sent as typed and the input cleared. */
  function HandleSendMessage(s: GameState, user: User, input: string, now: int, timestamp: string): (r: Submission)
    ensures IsBlank(input) ==> r == Submission(Effect(None, s), input)
    ensures !IsBlank(input) ==> r.input == [] && r == Submission(SendMessage(s, user, input, now, timestamp), [])
    ensures !IsBlank(input) ==> r.effect.emitted.Some? && r.effect.state.messages == s.messages + [r.effect.emitted.value.message]
  {
    TrimEmptyIffBlank(input);
    if Trim(input) != [] then Submission(SendMessage(s, user, input, now, timestamp), [])
    else Submission(Effect(None, s), input)
  }

  /**
   * `handleLeaveRoom`: the `leaveRoom()` it calls is the context's
   * dispatcher with no argument, so `LEAVE_ROOM` removes the key
   * `[undefined]`, which JavaScript reads as the string "undefined". Nothing
   * is emitted and the caller's own entry stays.
   */
  function HandleLeaveRoom(s: GameState): (e: Effect)
    ensures e.emitted.None?
    ensures e.state == s.(players := s.players - {"undefined"})
  {
    Dispatch(s, LeaveRoom("undefined"))
  }

  /** Unless a player's id is literally "undefined", leaving changes nothing, and the caller stays in the room. */
  lemma LeaveKeepsCaller(s: GameState, user: User)
    requires user.id != "undefined"
    ensures user.id in s.players ==> user.id in HandleLeaveRoom(s).state.players
    ensures "undefined" !in s.players ==> HandleLeaveRoom(s).state == s
  {
    LeaveRoomEffect(s, "undefined");
  }

  /**
   * What the Leave click would do through the hook's `leaveRoom`: it asks the
   * server to remove the caller and removes the caller's own entry.
   */
  function HandleLeaveRoomWithHook(s: GameState, user: User): (e: Effect)
    ensures e.emitted == Some(RoomLeave(user.id, s.room.id))
    ensures e.state == s.(players := s.players - {user.id})
  {
    UseGame.LeaveRoom(s, user)
  }

  /**
   * As written, the Leave click never reaches the server and the caller stays
   * in the room; through the hook it would send `room:leave` and drop the caller.
   */
  lemma LeaveNeverReachesServer(s: GameState, user: User)
    requires user.id != "undefined" && user.id in s.players
    ensures HandleLeaveRoom(s).emitted.None? && user.id in HandleLeaveRoom(s).state.players
    ensures HandleLeaveRoomWithHook(s, user).emitted == Some(RoomLeave(user.id, s.room.id))
    ensures user.id !in HandleLeaveRoomWithHook(s, user).state.players
  {
  }

  /**
   * What the Start click would do through the hook's guarded `startGame`:
   * the host's eligible click emits `game:start`, and nobody else's does.
   */
  function HandleStartGameWithHook(s: GameState, user: User): (c: StartClick)
    ensures c.Started? <==> HasEnoughPlayers(s) && AllPlayersReady(s)
    ensures c.Started? ==> (c.effect.emitted == Some(GameStart(s.room.id)) <==> IsHost(s, user))
    ensures c.Started? ==> c.effect.state == s
  {
    if !HasEnoughPlayers(s) || !AllPlayersReady(s) then ShowError(StartErrorText(s))
    else Started(UseGame.StartGame(s, user))
  }

  /**
   * Through the hook, a click emits `game:start` exactly when the button is
   * both rendered and enabled: nobody who is not shown the button can start.
   */
  lemma OnlyShownButtonStartsThroughHook(s: GameState, user: User)
    ensures var c := HandleStartGameWithHook(s, user);
      c.Started? && c.effect.emitted.Some? <==> StartButtonShown(s, user) && StartButtonEnabled(s)
  {
  }

  /** As written, an eligible host's click never reaches the server; through the hook it would. */
  lemma HostStartNeverEmitted(s: GameState, user: User)
    requires IsHost(s, user) && HasEnoughPlayers(s) && AllPlayersReady(s)
    ensures HandleStartGame(s).effect.emitted.None?
    ensures HandleStartGameWithHook(s, user).effect.emitted == Some(GameStart(s.room.id))
  {
  }
}
