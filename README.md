# Mafia client core, modelled in Dafny

This project models the client side of a browser Mafia game (React and socket.io). It covers:

- the session-state reducer of the game context;
- the guarded intents and derived predicates of the `useGame` hook, and which names the hook's returned object binds;
- the reconnection state machine and listener helpers of the `useSocket` hook;
- the small rules in the lobby and game views: vote tally, start eligibility, settings clamps, chat permission and blank-message rejection.

The game engine itself (vote resolution, night actions, role allocation, win checks) runs on a server and is not part of this model.

Modules follow the source files:

- `Constants` for phases, player states and roles;
- `GameContext` for the reducer;
- `UseGame` for the hook;
- `UseSocket` for the socket hook;
- `VotePanel`, `WaitingRoom`, `RoomCreation` and `ChatBox` for the views;
- two helpers: `Wrappers` (Option) and `JsText` (JavaScript `String.prototype.trim`).

Player records are JavaScript objects whose keys may be missing, so every field is an `Option`. An update of an absent player builds a record from `{...undefined, ...updates}`.

An intent returns an `Effect`: the event it asks the socket to emit (if any) and the next local state. Whether that request is actually sent is decided by `UseSocket.EmitResult`: nothing is sent without a connected socket. The context dispatchers emit nothing.

The returned object of `useGame` spreads `...gameActions` after the hook's own intents. Its `joinRoom`, `leaveRoom`, `startGame`, `castVote` and `performAction` are therefore the context's unguarded dispatchers. The views are modelled with those bindings, as written.

`useSocket` keeps refs and React state that its handlers update in place. `UseSocket.SocketSession` is a class with those fields. Each handler is a method proved equal to a function on the `Session` value, and the properties are proved about those functions. Socket events, timer expiry and a server's acknowledgement are inputs.

Clock values (`Date.now()`, ISO timestamps) are parameters. Parsed numbers are `Option<int>`, where `None` means `NaN`.

Where the code departs from what the names and signatures of the hook's intents and the arguments its callers pass show was meant, the model follows the code. The intended behaviour is modelled beside it (see Findings):

- `PLAYER_STATES` is not imported where the reducer uses it. The reducer is modelled with the intended ALIVE, and `ReduceAsWritten` models the throw.
- The lobby's Start and Leave buttons reach the context dispatchers, not the hook's intents.

## Model

| member | source | states |
|---|---|---|
| GameContext.Reduce | src/contexts/GameContext.jsx:47-166 | The reducer with `PLAYER_STATES.ALIVE` read as ALIVE; its cases are stated by the lemmas below |
| GameContext.InitialLobby | src/contexts/GameContext.jsx:5-30 | `initialGameState`: LOBBY, no players, no room, 10 seats with roles 2/1/1/6, an empty window and no messages |
| GameContext.JoinRoomEffect | src/contexts/GameContext.jsx:49-68 | Room id, code and host are set and the settings kept; the joining player is inserted not ready, ALIVE, with no role; every other player is unchanged |
| GameContext.LeaveRoomEffect | src/contexts/GameContext.jsx:70-76 | Exactly that key is removed and everything else is unchanged; removing an absent id leaves the players equal |
| GameContext.UpdatePlayerEffect | src/contexts/GameContext.jsx:78-88 | Only the supplied fields of the named player change, an absent player gets a record of the supplied fields only, and every other player and field is unchanged |
| GameContext.UpdatePlayerIdempotent | src/contexts/GameContext.jsx:78-88 | Applying the same update twice equals applying it once |
| GameContext.StartGameEffect | src/contexts/GameContext.jsx:90-98 | Phase becomes STARTING; listed players are replaced wholesale and unlisted ones kept |
| GameContext.ChangePhaseEffect | src/contexts/GameContext.jsx:100-109 | The new phase with a fresh window: `timeRemaining` is the limit, with no votes and no actions |
| GameContext.ChangePhaseForgetsWindow | src/contexts/GameContext.jsx:100-109 | The new window does not depend on the previous state at all |
| GameContext.CastVoteEffect | src/contexts/GameContext.jsx:111-121 | One entry keyed by the voter is stored, the other votes and the actions are unchanged |
| GameContext.CastVoteLastWriteWins | src/contexts/GameContext.jsx:111-121 | A later vote of the same voter overwrites an earlier one; repeating a vote is idempotent |
| GameContext.CastVoteInAnyPhase | src/contexts/GameContext.jsx:111-121 | The reducer records a vote outside DAY_VOTING too |
| GameContext.PerformActionEffect | src/contexts/GameContext.jsx:123-136 | One `{action, target}` entry keyed by the actor is stored, other entries and votes unchanged |
| GameContext.PerformActionLastWriteWins | src/contexts/GameContext.jsx:123-136 | A later action of the same actor overwrites an earlier one; repeating is idempotent |
| GameContext.AddMessageEffect | src/contexts/GameContext.jsx:138-145 | The message is appended, the prefix kept; the game log grows, by that message, iff it is a game event |
| GameContext.EndGameEffect | src/contexts/GameContext.jsx:147-152 | Phase GAME_END and the winner recorded, nothing else changed |
| GameContext.ResetGameEffect | src/contexts/GameContext.jsx:154-161 | The initial state, except room id, code and host are kept and the settings are the supplied or the previous ones |
| GameContext.OtherActionIsIdentity | src/contexts/GameContext.jsx:163-164 | An unknown action type returns the state unchanged |
| GameContext.ReduceAsWritten | src/contexts/GameContext.jsx:47-166 | As written, the reducer throws a ReferenceError exactly on JOIN_ROOM and otherwise agrees with `Reduce` |
| GameContext.JoinRoomThrowsAsWritten | src/contexts/GameContext.jsx:49-68 | A concrete JOIN_ROOM that throws as written and inserts the player in the corrected reducer |
| UseGame.Dispatch | src/contexts/GameContext.jsx:176-230 | A context dispatcher emits nothing and its new state is `Reduce` of that one action |
| UseGame.CreateRoom | src/hooks/useGame.js:13-18 | Requests `room:create` with the settings; local state unchanged |
| UseGame.JoinRoom | src/hooks/useGame.js:20-25 | Requests `room:join` with the code and the user's id; local state unchanged |
| UseGame.LeaveRoom | src/hooks/useGame.js:27-30 | Requests `room:leave`; locally removes only the caller's entry |
| UseGame.SetReady | src/hooks/useGame.js:32-42 | Requests `player:ready`; only the caller's `isReady` changes |
| UseGame.StartGame | src/hooks/useGame.js:45-49 | Requests `game:start` iff the user is the room host; state unchanged |
| UseGame.CastVote | src/hooks/useGame.js:51-63 | Outside DAY_VOTING nothing is emitted or recorded; in it, `game:vote` is requested and the new state is the old one with only `currentPhase.votes[user.id] = target` changed |
| UseGame.PerformAction | src/hooks/useGame.js:65-82 | Acts iff the phase is NIGHT_ACTION and the caller has a role; then `game:action` carries that role and the new state is the old one with only `currentPhase.actions[user.id]` changed |
| UseGame.SendMessage | src/hooks/useGame.js:84-101 | Requests `chat:message`; the new state is the old one with the same message, never a game event, appended to `messages` |
| UseGame.CanPerformAction | src/hooks/useGame.js:112-119 | Alive, NIGHT_ACTION, and role MAFIA, DETECTIVE or DOCTOR |
| UseGame.IsAlive | src/hooks/useGame.js:104-106 | The caller has a record whose `state` is ALIVE |
| UseGame.CanVote | src/hooks/useGame.js:108-110 | Alive and the phase is DAY_VOTING |
| UseGame.GuardsFollowStateUpdate | src/hooks/useGame.js:104-119 | After `updatePlayer(user.id, {state})`, `canVote` holds iff that state is ALIVE in DAY_VOTING, and `canPerformAction` iff ALIVE at night with an acting role |
| UseGame.CanPerformActionMeaning | src/hooks/useGame.js:112-119 | A VILLAGER or a player without a role can never act, and nobody can both vote and act |
| UseGame.CanVoteLetsVoteThrough | src/hooks/useGame.js:51-63 | Whenever `canVote` holds, the hook's `castVote` emits and records the vote |
| UseGame.CanPerformActionLetsActionThrough | src/hooks/useGame.js:65-82 | Whenever `canPerformAction` holds, the hook's `performAction` emits |
| UseGame.GuardsIgnoreLiveness | src/hooks/useGame.js:65-82 | A dead villager still gets `game:action` through: the intent checks neither liveness nor an acting role |
| UseGame.GetRemainingPlayers | src/hooks/useGame.js:121-131 | `total` is the number of ALIVE records, at most all players; `mafia` the alive MAFIA records, `villagers` every other alive record; `mafia + villagers == total` |
| UseGame.KillingLowersTotal | src/hooks/useGame.js:121-131 | Marking one alive player dead lowers `total` by exactly one |
| UseGame.LaterSpreadWins | src/hooks/useGame.js:181-205 | In an object literal, a key of the later part takes its value there; other keys keep the earlier value |
| UseGame.LiteralKeys | src/hooks/useGame.js:181-205 | A literal's keys are exactly its entries' keys |
| UseGame.SpreadOrder | src/hooks/useGame.js:181-205 | In `{...first, ...second}` a key of `second` is bound as there, a key only of `first` as there |
| UseGame.ReturnedBindings | src/hooks/useGame.js:181-205 | `joinRoom`, `leaveRoom`, `startGame`, `castVote`, `performAction` are the context dispatchers; `createRoom`, `setReady`, `sendMessage` the hook's |
| UseGame.IntendedBindings | src/hooks/useGame.js:181-205 | With the spread placed first, all five are the hook's guarded intents and `updatePlayer`, `addMessage` stay the context's |
| UseSocket.RemoveFirst | src/hooks/useSocket.js:163-170 | An absent element leaves the sequence as it is; a present one makes it one element shorter |
| UseSocket.RemoveFirstSplices | src/hooks/useSocket.js:163-170 | When the element sits at position i and nowhere before, the result is the part before i followed by the part after i: the first occurrence is cut out and the rest keep their order |
| UseSocket.RemoveFirstCounts | src/hooks/useSocket.js:163-170 | Exactly one occurrence of the element goes and every other element keeps its count |
| UseSocket.Reconnection | src/hooks/useSocket.js:93-108 | At three attempts or more: only the limit message is recorded. Below: attempts + 1 and exactly one new retry timer, which becomes the tracked one; the listener token supply is kept |
| UseSocket.ConnectStep | src/hooks/useSocket.js:18-77 | No user: nothing. `io()` throws: only the error. Otherwise a new, unconnected socket without caller listeners |
| UseSocket.ConnectEvent | src/hooks/useSocket.js:36-41 | Connected, the socket's `connected` flag set, error cleared and attempts reset to 0; the listeners, timers and everything else kept |
| UseSocket.ConnectErrorEvent | src/hooks/useSocket.js:43-48 | Error recorded and disconnected, then `handleReconnection`; below the limit the error stays and attempts rise by one |
| UseSocket.DisconnectEvent | src/hooks/useSocket.js:50-58 | Disconnected; reconnection is attempted only for reason `io server disconnect` |
| UseSocket.ErrorEvent | src/hooks/useSocket.js:61-64 | Only the error changes |
| UseSocket.RetryExpiry | src/hooks/useSocket.js:102-107 | The oldest retry fires; it calls `connect()` only when not connected and a socket exists; counter, error, the tracked handle (never nulled after firing) and the counters kept |
| UseSocket.Released | src/hooks/useSocket.js:79-91 | Socket released; connected and error cleared only if there was a socket; the tracked retry cleared and forgotten; the attempt counter, timer and token supplies kept |
| UseSocket.MountStep | src/hooks/useSocket.js:173-181 | Connects only with a user and no socket held |
| UseSocket.EmitResult | src/hooks/useSocket.js:111-135 | Not sent iff no connected socket; a non-empty `error` in the response rejects with it, no response rejects with the timeout message, any other resolves |
| UseSocket.Listen | src/hooks/useSocket.js:138-160 | Without a socket nothing; otherwise one fresh wrapper is appended, a cleanup naming it returned, and nothing else changes |
| UseSocket.Deliver | src/hooks/useSocket.js:144-150 | A throwing callback is caught iff it is wrapped; a normal return is a normal return |
| UseSocket.CleanupStep | src/hooks/useSocket.js:155-159 | Removes the first occurrence of its own wrapper from the current socket; the order of the rest and every other field kept |
| UseSocket.OffStep | src/hooks/useSocket.js:163-170 | Removes the first raw registration of the callback, never a wrapper; the order of the rest and every other field kept |
| UseSocket.ReconnectionKeepsInv | src/hooks/useSocket.js:93-108 | `handleReconnection` and the handlers that call it keep the invariant, so attempts never exceed `RECONNECTION_ATTEMPTS` and each new timer handle is fresh |
| UseSocket.ConnectionHandlersKeepInv | src/hooks/useSocket.js:18-77 | `connect`, the mount effect, the `connect` and `error` events and a retry keep the invariant |
| UseSocket.DisconnectKeepsInv | src/hooks/useSocket.js:79-91 | `disconnect` keeps the invariant |
| UseSocket.ListenerHandlersKeepInv | src/hooks/useSocket.js:138-170 | `on`, a cleanup and `off` keep the invariant |
| UseSocket.UnlistenKeepsTokens | src/hooks/useSocket.js:155-170 | Removing a listener keeps the wrapper tokens issued |
| UseSocket.FailuresStopAtLimit | src/hooks/useSocket.js:93-97 | At the limit a connection error schedules nothing and leaves only the limit message |
| UseSocket.ThreeRetries | src/hooks/useSocket.js:93-108 | From zero, three errors schedule three retries and the fourth none |
| UseSocket.ConnectRearms | src/hooks/useSocket.js:36-48 | After `connect` the next error counts as the first attempt again |
| UseSocket.RetryReconnectsIff | src/hooks/useSocket.js:102-107 | With a socket, a retry calls `connect()` iff not connected |
| UseSocket.DisconnectIdempotent | src/hooks/useSocket.js:79-91 | `disconnect` twice equals once |
| UseSocket.DisconnectCancelsLatest | src/hooks/useSocket.js:79-91 | In every reachable session, after `disconnect` the tracked retry is no longer pending and nothing can be emitted |
| UseSocket.CleanupUndoesOn | src/hooks/useSocket.js:138-159 | Running the cleanup `on` returned restores the listeners exactly |
| UseSocket.OffDoesNotUndoOn | src/hooks/useSocket.js:138-170 | `off` with the callback given to `on` leaves the wrapper registered |
| UseSocket.ListenedNeverPropagates | src/hooks/useSocket.js:144-152 | An exception in a callback registered by `on` never escapes |
| UseSocket.SocketSession.HandleReconnection | src/hooks/useSocket.js:93-108 | Updates the fields as `Reconnection`, keeping the invariant |
| UseSocket.SocketSession.Connect | src/hooks/useSocket.js:18-77 | Updates the fields as `ConnectStep` |
| UseSocket.SocketSession.Mount | src/hooks/useSocket.js:173-177 | Updates the fields as `MountStep` |
| UseSocket.SocketSession.OnConnect | src/hooks/useSocket.js:36-41 | Updates the fields as `ConnectEvent` |
| UseSocket.SocketSession.OnConnectError | src/hooks/useSocket.js:43-48 | Updates the fields as `ConnectErrorEvent` |
| UseSocket.SocketSession.OnDisconnect | src/hooks/useSocket.js:50-58 | Updates the fields as `DisconnectEvent` |
| UseSocket.SocketSession.OnError | src/hooks/useSocket.js:61-64 | Updates the fields as `ErrorEvent` |
| UseSocket.SocketSession.RetryFires | src/hooks/useSocket.js:102-107 | Updates the fields as `RetryExpiry` |
| UseSocket.SocketSession.Disconnect | src/hooks/useSocket.js:79-91 | Updates the fields as `Released` |
| UseSocket.SocketSession.Emit | src/hooks/useSocket.js:111-135 | Changes nothing and returns `EmitResult`; not sent iff no connected socket |
| UseSocket.SocketSession.On | src/hooks/useSocket.js:138-160 | Updates the fields and returns the cleanup as `Listen` |
| UseSocket.SocketSession.RunCleanup | src/hooks/useSocket.js:155-159 | Updates the fields as `CleanupStep` |
| UseSocket.SocketSession.Off | src/hooks/useSocket.js:163-170 | Updates the fields as `OffStep` |
| GameContext.RoleCounts.With | src/components/lobby/RoomCreation.jsx:40-43 | The named role gets the new count and every other role keeps its own |
| VotePanel.VoteCount | src/components/game/VotePanel.jsx:15-18 | The fold of `acc[t] = (acc[t] \|\| 0) + 1` over the ballots; its counts are stated by the lemmas below |
| VotePanel.Bump | src/components/game/VotePanel.jsx:15-18 | One fold step adds the target to the counted keys |
| VotePanel.VoteCountIsVoters | src/components/game/VotePanel.jsx:15-18 | `voteCount[t]` is the number of voters whose vote is `t` |
| VotePanel.SumValuesWithout | src/components/game/VotePanel.jsx:15-18 | Summing the counts may take any key first: the sum is that key's count plus the sum over the other keys |
| VotePanel.BumpAddsOne | src/components/game/VotePanel.jsx:15-18 | One fold step raises the sum of the counts by one |
| VotePanel.VoteCountSum | src/components/game/VotePanel.jsx:15-18 | All counts together add up to the number of ballots |
| VotePanel.Targets | src/components/game/VotePanel.jsx:24-25 | A target is offered iff some ALIVE record carries its id |
| VotePanel.Shown | src/components/game/VotePanel.jsx:39-39 | The number on a target's button, `voteCount[id] \|\| 0` |
| VotePanel.UnvotedShowsZero | src/components/game/VotePanel.jsx:39-39 | A target nobody voted for shows 0 |
| VotePanel.HandleVote | src/components/game/VotePanel.jsx:10-12 | The context `castVote` emits nothing; the new state is the old one with only `currentPhase.votes[user.id] = t` changed |
| VotePanel.Highlighted | src/components/game/VotePanel.jsx:32-32 | A target is highlighted iff it is the caller's recorded vote |
| VotePanel.HookSignatureSelfVote | src/components/game/VotePanel.jsx:10-12 | Through the hook's `castVote(targetId)`, the panel's first argument `user.id` would be the target: a self-vote |
| VotePanel.VoteHighlightsChoice | src/components/game/VotePanel.jsx:10-32 | After voting for `t`, exactly `t` is highlighted |
| VotePanel.VotersAfterBallot | src/components/game/VotePanel.jsx:10-18 | A ballot moves its voter to the voters of the new target and from every other target |
| VotePanel.VoteMovesBallot | src/components/game/VotePanel.jsx:10-39 | After a vote the chosen target counts the other voters' ballots for it plus this one; every other target counts only the other voters' ballots |
| WaitingRoom.IsHost | src/components/lobby/WaitingRoom.jsx:16-16 | The room's host is the caller |
| WaitingRoom.AllPlayersReady | src/components/lobby/WaitingRoom.jsx:17-17 | Every record has a truthy `isReady` |
| WaitingRoom.MinPlayers | src/components/lobby/WaitingRoom.jsx:19-19 | The minimum is 7 or 5 |
| WaitingRoom.HasEnoughPlayers | src/components/lobby/WaitingRoom.jsx:18-20 | The number of player keys reaches the minimum |
| WaitingRoom.EligibilityAfterJoin | src/components/lobby/WaitingRoom.jsx:17-20 | An empty room is all ready yet not enough; a JOIN_ROOM keeps a large enough room large enough and makes it not all ready |
| WaitingRoom.SixPlayers | src/components/lobby/WaitingRoom.jsx:18-20 | Six players are enough below seven seats and too few from seven up |
| WaitingRoom.StartErrorText | src/components/lobby/WaitingRoom.jsx:263-265 | The player-count message takes precedence and names the minimum |
| WaitingRoom.HandleStartGame | src/components/lobby/WaitingRoom.jsx:38-45 | Starts iff enough players and all ready, otherwise shows the error; starting sets STARTING locally and emits nothing |
| WaitingRoom.StartButtonShown | src/components/lobby/WaitingRoom.jsx:248-248 | The Start button is rendered only for the host |
| WaitingRoom.OnlyShownButtonStartsThroughHook | src/components/lobby/WaitingRoom.jsx:248-256 | Through the hook, a click emits `game:start` exactly when the button is rendered and enabled |
| WaitingRoom.StartButtonEnabled | src/components/lobby/WaitingRoom.jsx:248-256 | The host-only button is enabled under the same condition that lets a click start |
| WaitingRoom.EnabledButtonStarts | src/components/lobby/WaitingRoom.jsx:38-45 | The button is enabled iff clicking it starts |
| WaitingRoom.ShownReady | src/components/lobby/WaitingRoom.jsx:240-245 | What the ready button shows: the caller's record exists and is ready |
| WaitingRoom.ToggleReady | src/components/lobby/WaitingRoom.jsx:238-238 | Sends the negation of what the button showed and flips it; the caller's other fields, every other player and everything outside `players` are unchanged |
| WaitingRoom.ToggleTwice | src/components/lobby/WaitingRoom.jsx:238-238 | Two presses restore what the button shows |
| WaitingRoom.LobbyChat | src/components/lobby/WaitingRoom.jsx:204-205 | Keeps exactly the non-game-event messages |
| WaitingRoom.LobbyChatAppend | src/components/lobby/WaitingRoom.jsx:204-205 | The filter keeps the original order: it distributes over concatenation |
| WaitingRoom.LobbyChatAfterAddMessage | src/components/lobby/WaitingRoom.jsx:204-205 | A new message shows at the end of the lobby chat iff it is not a game event |
| WaitingRoom.HandleSendMessage | src/components/lobby/WaitingRoom.jsx:47-53 | A blank input sends nothing and stays; otherwise the untrimmed text is sent, appended and the input cleared |
| WaitingRoom.HandleLeaveRoom | src/components/lobby/WaitingRoom.jsx:55-58 | The context `leaveRoom()` emits nothing; the new state is the old one with only the key "undefined" removed from `players` |
| WaitingRoom.LeaveKeepsCaller | src/components/lobby/WaitingRoom.jsx:55-58 | The caller stays in the players map; without a key "undefined" nothing changes |
| WaitingRoom.HandleLeaveRoomWithHook | src/hooks/useGame.js:27-30 | Through the hook's `leaveRoom`, the click requests `room:leave` for the caller; the new state is the old one with only the caller's key removed |
| WaitingRoom.LeaveNeverReachesServer | src/components/lobby/WaitingRoom.jsx:55-58 | As written, a player's Leave click emits nothing and the caller stays; through the hook it would request `room:leave` and remove the caller |
| WaitingRoom.HandleStartGameWithHook | src/components/lobby/WaitingRoom.jsx:38-45 | With the hook's `startGame`, an eligible click requests `game:start` iff the user is the host |
| WaitingRoom.HostStartNeverEmitted | src/components/lobby/WaitingRoom.jsx:38-45 | As written, an eligible host's click emits nothing; through the hook it would request `game:start` |
| RoomCreation.OrElse | src/components/lobby/RoomCreation.jsx:37-86 | `parseInt(v) \|\| fallback`: NaN and 0 give the fallback, any other number itself |
| RoomCreation.ClampMaxPlayers | src/components/lobby/RoomCreation.jsx:72-72 | Always in [5,15]; unparsable or 0 gives 5; in-range input is kept; above 15 gives 15 and below 5 gives 5 |
| RoomCreation.ClampDayDuration | src/components/lobby/RoomCreation.jsx:86-86 | Always in [60,300]; unparsable or 0 gives 60; in-range input is kept; above 300 gives 300 and below 60 gives 60 |
| RoomCreation.RoleCount | src/components/lobby/RoomCreation.jsx:37-37 | Never negative; negative or unparsable gives 0; others are kept |
| RoomCreation.ClampsIdempotent | src/components/lobby/RoomCreation.jsx:72-86 | Clamping a clamped value returns it |
| RoomCreation.DefaultRolesFillRoom | src/components/lobby/RoomCreation.jsx:7-18 | The default role counts 2+1+1+6 sum to the default 10 seats |
| RoomCreation.SetMaxPlayers | src/components/lobby/RoomCreation.jsx:70-73 | Only `maxPlayers` changes, to `ClampMaxPlayers` of the input, so into [5,15] |
| RoomCreation.SetDayDuration | src/components/lobby/RoomCreation.jsx:84-87 | Only `dayDuration` changes, to `ClampDayDuration` of the input, so into [60,300] |
| RoomCreation.UpdateRoles | src/components/lobby/RoomCreation.jsx:36-44 | Only the named role changes, to a non-negative count; other roles and settings unchanged |
| RoomCreation.FormValidKept | src/components/lobby/RoomCreation.jsx:7-87 | The defaults are valid and every input handler keeps the form valid |
| RoomCreation.RolesMayOverfillRoom | src/components/lobby/RoomCreation.jsx:36-44 | The form does not keep role counts equal to the seats: five mafia give 13 roles for 10 seats |
| ChatBox.CanChat | src/components/game/ChatBox.jsx:35-37 | Any phase but NIGHT_ACTION, or a record whose state is DEAD |
| ChatBox.CanChatMeaning | src/components/game/ChatBox.jsx:35-37 | Chat is allowed in every phase but NIGHT_ACTION; at night only for a DEAD record, never for an alive one |
| ChatBox.NightMutesUnknownUser | src/components/game/ChatBox.jsx:35-37 | At night a user without a record cannot chat |
| ChatBox.ChatLine | src/components/game/ChatBox.jsx:24-30 | The message carries the text untrimmed, the username, the clock id, and is not a game event |
| ChatBox.HandleSubmit | src/components/game/ChatBox.jsx:20-33 | A blank input adds nothing and stays; otherwise one chat line is appended locally, nothing is emitted, and the input cleared |
| ChatBox.SubmitKeepsGameLog | src/components/game/ChatBox.jsx:20-33 | A submission never touches the game log or the phase and adds one message iff the input is not blank |
| ChatBox.DoubleSubmitAddsOne | src/components/game/ChatBox.jsx:20-33 | Submitting the cleared input again changes nothing |
| JsText.TrimStart | src/components/game/ChatBox.jsx:22-22 | A suffix of the input whose removed prefix is all whitespace and which starts with no whitespace; empty iff the input is blank |
| JsText.TrimEnd | src/components/game/ChatBox.jsx:22-22 | A prefix of the input whose removed suffix is all whitespace and which ends with no whitespace; empty iff the input is blank |
| JsText.Trim | src/components/game/ChatBox.jsx:22-22 | `String.prototype.trim`: leading, then trailing whitespace stripped |
| JsText.TrimEmptyIffBlank | src/components/lobby/WaitingRoom.jsx:49-49 | `trim()` is empty iff every character is whitespace |

## Left out

- The socket.io transport is abstract: the `io()` options, the library's own reconnection, and the `connect()` call a retry makes, which only counts calls.
- Timers are abstract: retries fire oldest first, and the 5-second emit timer is modelled only as the outcome when no reply comes.
- The `disconnect` event that `socket.disconnect()` raises is left out; it changes nothing the model does not already clear.
- `UseSocket.RetryExpiry`: reads the current `isConnected`, not the value captured when `handleReconnection` was created. React's stale closure is about render scheduling.
- `UseSocket.ConnectStep`: every socket is treated as the same kind of value. An older socket replaced without `disconnect` is no longer observed.
- The `game:error` listener only logs, and logging is not modelled. `console` output and `navigate` calls are also out.
- The socket subscription block at `src/hooks/useGame.js:134-179` is out. It is wrapped in `useCallback` and never invoked, so `room.id` is never set from the server.
- `handleCreateRoom` in `RoomCreation.jsx` is out: it only awaits `emit` and navigates.
- `copyRoomCode`, the redirect effect and the `showStartError` timeout in `WaitingRoom.jsx` are out: they are clipboard, navigation and timers.
- `VotePanel.Targets`: offers only records that carry an `id`. The button of a record without one (target `undefined`) is not modelled.
- `parseInt` is out. The clamps take `Option<int>`, where `None` is `NaN`.
- Clock ids and ISO timestamps are parameters. `toLocaleTimeString` and the other rendering are not modelled.
- All server-side game logic is out, because no shown file contains it: vote resolution, night resolution, detective reveal, role allocation and win conditions.
- `AuthContext.jsx`, `App.jsx`, `RoomList.jsx`, `GameBoard.jsx`, `RoleCard.jsx` and `PlayerList.jsx` are not part of this model. They are identity storage, routing, fetching and rendering.
- JavaScript values are typed: role fields `null` and `undefined` both read as no role, and an `isReady` is truthy only when it is `true`.

## Findings

| source | as written | input that shows it | evidently intended | confidence | as-written member | corrected member |
|---|---|---|---|---|---|---|
| src/contexts/GameContext.jsx:64 | `PLAYER_STATES.ALIVE` is read, but only `GAME_PHASES` is imported, so JOIN_ROOM throws a ReferenceError | any JOIN_ROOM, e.g. room "r1", player "p1" on the initial state | insert the player ALIVE | high, not executed | GameContext.JoinRoomThrowsAsWritten | GameContext.JoinRoomEffect |
| src/hooks/useGame.js:181-205 | `...gameActions` is spread after the hook's intents, so five of them are shadowed by unguarded dispatchers | `useGame().castVote` in NIGHT_ACTION records a vote and emits nothing | unclear which side is wrong: the hook defines guarded, emitting intents under these names, but its callers use the context's signatures (`castVote(user.id, targetId)` at src/components/game/VotePanel.jsx:11, `performAction(id, role, targetId)` at src/components/game/PlayerList.jsx:25), which through the hook would be a self-vote (`VotePanel.HookSignatureSelfVote`) | low, not executed | UseGame.ReturnedBindings | UseGame.IntendedBindings |
| src/components/lobby/WaitingRoom.jsx:38-45 | the Start click calls the context `startGame(undefined)`: STARTING locally, `game:start` never sent | host, 7 ready players, 10 seats | the host's click emits `game:start` | medium, not executed | WaitingRoom.HostStartNeverEmitted | WaitingRoom.HandleStartGameWithHook |
| src/components/lobby/WaitingRoom.jsx:55-58 | the Leave click calls the context `leaveRoom(undefined)`: the key "undefined" is removed, the caller stays, `room:leave` is never sent | player "p1" in a room, clicking Leave | the caller leaves: `room:leave` is sent and the caller's entry removed | medium, not executed | WaitingRoom.LeaveNeverReachesServer | WaitingRoom.HandleLeaveRoomWithHook |
