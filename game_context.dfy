/**
 * The session-state store of `src/contexts/GameContext.jsx`: the state record,
 * its initial value, the action types and the pure reducer `gameReducer`.
 *
 * JavaScript objects whose keys may be missing are modelled with optional
 * fields; a JavaScript object used as a dictionary is a `map`.
 */
module GameContext {
  import opened Wrappers
  import opened Constants

  type PlayerId = string
  type RoomId = string
  /** The `action` string of a night action; the client passes it through unchanged. */
  type ActionKind = string

  /**
   * A player record. Every key is optional because `UPDATE_PLAYER` on an id
   * that is not in the room builds a record holding only the supplied keys.
   * `role == None` stands for both `null` and a missing key: every reader
   * treats the two alike.
   */
  datatype Player = Player(
    id: Option<PlayerId>,
    username: Option<string>,
    isReady: Option<bool>,
    state: Option<PlayerState>,
    role: Option<Role>)

  /** The record `{...undefined}`: an object with no keys. */
  const NoKeys := Player(None, None, None, None, None)

  /** One key of a partial update: left as it is, or overwritten. */
  datatype Patch<T> = Keep | Set(value: T)

  /** The `updates` object of `UPDATE_PLAYER`: the keys it carries are `Set`. */
  datatype PlayerUpdates = PlayerUpdates(
    id: Patch<PlayerId>,
    username: Patch<string>,
    isReady: Patch<bool>,
    state: Patch<PlayerState>,
    role: Patch<Option<Role>>)

  /** Counts per role in the room settings (`settings.roles`). */
  datatype RoleCounts = RoleCounts(mafia: int, detective: int, doctor: int, villager: int) {

    function Get(r: Role): int {
      match r
      case Mafia => mafia
      case Detective => detective
      case Doctor => doctor
      case Villager => villager
    }

    /** `{...roles, [r]: n}`. */
    function With(r: Role, n: int): (c: RoleCounts)
      ensures c.Get(r) == n
      ensures forall q :: q != r ==> c.Get(q) == Get(q)
    {
      match r
      case Mafia => this.(mafia := n)
      case Detective => this.(detective := n)
      case Doctor => this.(doctor := n)
      case Villager => this.(villager := n)
    }

    function Sum(): int {
      mafia + detective + doctor + villager
    }
  }

  /**
   * Room settings. The store's initial settings carry no durations; the room
   * creation form carries all three, so they are optional here.
   */
  datatype Settings = Settings(
    maxPlayers: int,
    roles: RoleCounts,
    dayDuration: Option<int>,
    nightDuration: Option<int>,
    discussionTime: Option<int>)

  datatype Room = Room(id: Option<RoomId>, code: Option<string>, host: Option<PlayerId>, settings: Settings)

  /** One recorded night action: `{action, target}`. */
  datatype ActionEntry = ActionEntry(action: ActionKind, target: PlayerId)

  /** `currentPhase`: the collection window of the phase in progress. */
  datatype PhaseWindow = PhaseWindow(
    timeRemaining: Option<int>,
    votes: map<PlayerId, PlayerId>,
    actions: map<PlayerId, ActionEntry>)

  /** A chat or game-event message; `id` and `timestamp` come from the clock of the caller. */
  datatype Message = Message(id: int, sender: string, content: string, timestamp: string, isGameEvent: bool)

  datatype GameState = GameState(
    phase: Phase,
    players: map<PlayerId, Player>,
    room: Room,
    currentPhase: PhaseWindow,
    messages: seq<Message>,
    gameLog: seq<Message>,
    winningSide: Option<string>)

  /** The action objects `{type, payload}` the context dispatches; `Other` is any other type. */
  datatype GameAction =
    | JoinRoom(roomId: RoomId, roomCode: string, host: PlayerId, playerId: PlayerId, username: string)
    | LeaveRoom(playerId: PlayerId)
    | UpdatePlayer(playerId: PlayerId, updates: PlayerUpdates)
    | StartGame(playerRoles: map<PlayerId, Player>)
    | ChangePhase(phase: Phase, timeLimit: Option<int>)
    | CastVote(voterId: PlayerId, targetId: PlayerId)
    | PerformAction(playerId: PlayerId, action: ActionKind, targetId: PlayerId)
    | AddMessage(message: Message, isGameEvent: bool)
    | EndGame(winner: string)
    | ResetGame(settings: Option<Settings>)
    | Other(actionType: string)

  const DefaultRoles := RoleCounts(2, 1, 1, 6)

  /** `initialGameState`. */
  const Initial := GameState(
    Lobby,
    map[],
    Room(None, None, None, Settings(10, DefaultRoles, None, None, None)),
    PhaseWindow(None, map[], map[]),
    [],
    [],
    None)

  /** The initial state is an empty lobby whose default roles fill its ten seats. */
  lemma InitialLobby()
    ensures Initial.phase == Lobby && Initial.players == map[] && Initial.winningSide.None?
    ensures Initial.room.id.None? && Initial.room.code.None? && Initial.room.host.None?
    ensures Initial.room.settings.roles.Sum() == Initial.room.settings.maxPlayers == 10
    ensures Initial.currentPhase == PhaseWindow(None, map[], map[])
    ensures Initial.messages == [] && Initial.gameLog == []
  {
  }

  /** The record `JOIN_ROOM` inserts for the joining player. */
  function Joined(playerId: PlayerId, username: string): Player {
    // The source writes `state: PLAYER_STATES.ALIVE` without importing
    // PLAYER_STATES (its import line names only GAME_PHASES); the intended
    // value ALIVE is modelled here, and `ReduceAsWritten` models the defect.
    Player(Some(playerId), Some(username), Some(false), Some(Alive), None)
  }

  function Patched<T>(p: Patch<T>, current: Option<T>): Option<T> {
    match p
    case Keep => current
    case Set(v) => Some(v)
  }

  /** `{...base, ...updates}`. */
  function Merge(base: Player, u: PlayerUpdates): Player {
    Player(
      Patched(u.id, base.id),
      Patched(u.username, base.username),
      Patched(u.isReady, base.isReady),
      Patched(u.state, base.state),
      match u.role case Keep => base.role case Set(r) => r)
  }

  /** `state.players[id]`, where reading a missing key and spreading it gives `{}`. */
  function RecordOf(players: map<PlayerId, Player>, id: PlayerId): Player {
    if id in players then players[id] else NoKeys
  }

  /** `gameReducer`. */
  function Reduce(s: GameState, a: GameAction): GameState {
    match a
    case JoinRoom(roomId, roomCode, host, playerId, username) =>
      s.(room := s.room.(id := Some(roomId), code := Some(roomCode), host := Some(host)),
         players := s.players[playerId := Joined(playerId, username)])
    case LeaveRoom(playerId) =>
      s.(players := s.players - {playerId})
    case UpdatePlayer(playerId, updates) =>
      s.(players := s.players[playerId := Merge(RecordOf(s.players, playerId), updates)])
    case StartGame(playerRoles) =>
      s.(phase := Starting, players := s.players + playerRoles)
    case ChangePhase(phase, timeLimit) =>
      s.(phase := phase, currentPhase := PhaseWindow(timeLimit, map[], map[]))
    case CastVote(voterId, targetId) =>
      s.(currentPhase := s.currentPhase.(votes := s.currentPhase.votes[voterId := targetId]))
    case PerformAction(playerId, action, targetId) =>
      s.(currentPhase := s.currentPhase.(actions := s.currentPhase.actions[playerId := ActionEntry(action, targetId)]))
    case AddMessage(message, isGameEvent) =>
      s.(messages := s.messages + [message],
         gameLog := if isGameEvent then s.gameLog + [message] else s.gameLog)
    case EndGame(winner) =>
      s.(phase := GameEnd, winningSide := Some(winner))
    case ResetGame(settings) =>
      Initial.(room := s.room.(settings := settings.GetOr(s.room.settings)))
    case Other(_) =>
      s
  }

  // ---------------------------------------------------------------------
  // Frame predicates

  /** Every player other than `id` is present in `q` exactly when in `p`, with the same record. */
  ghost predicate OthersUnchanged(p: map<PlayerId, Player>, q: map<PlayerId, Player>, id: PlayerId) {
    forall k :: k != id ==> (k in p <==> k in q) && (k in p ==> p[k] == q[k])
  }

  /** Everything but `players` agrees. */
  ghost predicate SameButPlayers(s: GameState, r: GameState) {
    r.phase == s.phase && r.room == s.room && r.currentPhase == s.currentPhase
    && r.messages == s.messages && r.gameLog == s.gameLog && r.winningSide == s.winningSide
  }

  /** Everything but `currentPhase` agrees. */
  ghost predicate SameButWindow(s: GameState, r: GameState) {
    r.phase == s.phase && r.players == s.players && r.room == s.room
    && r.messages == s.messages && r.gameLog == s.gameLog && r.winningSide == s.winningSide
  }

  // ---------------------------------------------------------------------
  // One lemma per action case

  lemma JoinRoomEffect(s: GameState, roomId: RoomId, roomCode: string, host: PlayerId, pid: PlayerId, name: string)
    ensures var r := Reduce(s, JoinRoom(roomId, roomCode, host, pid, name));
      && r.room == Room(Some(roomId), Some(roomCode), Some(host), s.room.settings)
      && pid in r.players
      && r.players[pid] == Player(Some(pid), Some(name), Some(false), Some(Alive), None)
      && r.players.Keys == s.players.Keys + {pid}
      && OthersUnchanged(s.players, r.players, pid)
      && r.phase == s.phase && r.currentPhase == s.currentPhase
      && r.messages == s.messages && r.gameLog == s.gameLog && r.winningSide == s.winningSide
  {
  }

  lemma LeaveRoomEffect(s: GameState, pid: PlayerId)
    ensures var r := Reduce(s, LeaveRoom(pid));
      && r.players.Keys == s.players.Keys - {pid}
      && OthersUnchanged(s.players, r.players, pid)
      && SameButPlayers(s, r)
      && (pid !in s.players ==> r == s)
  {
    if pid !in s.players {
      assert s.players - {pid} == s.players;
    }
  }

  lemma UpdatePlayerEffect(s: GameState, pid: PlayerId, u: PlayerUpdates)
    ensures var r := Reduce(s, UpdatePlayer(pid, u));
      && r.players.Keys == s.players.Keys + {pid}
      && OthersUnchanged(s.players, r.players, pid)
      && SameButPlayers(s, r)
      // each supplied key is overwritten, each other key keeps its old value (none for a new record)
      && var before, after := RecordOf(s.players, pid), r.players[pid];
      && (after.id == if u.id.Set? then Some(u.id.value) else before.id)
      && (after.username == if u.username.Set? then Some(u.username.value) else before.username)
      && (after.isReady == if u.isReady.Set? then Some(u.isReady.value) else before.isReady)
      && (after.state == if u.state.Set? then Some(u.state.value) else before.state)
      && (after.role == if u.role.Set? then u.role.value else before.role)
      && (pid !in s.players ==> before == NoKeys)
  {
  }

  lemma {:induction false} UpdatePlayerIdempotent(s: GameState, pid: PlayerId, u: PlayerUpdates)
    ensures Reduce(Reduce(s, UpdatePlayer(pid, u)), UpdatePlayer(pid, u)) == Reduce(s, UpdatePlayer(pid, u))
  {
    var r := Reduce(s, UpdatePlayer(pid, u));
    assert Merge(Merge(RecordOf(s.players, pid), u), u) == Merge(RecordOf(s.players, pid), u);
    assert RecordOf(r.players, pid) == Merge(RecordOf(s.players, pid), u);
  }

  lemma StartGameEffect(s: GameState, roles: map<PlayerId, Player>)
    ensures var r := Reduce(s, StartGame(roles));
      && r.phase == Starting
      && r.players.Keys == s.players.Keys + roles.Keys
      && (forall k :: k in roles ==> r.players[k] == roles[k])
      && (forall k :: k in s.players && k !in roles ==> r.players[k] == s.players[k])
      && r.room == s.room && r.currentPhase == s.currentPhase
      && r.messages == s.messages && r.gameLog == s.gameLog && r.winningSide == s.winningSide
  {
  }

  lemma ChangePhaseEffect(s: GameState, p: Phase, limit: Option<int>)
    ensures var r := Reduce(s, ChangePhase(p, limit));
      && r.phase == p
      && r.currentPhase.timeRemaining == limit
      && r.currentPhase.votes == map[] && r.currentPhase.actions == map[]
      && r.players == s.players && r.room == s.room
      && r.messages == s.messages && r.gameLog == s.gameLog && r.winningSide == s.winningSide
  {
  }

  /** Nothing of the previous window survives a phase change. */
  lemma ChangePhaseForgetsWindow(s: GameState, t: GameState, p: Phase, limit: Option<int>)
    ensures Reduce(s, ChangePhase(p, limit)).currentPhase == Reduce(t, ChangePhase(p, limit)).currentPhase
  {
  }

  lemma CastVoteEffect(s: GameState, voter: PlayerId, target: PlayerId)
    ensures var r := Reduce(s, CastVote(voter, target));
      && r.currentPhase.votes.Keys == s.currentPhase.votes.Keys + {voter}
      && r.currentPhase.votes[voter] == target
      && (forall v :: v in s.currentPhase.votes && v != voter ==> r.currentPhase.votes[v] == s.currentPhase.votes[v])
      && r.currentPhase.timeRemaining == s.currentPhase.timeRemaining
      && r.currentPhase.actions == s.currentPhase.actions
      && SameButWindow(s, r)
  {
  }

  /** A later vote by the same voter replaces the earlier one; repeating a vote changes nothing. */
  lemma CastVoteLastWriteWins(s: GameState, voter: PlayerId, x: PlayerId, y: PlayerId)
    ensures Reduce(Reduce(s, CastVote(voter, x)), CastVote(voter, y)) == Reduce(s, CastVote(voter, y))
    ensures Reduce(Reduce(s, CastVote(voter, x)), CastVote(voter, x)) == Reduce(s, CastVote(voter, x))
  {
    assert s.currentPhase.votes[voter := x][voter := y] == s.currentPhase.votes[voter := y];
  }

  /** The reducer records a vote in every phase: the phase check lives only in the hook. */
  lemma CastVoteInAnyPhase(s: GameState, voter: PlayerId, target: PlayerId)
    requires s.phase != DayVoting
    ensures Reduce(s, CastVote(voter, target)).currentPhase.votes[voter] == target
  {
  }

  lemma PerformActionEffect(s: GameState, actor: PlayerId, kind: ActionKind, target: PlayerId)
    ensures var r := Reduce(s, PerformAction(actor, kind, target));
      && r.currentPhase.actions.Keys == s.currentPhase.actions.Keys + {actor}
      && r.currentPhase.actions[actor] == ActionEntry(kind, target)
      && (forall v :: v in s.currentPhase.actions && v != actor ==> r.currentPhase.actions[v] == s.currentPhase.actions[v])
      && r.currentPhase.timeRemaining == s.currentPhase.timeRemaining
      && r.currentPhase.votes == s.currentPhase.votes
      && SameButWindow(s, r)
  {
  }

  lemma PerformActionLastWriteWins(s: GameState, actor: PlayerId, k1: ActionKind, t1: PlayerId, k2: ActionKind, t2: PlayerId)
    ensures Reduce(Reduce(s, PerformAction(actor, k1, t1)), PerformAction(actor, k2, t2)) == Reduce(s, PerformAction(actor, k2, t2))
    ensures Reduce(Reduce(s, PerformAction(actor, k1, t1)), PerformAction(actor, k1, t1)) == Reduce(s, PerformAction(actor, k1, t1))
  {
    var acts := s.currentPhase.actions;
    assert acts[actor := ActionEntry(k1, t1)][actor := ActionEntry(k2, t2)] == acts[actor := ActionEntry(k2, t2)];
  }

  lemma AddMessageEffect(s: GameState, m: Message, isGameEvent: bool)
    ensures var r := Reduce(s, AddMessage(m, isGameEvent));
      && |r.messages| == |s.messages| + 1
      && r.messages[..|s.messages|] == s.messages
      && r.messages[|s.messages|] == m
      && (|r.gameLog| > |s.gameLog| <==> isGameEvent)
      && (isGameEvent ==> r.gameLog == s.gameLog + [m])
      && (!isGameEvent ==> r.gameLog == s.gameLog)
      && r.phase == s.phase && r.players == s.players && r.room == s.room
      && r.currentPhase == s.currentPhase && r.winningSide == s.winningSide
  {
    assert (s.messages + [m])[..|s.messages|] == s.messages;
  }

  lemma EndGameEffect(s: GameState, winner: string)
    ensures var r := Reduce(s, EndGame(winner));
      && r.phase == GameEnd && r.winningSide == Some(winner)
      && r.players == s.players && r.room == s.room && r.currentPhase == s.currentPhase
      && r.messages == s.messages && r.gameLog == s.gameLog
  {
  }

  lemma ResetGameEffect(s: GameState, settings: Option<Settings>)
    ensures var r := Reduce(s, ResetGame(settings));
      && r.room.id == s.room.id && r.room.code == s.room.code && r.room.host == s.room.host
      && r.room.settings == (if settings.Some? then settings.value else s.room.settings)
      && r.phase == Lobby && r.players == map[]
      && r.currentPhase == PhaseWindow(None, map[], map[])
      && r.messages == [] && r.gameLog == [] && r.winningSide == None
  {
  }

  lemma OtherActionIsIdentity(s: GameState, t: string)
    ensures Reduce(s, Other(t)) == s
  {
  }

  // ---------------------------------------------------------------------
  // The reducer as written

  /** The outcome of running the reducer as the source is written. */
  datatype Outcome = Returned(state: GameState) | ThrewReferenceError(name: string)

  /**
   * `gameReducer` as written: the `JOIN_ROOM` case evaluates
   * `PLAYER_STATES.ALIVE`, an identifier that the module never imports, so
   * that case throws a ReferenceError; every other case returns as `Reduce`.
   */
  function ReduceAsWritten(s: GameState, a: GameAction): (o: Outcome)
    ensures o.Returned? <==> !a.JoinRoom?
    ensures o.Returned? ==> o.state == Reduce(s, a)
  {
    if a.JoinRoom? then ThrewReferenceError("PLAYER_STATES") else Returned(Reduce(s, a))
  }

  /** A concrete join that the as-written reducer cannot perform, while the corrected one inserts the player. */
  lemma JoinRoomThrowsAsWritten()
    ensures ReduceAsWritten(Initial, JoinRoom("r1", "ABC", "p1", "p1", "ann")).ThrewReferenceError?
    ensures "p1" in Reduce(Initial, JoinRoom("r1", "ABC", "p1", "p1", "ann")).players
  {
  }
}
