/**
 * The in-game chat of `src/components/game/ChatBox.jsx`: who may type, and
 * what a submission does. The component posts through the context's
 * `addMessage`, so a chat line stays on this client and is never emitted.
 */
module ChatBox {
  import opened Wrappers
  import opened Constants
  import opened GameContext
  import opened UseGame
  import opened JsText

  /** `canChat`: any phase but the night, or a player whose record says DEAD. */
  predicate CanChat(s: GameState, user: User) {
    s.phase != NightAction || (user.id in s.players && s.players[user.id].state == Some(Dead))
  }

  lemma CanChatMeaning(s: GameState, user: User)
    ensures s.phase != NightAction ==> CanChat(s, user)
    ensures s.phase == NightAction ==> (CanChat(s, user) <==> user.id in s.players && s.players[user.id].state == Some(Dead))
    ensures s.phase == NightAction && IsAlive(s, user) ==> !CanChat(s, user)
  {
  }

  /** A client without a record (a spectator that never joined) is muted at night too. */
  lemma NightMutesUnknownUser(s: GameState, user: User)
    requires s.phase == NightAction && user.id !in s.players
    ensures !CanChat(s, user)
  {
  }

  /** The message `handleSubmit` builds: the text as typed, untrimmed, never a game event. */
  function ChatLine(user: User, input: string, now: int, timestamp: string): (m: Message)
    ensures m.content == input && !m.isGameEvent && m.sender == user.username && m.id == now
  {
    Message(now, user.username, input, timestamp, false)
  }

  /**
   * `handleSubmit`: a blank input does nothing and keeps its text; any other
   * is appended as a player chat line and the input cleared. Nothing is sent
   * to the server. The handler itself does not consult `canChat`: only the
   * input's `disabled` attribute does.
   */
  function HandleSubmit(s: GameState, user: User, input: string, now: int, timestamp: string): (r: Submission)
    ensures IsBlank(input) ==> r == Submission(Effect(None, s), input)
    ensures !IsBlank(input) ==> r.input == [] && r.effect.emitted.None?
    ensures !IsBlank(input) ==> r.effect.state == s.(messages := s.messages + [ChatLine(user, input, now, timestamp)])
  {
    TrimEmptyIffBlank(input);
    if Trim(input) == [] then Submission(Effect(None, s), input)
    else Submission(Dispatch(s, AddMessage(ChatLine(user, input, now, timestamp), false)), [])
  }

  /** A submitted line never reaches the game log, and the log and everything but `messages` stay. */
  lemma SubmitKeepsGameLog(s: GameState, user: User, input: string, now: int, timestamp: string)
    ensures HandleSubmit(s, user, input, now, timestamp).effect.state.gameLog == s.gameLog
    ensures HandleSubmit(s, user, input, now, timestamp).effect.state.phase == s.phase
    ensures |HandleSubmit(s, user, input, now, timestamp).effect.state.messages| == |s.messages| + (if IsBlank(input) then 0 else 1)
  {
  }

  /** Submitting the cleared input again changes nothing: a double submit adds one line. */
  lemma DoubleSubmitAddsOne(s: GameState, user: User, input: string, now: int, timestamp: string, later: int)
    requires !IsBlank(input)
    ensures var r := HandleSubmit(s, user, input, now, timestamp);
      HandleSubmit(r.effect.state, user, r.input, later, timestamp) == Submission(Effect(None, r.effect.state), [])
  {
    assert IsBlank([]);
  }
}
