/** The enumerations of `src/constants/index.js`. */
module Constants {

  /** GAME_PHASES. */
  datatype Phase = Lobby | Starting | DayDiscussion | DayVoting | NightAction | GameEnd

  /** PLAYER_STATES. */
  datatype PlayerState = Alive | Dead | Spectating

  /** ROLES. */
  datatype Role = Villager | Mafia | Detective | Doctor
}
