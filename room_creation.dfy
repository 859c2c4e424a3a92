/**
 * The settings form of `src/components/lobby/RoomCreation.jsx`: its default
 * settings, the clamps applied to typed numbers and the role updates.
 *
 * A typed number reaches the form as `parseInt(value)`: `None` is NaN,
 * `Some(n)` the parsed integer (the parsing itself is not modelled).
 */
module RoomCreation {
  import opened Wrappers
  import opened Constants
  import opened GameContext

  /** `parseInt(value) || fallback`: NaN and 0 are falsy and give the fallback. */
  function OrElse(parsed: Option<int>, fallback: int): (n: int)
    ensures parsed.None? ==> n == fallback
    ensures parsed.Some? && parsed.value != 0 ==> n == parsed.value
    ensures parsed == Some(0) ==> n == fallback
  {
    match parsed
    case Some(v) => if v == 0 then fallback else v
    case None => fallback
  }

  function Max(a: int, b: int): int { if a >= b then a else b }
  function Min(a: int, b: int): int { if a <= b then a else b }

  /** `Math.max(5, Math.min(15, parseInt(value) || 5))`. */
  function ClampMaxPlayers(parsed: Option<int>): (n: int)
    ensures 5 <= n <= 15
    ensures parsed.None? ==> n == 5
    ensures parsed.Some? && 5 <= parsed.value <= 15 ==> n == parsed.value
    ensures parsed.Some? && parsed.value > 15 ==> n == 15
    ensures parsed.Some? && parsed.value < 5 ==> n == 5
  {
    Max(5, Min(15, OrElse(parsed, 5)))
  }

  /** `Math.max(60, Math.min(300, parseInt(value) || 60))`. */
  function ClampDayDuration(parsed: Option<int>): (n: int)
    ensures 60 <= n <= 300
    ensures parsed.None? ==> n == 60
    ensures parsed.Some? && 60 <= parsed.value <= 300 ==> n == parsed.value
    ensures parsed.Some? && parsed.value > 300 ==> n == 300
    ensures parsed.Some? && parsed.value < 60 ==> n == 60
  {
    Max(60, Min(300, OrElse(parsed, 60)))
  }

  /** `Math.max(0, parseInt(value) || 0)`. */
  function RoleCount(parsed: Option<int>): (n: int)
    ensures n >= 0
    ensures parsed.Some? && parsed.value >= 0 ==> n == parsed.value
    ensures parsed.None? || (parsed.Some? && parsed.value < 0) ==> n == 0
  {
    Max(0, OrElse(parsed, 0))
  }

  /** Clamping a value that is already clamped returns it unchanged. */
  lemma ClampsIdempotent(parsed: Option<int>)
    ensures ClampMaxPlayers(Some(ClampMaxPlayers(parsed))) == ClampMaxPlayers(parsed)
    ensures ClampDayDuration(Some(ClampDayDuration(parsed))) == ClampDayDuration(parsed)
    ensures RoleCount(Some(RoleCount(parsed))) == RoleCount(parsed)
  {
  }

  /** The form's initial settings. */
  const Defaults := Settings(10, RoleCounts(2, 1, 1, 6), Some(120), Some(30), Some(60))

  /** The default role counts fill the default room exactly. */
  lemma DefaultRolesFillRoom()
    ensures Defaults.roles.Sum() == Defaults.maxPlayers == 10
    ensures Defaults.roles == DefaultRoles
  {
  }

  /** The maximum-players input. */
  function SetMaxPlayers(prev: Settings, parsed: Option<int>): (s: Settings)
    ensures s == prev.(maxPlayers := s.maxPlayers) && 5 <= s.maxPlayers <= 15
    ensures s.maxPlayers == ClampMaxPlayers(parsed)
  {
    prev.(maxPlayers := ClampMaxPlayers(parsed))
  }

  /** The day-duration input. */
  function SetDayDuration(prev: Settings, parsed: Option<int>): (s: Settings)
    ensures s == prev.(dayDuration := s.dayDuration)
    ensures s.dayDuration.Some? && 60 <= s.dayDuration.value <= 300
    ensures s.dayDuration == Some(ClampDayDuration(parsed))
  {
    prev.(dayDuration := Some(ClampDayDuration(parsed)))
  }

  /** `updateRoles`: only the named role changes, to a non-negative count. */
  function UpdateRoles(prev: Settings, role: Role, parsed: Option<int>): (s: Settings)
    ensures s.roles.Get(role) == RoleCount(parsed) >= 0
    ensures forall q :: q != role ==> s.roles.Get(q) == prev.roles.Get(q)
    ensures s == prev.(roles := s.roles)
  {
    prev.(roles := prev.roles.With(role, RoleCount(parsed)))
  }

  /** The form's invariant: counts never negative, maximum players and day duration within their ranges. */
  ghost predicate FormValid(s: Settings) {
    && 5 <= s.maxPlayers <= 15
    && s.dayDuration.Some? && 60 <= s.dayDuration.value <= 300
    && forall r: Role :: s.roles.Get(r) >= 0
  }

  /** The defaults satisfy the invariant and every input handler keeps it. */
  lemma FormValidKept(s: Settings, role: Role, parsed: Option<int>)
    ensures FormValid(Defaults)
    ensures FormValid(s) ==> FormValid(SetMaxPlayers(s, parsed))
    ensures FormValid(s) ==> FormValid(SetDayDuration(s, parsed))
    ensures FormValid(s) ==> FormValid(UpdateRoles(s, role, parsed))
  {
    assert forall r: Role :: Defaults.roles.Get(r) >= 0 by {
      forall r: Role ensures Defaults.roles.Get(r) >= 0 {
        match r
        case Mafia =>
        case Detective =>
        case Doctor =>
        case Villager =>
      }
    }
  }

  /** The form does not keep the role counts summing to the maximum number of players. */
  lemma RolesMayOverfillRoom()
    ensures UpdateRoles(Defaults, Mafia, Some(5)).roles.Sum() == 13 > UpdateRoles(Defaults, Mafia, Some(5)).maxPlayers
  {
  }
}
