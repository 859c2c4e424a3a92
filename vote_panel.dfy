/**
 * The voting view of `src/components/game/VotePanel.jsx`: the vote tally,
 * the alive targets, the highlighted choice and the vote handler.
 */
module VotePanel {
  import opened Wrappers
  import opened Constants
  import opened GameContext
  import opened UseGame

  type Tally = map<PlayerId, nat>

  /** `acc[t] || 0`: the count of a target that has not been counted yet reads as 0. */
  function CountOf(count: Tally, t: PlayerId): nat {
    if t in count then count[t] else 0
  }

  /** One step of the `reduce`: `acc[t] = (acc[t] || 0) + 1`. */
  function Bump(count: Tally, t: PlayerId): (r: Tally)
    ensures r.Keys == count.Keys + {t}
  {
    count[t := CountOf(count, t) + 1]
  }

  /** Some key of a non-empty map. */
  ghost function Pick<K, V>(m: map<K, V>): (k: K)
    requires |m| > 0
    ensures k in m
  {
    assert m.Keys != {};
    var k :| k in m; k
  }

  /**
   * `voteCount`: the fold over the ballots of `currentPhase.votes`. The
   * ballots are taken in an unspecified order, as the count does not depend
   * on it.
   */
  ghost function VoteCount(votes: map<PlayerId, PlayerId>): Tally
    decreases |votes|
  {
    if |votes| == 0 then map[]
    else
      var v := Pick(votes);
      Bump(VoteCount(votes - {v}), votes[v])
  }

  /** One fold step adds one to the count of its target and nothing to any other. */
  lemma BumpCount(count: Tally, u: PlayerId, t: PlayerId)
    ensures CountOf(Bump(count, u), t) == CountOf(count, t) + (if u == t then 1 else 0)
  {
  }

  /** The voters whose ballot names `t`. */
  function VotersFor(votes: map<PlayerId, PlayerId>, t: PlayerId): set<PlayerId> {
    set v | v in votes && votes[v] == t
  }

  /** The count shown for `t` is the number of voters whose vote is `t`. */
  lemma {:induction false} VoteCountIsVoters(votes: map<PlayerId, PlayerId>, t: PlayerId)
    ensures CountOf(VoteCount(votes), t) == |VotersFor(votes, t)|
    decreases |votes|
  {
    if |votes| > 0 {
      var v := Pick(votes);
      var rest := votes - {v};
      VoteCountIsVoters(rest, t);
      assert VoteCount(votes) == Bump(VoteCount(rest), votes[v]);
      BumpCount(VoteCount(rest), votes[v], t);
      if votes[v] == t {
        assert VotersFor(votes, t) == VotersFor(rest, t) + {v};
        assert v !in VotersFor(rest, t);
      } else {
        assert VotersFor(votes, t) == VotersFor(rest, t);
      }
    }
  }

  /** The sum of a map's values. */
  ghost function SumValues(m: Tally): nat
    decreases |m|
  {
    if |m| == 0 then 0 else var k := Pick(m); m[k] + SumValues(m - {k})
  }

  /** Summing may take any key first: the sum is its count plus the sum over the other keys. */
  lemma {:induction false} SumValuesWithout(m: Tally, k: PlayerId)
    requires k in m
    ensures SumValues(m) == m[k] + SumValues(m - {k})
    decreases |m|
  {
    var j := Pick(m);
    if j != k {
      SumValuesWithout(m - {j}, k);
      SumValuesWithout(m - {k}, j);
      assert m - {j} - {k} == m - {k} - {j};
    }
  }

  lemma BumpAddsOne(count: Tally, t: PlayerId)
    ensures SumValues(Bump(count, t)) == SumValues(count) + 1
  {
    var b := Bump(count, t);
    SumValuesWithout(b, t);
    if t in count {
      SumValuesWithout(count, t);
      assert b - {t} == count - {t};
    } else {
      assert b - {t} == count;
    }
  }

  /** All counts together add up to the number of ballots. */
  lemma {:induction false} VoteCountSum(votes: map<PlayerId, PlayerId>)
    ensures SumValues(VoteCount(votes)) == |votes|
    decreases |votes|
  {
    if |votes| > 0 {
      var v := Pick(votes);
      VoteCountSum(votes - {v});
      BumpAddsOne(VoteCount(votes - {v}), votes[v]);
    }
  }

  /**
   * The vote buttons: one per ALIVE record, voting for the record's `id`.
   * Records without an `id` key are left out (see README).
   */
  function Targets(players: map<PlayerId, Player>): (ts: set<PlayerId>)
    ensures forall t :: t in ts <==> exists k :: k in players && AliveRecord(players[k]) && players[k].id == Some(t)
  {
    set k | k in players && AliveRecord(players[k]) && players[k].id.Some? :: players[k].id.value
  }

  /** The number shown on the button for `t`: `voteCount[t] || 0`. */
  ghost function Shown(s: GameState, t: PlayerId): nat {
    CountOf(VoteCount(s.currentPhase.votes), t)
  }

  /** A target nobody voted for shows 0. */
  lemma UnvotedShowsZero(s: GameState, t: PlayerId)
    requires forall v :: v in s.currentPhase.votes ==> s.currentPhase.votes[v] != t
    ensures Shown(s, t) == 0
  {
    VoteCountIsVoters(s.currentPhase.votes, t);
    assert VotersFor(s.currentPhase.votes, t) == {};
  }

  /** The highlight: `currentPhase.votes[user.id] === player.id`. */
  predicate Highlighted(s: GameState, user: User, t: PlayerId) {
    user.id in s.currentPhase.votes && s.currentPhase.votes[user.id] == t
  }

  /**
   * `handleVote`: `castVote(user.id, targetId)` with the `castVote` that
   * `useGame` returns, which is the context's dispatcher
   * (`UseGame.ReturnedBindings`): no phase check and no emission.
   */
  function HandleVote(s: GameState, user: User, t: PlayerId): (e: Effect)
    ensures e.emitted.None?
    ensures e.state == s.(currentPhase := s.currentPhase.(votes := s.currentPhase.votes[user.id := t]))
  {
    Dispatch(s, CastVote(user.id, t))
  }

  /**
   * The panel calls `castVote(user.id, targetId)`, the context's signature.
   * Were `castVote` the hook's `castVote(targetId)`, the first argument would
   * be read as the target: in DAY_VOTING the caller would vote for itself.
   */
  lemma HookSignatureSelfVote(s: GameState, user: User)
    requires s.phase == DayVoting
    ensures UseGame.CastVote(s, user, user.id).state.currentPhase.votes[user.id] == user.id
    ensures Highlighted(UseGame.CastVote(s, user, user.id).state, user, user.id)
  {
  }

  /** After voting for `t`, exactly `t` is highlighted. */
  lemma VoteHighlightsChoice(s: GameState, user: User, t: PlayerId, other: PlayerId)
    ensures Highlighted(HandleVote(s, user, t).state, user, other) <==> other == t
  {
  }

  /** The voters for `u` once `v` has voted for `t`. */
  lemma VotersAfterBallot(votes: map<PlayerId, PlayerId>, v: PlayerId, t: PlayerId, u: PlayerId)
    ensures VotersFor(votes[v := t], u) == if u == t then VotersFor(votes - {v}, u) + {v} else VotersFor(votes - {v}, u)
  {
  }

  /**
   * Voting moves the voter's ballot: the chosen target counts the other
   * voters for it plus this one, every other target counts only the other
   * voters for it.
   */
  lemma VoteMovesBallot(s: GameState, user: User, t: PlayerId, u: PlayerId)
    ensures var others := s.currentPhase.votes - {user.id};
      Shown(HandleVote(s, user, t).state, u) == |VotersFor(others, u)| + (if u == t then 1 else 0)
  {
    var votes := s.currentPhase.votes[user.id := t];
    VoteCountIsVoters(votes, u);
    VotersAfterBallot(s.currentPhase.votes, user.id, t, u);
  }
}
