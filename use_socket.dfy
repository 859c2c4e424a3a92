/**
 * The connection state machine of `src/hooks/useSocket.js`.
 *
 * The hook keeps a socket reference, a reconnection counter and the handle
 * of the latest retry timer in refs, and `isConnected` / `connectionError`
 * in React state; its handlers update them in place. `Session` is the value
 * of all of them together, the functions below are what each handler does
 * to it, and the class `SocketSession` holds the same fields and runs the
 * handlers as methods proved against those functions.
 *
 * The transport is abstract: socket events (`connect`, `connect_error`,
 * `disconnect`, `error`), timer expiry and a server's acknowledgement are
 * inputs. Callbacks are identified by numbers, as JavaScript compares
 * functions by identity.
 */
module UseSocket {
  import opened Wrappers

  const ReconnectionAttempts: nat := 3
  const ReconnectionDelay: nat := 2000
  const MaxAttemptsMessage := "Maximum reconnection attempts reached"
  const ServerDisconnect := "io server disconnect"
  const EmitTimeoutMessage := "Socket emit timeout"

  /** A listener on the socket: a callback registered as is, or the wrapper `on` builds around one. */
  datatype Handler = Raw(callback: nat) | Wrapped(token: nat, callback: nat)
  datatype Listener = Listener(event: string, handler: Handler)

  /** The socket object: its own `connected` flag, its listeners, and how often `connect()` was called on it. */
  datatype Socket = Socket(connected: bool, listeners: seq<Listener>, reconnects: nat)

  /**
   * `socketRef`, `reconnectAttemptsRef`, `reconnectTimeoutRef`,
   * `isConnected` and `connectionError`; `timers` are the retry timers not
   * yet fired or cleared, oldest first.
   */
  datatype Session = Session(
    isConnected: bool,
    error: Option<string>,
    socket: Option<Socket>,
    attempts: nat,
    timers: seq<nat>,
    latestTimer: Option<nat>,
    nextTimer: nat,
    nextToken: nat)

  const Fresh := Session(false, None, None, 0, [], None, 0, 0)

  /**
   * What every reachable session satisfies: the counter never passes its
   * limit, timer handles and wrapper tokens are issued below their
   * counters, and no timer handle is pending twice.
   */
  predicate Inv(s: Session) {
    && s.attempts <= ReconnectionAttempts
    && IssuedBelow(s.timers, s.nextTimer)
    && Unique(s.timers)
    && (s.latestTimer.Some? ==> s.latestTimer.value < s.nextTimer)
    && (s.socket.Some? ==> TokensBelow(s.socket.value.listeners, s.nextToken))
  }

  predicate IssuedBelow(handles: seq<nat>, next: nat) {
    forall i :: 0 <= i < |handles| ==> handles[i] < next
  }

  predicate Unique(handles: seq<nat>) {
    forall h :: h in handles ==> multiset(handles)[h] <= 1
  }

  predicate TokensBelow(ls: seq<Listener>, next: nat) {
    forall i :: 0 <= i < |ls| ==> ls[i].handler.Wrapped? ==> ls[i].handler.token < next
  }

  /**
   * The first occurrence of `x` removed and the rest kept in order, as the
   * splice of `Emitter.prototype.off` does.
   */
  function RemoveFirst<T(==)>(xs: seq<T>, x: T): (r: seq<T>)
    ensures x !in xs ==> r == xs
    ensures x in xs ==> |r| == |xs| - 1
  {
    if |xs| == 0 then []
    else if xs[0] == x then xs[1..]
    else
      SkipHeadMember(xs, x);
      [xs[0]] + RemoveFirst(xs[1..], x)
  }

  /**
   * What goes is the first occurrence of `x`: if `x` sits at `i` and not
   * before, the result is the part before `i` followed by the part after it.
   */
  lemma {:induction false} RemoveFirstSplices<T>(xs: seq<T>, x: T, i: nat)
    requires i < |xs| && xs[i] == x && x !in xs[..i]
    ensures RemoveFirst(xs, x) == xs[..i] + xs[i + 1..]
  {
    if i > 0 {
      assert xs[0] == xs[..i][0];
      TailSlices(xs, i - 1);
      TailSlices(xs, i);
      assert xs[1..][..i - 1] == xs[..i][1..];
      RemoveFirstSplices(xs[1..], x, i - 1);
      assert [xs[0]] + (xs[1..][..i - 1] + xs[1..][i..]) == ([xs[0]] + xs[1..][..i - 1]) + xs[1..][i..];
    }
  }

  /** Past a head that is not `x`, `x` occurs in the rest exactly when it occurs at all. */
  lemma SkipHeadMember<T>(xs: seq<T>, x: T)
    requires |xs| > 0 && xs[0] != x
    ensures x in xs <==> x in xs[1..]
  {
    if x in xs {
      var i :| 0 <= i < |xs| && xs[i] == x;
      assert xs[1..][i - 1] == x;
    }
  }

  /** The slices of a sequence in terms of the slices of its tail. */
  lemma TailSlices<T>(xs: seq<T>, j: nat)
    requires j + 1 <= |xs|
    ensures xs[..j + 1] == [xs[0]] + xs[1..][..j]
    ensures xs[j + 1..] == xs[1..][j..]
  {
  }

  /** Exactly one occurrence of `x` goes, and every other element keeps its count. */
  lemma {:induction false} RemoveFirstCounts<T>(xs: seq<T>, x: T)
    ensures multiset(RemoveFirst(xs, x)) == multiset(xs) - multiset{x}
  {
    if |xs| > 0 {
      assert xs == [xs[0]] + xs[1..];
      if xs[0] != x {
        RemoveFirstCounts(xs[1..], x);
      }
    }
  }

  /** Removing what was just appended, and was not there before, gives back the original. */
  lemma {:induction false} RemoveAppended<T>(xs: seq<T>, x: T)
    requires x !in xs
    ensures RemoveFirst(xs + [x], x) == xs
  {
    if |xs| > 0 {
      assert (xs + [x])[1..] == xs[1..] + [x];
      RemoveAppended(xs[1..], x);
    }
  }

  // ---------------------------------------------------------------------
  // The handlers as functions of the session

  /** `handleReconnection`. */
  function Reconnection(s: Session): (r: Session)
    ensures s.attempts >= ReconnectionAttempts ==> r == s.(error := Some(MaxAttemptsMessage))
    ensures s.attempts < ReconnectionAttempts ==>
      && r.attempts == s.attempts + 1
      && r.timers == s.timers + [s.nextTimer]
      && r.latestTimer == Some(s.nextTimer)
      && r.nextTimer == s.nextTimer + 1 && r.nextToken == s.nextToken
      && r.error == s.error && r.isConnected == s.isConnected && r.socket == s.socket
  {
    if s.attempts >= ReconnectionAttempts then s.(error := Some(MaxAttemptsMessage))
    else s.(attempts := s.attempts + 1, timers := s.timers + [s.nextTimer],
            latestTimer := Some(s.nextTimer), nextTimer := s.nextTimer + 1)
  }

  /**
   * `connect`: nothing without a user; when `io()` throws, only the error is
   * recorded; otherwise a new socket, not yet connected and with no
   * listeners of the caller's, replaces the reference.
   */
  function ConnectStep(s: Session, hasUser: bool, initError: Option<string>): (r: Session)
    ensures !hasUser ==> r == s
    ensures hasUser && initError.Some? ==> r == s.(error := initError)
    ensures hasUser && initError.None? ==> r == s.(socket := Some(Socket(false, [], 0)))
  {
    if !hasUser then s
    else if initError.Some? then s.(error := initError)
    else s.(socket := Some(Socket(false, [], 0)))
  }

  /** The `connect` event: connected, no error, counter back to zero. */
  function ConnectEvent(s: Session): (r: Session)
    ensures r.isConnected && r.error.None? && r.attempts == 0
    ensures r.socket.Some? <==> s.socket.Some?
    ensures r.timers == s.timers && r.latestTimer == s.latestTimer
    ensures r == SetSocketConnected(s, true).(isConnected := true, error := None, attempts := 0)
  {
    s.(isConnected := true, error := None, attempts := 0,
       socket := if s.socket.Some? then Some(s.socket.value.(connected := true)) else None)
  }

  /** The socket's `connected` flag set to `c`, when there is a socket. */
  function SetSocketConnected(s: Session, c: bool): Session {
    s.(socket := if s.socket.Some? then Some(s.socket.value.(connected := c)) else None)
  }

  /** The `connect_error` event: the error recorded, disconnected, then a reconnection attempt. */
  function ConnectErrorEvent(s: Session, message: string): (r: Session)
    ensures !r.isConnected
    ensures r == Reconnection(SetSocketConnected(s, false).(error := Some(message), isConnected := false))
    ensures s.attempts < ReconnectionAttempts ==> r.error == Some(message) && r.attempts == s.attempts + 1
    ensures s.attempts >= ReconnectionAttempts ==> r.error == Some(MaxAttemptsMessage) && r.attempts == s.attempts
  {
    Reconnection(SetSocketConnected(s, false).(error := Some(message), isConnected := false))
  }

  /** The `disconnect` event: disconnected; only a server-initiated disconnect tries to reconnect. */
  function DisconnectEvent(s: Session, reason: string): (r: Session)
    ensures !r.isConnected && (r.socket.Some? ==> !r.socket.value.connected)
    ensures reason != ServerDisconnect ==> r == SetSocketConnected(s, false).(isConnected := false)
    ensures reason == ServerDisconnect ==> r == Reconnection(SetSocketConnected(s, false).(isConnected := false))
  {
    var d := SetSocketConnected(s, false).(isConnected := false);
    if reason == ServerDisconnect then Reconnection(d) else d
  }

  /** The `error` event: only the error changes. */
  function ErrorEvent(s: Session, message: string): (r: Session)
    ensures r == s.(error := Some(message))
  {
    s.(error := Some(message))
  }

  /**
   * The oldest pending retry timer fires (all share one delay): it calls
   * `connect()` on the socket only when not connected and a socket exists.
   */
  function RetryExpiry(s: Session): (r: Session)
    ensures |s.timers| == 0 ==> r == s
    ensures |s.timers| > 0 ==> r.timers == s.timers[1..]
    ensures |s.timers| > 0 && !s.isConnected && s.socket.Some? ==>
      r.socket == Some(s.socket.value.(reconnects := s.socket.value.reconnects + 1))
    ensures s.isConnected || s.socket.None? ==> r.socket == s.socket
    ensures r.attempts == s.attempts && r.error == s.error && r.isConnected == s.isConnected
    ensures r.latestTimer == s.latestTimer && r.nextTimer == s.nextTimer && r.nextToken == s.nextToken
  {
    if |s.timers| == 0 then s
    else if !s.isConnected && s.socket.Some? then
      s.(timers := s.timers[1..], socket := Some(s.socket.value.(reconnects := s.socket.value.reconnects + 1)))
    else s.(timers := s.timers[1..])
  }

  /**
   * `disconnect`: the socket released with connected and error cleared, if
   * there was one; the latest retry timer cleared and its handle dropped,
   * if there was one. An older pending timer is not cleared.
   */
  function Released(s: Session): (r: Session)
    ensures r.socket.None?
    ensures r.latestTimer.None?
    ensures s.socket.Some? ==> !r.isConnected && r.error.None?
    ensures s.socket.None? ==> r.isConnected == s.isConnected && r.error == s.error
    ensures s.latestTimer.Some? ==> r.timers == RemoveFirst(s.timers, s.latestTimer.value)
    ensures s.latestTimer.Some? ==> multiset(r.timers) == multiset(s.timers) - multiset{s.latestTimer.value}
    ensures s.latestTimer.None? ==> r.timers == s.timers
    ensures r.attempts == s.attempts && r.nextTimer == s.nextTimer && r.nextToken == s.nextToken
  {
    var released := if s.socket.Some? then s.(socket := None, isConnected := false, error := None) else s;
    if s.latestTimer.Some? then
      RemoveFirstCounts(s.timers, s.latestTimer.value);
      released.(timers := RemoveFirst(s.timers, s.latestTimer.value), latestTimer := None)
    else released
  }

  /** The effect of mounting with a user: connect only when no socket is held yet. */
  function MountStep(s: Session, hasUser: bool, initError: Option<string>): (r: Session)
    ensures !hasUser || s.socket.Some? ==> r == s
    ensures hasUser && s.socket.None? ==> r == ConnectStep(s, true, initError)
  {
    if hasUser && s.socket.None? then ConnectStep(s, hasUser, initError) else s
  }

  /** The server's acknowledgement of an emitted event: none within the timeout, or a response. */
  datatype Ack = NoAck | Ack(error: Option<string>)

  /** What `emit` returns: `undefined` when not connected, otherwise a promise that settles. */
  datatype EmitOutcome = NotSent | Resolved(response: Ack) | Rejected(message: string)

  /** `response?.error` is truthy: a non-empty string. */
  predicate AckFailed(a: Ack) {
    a.Ack? && a.error.Some? && a.error.value != []
  }

  /**
   * `emit`: nothing is sent without a connected socket; a response with an
   * error rejects with it, any other response resolves, and no response
   * rejects with the timeout message.
   */
  function EmitResult(s: Session, ack: Ack): (o: EmitOutcome)
    ensures !(s.socket.Some? && s.socket.value.connected) <==> o.NotSent?
    ensures o.Rejected? <==> s.socket.Some? && s.socket.value.connected && (AckFailed(ack) || ack.NoAck?)
    ensures o.Rejected? && ack.Ack? ==> o.message == ack.error.value
    ensures o.Rejected? && ack.NoAck? ==> o.message == EmitTimeoutMessage
    ensures o.Resolved? ==> o.response == ack
  {
    if !(s.socket.Some? && s.socket.value.connected) then NotSent
    else if ack.NoAck? then Rejected(EmitTimeoutMessage)
    else if AckFailed(ack) then Rejected(ack.error.value)
    else Resolved(ack)
  }

  /** The cleanup `on` returns: it remembers the event and the wrapper it registered. */
  datatype Cleanup = Cleanup(event: string, token: nat, callback: nat)

  /** `on`: with a socket, a fresh wrapper around `callback` is added and a cleanup for it returned. */
  function Listen(s: Session, event: string, callback: nat): (r: (Session, Option<Cleanup>))
    ensures s.socket.None? ==> r == (s, None)
    ensures s.socket.Some? ==>
      && r.1 == Some(Cleanup(event, s.nextToken, callback))
      && r.0.socket == Some(s.socket.value.(listeners := s.socket.value.listeners + [Listener(event, Wrapped(s.nextToken, callback))]))
      && r.0.nextToken == s.nextToken + 1
    ensures s.socket.Some? ==>
      r.0 == s.(socket := Some(s.socket.value.(listeners := s.socket.value.listeners + [Listener(event, Wrapped(s.nextToken, callback))])),
                nextToken := s.nextToken + 1)
  {
    if s.socket.None? then (s, None)
    else
      var sock := s.socket.value;
      (s.(socket := Some(sock.(listeners := sock.listeners + [Listener(event, Wrapped(s.nextToken, callback))])),
          nextToken := s.nextToken + 1),
       Some(Cleanup(event, s.nextToken, callback)))
  }

  /** What happens when an event reaches a listener whose callback returns normally or throws. */
  datatype Delivery = Returned | Caught | Propagated

  /** A raw callback's exception reaches the emitter; the wrapper `on` builds catches and logs it. */
  function Deliver(h: Handler, throws: bool): (d: Delivery)
    ensures d == Returned <==> !throws
    ensures throws ==> (d == Caught <==> h.Wrapped?)
  {
    if !throws then Returned
    else if h.Wrapped? then Caught
    else Propagated
  }

  /** No exception escapes a listener registered through `on`. */
  lemma ListenedNeverPropagates(s: Session, event: string, callback: nat, throws: bool)
    requires s.socket.Some?
    ensures var ls := Listen(s, event, callback).0.socket.value.listeners;
      Deliver(ls[|ls| - 1].handler, throws) != Propagated
  {
  }

  /** The listeners of the current socket with `l` removed once, when there is a socket. */
  function Unlisten(s: Session, l: Listener): Session {
    if s.socket.None? then s
    else s.(socket := Some(s.socket.value.(listeners := RemoveFirst(s.socket.value.listeners, l))))
  }

  /** Calling a cleanup: its own wrapper is removed once from the current socket, and nothing else changes. */
  function CleanupStep(s: Session, c: Cleanup): (r: Session)
    ensures s.socket.None? ==> r == s
    ensures s.socket.Some? ==>
      && r == s.(socket := r.socket) && r.socket.Some?
      && multiset(r.socket.value.listeners) == multiset(s.socket.value.listeners) - multiset{Listener(c.event, Wrapped(c.token, c.callback))}
    ensures s.socket.Some? ==>
      r.socket.value == s.socket.value.(listeners := RemoveFirst(s.socket.value.listeners, Listener(c.event, Wrapped(c.token, c.callback))))
  {
    if s.socket.None? then s
    else
      RemoveFirstCounts(s.socket.value.listeners, Listener(c.event, Wrapped(c.token, c.callback)));
      Unlisten(s, Listener(c.event, Wrapped(c.token, c.callback)))
  }

  /** `off(event, callback)`: removes the callback once as registered raw, never a wrapper `on` made. */
  function OffStep(s: Session, event: string, callback: nat): (r: Session)
    ensures s.socket.None? ==> r == s
    ensures s.socket.Some? ==>
      && r == s.(socket := r.socket) && r.socket.Some?
      && multiset(r.socket.value.listeners) == multiset(s.socket.value.listeners) - multiset{Listener(event, Raw(callback))}
    ensures s.socket.Some? ==>
      r.socket.value == s.socket.value.(listeners := RemoveFirst(s.socket.value.listeners, Listener(event, Raw(callback))))
  {
    if s.socket.None? then s
    else
      RemoveFirstCounts(s.socket.value.listeners, Listener(event, Raw(callback)));
      Unlisten(s, Listener(event, Raw(callback)))
  }

  // ---------------------------------------------------------------------
  // Properties of the handlers

  /** `handleReconnection` keeps the invariant, so the counter never exceeds `RECONNECTION_ATTEMPTS`. */
  lemma ReconnectionKeepsInv(s: Session, message: string, reason: string)
    requires Inv(s)
    ensures Inv(Reconnection(s)) && Inv(ConnectErrorEvent(s, message)) && Inv(DisconnectEvent(s, reason))
  {
    if s.attempts < ReconnectionAttempts {
      assert s.nextTimer !in s.timers;
    }
    assert Inv(Reconnection(s));
    assert Inv(SetSocketConnected(s, false).(error := Some(message), isConnected := false));
    assert Inv(SetSocketConnected(s, false).(isConnected := false));
  }

  /** The other connection handlers keep the invariant. */
  lemma ConnectionHandlersKeepInv(s: Session, hasUser: bool, initError: Option<string>, message: string)
    requires Inv(s)
    ensures Inv(ConnectStep(s, hasUser, initError)) && Inv(MountStep(s, hasUser, initError))
    ensures Inv(ConnectEvent(s)) && Inv(ErrorEvent(s, message)) && Inv(RetryExpiry(s))
  {
    if |s.timers| > 0 {
      assert s.timers == [s.timers[0]] + s.timers[1..];
      assert multiset(s.timers) == multiset{s.timers[0]} + multiset(s.timers[1..]);
      forall h | h in s.timers[1..] ensures multiset(s.timers[1..])[h] <= 1 {
        assert h in s.timers;
      }
    }
  }

  /** `disconnect` keeps the invariant. */
  lemma DisconnectKeepsInv(s: Session)
    requires Inv(s)
    ensures Inv(Released(s))
  {
    if s.latestTimer.Some? {
      RemoveKeepsHandles(s.timers, s.nextTimer, s.latestTimer.value);
    }
  }

  /** Clearing one timer keeps the remaining handles issued and unique. */
  lemma RemoveKeepsHandles(ts: seq<nat>, next: nat, x: nat)
    requires IssuedBelow(ts, next) && Unique(ts)
    ensures IssuedBelow(RemoveFirst(ts, x), next) && Unique(RemoveFirst(ts, x))
  {
    var r := RemoveFirst(ts, x);
    RemoveFirstCounts(ts, x);
    forall i | 0 <= i < |r| ensures r[i] < next {
      assert r[i] in multiset(r);
      assert r[i] in ts;
    }
    forall h | h in r ensures multiset(r)[h] <= 1 {
      assert h in multiset(r);
      assert h in ts;
    }
  }

  /** `on`, a cleanup and `off` keep the invariant. */
  lemma ListenerHandlersKeepInv(s: Session, event: string, callback: nat, c: Cleanup)
    requires Inv(s)
    ensures Inv(Listen(s, event, callback).0) && Inv(CleanupStep(s, c)) && Inv(OffStep(s, event, callback))
  {
    if s.socket.Some? {
      var ls := s.socket.value.listeners + [Listener(event, Wrapped(s.nextToken, callback))];
      assert TokensBelow(ls, s.nextToken + 1);
    }
    if s.socket.Some? {
      UnlistenKeepsTokens(s, Listener(c.event, Wrapped(c.token, c.callback)));
      UnlistenKeepsTokens(s, Listener(event, Raw(callback)));
    }
  }

  /** Removing a listener keeps every remaining wrapper's token below the counter. */
  lemma UnlistenKeepsTokens(s: Session, l: Listener)
    requires Inv(s) && s.socket.Some?
    ensures Inv(Unlisten(s, l))
  {
    var ls := s.socket.value.listeners;
    var r := RemoveFirst(ls, l);
    RemoveFirstCounts(ls, l);
    forall i | 0 <= i < |r| && r[i].handler.Wrapped? ensures r[i].handler.token < s.nextToken {
      assert r[i] in multiset(r);
      assert r[i] in ls;
    }
  }

  /** Failures in a row stop scheduling after three: the fourth leaves only the limit message. */
  lemma FailuresStopAtLimit(s: Session, message: string)
    requires s.attempts == ReconnectionAttempts
    ensures ConnectErrorEvent(s, message).attempts == ReconnectionAttempts
    ensures ConnectErrorEvent(s, message).timers == s.timers
    ensures ConnectErrorEvent(s, message).error == Some(MaxAttemptsMessage)
  {
  }

  /** From a fresh counter, three connection errors schedule three retries and the fourth none. */
  lemma ThreeRetries(s: Session, m: string)
    requires s.attempts == 0
    ensures var s3 := ConnectErrorEvent(ConnectErrorEvent(ConnectErrorEvent(s, m), m), m);
      && s3.attempts == 3 && |s3.timers| == |s.timers| + 3 && s3.error == Some(m)
      && |ConnectErrorEvent(s3, m).timers| == |s3.timers| && ConnectErrorEvent(s3, m).error == Some(MaxAttemptsMessage)
  {
  }

  /** A successful connection re-arms the full budget of retries. */
  lemma ConnectRearms(s: Session, m: string)
    ensures ConnectEvent(s).attempts == 0
    ensures ConnectErrorEvent(ConnectEvent(s), m).attempts == 1 && ConnectErrorEvent(ConnectEvent(s), m).error == Some(m)
  {
  }

  /** A retry fires `connect()` exactly when not connected and a socket exists. */
  lemma RetryReconnectsIff(s: Session)
    requires |s.timers| > 0 && s.socket.Some?
    ensures RetryExpiry(s).socket.Some?
    ensures RetryExpiry(s).socket.value.reconnects == s.socket.value.reconnects + 1 <==> !s.isConnected
  {
  }

  /** `disconnect` twice is `disconnect` once. */
  lemma DisconnectIdempotent(s: Session)
    ensures Released(Released(s)) == Released(s)
  {
  }

  /** After `disconnect`, the latest retry is no longer pending, and nothing can be emitted. */
  lemma DisconnectCancelsLatest(s: Session, ack: Ack)
    requires Inv(s) && s.latestTimer.Some?
    ensures s.latestTimer.value !in Released(s).timers
    ensures EmitResult(Released(s), ack).NotSent?
  {
    var t := s.latestTimer.value;
    RemoveFirstCounts(s.timers, t);
  }

  /** A cleanup undoes its own `on` exactly: the listeners are as before. */
  lemma CleanupUndoesOn(s: Session, event: string, callback: nat)
    requires Inv(s) && s.socket.Some?
    ensures var (s1, c) := Listen(s, event, callback);
      c.Some? && CleanupStep(s1, c.value).socket.value.listeners == s.socket.value.listeners
  {
    var w := Listener(event, Wrapped(s.nextToken, callback));
    assert w !in s.socket.value.listeners;
    RemoveAppended(s.socket.value.listeners, w);
  }

  /** `off` with the callback given to `on` leaves the handler registered. */
  lemma OffDoesNotUndoOn(s: Session, event: string, callback: nat)
    requires s.socket.Some?
    ensures var s1 := Listen(s, event, callback).0;
      Listener(event, Wrapped(s.nextToken, callback)) in OffStep(s1, event, callback).socket.value.listeners
  {
    var s1 := Listen(s, event, callback).0;
    var w := Listener(event, Wrapped(s.nextToken, callback));
    assert w in s1.socket.value.listeners;
    assert multiset(OffStep(s1, event, callback).socket.value.listeners)[w] == multiset(s1.socket.value.listeners)[w];
  }

  // ---------------------------------------------------------------------
  // The hook's refs and state, updated in place

  class SocketSession {
    var isConnected: bool
    var connectionError: Option<string>
    var socket: Option<Socket>
    var attempts: nat
    var timers: seq<nat>
    var latestTimer: Option<nat>
    var nextTimer: nat
    var nextToken: nat

    function State(): Session
      reads this
    {
      Session(isConnected, connectionError, socket, attempts, timers, latestTimer, nextTimer, nextToken)
    }

    ghost predicate Valid()
      reads this
    {
      Inv(State())
    }

    /** The hook's first render: no socket, no error, counter at zero. */
    constructor ()
      ensures Valid() && State() == Fresh
    {
      isConnected, connectionError, socket := false, None, None;
      attempts, timers, latestTimer, nextTimer, nextToken := 0, [], None, 0, 0;
    }

    method HandleReconnection()
      requires Valid()
      modifies this
      ensures Valid() && State() == Reconnection(old(State()))
    {
      ReconnectionKeepsInv(State(), "", "");
      if attempts >= ReconnectionAttempts {
        connectionError := Some(MaxAttemptsMessage);
        return;
      }
      attempts := attempts + 1;
      timers := timers + [nextTimer];
      latestTimer := Some(nextTimer);
      nextTimer := nextTimer + 1;
    }

    method Connect(hasUser: bool, initError: Option<string>)
      requires Valid()
      modifies this
      ensures Valid() && State() == ConnectStep(old(State()), hasUser, initError)
    {
      ConnectionHandlersKeepInv(State(), hasUser, initError, "");
      if !hasUser {
        return;
      }
      if initError.Some? {
        connectionError := initError;
      } else {
        socket := Some(Socket(false, [], 0));
      }
    }

    /** The mount effect: connects when there is a user and no socket yet. */
    method Mount(hasUser: bool, initError: Option<string>)
      requires Valid()
      modifies this
      ensures Valid() && State() == MountStep(old(State()), hasUser, initError)
    {
      if hasUser && socket.None? {
        Connect(hasUser, initError);
      }
    }

    method OnConnect()
      requires Valid()
      modifies this
      ensures Valid() && State() == ConnectEvent(old(State()))
    {
      ConnectionHandlersKeepInv(State(), false, None, "");
      if socket.Some? {
        socket := Some(socket.value.(connected := true));
      }
      isConnected := true;
      connectionError := None;
      attempts := 0;
    }

    method OnConnectError(message: string)
      requires Valid()
      modifies this
      ensures Valid() && State() == ConnectErrorEvent(old(State()), message)
    {
      if socket.Some? {
        socket := Some(socket.value.(connected := false));
      }
      connectionError := Some(message);
      isConnected := false;
      HandleReconnection();
    }

    method OnDisconnect(reason: string)
      requires Valid()
      modifies this
      ensures Valid() && State() == DisconnectEvent(old(State()), reason)
    {
      if socket.Some? {
        socket := Some(socket.value.(connected := false));
      }
      isConnected := false;
      if reason == ServerDisconnect {
        HandleReconnection();
      }
    }

    method OnError(message: string)
      requires Valid()
      modifies this
      ensures Valid() && State() == ErrorEvent(old(State()), message)
    {
      connectionError := Some(message);
    }

    /** The oldest pending retry timer expires. */
    method RetryFires()
      requires Valid()
      modifies this
      ensures Valid() && State() == RetryExpiry(old(State()))
    {
      ConnectionHandlersKeepInv(State(), false, None, "");
      if |timers| == 0 {
        return;
      }
      timers := timers[1..];
      if !isConnected && socket.Some? {
        socket := Some(socket.value.(reconnects := socket.value.reconnects + 1));
      }
    }

    method Disconnect()
      requires Valid()
      modifies this`socket, this`isConnected, this`connectionError, this`timers, this`latestTimer
      ensures Valid() && State() == Released(old(State()))
    {
      ghost var want := Released(State());
      DisconnectKeepsInv(State());
      if socket.Some? {
        socket := None;
        isConnected := false;
        connectionError := None;
      }
      if latestTimer.Some? {
        var remaining := RemoveFirst(timers, latestTimer.value);
        timers := remaining;
        latestTimer := None;
      }
      assert State() == want;
    }

    /** `emit`: reads the session and changes nothing. */
    method Emit(ack: Ack) returns (o: EmitOutcome)
      ensures o == EmitResult(State(), ack)
      ensures o.NotSent? <==> !(socket.Some? && socket.value.connected)
    {
      if !(socket.Some? && socket.value.connected) {
        return NotSent;
      }
      if ack.NoAck? {
        o := Rejected(EmitTimeoutMessage);
      } else if AckFailed(ack) {
        o := Rejected(ack.error.value);
      } else {
        o := Resolved(ack);
      }
    }

    method On(event: string, callback: nat) returns (cleanup: Option<Cleanup>)
      requires Valid()
      modifies this`socket, this`nextToken
      ensures (State(), cleanup) == Listen(old(State()), event, callback)
      ensures Valid()
    {
      ghost var want := Listen(State(), event, callback);
      ListenerHandlersKeepInv(State(), event, callback, Cleanup(event, 0, callback));
      if socket.None? {
        return None;
      }
      var sock := socket.value;
      socket := Some(sock.(listeners := sock.listeners + [Listener(event, Wrapped(nextToken, callback))]));
      cleanup := Some(Cleanup(event, nextToken, callback));
      nextToken := nextToken + 1;
      assert (State(), cleanup) == want;
    }

    method RunCleanup(c: Cleanup)
      requires Valid()
      modifies this`socket
      ensures State() == CleanupStep(old(State()), c)
      ensures Valid()
    {
      ghost var want := CleanupStep(State(), c);
      ListenerHandlersKeepInv(State(), c.event, c.callback, c);
      if socket.Some? {
        var sock := socket.value;
        var remaining := RemoveFirst(sock.listeners, Listener(c.event, Wrapped(c.token, c.callback)));
        socket := Some(sock.(listeners := remaining));
      }
      assert State() == want;
    }

    method Off(event: string, callback: nat)
      requires Valid()
      modifies this`socket
      ensures State() == OffStep(old(State()), event, callback)
      ensures Valid()
    {
      ghost var want := OffStep(State(), event, callback);
      ListenerHandlersKeepInv(State(), event, callback, Cleanup(event, 0, callback));
      if socket.Some? {
        var sock := socket.value;
        var remaining := RemoveFirst(sock.listeners, Listener(event, Raw(callback)));
        socket := Some(sock.(listeners := remaining));
      }
      assert State() == want;
    }
  }
}
