/**
 * The reconnecting WebSocket client of hooks/useWebSocket/webSocket.ts.
 *
 * `createWebSocket` keeps two closure variables, the current `socket` and a
 * `retries` counter, and installs four handlers on every socket it creates.
 * The pure part of this module describes that closure state as a value
 * (`Conn`) and every event that can reach it (`Event`), with `Step` as the
 * reference semantics of one event and `Run` of a sequence of them. The class
 * `Client` at the end holds the same state in mutable fields and has one
 * method per handler; each method is proved to perform exactly `Step`.
 */
module WebSocketClient {
  import opened Wrappers

  /** `maxRetries`: reconnections allowed since the last successful open. */
  const MaxRetries: nat := 5

  /** The `readyState` of one browser WebSocket object. */
  datatype ReadyState = Connecting | Open | Closing | Closed

  /** One invocation of a callback handed to `createWebSocket`. */
  datatype Callback<T, E> =
    | MessageCallback(data: T)     // onMessage(data)
    | ErrorCallback(error: E)      // onError?.(error)
    | CloseCallback(retries: nat)  // onClose?.(retries)

  /**
   * What can happen to a client. Socket events name the socket they are
   * delivered on by creation order (0 is the socket made at creation), since
   * the handlers of a superseded socket still share the closure's `retries`.
   * A frame carries the outcome of decoding it: `None` when parsing threw.
   */
  datatype Event<T, E> =
    | SocketOpened(socket: nat)
    | FrameReceived(socket: nat, decoded: Option<T>)
    | SocketErrored(socket: nat, error: E)
    | SocketClosed(socket: nat)
    | ReconnectTimerFired
    | SendCalled(message: string)
    | CloseCalled

  /**
   * The state of one client: the ready state of every socket created so far
   * (the last one is what `socket` refers to), the `retries` counter, the
   * number of `setTimeout(connect, …)` timers not yet fired, the callbacks
   * invoked so far in order, and the messages actually transmitted.
   */
  datatype Conn<T, E> = Conn(
    sockets: seq<ReadyState>,
    retries: nat,
    pending: nat,
    calls: seq<Callback<T, E>>,
    sent: seq<string>)
  {
    /** At least one socket exists, and `retries` is within the budget. */
    predicate Valid() {
      |sockets| > 0 && retries <= MaxRetries
    }

    /** The ready state of the socket `socket` currently refers to. */
    function Current(): ReadyState
      requires |sockets| > 0
    {
      sockets[|sockets| - 1]
    }
  }

  /** The state right after `createWebSocket` returns: one `connect()` done. */
  function Initial<T, E>(): Conn<T, E> {
    Conn([Connecting], 0, 0, [], [])
  }

  /** `connect`: a new socket replaces the current one; older ones live on. */
  function AfterConnect<T, E>(s: Conn<T, E>): Conn<T, E> {
    s.(sockets := s.sockets + [Connecting])
  }

  /**
   * Whether the browser can deliver the event to a client in state `s`: the
   * socket exists and is in a ready state from which the browser dispatches
   * that event (open only while connecting, messages only while open, close
   * once per socket), and a timer fires only if one is pending. Errors,
   * `send` and `close` can come at any time.
   */
  predicate Deliverable<T, E>(s: Conn<T, E>, e: Event<T, E>) {
    match e
    case SocketOpened(k) => k < |s.sockets| && s.sockets[k] == Connecting
    case FrameReceived(k, _) => k < |s.sockets| && s.sockets[k] == Open
    case SocketErrored(k, _) => k < |s.sockets|
    case SocketClosed(k) => k < |s.sockets| && s.sockets[k] != Closed
    case ReconnectTimerFired => s.pending > 0
    case SendCalled(_) => true
    case CloseCalled => true
  }

  /** A deliverable event on a well-formed state: the precondition of `Step`. */
  predicate Admissible<T, E>(s: Conn<T, E>, e: Event<T, E>) {
    s.Valid() && Deliverable(s, e)
  }

  /**
   * The effect of one event: the handler the source installs for it, together
   * with the ready-state change the browser makes before dispatching it.
   * No event invokes more than one callback, and the retry bound is kept.
   */
  function Step<T, E>(s: Conn<T, E>, e: Event<T, E>): (r: Conn<T, E>)
    requires Admissible(s, e)
    ensures r.Valid()
    ensures |r.sockets| >= |s.sockets|
    ensures s.calls <= r.calls && |r.calls| <= |s.calls| + 1
    ensures s.sent <= r.sent && |r.sent| <= |s.sent| + 1
  {
    match e
    case SocketOpened(k) =>
      s.(sockets := s.sockets[k := Open], retries := 0)
    case FrameReceived(_, decoded) =>
      if decoded.Some? then s.(calls := s.calls + [MessageCallback(decoded.value)]) else s
    case SocketErrored(_, error) =>
      s.(calls := s.calls + [ErrorCallback(error)])
    case SocketClosed(k) =>
      var closed := s.(sockets := s.sockets[k := Closed]);
      var decided :=
        if s.retries < MaxRetries then closed.(retries := s.retries + 1, pending := s.pending + 1)
        else closed;
      decided.(calls := decided.calls + [CloseCallback(decided.retries)])
    case ReconnectTimerFired =>
      AfterConnect(s.(pending := s.pending - 1))
    case SendCalled(message) =>
      if s.Current() == Open then s.(sent := s.sent + [message]) else s
    case CloseCalled =>
      if s.Current() == Connecting || s.Current() == Open
      then s.(sockets := s.sockets[|s.sockets| - 1 := Closing])
      else s
  }

  /**
   * The events `es` can be delivered one after the other, starting from the
   * well-formed state `s`. Only `s` is required to be well-formed: that every
   * later state is too is what `Step` guarantees.
   */
  predicate Admits<T, E>(s: Conn<T, E>, es: seq<Event<T, E>>) {
    s.Valid() && AdmitsFrom(s, es)
  }

  predicate AdmitsFrom<T, E>(s: Conn<T, E>, es: seq<Event<T, E>>)
    requires s.Valid()
    decreases |es|
  {
    es == [] || (Deliverable(s, es[0]) && AdmitsFrom(Step(s, es[0]), es[1..]))
  }

  /**
   * The state after the events `es`, in order. Whatever the events, `retries`
   * never exceeds `MaxRetries`, no socket is forgotten, and the callback log
   * and the transmitted messages only grow, by at most one entry per event.
   */
  function Run<T, E>(s: Conn<T, E>, es: seq<Event<T, E>>): (r: Conn<T, E>)
    requires Admits(s, es)
    ensures r.Valid()
    ensures |r.sockets| >= |s.sockets|
    ensures s.calls <= r.calls && |r.calls| <= |s.calls| + |es|
    ensures s.sent <= r.sent && |r.sent| <= |s.sent| + |es|
    decreases |es|
  {
    if es == [] then s else Run(Step(s, es[0]), es[1..])
  }

  lemma {:induction false} RunAppend<T, E>(s: Conn<T, E>, a: seq<Event<T, E>>, b: seq<Event<T, E>>)
    requires Admits(s, a) && Admits(Run(s, a), b)
    ensures Admits(s, a + b) && Run(s, a + b) == Run(Run(s, a), b)
    decreases |a|
  {
    if a == [] {
      assert a + b == b;
    } else {
      assert (a + b)[0] == a[0];
      assert (a + b)[1..] == a[1..] + b;
      RunAppend(Step(s, a[0]), a[1..], b);
    }
  }

  // ---------------------------------------------------------------------
  // One event at a time
  // ---------------------------------------------------------------------

  /** A fresh client has made exactly one connection attempt and has an empty budget count. */
  lemma InitialState<T, E>()
    ensures Initial<T, E>().Valid()
    ensures Initial<T, E>().retries == 0 && Initial<T, E>().pending == 0
    ensures |Initial<T, E>().sockets| == 1 && Initial<T, E>().Current() == Connecting
    ensures Initial<T, E>().calls == [] && Initial<T, E>().sent == []
    ensures Live(Initial<T, E>().sockets) == 1
  {
    InitialOutstanding<T, E>();
  }

  /** `onopen` resets the counter and invokes no callback. */
  lemma OpenResetsRetries<T, E>(s: Conn<T, E>, k: nat)
    requires Admissible(s, SocketOpened(k))
    ensures Step(s, SocketOpened(k)).retries == 0
    ensures Step(s, SocketOpened(k)).sockets == s.sockets[k := Open]
    ensures Step(s, SocketOpened(k)).pending == s.pending
    ensures Step(s, SocketOpened(k)).calls == s.calls
  {
  }

  /**
   * `onclose` within the budget: the counter goes up by one, exactly one
   * reconnect is scheduled, and `onClose` is called once, after the decision,
   * with the new count. The reconnect itself happens only when the timer fires.
   */
  lemma CloseWithinBudget<T, E>(s: Conn<T, E>, k: nat)
    requires Admissible(s, SocketClosed(k)) && s.retries < MaxRetries
    ensures Step(s, SocketClosed(k)).retries == s.retries + 1
    ensures Step(s, SocketClosed(k)).pending == s.pending + 1
    ensures Step(s, SocketClosed(k)).calls == s.calls + [CloseCallback(s.retries + 1)]
    ensures Step(s, SocketClosed(k)).sockets == s.sockets[k := Closed]
  {
  }

  /** `onclose` with the budget spent: nothing is scheduled and `onClose` reports `MaxRetries`. */
  lemma CloseBudgetExhausted<T, E>(s: Conn<T, E>, k: nat)
    requires Admissible(s, SocketClosed(k)) && s.retries >= MaxRetries
    ensures Step(s, SocketClosed(k)).retries == s.retries == MaxRetries
    ensures Step(s, SocketClosed(k)).pending == s.pending
    ensures Step(s, SocketClosed(k)).calls == s.calls + [CloseCallback(MaxRetries)]
  {
  }

  /**
   * `onmessage`: a frame that fails to decode changes nothing at all; one that
   * decodes calls `onMessage` once with the decoded value and changes nothing else.
   */
  lemma FrameHandling<T, E>(s: Conn<T, E>, k: nat, decoded: Option<T>)
    requires Admissible(s, FrameReceived(k, decoded))
    ensures decoded.None? ==> Step(s, FrameReceived(k, decoded)) == s
    ensures decoded.Some? ==>
      Step(s, FrameReceived(k, decoded)) == s.(calls := s.calls + [MessageCallback(decoded.value)])
  {
  }

  /** `onerror` calls `onError` once and touches neither the sockets, `retries` nor the timers. */
  lemma ErrorOnlyNotifies<T, E>(s: Conn<T, E>, k: nat, error: E)
    requires Admissible(s, SocketErrored(k, error))
    ensures Step(s, SocketErrored(k, error)) == s.(calls := s.calls + [ErrorCallback(error)])
  {
  }

  /** `send` transmits exactly when the current socket is open, and otherwise changes nothing. */
  lemma SendOnlyWhenOpen<T, E>(s: Conn<T, E>, message: string)
    requires s.Valid()
    ensures Step(s, SendCalled(message)).sent ==
      if s.Current() == Open then s.sent + [message] else s.sent
    ensures Step(s, SendCalled(message)).(sent := s.sent) == s
  {
  }

  /** A fired timer creates a new current socket and leaves the counter alone. */
  lemma TimerReconnects<T, E>(s: Conn<T, E>)
    requires Admissible(s, ReconnectTimerFired)
    ensures Step(s, ReconnectTimerFired).sockets == s.sockets + [Connecting]
    ensures Step(s, ReconnectTimerFired).pending == s.pending - 1
    ensures Step(s, ReconnectTimerFired).retries == s.retries
    ensures Step(s, ReconnectTimerFired).calls == s.calls
  {
  }

  /**
   * `close()` only asks the current socket to close: it cancels no pending
   * timer, resets nothing and calls nothing. When the close event then
   * arrives, `onclose` runs its retry branch as for any other close.
   */
  lemma {:induction false} ExplicitCloseStillRetries<T, E>(s: Conn<T, E>)
    requires s.Valid() && (s.Current() == Connecting || s.Current() == Open)
    requires s.retries < MaxRetries
    ensures Step(s, CloseCalled).pending == s.pending && Step(s, CloseCalled).retries == s.retries
    ensures Step(s, CloseCalled).calls == s.calls && Step(s, CloseCalled).Current() == Closing
    ensures Admits(s, [CloseCalled, SocketClosed(|s.sockets| - 1)])
    ensures Run(s, [CloseCalled, SocketClosed(|s.sockets| - 1)]).pending == s.pending + 1
    ensures Run(s, [CloseCalled, SocketClosed(|s.sockets| - 1)]).calls == s.calls + [CloseCallback(s.retries + 1)]
  {
    var es: seq<Event<T, E>> := [CloseCalled, SocketClosed(|s.sockets| - 1)];
    var s1 := Step(s, CloseCalled);
    var s2 := Step(s1, SocketClosed(|s.sockets| - 1));
    assert es[1..] == [SocketClosed(|s.sockets| - 1)];
    assert Admits(s2, es[1..][1..]);
    assert Run(s, es) == Run(s1, es[1..]) == Run(s2, []);
  }

  /**
   * `close()` during the back-off, when the current socket has already
   * closed and a reconnect is waiting on its timer: it changes nothing, and
   * the timer still fires and opens a new connecting socket.
   */
  lemma {:induction false} CloseDuringBackoffStillReconnects<T, E>(s: Conn<T, E>)
    requires s.Valid() && s.pending > 0 && s.Current() == Closed
    ensures Step(s, CloseCalled) == s
    ensures Admits(s, [CloseCalled, ReconnectTimerFired])
    ensures Run(s, [CloseCalled, ReconnectTimerFired]).Current() == Connecting
    ensures Run(s, [CloseCalled, ReconnectTimerFired]).pending == s.pending - 1
    ensures Run(s, [CloseCalled, ReconnectTimerFired]).retries == s.retries
  {
    var es: seq<Event<T, E>> := [CloseCalled, ReconnectTimerFired];
    var s2 := Step(s, ReconnectTimerFired);
    assert es[1..] == [ReconnectTimerFired];
    assert Admits(s2, es[1..][1..]);
    assert Run(s, es) == Run(s, es[1..]) == Run(s2, []);
  }

  // ---------------------------------------------------------------------
  // Outstanding connection attempts
  // ---------------------------------------------------------------------

  /** The number of sockets that are not yet closed. */
  function Live(sockets: seq<ReadyState>): nat
  {
    if sockets == [] then 0
    else Live(sockets[..|sockets| - 1]) + Indicator(sockets[|sockets| - 1])
  }

  /** 1 for a socket that is not yet closed, 0 for a closed one. */
  function Indicator(st: ReadyState): nat {
    if st == Closed then 0 else 1
  }

  lemma {:induction false} LiveUpdate(sockets: seq<ReadyState>, k: nat, st: ReadyState)
    requires k < |sockets|
    ensures Live(sockets[k := st]) + Indicator(sockets[k]) == Live(sockets) + Indicator(st)
    decreases |sockets|
  {
    var n := |sockets|;
    if k == n - 1 {
      assert sockets[k := st][..n - 1] == sockets[..n - 1];
    } else {
      assert sockets[k := st][..n - 1] == sockets[..n - 1][k := st];
      LiveUpdate(sockets[..n - 1], k, st);
    }
  }

  lemma LiveAppend(sockets: seq<ReadyState>, st: ReadyState)
    ensures Live(sockets + [st]) == Live(sockets) + Indicator(st)
  {
    assert (sockets + [st])[..|sockets|] == sockets;
  }

  /** Connection attempts in progress: live sockets plus reconnects waiting on a timer. */
  function Outstanding<T, E>(s: Conn<T, E>): nat {
    Live(s.sockets) + s.pending
  }

  /**
   * Each close event schedules its own reconnect, with no guard against
   * overlap; but since the browser closes a socket only once, no event ever
   * adds an outstanding attempt. A close within the budget trades the closed
   * socket for a timer; only a close with the budget spent gives one up.
   */
  lemma OutstandingAttempts<T, E>(s: Conn<T, E>, e: Event<T, E>)
    requires Admissible(s, e)
    ensures Outstanding(Step(s, e)) ==
      if e.SocketClosed? && s.retries >= MaxRetries then Outstanding(s) - 1 else Outstanding(s)
  {
    match e
    case SocketOpened(k) =>
      LiveUpdate(s.sockets, k, Open);
    case SocketClosed(k) =>
      LiveUpdate(s.sockets, k, Closed);
    case ReconnectTimerFired =>
      LiveAppend(s.sockets, Connecting);
    case CloseCalled =>
      LiveUpdate(s.sockets, |s.sockets| - 1, Closing);
    case _ =>
  }

  /**
   * Over any sequence of events the number of outstanding attempts never
   * grows. From a fresh client (one attempt) at most one connection is ever
   * being made at a time, and once none is left the client stays inert.
   */
  lemma {:induction false} AttemptsNeverIncrease<T, E>(s: Conn<T, E>, es: seq<Event<T, E>>)
    requires Admits(s, es)
    ensures Outstanding(Run(s, es)) <= Outstanding(s)
    decreases |es|
  {
    if es != [] {
      OutstandingAttempts(s, es[0]);
      AttemptsNeverIncrease(Step(s, es[0]), es[1..]);
    }
  }

  lemma AtMostOneAttempt<T, E>(es: seq<Event<T, E>>)
    requires Admits(Initial(), es)
    ensures Outstanding(Run(Initial(), es)) <= 1
  {
    AttemptsNeverIncrease(Initial(), es);
    InitialOutstanding<T, E>();
  }

  // ---------------------------------------------------------------------
  // A server that keeps refusing connections
  // ---------------------------------------------------------------------

  /** `n` rounds of: the current socket closes, then the reconnect timer fires. */
  function Outage<T, E>(first: nat, n: nat): seq<Event<T, E>>
    decreases n
  {
    if n == 0 then [] else [SocketClosed(first), ReconnectTimerFired] + Outage(first + 1, n - 1)
  }

  /** The `onClose` reports of `n` closes within budget, counting up from `from + 1`. */
  function CloseReports<T, E>(from: nat, n: nat): seq<Callback<T, E>>
    decreases n
  {
    if n == 0 then [] else [CloseCallback(from + 1)] + CloseReports(from + 1, n - 1)
  }

  /** One round within the budget: the current socket closes, then its reconnect timer fires. */
  lemma OneRound<T, E>(s: Conn<T, E>)
    requires s.Valid() && s.pending == 0 && s.Current() != Closed && s.retries < MaxRetries
    ensures Admits(s, [SocketClosed(|s.sockets| - 1), ReconnectTimerFired])
    ensures Run(s, [SocketClosed(|s.sockets| - 1), ReconnectTimerFired]) ==
      Conn(s.sockets[|s.sockets| - 1 := Closed] + [Connecting], s.retries + 1, 0,
           s.calls + [CloseCallback(s.retries + 1)], s.sent)
  {
    var k := |s.sockets| - 1;
    var s1 := Step(s, SocketClosed(k));
    assert s1 == Conn(s.sockets[k := Closed], s.retries + 1, 1, s.calls + [CloseCallback(s.retries + 1)], s.sent);
    var s2 := Step(s1, ReconnectTimerFired);
    RunSingle(s, SocketClosed(k));
    RunSingle(s1, ReconnectTimerFired);
    var first: seq<Event<T, E>> := [SocketClosed(k)];
    var second: seq<Event<T, E>> := [ReconnectTimerFired];
    RunAppend(s, first, second);
    assert first + second == [SocketClosed(k), ReconnectTimerFired];
  }

  lemma RunSingle<T, E>(s: Conn<T, E>, e: Event<T, E>)
    requires Admissible(s, e)
    ensures Admits(s, [e]) && Run(s, [e]) == Step(s, e)
  {
    assert [e][0] == e && [e][1..] == [];
  }

  /**
   * What `n` rounds within the budget do to `s`: the counter has grown by
   * `n`, `n` new sockets exist and the newest is not closed, no timer is
   * left, `onClose` reported each new count once, and nothing was sent.
   */
  ghost predicate AfterRounds<T, E>(s: Conn<T, E>, r: Conn<T, E>, n: nat)
    requires |r.sockets| > 0
  {
    && r.retries == s.retries + n
    && r.pending == 0
    && |r.sockets| == |s.sockets| + n
    && r.Current() != Closed
    && r.calls == s.calls + CloseReports(s.retries, n)
    && r.sent == s.sent
  }

  lemma AfterRoundsCompose<T, E>(s: Conn<T, E>, s2: Conn<T, E>, r: Conn<T, E>, n: nat)
    requires n > 0 && |s2.sockets| > 0 && |r.sockets| > 0
    requires AfterRounds(s, s2, 1) && AfterRounds(s2, r, n - 1)
    ensures AfterRounds(s, r, n)
  {
    assert CloseReports<T, E>(s.retries, 1) == [CloseCallback(s.retries + 1)];
    assert CloseReports<T, E>(s.retries, n) == [CloseCallback(s.retries + 1)] + CloseReports(s.retries + 1, n - 1);
  }

  /**
   * While the budget lasts, every close of the current socket is followed by
   * exactly one reconnect, whatever number `n` of rounds the outage lasts.
   */
  lemma {:induction false} OutageRounds<T, E>(s: Conn<T, E>, n: nat)
    requires s.Valid() && s.pending == 0 && s.Current() != Closed
    requires s.retries + n <= MaxRetries
    ensures Admits(s, Outage(|s.sockets| - 1, n))
    ensures AfterRounds(s, Run(s, Outage(|s.sockets| - 1, n)), n)
    decreases n
  {
    if n == 0 {
      assert CloseReports<T, E>(s.retries, 0) == [];
    } else {
      var round: seq<Event<T, E>> := [SocketClosed(|s.sockets| - 1), ReconnectTimerFired];
      var rest: seq<Event<T, E>> := Outage(|s.sockets|, n - 1);
      OneRound(s);
      var s2 := Run(s, round);
      assert AfterRounds(s, s2, 1) by {
        assert CloseReports<T, E>(s.retries, 1) == [CloseCallback(s.retries + 1)];
      }
      OutageRounds(s2, n - 1);
      assert Outage<T, E>(|s.sockets| - 1, n) == round + rest;
      RunAppend(s, round, rest);
      AfterRoundsCompose(s, s2, Run(s2, rest), n);
    }
  }

  /**
   * Six closes with no open in between, starting like a fresh client (no
   * retries used, one live socket, nothing pending): five reconnects, `onClose`
   * reports 1, 2, 3, 4, 5 and then 5 again, nothing is left pending, and no
   * connection attempt remains, so no further event can revive the client.
   */
  lemma {:induction false} SixClosesWithoutOpen<T, E>(s: Conn<T, E>)
    requires s.Valid() && s.retries == 0 && s.pending == 0
    requires Live(s.sockets) == 1 && s.Current() != Closed
    ensures Admits(s, Outage(|s.sockets| - 1, 5) + [SocketClosed(|s.sockets| + 4)])
    ensures var r := Run(s, Outage(|s.sockets| - 1, 5) + [SocketClosed(|s.sockets| + 4)]);
      && r.retries == MaxRetries
      && |r.sockets| == |s.sockets| + 5
      && r.pending == 0
      && r.calls == s.calls + [CloseCallback(1), CloseCallback(2), CloseCallback(3),
                               CloseCallback(4), CloseCallback(5), CloseCallback(5)]
      && Outstanding(r) == 0
  {
    var outage: seq<Event<T, E>> := Outage(|s.sockets| - 1, 5);
    var last: seq<Event<T, E>> := [SocketClosed(|s.sockets| + 4)];
    OutageRounds(s, 5);
    var s5 := Run(s, outage);
    var s6 := Step(s5, last[0]);
    RunSingle(s5, last[0]);
    assert last == [last[0]];
    RunAppend(s, outage, last);
    AttemptsNeverIncrease(s, outage);
    OutstandingAttempts(s5, last[0]);
    FiveCloseReports<T, E>();
  }

  lemma InitialOutstanding<T, E>()
    ensures Outstanding(Initial<T, E>()) == 1
  {
    LiveAppend([], Connecting);
    assert [] + [Connecting] == [Connecting];
  }

  lemma FiveCloseReports<T, E>()
    ensures CloseReports<T, E>(0, 5) ==
      [CloseCallback(1), CloseCallback(2), CloseCallback(3), CloseCallback(4), CloseCallback(5)]
  {
    assert CloseReports<T, E>(4, 1) == [CloseCallback(5)];
    assert CloseReports<T, E>(3, 2) == [CloseCallback(4), CloseCallback(5)];
    assert CloseReports<T, E>(2, 3) == [CloseCallback(3), CloseCallback(4), CloseCallback(5)];
  }

  /**
   * An open resets the budget: from a connecting socket with no timer
   * pending, an open followed by a full outage yields `MaxRetries` fresh
   * reconnects, however many had been used before.
   */
  lemma OpenRestoresBudget<T, E>(s: Conn<T, E>)
    requires s.Valid() && s.pending == 0 && s.Current() == Connecting
    ensures Admits(s, [SocketOpened(|s.sockets| - 1)] + Outage(|s.sockets| - 1, MaxRetries))
    ensures |Run(s, [SocketOpened(|s.sockets| - 1)] + Outage(|s.sockets| - 1, MaxRetries)).sockets|
      == |s.sockets| + MaxRetries
    ensures Run(s, [SocketOpened(|s.sockets| - 1)] + Outage(|s.sockets| - 1, MaxRetries)).calls
      == s.calls + CloseReports(0, MaxRetries)
  {
    var open: seq<Event<T, E>> := [SocketOpened(|s.sockets| - 1)];
    var s1 := Step(s, open[0]);
    assert Admits(s, open) by { assert open[1..] == []; }
    assert Run(s, open) == s1 by { assert open[1..] == []; }
    OutageRounds(s1, MaxRetries);
    RunAppend(s, open, Outage(|s.sockets| - 1, MaxRetries));
  }

  // ---------------------------------------------------------------------
  // The client object
  // ---------------------------------------------------------------------

  /**
   * The object returned by `createWebSocket`, with the closure variables as
   * fields. Handler methods stand for the browser dispatching an event on
   * socket `k`; `Send` and `Close` are the two returned functions.
   */
  class Client<T, E> {
    var sockets: seq<ReadyState>
    var retries: nat
    var pending: nat
    var calls: seq<Callback<T, E>>
    var sent: seq<string>

    function State(): Conn<T, E>
      reads this
    {
      Conn(sockets, retries, pending, calls, sent)
    }

    ghost predicate Valid()
      reads this
    {
      State().Valid()
    }

    /** `createWebSocket`: counter at zero, then `connect()` once. */
    constructor ()
      ensures Valid() && State() == Initial()
      ensures retries == 0 && |sockets| == 1 && pending == 0
    {
      sockets, retries, pending, calls, sent := [], 0, 0, [], [];
      new;
      Connect();
    }

    /** `connect`: a new WebSocket becomes the current socket. */
    method Connect()
      modifies this`sockets
      ensures sockets == old(sockets) + [Connecting]
      ensures State() == AfterConnect(old(State()))
    {
      sockets := sockets + [Connecting];
    }

    /** `onopen` */
    method HandleOpen(k: nat)
      requires Admissible(State(), SocketOpened(k))
      modifies this
      ensures Valid() && State() == Step(old(State()), SocketOpened(k))
    {
      sockets := sockets[k := Open];
      retries := 0;
    }

    /** `onmessage`: `decoded` is what `JSON.parse` gave, `None` if it threw. */
    method HandleMessage(k: nat, decoded: Option<T>)
      requires Admissible(State(), FrameReceived(k, decoded))
      modifies this
      ensures Valid() && State() == Step(old(State()), FrameReceived(k, decoded))
    {
      match decoded
      case Some(data) => calls := calls + [MessageCallback(data)];
      case None =>
    }

    /** `onerror` */
    method HandleError(k: nat, error: E)
      requires Admissible(State(), SocketErrored(k, error))
      modifies this
      ensures Valid() && State() == Step(old(State()), SocketErrored(k, error))
    {
      calls := calls + [ErrorCallback(error)];
    }

    /** `onclose`: decide on a retry, then notify with the resulting count. */
    method HandleClose(k: nat)
      requires Admissible(State(), SocketClosed(k))
      modifies this
      ensures Valid() && State() == Step(old(State()), SocketClosed(k))
    {
      sockets := sockets[k := Closed];
      if retries < MaxRetries {
        retries := retries + 1;
        pending := pending + 1;
      }
      calls := calls + [CloseCallback(retries)];
    }

    /** A timer set by `onclose` goes off and runs `connect`. */
    method FireTimer()
      requires Admissible(State(), ReconnectTimerFired)
      modifies this
      ensures Valid() && State() == Step(old(State()), ReconnectTimerFired)
    {
      pending := pending - 1;
      Connect();
    }

    /** `send`: transmits only when the current socket is open; never fails. */
    method Send(message: string) returns (transmitted: bool)
      requires Valid()
      modifies this
      ensures Valid() && State() == Step(old(State()), SendCalled(message))
      ensures transmitted <==> old(State().Current()) == Open
    {
      transmitted := sockets[|sockets| - 1] == Open;
      if transmitted {
        sent := sent + [message];
      }
    }

    /** `close`: `socket.close()` on the current socket, and nothing else. */
    method Close()
      requires Valid()
      modifies this
      ensures Valid() && State() == Step(old(State()), CloseCalled)
    {
      var last := |sockets| - 1;
      if sockets[last] == Connecting || sockets[last] == Open {
        sockets := sockets[last := Closing];
      }
    }
  }
}
