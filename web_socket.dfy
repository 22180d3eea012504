/** The `useWebSocket` hook of solar-panel-frontend/hooks/useWebSocket.ts: one socket to the
    backend's `/ws` endpoint, the latest parsed frame as `data`, and a reconnect timer armed by
    every close, 3000 ms later, with no cap and no backoff.

    The browser's socket is abstract: its events (`open`, `message`, `error`, `close`) are
    methods, and whether the `WebSocket` constructor throws is a parameter of each connection
    attempt. `now` is a logical clock in milliseconds. */
module WebSocketFeed {
  import opened Wrappers
  import opened Telemetry

  /** The `readyState` of the socket held in `ws`. */
  datatype Phase = Connecting | Open | Closing | Closed

  const ReconnectDelay: nat := 3000

  class FeedState {
    /** The hook's result: the last frame that parsed, or null. */
    var data: Option<Frame>
    var isConnected: bool
    /** The socket `ws` refers to; None until a constructor call succeeds. A constructor that
        throws leaves the previous socket in `ws`. */
    var socket: Option<Phase>
    /** The due time of the pending reconnect timer, if one is armed. */
    var reconnectDue: Option<nat>
    /** False once the effect's cleanup has run; state updates are then ignored by React. */
    var mounted: bool
    var now: nat
    /** Connection attempts made so far. */
    var attempts: nat
    /** The last connection attempt threw. */
    ghost var lastAttemptThrew: bool

    /** A timer is only armed by a close and never overdue; `isConnected` of a mounted hook
        tells exactly whether the socket is open; and a mounted hook whose socket is gone
        either waits for its reconnect or saw its last attempt throw, when it waits for
        nothing and stays offline. */
    ghost predicate Valid()
      reads this
    {
      && (reconnectDue.Some? ==> reconnectDue.value >= now && (socket.None? || socket.value == Closed))
      && (mounted ==> (isConnected <==> socket == Some(Open)))
      && (mounted && (socket.None? || socket.value == Closed) ==> reconnectDue.Some? || lastAttemptThrew)
      && (lastAttemptThrew ==> reconnectDue.None? && (socket.None? || socket.value == Closed))
      && attempts >= 1
    }

    /** Mounting: `data` is null, not connected, and exactly one connection attempt. */
    constructor (constructorThrows: bool)
      ensures Valid()
      ensures data.None? && !isConnected && mounted && now == 0 && attempts == 1 && reconnectDue.None?
      ensures socket == (if constructorThrows then None else Some(Connecting))
      ensures lastAttemptThrew == constructorThrows
    {
      data, isConnected, mounted, now, attempts, reconnectDue := None, false, true, 0, 1, None;
      socket := if constructorThrows then None else Some(Connecting);
      lastAttemptThrew := constructorThrows;
    }

    /** `onopen`. */
    method OnOpen()
      requires Valid() && socket == Some(Connecting)
      modifies this
      ensures Valid()
      ensures socket == Some(Open) && isConnected == (mounted || old(isConnected))
      ensures data == old(data) && reconnectDue == old(reconnectDue) && mounted == old(mounted)
      ensures now == old(now) && attempts == old(attempts)
    {
      socket := Some(Open);
      if mounted {
        isConnected := true;
      }
    }

    /** `onmessage` with the outcome of `JSON.parse`: a frame that parses replaces `data`, one
        that does not is dropped; the socket stays open either way. */
    method OnMessage(parsed: Option<Frame>)
      requires Valid() && socket == Some(Open)
      modifies this
      ensures Valid()
      ensures data == (if parsed.Some? && mounted then parsed else old(data))
      ensures socket == old(socket) && isConnected == old(isConnected) && reconnectDue == old(reconnectDue)
      ensures mounted == old(mounted) && now == old(now) && attempts == old(attempts)
    {
      if parsed.Some? && mounted {
        data := parsed;
      }
    }

    /** `onerror` only logs. */
    method OnError()
      requires Valid() && socket.Some? && socket.value != Closed
      ensures Valid()
    {
    }

    /** `onclose`: not connected, and one reconnect armed for 3000 ms later. The handler is
        never detached, so it arms the timer even after teardown. */
    method OnClose()
      requires Valid() && socket.Some? && socket.value != Closed
      modifies this
      ensures Valid()
      ensures socket == Some(Closed) && reconnectDue == Some(now + ReconnectDelay)
      ensures isConnected == (old(isConnected) && !mounted)
      ensures data == old(data) && mounted == old(mounted) && now == old(now) && attempts == old(attempts)
      ensures lastAttemptThrew == old(lastAttemptThrew)
    {
      socket := Some(Closed);
      if mounted {
        isConnected := false;
      }
      reconnectDue := Some(now + ReconnectDelay);
    }

    /** The clock reaches `t`. A reconnect due by then fires at its due time and `connect`
        runs: a new socket when the constructor succeeds, otherwise nothing and no new timer. */
    method Tick(t: nat, constructorThrows: bool)
      requires Valid() && now <= t
      modifies this
      ensures Valid()
      ensures data == old(data) && isConnected == old(isConnected) && mounted == old(mounted)
      ensures old(reconnectDue).None? || old(reconnectDue).value > t ==>
                now == t && socket == old(socket) && reconnectDue == old(reconnectDue) && attempts == old(attempts)
      ensures old(reconnectDue).Some? && old(reconnectDue).value <= t ==>
                && now == old(reconnectDue).value && reconnectDue.None? && attempts == old(attempts) + 1
                && socket == (if constructorThrows then old(socket) else Some(Connecting))
                && lastAttemptThrew == constructorThrows
    {
      if reconnectDue.None? || reconnectDue.value > t {
        now := t;
        return;
      }
      now := reconnectDue.value;
      reconnectDue := None;
      attempts := attempts + 1;
      if !constructorThrows {
        socket := Some(Connecting);
      }
      lastAttemptThrew := constructorThrows;
    }

    /** The effect's cleanup: the pending timer is cleared and the socket, if any, is closed. */
    method Teardown()
      requires Valid() && mounted
      modifies this
      ensures Valid()
      ensures !mounted && reconnectDue.None?
      ensures socket == match old(socket)
                        case Some(Connecting) => Some(Closing)
                        case Some(Open) => Some(Closing)
                        case other => other
      ensures data == old(data) && isConnected == old(isConnected) && now == old(now) && attempts == old(attempts)
    {
      mounted := false;
      reconnectDue := None;
      match socket
      case Some(Connecting) =>
        socket := Some(Closing);
      case Some(Open) =>
        socket := Some(Closing);
      case _ =>
    }
  }

  /** The retry chain has no cap and no backoff: after `n` closes, each followed by its timer,
      the hook has made `n + 1` attempts, 3000 ms apart. */
  method RetryChain(n: nat) returns (feed: FeedState)
    ensures feed.attempts == n + 1 && feed.now == ReconnectDelay * n
    ensures feed.mounted && feed.socket == Some(Connecting) && feed.reconnectDue.None?
  {
    feed := new FeedState(false);
    var k := 0;
    while k < n
      invariant 0 <= k <= n
      invariant feed.Valid() && feed.mounted && !feed.lastAttemptThrew
      invariant feed.attempts == k + 1 && feed.now == ReconnectDelay * k
      invariant feed.socket == Some(Connecting) && feed.reconnectDue.None?
      modifies feed
    {
      feed.OnClose();
      feed.Tick(feed.now + ReconnectDelay, false);
      k := k + 1;
    }
  }

  /** A constructor that throws ends the chain: no timer is armed, so no later tick reconnects
      and the hook stays offline. */
  method ThrowStopsRetrying(t: nat) returns (feed: FeedState)
    ensures feed.attempts == 1 && feed.socket.None? && !feed.isConnected && feed.reconnectDue.None?
    ensures feed.now == t
  {
    feed := new FeedState(true);
    feed.Tick(t, false);
  }

  /** Teardown of an open connection does not stop the hook: the socket's close arrives later,
      arms a timer nobody clears, and 3000 ms on a new socket is created for an unmounted
      component. */
  method ReconnectAfterTeardown() returns (feed: FeedState)
    ensures !feed.mounted && feed.attempts == 2 && feed.socket == Some(Connecting)
  {
    feed := new FeedState(false);
    feed.OnOpen();
    feed.Teardown();
    feed.OnClose();
    feed.Tick(ReconnectDelay, false);
  }
}
