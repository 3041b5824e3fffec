/**
  The WebSocket session as an object: the fields of the source and the handlers that
  update them, each shown to do what SessionModel says.
  Models src/lighter_ws_session.cpp.
 */
module Sessions {
  import M = SessionModel

  class WebSocketSession {
    var generation: nat
    var hasStream: bool
    var open: bool
    var connected: bool
    var ready: bool
    var connectedFlag: bool
    var writeInFlight: bool
    var reconnectScheduled: bool
    var userClosed: bool
    var reconnectDelayS: int
    var outboundQueue: seq<M.Frame>
    var subscriptions: seq<string>
    var pendingTopics: seq<string>
    // what the io context owes the session
    var now: M.Ops
    var older: map<nat, M.Ops>
    var posted: M.Posted
    ghost var trace: M.Trace

    ghost function State(): M.Session
      reads this
    {
      M.Session(generation, hasStream, open, connected, ready, connectedFlag, writeInFlight, reconnectScheduled,
                userClosed, reconnectDelayS, outboundQueue, subscriptions, pendingTopics, now, older, posted, trace)
    }

    constructor ()
      ensures State() == M.START
    {
      generation := 0;
      hasStream, open, connected, ready, connectedFlag := false, false, false, false, false;
      writeInFlight, reconnectScheduled, userClosed := false, false, false;
      reconnectDelayS := 1;
      outboundQueue, subscriptions, pendingTopics := [], [], [];
      now, older, posted := M.NO_OPS, map[], M.Posted(1, 0, 0, []);
      trace := M.Trace([], [], [], false, false, 0);
    }

    // ---- Write pump ----------------------------------------------------

    method EnqueueOp(f: M.Frame)
      modifies this`outboundQueue, this`trace
      ensures State() == M.Enqueue(old(State()), f)
    {
      outboundQueue := outboundQueue + [f];
      trace := trace.(enqueued := trace.enqueued + [f]);
    }

    method Pump()
      modifies this`outboundQueue, this`writeInFlight, this`now, this`trace
      ensures State() == M.Pump(old(State()))
    {
      if writeInFlight || !connected || !hasStream || !open {
        return;
      }
      if outboundQueue == [] {
        return;
      }
      var writeBuffer := outboundQueue[0];
      outboundQueue := outboundQueue[1..];
      writeInFlight := true;
      now := M.Started(now, M.Write);
      trace := trace.(written := trace.written + [writeBuffer]);
    }

    method OnWritten(gen: nat, ok: bool)
      modifies this
      ensures State() == M.OnWritten(old(State()), gen, ok)
    {
      if gen != generation {
        return;
      }
      writeInFlight := false;
      if !ok {
        HandleError(gen);
        return;
      }
      Pump();
    }

    // ---- Topics --------------------------------------------------------

    method AddTopic(channel: string)
      modifies this`pendingTopics
      ensures State() == M.AddTopic(old(State()), channel)
    {
      if channel in subscriptions || channel in pendingTopics {
        assert pendingTopics + [] == pendingTopics;
        return;
      }
      pendingTopics := pendingTopics + [channel];
    }

    method ForgetPending(channel: string)
      modifies this`pendingTopics
      ensures pendingTopics == M.Without(old(pendingTopics), channel)
    {
      var kept: seq<string> := [];
      var k := 0;
      while k < |pendingTopics|
        invariant 0 <= k <= |pendingTopics| && pendingTopics == old(pendingTopics)
        invariant kept + M.Without(pendingTopics[k..], channel) == M.Without(pendingTopics, channel)
      {
        assert pendingTopics[k..][1..] == pendingTopics[k + 1..];
        if pendingTopics[k] != channel {
          kept := kept + [pendingTopics[k]];
        }
        k := k + 1;
      }
      pendingTopics := kept;
    }

    method ForgetSubscription(channel: string) returns (sent: bool)
      modifies this`subscriptions
      ensures subscriptions == M.WithoutFirst(old(subscriptions), channel)
      ensures sent <==> channel in old(subscriptions)
    {
      var at := 0;
      while at < |subscriptions| && subscriptions[at] != channel
        invariant 0 <= at <= |subscriptions| && subscriptions == old(subscriptions)
        invariant channel !in subscriptions[..at]
        invariant M.WithoutFirst(subscriptions, channel)
               == subscriptions[..at] + M.WithoutFirst(subscriptions[at..], channel)
      {
        assert subscriptions[at..][1..] == subscriptions[at + 1..];
        at := at + 1;
      }
      sent := at < |subscriptions|;
      if sent {
        assert subscriptions[at..][1..] == subscriptions[at + 1..];
        subscriptions := subscriptions[..at] + subscriptions[at + 1..];
      } else {
        assert subscriptions[..at] == subscriptions;
      }
    }

    method RemoveTopic(channel: string) returns (sent: bool)
      modifies this`pendingTopics, this`subscriptions
      ensures State() == M.RemoveTopic(old(State()), channel)
      ensures sent <==> channel in old(subscriptions)
    {
      ForgetPending(channel);
      sent := ForgetSubscription(channel);
    }

    /** The locked part of flushTopics: pending topics become subscriptions. */
    method TakePending() returns (toSend: seq<string>)
      modifies this`subscriptions, this`pendingTopics
      ensures toSend == old(pendingTopics) && pendingTopics == []
      ensures subscriptions == old(subscriptions) + toSend
    {
      toSend := [];
      var k := 0;
      while k < |pendingTopics|
        invariant 0 <= k <= |pendingTopics|
        invariant toSend == pendingTopics[..k]
        invariant subscriptions == old(subscriptions) + toSend && pendingTopics == old(pendingTopics)
      {
        subscriptions := subscriptions + [pendingTopics[k]];
        toSend := toSend + [pendingTopics[k]];
        k := k + 1;
      }
      pendingTopics := [];
    }

    method EnqueueSubscribes(toSend: seq<string>)
      modifies this`outboundQueue, this`trace
      ensures outboundQueue == old(outboundQueue) + M.Subscribes(toSend)
      ensures trace == old(trace).(enqueued := old(trace).enqueued + M.Subscribes(toSend))
    {
      var n := 0;
      while n < |toSend|
        invariant 0 <= n <= |toSend|
        invariant outboundQueue == old(outboundQueue) + M.Subscribes(toSend[..n])
        invariant trace == old(trace).(enqueued := old(trace).enqueued + M.Subscribes(toSend[..n]))
      {
        EnqueueOp(M.Subscribe(toSend[n]));
        assert M.Subscribes(toSend[..n + 1]) == M.Subscribes(toSend[..n]) + [M.Subscribe(toSend[n])];
        n := n + 1;
      }
      assert toSend[..n] == toSend;
    }

    method FlushTopics()
      modifies this`subscriptions, this`pendingTopics, this`outboundQueue, this`writeInFlight, this`now, this`trace
      ensures State() == M.FlushTopics(old(State()))
    {
      if !connected || !ready {
        return;
      }
      var toSend := TakePending();
      EnqueueSubscribes(toSend);
      assert State() == M.Filled(old(State()));
      Pump();
    }

    method OnUnsubscribePosted(channel: string)
      modifies this
      ensures State() == M.OnUnsubscribePosted(old(State()), channel)
    {
      if !connected {
        return;
      }
      EnqueueOp(M.Unsubscribe(channel));
      Pump();
    }

    // ---- Connect chain -------------------------------------------------

    method MarkDown()
      modifies this`connected, this`ready, this`connectedFlag, this`writeInFlight
      ensures State() == M.Down(old(State()))
    {
      connected := false;
      ready := false;
      connectedFlag := false;
      writeInFlight := false;
    }

    /** The next generation, with a new stream and the first link of its chain. */
    method Renew()
      modifies this`generation, this`older, this`now, this`trace, this`hasStream, this`open
      ensures generation == old(generation) + 1 && older == old(older)[old(generation) := old(now)]
      ensures hasStream && !open && now == M.Started(M.NO_OPS, M.Resolve)
      ensures trace == M.Trace(outboundQueue, [], [], false, false, old(trace).errors)
    {
      older := older[generation := now];
      generation := generation + 1;
      hasStream := true;
      open := false;
      now := M.Started(M.NO_OPS, M.Resolve);
      trace := M.Trace(outboundQueue, [], [], false, false, trace.errors);
    }

    method NextGeneration()
      modifies this`generation, this`older, this`now, this`trace, this`hasStream, this`open
      ensures State() == M.NextGeneration(old(State()))
    {
      Renew();
    }

    method StartConnect()
      modifies this
      ensures State() == M.StartConnect(old(State()))
    {
      if userClosed {
        return;
      }
      MarkDown();
      NextGeneration();
    }

    /** onResolve, onConnect and onSSLHandshake: on success the next operation starts. */
    method Advance(gen: nat, ok: bool, next: M.Op)
      modifies this
      ensures State() == M.Advance(old(State()), gen, ok, next)
    {
      if gen != generation {
        return;
      }
      if !ok {
        HandleError(gen);
        return;
      }
      now := M.Started(now, next);
    }

    method OnHandshake(gen: nat, ok: bool)
      modifies this
      ensures State() == M.OnHandshake(old(State()), gen, ok)
    {
      if gen != generation {
        return;
      }
      if !ok {
        HandleError(gen);
        return;
      }
      open := true;
      if userClosed {
        return;
      }
      connected := true;
      now := M.Started(now, M.PingWait);
      now := M.Started(now, M.Read);
    }

    // ---- Inbound -------------------------------------------------------

    method Dispatch(m: M.Inbound)
      modifies this
      ensures State() == M.Dispatch(old(State()), m)
    {
      if m == M.Greeting {
        MarkReady();
        FlushTopics();
        return;
      }
      if m == M.PingMessage {
        EnqueueOp(M.Pong);
        Pump();
      }
    }

    method MarkReady()
      modifies this`ready, this`connectedFlag, this`reconnectDelayS, this`trace
      ensures State() == M.Greeted(old(State()))
    {
      ready := true;
      connectedFlag := true;
      reconnectDelayS := 1;
      trace := trace.(greeted := true, errors := 0);
    }

    method OnRead(gen: nat, ok: bool, m: M.Inbound)
      modifies this
      ensures State() == M.OnRead(old(State()), gen, ok, m)
    {
      if gen != generation {
        return;
      }
      if !ok || m == M.Malformed {
        HandleError(gen);
        return;
      }
      Dispatch(m);
      if gen != generation || reconnectScheduled || !connected {
        return;
      }
      if ready {
        reconnectDelayS := 1;
      }
      now := M.Started(now, M.Read);
    }

    // ---- Watchdog, error, close ----------------------------------------

    method OnPingTimer(gen: nat, ok: bool, silent: nat)
      modifies this
      ensures State() == M.OnPingTimer(old(State()), gen, ok, silent)
    {
      if !ok || gen != generation || userClosed {
        return;
      }
      if connected {
        if silent > M.ACTIVITY_TIMEOUT_IN_S {
          HandleError(gen);
          return;
        }
        if ready {
          EnqueueOp(M.Ping);
          Pump();
        }
      }
      now := M.Started(now, M.PingWait);
    }

    /** Every subscription goes back in front of the pending topics, in order. */
    method RequeueSubscriptions()
      modifies this`subscriptions, this`pendingTopics
      ensures subscriptions == [] && pendingTopics == old(subscriptions) + old(pendingTopics)
    {
      var k := |subscriptions|;
      while k > 0
        invariant 0 <= k <= |subscriptions| && subscriptions == old(subscriptions)
        invariant pendingTopics == subscriptions[k..] + old(pendingTopics)
      {
        k := k - 1;
        pendingTopics := [subscriptions[k]] + pendingTopics;
      }
      subscriptions := [];
    }

    /** The locked part of handleError. */
    method DropQueue()
      modifies this`outboundQueue, this`subscriptions, this`pendingTopics, this`trace
      ensures outboundQueue == [] && subscriptions == [] && pendingTopics == old(subscriptions) + old(pendingTopics)
      ensures trace == old(trace).(failed := true, errors := old(trace).errors + 1)
    {
      outboundQueue := [];
      RequeueSubscriptions();
      trace := trace.(failed := true, errors := trace.errors + 1);
    }

    method ScheduleReconnect()
      modifies this`reconnectScheduled, this`reconnectDelayS, this`now
      ensures reconnectScheduled && reconnectDelayS == M.Doubled(old(reconnectDelayS))
      ensures now == M.Started(old(now), M.ReconnectWait)
    {
      reconnectScheduled := true;
      reconnectDelayS := M.Doubled(reconnectDelayS);
      now := M.Started(now, M.ReconnectWait);
    }

    method HandleError(gen: nat)
      modifies this
      ensures State() == M.HandleError(old(State()), gen)
    {
      if gen != generation || reconnectScheduled {
        return;
      }
      if userClosed {
        return;
      }
      MarkDown();
      DropQueue();
      ScheduleReconnect();
    }

    method OnReconnectTimer(gen: nat, ok: bool)
      modifies this
      ensures State() == M.OnReconnectTimer(old(State()), gen, ok)
    {
      if gen != generation {
        return;
      }
      reconnectScheduled := false;
      if !ok || userClosed {
        return;
      }
      StartConnect();
    }

    method CloseByUser()
      modifies this`userClosed
      ensures State() == M.CloseByUser(old(State()))
    {
      if userClosed {
        return;
      }
      userClosed := true;
    }
  }
}
