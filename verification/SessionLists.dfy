/** Topics, the greeting gate and the write pump of the WebSocket session. */
module SessionLists {
  import opened SessionModel
  import opened SessionInvariants

  ghost predicate Distinct(topics: seq<string>) {
    forall j, k :: 0 <= j < k < |topics| ==> topics[j] != topics[k]
  }

  /** Subscriptions exist, and subscribe frames wait, only on a connection whose greeting has arrived. */
  ghost predicate GateInv(s: Session) {
    && (s.subscriptions != [] ==> s.connected && s.ready)
    && (forall f :: f in s.outboundQueue && f.Subscribe? ==> s.connected && s.ready)
    && (forall f :: f in s.trace.atStart ==> !f.Subscribe?)
    && (forall f :: f in s.trace.written && f.Subscribe? ==> s.trace.greeted)
    && (forall channel :: channel in s.subscriptions ==> Subscribe(channel) in s.trace.enqueued)
    && (s.ready ==> s.trace.greeted && OnlyReads(s.now))
    && s.connectedFlag == s.ready
  }

  /** Frames leave in the order they were queued. */
  ghost predicate FifoInv(s: Session) {
    && s.trace.written <= s.trace.atStart + s.trace.enqueued
    && (!s.trace.failed ==> s.trace.written + s.outboundQueue == s.trace.atStart + s.trace.enqueued)
    && (s.trace.failed ==> !s.connected && OnlyReads(s.now))
  }

  /** No frame waits while the writer is idle. */
  predicate Awake(s: Session) {
    !s.userClosed && s.connected && s.ready && s.open && s.outboundQueue != [] ==> s.writeInFlight
  }

  /** The delay after a number of errors with no greeting in between. */
  function DelayAfter(errors: nat): int {
    if errors == 0 then 1 else Doubled(DelayAfter(errors - 1))
  }

  /** All but Awake, which Pump restores. */
  ghost predicate ListCore(s: Session) {
    && Distinct(Wanted(s)) && GateInv(s) && FifoInv(s)
    && s.reconnectDelayS == DelayAfter(s.trace.errors) && (s.ready ==> s.trace.errors == 0)
    && (s.connected ==> s.hasStream && !s.reconnectScheduled)
  }

  ghost predicate ListInv(s: Session) {
    ListCore(s) && Awake(s)
  }

  // ---- Pump and flush --------------------------------------------------

  lemma PumpWakes(s: Session)
    requires ListCore(s)
    ensures ListInv(Pump(s))
    ensures Wanted(Pump(s)) == Wanted(s) && Pump(s).trace.enqueued == s.trace.enqueued
  {
    var t := Pump(s);
    if t != s {
      assert s.outboundQueue == [s.outboundQueue[0]] + s.outboundQueue[1..];
      assert t.trace.written + t.outboundQueue == s.trace.written + s.outboundQueue;
    }
  }

  lemma EnqueueKeepsLists(s: Session, f: Frame)
    requires ListCore(s) && !f.Subscribe?
    ensures ListCore(Enqueue(s, f))
  {
    var t := Enqueue(s, f);
    assert t.trace.written + t.outboundQueue == s.trace.written + s.outboundQueue + [f];
    assert s.trace.atStart + s.trace.enqueued + [f] == t.trace.atStart + t.trace.enqueued;
  }

  /** A flush sends every pending topic, in order, behind what is queued already. */
  lemma FlushKeepsLists(s: Session)
    requires ListInv(s)
    ensures ListInv(FlushTopics(s)) && Wanted(FlushTopics(s)) == Wanted(s)
    ensures s.connected && s.ready ==>
              && FlushTopics(s).pendingTopics == []
              && FlushTopics(s).trace.enqueued == s.trace.enqueued + Subscribes(s.pendingTopics)
  {
    if s.connected && s.ready {
      FilledKeepsLists(s);
      PumpWakes(Filled(s));
    }
  }

  lemma FilledKeepsLists(s: Session)
    requires ListCore(s) && s.connected && s.ready
    ensures ListCore(Filled(s)) && Wanted(Filled(s)) == Wanted(s)
  {
    var t := Filled(s);
    var frames := Subscribes(s.pendingTopics);
    assert Wanted(t) == Wanted(s);
    assert t.trace.written + t.outboundQueue == s.trace.written + s.outboundQueue + frames;
    assert s.trace.atStart + s.trace.enqueued + frames == t.trace.atStart + t.trace.enqueued;
    forall channel | channel in t.subscriptions
      ensures Subscribe(channel) in t.trace.enqueued
    {
      if channel in s.pendingTopics {
        var k :| 0 <= k < |s.pendingTopics| && s.pendingTopics[k] == channel;
        assert frames[k] == Subscribe(channel);
      }
    }
  }

  // ---- Topics ----------------------------------------------------------

  lemma {:induction false} WithoutIsFilter(topics: seq<string>, channel: string)
    requires Distinct(topics)
    ensures Distinct(Without(topics, channel)) && channel !in Without(topics, channel)
    ensures WithoutFirst(topics, channel) == Without(topics, channel)
    ensures forall x :: x in Without(topics, channel) <==> x in topics && x != channel
  {
    if topics != [] {
      var rest := topics[1..];
      assert forall k :: 0 <= k < |rest| ==> rest[k] == topics[k + 1];
      WithoutIsFilter(rest, channel);
      assert topics[0] !in rest;
      if topics[0] == channel {
        WithoutAbsent(rest, channel);
      } else {
        assert topics[0] !in Without(rest, channel);
      }
    }
  }

  lemma {:induction false} WithoutAbsent(topics: seq<string>, channel: string)
    requires channel !in topics
    ensures Without(topics, channel) == topics
  {
    if topics != [] { WithoutAbsent(topics[1..], channel); }
  }

  lemma {:induction false} WithoutConcat(a: seq<string>, b: seq<string>, channel: string)
    ensures Without(a + b, channel) == Without(a, channel) + Without(b, channel)
  {
    if a == [] {
      assert a + b == b;
    } else {
      assert (a + b)[1..] == a[1..] + b;
      WithoutConcat(a[1..], b, channel);
    }
  }

  /** A new topic goes to the end of the wanted list; a known one changes nothing. */
  lemma AddTopicAppends(s: Session, channel: string)
    requires ListInv(s)
    ensures ListInv(AddTopic(s, channel))
    ensures Wanted(AddTopic(s, channel)) == if channel in Wanted(s) then Wanted(s) else Wanted(s) + [channel]
  {
    var t := AddTopic(s, channel);
    if channel in Wanted(s) {
      assert t.pendingTopics == s.pendingTopics;
    } else {
      assert Wanted(t) == Wanted(s) + [channel];
    }
  }

  /** Removing takes the topic out of the wanted list and leaves the order of the rest. */
  lemma RemoveTopicDeletes(s: Session, channel: string)
    requires ListInv(s)
    ensures ListInv(RemoveTopic(s, channel))
    ensures Wanted(RemoveTopic(s, channel)) == Without(Wanted(s), channel)
    ensures channel !in Wanted(RemoveTopic(s, channel))
  {
    assert forall k :: 0 <= k < |s.subscriptions| ==> s.subscriptions[k] == Wanted(s)[k];
    WithoutConcat(s.subscriptions, s.pendingTopics, channel);
    WithoutIsFilter(Wanted(s), channel);
    WithoutIsFilter(s.subscriptions, channel);
  }

  // ---- The rest of the handlers ----------------------------------------

  /** An error moves every subscription back to pending, in front and in order. */
  lemma HandleErrorKeepsLists(s: Session, gen: nat)
    requires ListCore(s) && OnlyReads(s.now)
    requires s.generation != gen || s.reconnectScheduled || s.userClosed ==> Awake(s)
    ensures ListInv(HandleError(s, gen)) && Wanted(HandleError(s, gen)) == Wanted(s)
  {}

  lemma StartConnectKeepsLists(s: Session)
    requires ListInv(s) && !s.connected
    ensures ListInv(StartConnect(s)) && Wanted(StartConnect(s)) == Wanted(s)
  {
    assert [] + s.outboundQueue == s.outboundQueue + [];
  }

  lemma DispatchKeepsLists(s: Session, m: Inbound)
    requires ListInv(s) && OnlyReads(s.now)
    ensures ListInv(Dispatch(s, m)) && Wanted(Dispatch(s, m)) == Wanted(s)
  {
    match m
    case Greeting => GreetingKeepsLists(s);
    case PingMessage =>
      EnqueueKeepsLists(s, Pong);
      PumpWakes(Enqueue(s, Pong));
    case _ =>
  }

  lemma GreetingKeepsLists(s: Session)
    requires ListInv(s) && OnlyReads(s.now)
    ensures ListInv(Dispatch(s, Greeting)) && Wanted(Dispatch(s, Greeting)) == Wanted(s)
  {
    var t := Greeted(s);
    assert ListCore(t);
    if s.connected {
      FilledKeepsLists(t);
      PumpWakes(Filled(t));
    }
  }

  lemma FinishKeepsLists(s: Session, op: Op)
    requires FlowInv(s) && ListInv(s) && op in s.now
    ensures var t := Finish(s, op, s.generation);
            && ListInv(t) && Wanted(t) == Wanted(s)
            && (op in {Resolve, Connect, TlsHandshake, WsHandshake} ==> !s.ready && !s.connected)
            && (op == Read ==> Chain(t.now) == 0)
  {}

  lemma ChainKeepsLists(s: Session, op: Op, next: Op, ok: bool)
    requires FlowInv(s) && ListInv(s) && op in s.now
    requires (op, next) in {(Resolve, Connect), (Connect, TlsHandshake), (TlsHandshake, WsHandshake)}
    ensures var t := Advance(Finish(s, op, s.generation), s.generation, ok, next);
            ListInv(t) && Wanted(t) == Wanted(s)
  {
    var used := Finish(s, op, s.generation);
    FinishKeepsLists(s, op);
    if !ok { HandleErrorKeepsLists(used, s.generation); }
  }

  lemma HandshakeKeepsLists(s: Session, ok: bool)
    requires FlowInv(s) && ListInv(s) && s.now[WsHandshake] > 0
    ensures var t := OnHandshake(Finish(s, WsHandshake, s.generation), s.generation, ok);
            ListInv(t) && Wanted(t) == Wanted(s)
  {
    var used := Finish(s, WsHandshake, s.generation);
    FinishKeepsLists(s, WsHandshake);
    if !ok { HandleErrorKeepsLists(used, s.generation); }
  }

  lemma MessageKeepsLists(s: Session, m: Inbound)
    requires FlowCore(s) && ListInv(s) && OnlyReads(s.now) && m != Malformed
    ensures var t := OnRead(s, s.generation, true, m);
            ListInv(t) && Wanted(t) == Wanted(s)
  {
    DispatchKeepsLists(s, m);
    DispatchIsLocal(s, m);
  }

  lemma ReadKeepsLists(s: Session, ok: bool, m: Inbound)
    requires FlowInv(s) && ListInv(s) && s.now[Read] > 0
    ensures var t := OnRead(Finish(s, Read, s.generation), s.generation, ok, m);
            ListInv(t) && Wanted(t) == Wanted(s)
  {
    var used := Finish(s, Read, s.generation);
    FinishKeepsLists(s, Read);
    if !ok || m == Malformed {
      HandleErrorKeepsLists(used, s.generation);
    } else {
      MessageKeepsLists(used, m);
    }
  }

  lemma WrittenKeepsLists(s: Session, ok: bool)
    requires FlowInv(s) && ListInv(s) && s.now[Write] > 0
    ensures var t := OnWritten(Finish(s, Write, s.generation), s.generation, ok);
            ListInv(t) && Wanted(t) == Wanted(s)
  {
    var idle := Finish(s, Write, s.generation).(writeInFlight := false);
    FinishKeepsLists(s, Write);
    assert ListCore(idle);
    if ok { PumpWakes(idle); } else { HandleErrorKeepsLists(idle, s.generation); }
  }

  lemma PingTimerKeepsLists(s: Session, ok: bool, silent: nat)
    requires FlowInv(s) && ListInv(s) && s.now[PingWait] > 0
    ensures var t := OnPingTimer(Finish(s, PingWait, s.generation), s.generation, ok, silent);
            ListInv(t) && Wanted(t) == Wanted(s)
  {
    var used := Finish(s, PingWait, s.generation);
    FinishKeepsLists(s, PingWait);
    if ok && !s.userClosed {
      if s.connected && silent > ACTIVITY_TIMEOUT_IN_S {
        HandleErrorKeepsLists(used, s.generation);
      } else if s.connected && s.ready {
        EnqueueKeepsLists(used, Ping);
        PumpWakes(Enqueue(used, Ping));
      }
    }
  }

  lemma ReconnectTimerKeepsLists(s: Session, ok: bool)
    requires FlowInv(s) && ListInv(s) && s.now[ReconnectWait] > 0
    ensures var t := OnReconnectTimer(Finish(s, ReconnectWait, s.generation), s.generation, ok);
            ListInv(t) && Wanted(t) == Wanted(s)
  {
    var due := Finish(s, ReconnectWait, s.generation).(reconnectScheduled := false);
    FinishKeepsLists(s, ReconnectWait);
    assert ListInv(due);
    if ok { StartConnectKeepsLists(due); }
  }

  lemma OlderKeepsLists(s: Session, op: Op, gen: nat)
    requires ListInv(s) && gen in s.older && gen != s.generation && op in s.older[gen]
    ensures var t := s.(older := s.older[gen := Finished(s.older[gen], op)]);
            ListInv(t) && Wanted(t) == Wanted(s)
  {}

  lemma CompleteKeepsLists(s: Session, op: Op, gen: nat, ok: bool, m: Inbound, silent: nat)
    requires FlowInv(s) && ListInv(s) && Enabled(s, Complete(op, gen, ok, m, silent))
    ensures var t := Apply(s, Complete(op, gen, ok, m, silent));
            ListInv(t) && Wanted(t) == Wanted(s)
  {
    if gen != s.generation {
      OlderGenerationsChangeNothing(s, op, gen, ok, m, silent);
      OlderKeepsLists(s, op, gen);
    } else {
      match op
      case Resolve => ChainKeepsLists(s, op, Connect, ok);
      case Connect => ChainKeepsLists(s, op, TlsHandshake, ok);
      case TlsHandshake => ChainKeepsLists(s, op, WsHandshake, ok);
      case WsHandshake => HandshakeKeepsLists(s, ok);
      case Read => ReadKeepsLists(s, ok, m);
      case Write => WrittenKeepsLists(s, ok);
      case PingWait => PingTimerKeepsLists(s, ok, silent);
      case ReconnectWait => ReconnectTimerKeepsLists(s, ok);
    }
  }

  lemma PostedKeepsLists(s: Session, posted: Posted)
    requires ListInv(s)
    ensures ListInv(s.(posted := posted)) && Wanted(s.(posted := posted)) == Wanted(s)
  {}

  lemma UnsubscribeKeepsLists(s: Session, channel: string)
    requires ListInv(s)
    ensures ListInv(OnUnsubscribePosted(s, channel)) && Wanted(OnUnsubscribePosted(s, channel)) == Wanted(s)
  {
    EnqueueKeepsLists(s, Unsubscribe(channel));
    PumpWakes(Enqueue(s, Unsubscribe(channel)));
  }

  lemma TaskKeepsLists(s: Session, task: Task)
    requires FlowInv(s) && ListInv(s) && Enabled(s, RunTask(task))
    ensures ListInv(Perform(s, task)) && Wanted(Perform(s, task)) == Wanted(s)
  {
    match task
    case Run =>
      PostedKeepsLists(s, s.posted.(runs := s.posted.runs - 1));
      StartConnectKeepsLists(s.(posted := s.posted.(runs := s.posted.runs - 1)));
    case Flush =>
      PostedKeepsLists(s, s.posted.(flushes := s.posted.flushes - 1));
      FlushKeepsLists(s.(posted := s.posted.(flushes := s.posted.flushes - 1)));
    case SendUnsubscribe =>
      PostedKeepsLists(s, s.posted.(unsubscribes := s.posted.unsubscribes[1..]));
      UnsubscribeKeepsLists(s.(posted := s.posted.(unsubscribes := s.posted.unsubscribes[1..])),
                            s.posted.unsubscribes[0]);
    case Close =>
  }

  lemma SubscribeKeepsLists(s: Session, channel: string)
    requires ListInv(s)
    ensures ListInv(SubscribeCall(s, channel))
    ensures Wanted(SubscribeCall(s, channel)) == if channel in Wanted(s) then Wanted(s) else Wanted(s) + [channel]
  {
    PostedKeepsLists(s, s.posted.(flushes := s.posted.flushes + 1));
    AddTopicAppends(s.(posted := s.posted.(flushes := s.posted.flushes + 1)), channel);
  }

  lemma UnsubscribeCallKeepsLists(s: Session, channel: string)
    requires ListInv(s)
    ensures ListInv(UnsubscribeCall(s, channel))
    ensures Wanted(UnsubscribeCall(s, channel)) == Without(Wanted(s), channel)
  {
    var frames := if channel in s.subscriptions then [channel] else [];
    var posted := s.posted.(unsubscribes := s.posted.unsubscribes + frames);
    PostedKeepsLists(s, posted);
    RemoveTopicDeletes(s.(posted := posted), channel);
  }

  /** The wanted list after a step: only subscribe and unsubscribe calls change it. */
  function WantedAfter(wanted: seq<string>, step: Step): seq<string> {
    match step
    case AskSubscribe(channel) => if channel in wanted then wanted else wanted + [channel]
    case AskUnsubscribe(channel) => Without(wanted, channel)
    case _ => wanted
  }

  lemma StepKeepsLists(s: Session, step: Step)
    requires FlowInv(s) && ListInv(s) && Enabled(s, step)
    ensures ListInv(Apply(s, step))
    ensures Wanted(Apply(s, step)) == WantedAfter(Wanted(s), step)
  {
    match step
    case Complete(op, gen, ok, m, silent) => CompleteKeepsLists(s, op, gen, ok, m, silent);
    case RunTask(task) => TaskKeepsLists(s, task);
    case AskSubscribe(channel) => SubscribeKeepsLists(s, channel);
    case AskUnsubscribe(channel) => UnsubscribeCallKeepsLists(s, channel);
    case AskClose =>
    case StreamFails =>
  }

  // ---- No subscription is lost -----------------------------------------

  /** A topic pending on a ready connection has a flush on its way. */
  predicate FlushIsComing(s: Session) {
    s.connected && s.ready && s.pendingTopics != [] ==> s.posted.flushes > 0
  }

  predicate SamePending(s: Session, t: Session) {
    && t.connected == s.connected && t.ready == s.ready
    && t.pendingTopics == s.pendingTopics && t.posted.flushes == s.posted.flushes
  }

  lemma PumpKeepsPending(s: Session)
    ensures SamePending(s, Pump(s))
  {}

  lemma FlushLeavesNothing(s: Session)
    ensures FlushIsComing(FlushTopics(s))
  {
    PumpKeepsPending(Filled(s));
  }

  lemma DispatchKeepsFlush(s: Session, m: Inbound)
    requires FlushIsComing(s)
    ensures FlushIsComing(Dispatch(s, m))
  {
    match m
    case Greeting => FlushLeavesNothing(Greeted(s));
    case PingMessage => PumpKeepsPending(Enqueue(s, Pong));
    case _ =>
  }

  lemma ReadKeepsFlush(s: Session, ok: bool, m: Inbound)
    requires FlushIsComing(s)
    ensures FlushIsComing(OnRead(s, s.generation, ok, m))
  {
    DispatchKeepsFlush(s, m);
  }

  lemma ChainKeepsFlush(s: Session, ok: bool, next: Op)
    requires FlushIsComing(s) && !s.ready
    ensures FlushIsComing(Advance(s, s.generation, ok, next)) && FlushIsComing(OnHandshake(s, s.generation, ok))
  {}

  lemma TimersKeepFlush(s: Session, ok: bool, silent: nat)
    requires FlushIsComing(s)
    ensures FlushIsComing(OnPingTimer(s, s.generation, ok, silent))
    ensures FlushIsComing(OnReconnectTimer(s, s.generation, ok))
  {
    PumpKeepsPending(Enqueue(s, Ping));
  }

  lemma WriteKeepsFlush(s: Session, ok: bool)
    requires FlushIsComing(s)
    ensures FlushIsComing(OnWritten(s, s.generation, ok))
  {
    PumpKeepsPending(s.(writeInFlight := false));
  }

  lemma HandleKeepsFlush(s: Session, op: Op, ok: bool, m: Inbound, silent: nat)
    requires FlushIsComing(s)
    requires op in {Resolve, Connect, TlsHandshake, WsHandshake} ==> !s.ready
    ensures FlushIsComing(Handle(s, op, s.generation, ok, m, silent))
  {
    match op
    case Resolve => ChainKeepsFlush(s, ok, Connect);
    case Connect => ChainKeepsFlush(s, ok, TlsHandshake);
    case TlsHandshake => ChainKeepsFlush(s, ok, WsHandshake);
    case WsHandshake => ChainKeepsFlush(s, ok, Read);
    case Read => ReadKeepsFlush(s, ok, m);
    case Write => WriteKeepsFlush(s, ok);
    case PingWait => TimersKeepFlush(s, ok, silent);
    case ReconnectWait => TimersKeepFlush(s, ok, silent);
  }

  lemma CompleteKeepsFlush(s: Session, op: Op, gen: nat, ok: bool, m: Inbound, silent: nat)
    requires FlowInv(s) && ListInv(s) && FlushIsComing(s) && Enabled(s, Complete(op, gen, ok, m, silent))
    ensures FlushIsComing(Apply(s, Complete(op, gen, ok, m, silent)))
  {
    if gen != s.generation {
      OlderGenerationsChangeNothing(s, op, gen, ok, m, silent);
    } else {
      FinishKeepsLists(s, op);
      HandleKeepsFlush(Finish(s, op, gen), op, ok, m, silent);
    }
  }

  lemma UnsubscribeFrameKeepsFlush(s: Session, channel: string)
    requires FlushIsComing(s)
    ensures FlushIsComing(OnUnsubscribePosted(s, channel))
  {
    PumpKeepsPending(Enqueue(s, Unsubscribe(channel)));
  }

  lemma TaskKeepsFlush(s: Session, task: Task)
    requires FlushIsComing(s) && Enabled(s, RunTask(task))
    ensures FlushIsComing(Perform(s, task))
  {
    match task
    case Run =>
    case Flush => FlushLeavesNothing(s.(posted := s.posted.(flushes := s.posted.flushes - 1)));
    case SendUnsubscribe =>
      UnsubscribeFrameKeepsFlush(s.(posted := s.posted.(unsubscribes := s.posted.unsubscribes[1..])),
                                 s.posted.unsubscribes[0]);
    case Close =>
  }

  lemma CallsKeepFlush(s: Session, channel: string)
    requires FlushIsComing(s)
    ensures FlushIsComing(SubscribeCall(s, channel)) && FlushIsComing(UnsubscribeCall(s, channel))
  {}

  lemma StepKeepsFlush(s: Session, step: Step)
    requires FlowInv(s) && ListInv(s) && FlushIsComing(s) && Enabled(s, step)
    ensures FlushIsComing(Apply(s, step))
  {
    match step
    case Complete(op, gen, ok, m, silent) => CompleteKeepsFlush(s, op, gen, ok, m, silent);
    case RunTask(task) => TaskKeepsFlush(s, task);
    case AskSubscribe(channel) => CallsKeepFlush(s, channel);
    case AskUnsubscribe(channel) => CallsKeepFlush(s, channel);
    case AskClose =>
    case StreamFails =>
  }
}
