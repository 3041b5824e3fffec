/** What holds in every state the WebSocket session can reach. */
module SessionTheorems {
  import opened SessionModel
  import opened SessionInvariants
  import opened SessionLists

  ghost predicate Inv(s: Session) {
    FlowInv(s) && ListInv(s) && FlushIsComing(s)
  }

  lemma StartFlows()
    ensures FlowCore(START) && Alive(START)
  {}

  lemma StartHasLists()
    ensures Wanted(START) == [] && GateInv(START) && FifoInv(START)
  {}

  lemma StartHasInv()
    ensures Inv(START) && Wanted(START) == []
  {
    StartFlows();
    StartHasLists();
  }

  lemma {:induction false} RunKeepsInv(s: Session, steps: seq<Step>)
    requires Inv(s) && Possible(s, steps)
    ensures Inv(Exec(s, steps))
    decreases |steps|
  {
    if steps != [] {
      StepKeepsFlow(s, steps[0]);
      StepKeepsLists(s, steps[0]);
      StepKeepsFlush(s, steps[0]);
      RunKeepsInv(Apply(s, steps[0]), steps[1..]);
    }
  }

  lemma ReachedHasInv(steps: seq<Step>)
    requires Possible(START, steps)
    ensures Inv(Exec(START, steps))
  {
    StartHasInv();
    RunKeepsInv(START, steps);
  }

  // ---- Liveness of the connection --------------------------------------

  /**
    Until the user closes it, the session waits for exactly one of: its first start, the
    reconnect timer, or one operation of the current connect chain or read loop. A live
    connection also has its watchdog armed, and no older timer can fire.
   */
  lemma SessionNeverStalls(steps: seq<Step>)
    requires Possible(START, steps)
    ensures var s := Exec(START, steps);
            && (!s.userClosed ==>
                  || (s.generation == 0 && s.posted.runs == 1 && s.now == NO_OPS && !s.reconnectScheduled)
                  || (s.generation > 0 && s.posted.runs == 0 && s.reconnectScheduled && s.now[ReconnectWait] == 1)
                  || (s.generation > 0 && s.posted.runs == 0 && !s.reconnectScheduled
                      && s.now[ReconnectWait] == 0 && Chain(s.now) == 1))
            && (s.connected && !s.userClosed ==> s.now[PingWait] == 1)
            && (forall gen :: gen in s.older ==> gen < s.generation && s.older[gen][ReconnectWait] == 0)
  {
    ReachedHasInv(steps);
  }

  /** At most one write is under way on the current stream, and no frame waits on a ready connection without one. */
  lemma WriterNeverSleeps(steps: seq<Step>)
    requires Possible(START, steps)
    ensures var s := Exec(START, steps);
            && s.now[Write] <= 1
            && (!s.userClosed && s.connected && s.ready && s.open && s.outboundQueue != [] ==>
                  s.writeInFlight && s.now[Write] == 1)
  {
    ReachedHasInv(steps);
  }

  /** No topic asked for on a ready connection is left behind: what is pending has a flush on its way. */
  lemma NoSubscriptionIsLost(steps: seq<Step>)
    requires Possible(START, steps)
    ensures var s := Exec(START, steps);
            s.connected && s.ready && s.pendingTopics != [] ==> s.posted.flushes > 0
  {
    ReachedHasInv(steps);
  }

  /** Frames go out in the order they were queued; on a live connection none is lost. */
  lemma FramesLeaveInOrder(steps: seq<Step>)
    requires Possible(START, steps)
    ensures var s := Exec(START, steps);
            && s.trace.written <= s.trace.atStart + s.trace.enqueued
            && (s.connected ==> s.trace.written + s.outboundQueue == s.trace.atStart + s.trace.enqueued)
  {
    ReachedHasInv(steps);
  }

  // ---- Subscriptions ---------------------------------------------------

  /** What the caller's subscribe and unsubscribe calls leave wanted. */
  function WantedOf(wanted: seq<string>, steps: seq<Step>): seq<string>
    decreases |steps|
  {
    if steps == [] then wanted else WantedOf(WantedAfter(wanted, steps[0]), steps[1..])
  }

  lemma {:induction false} RunKeepsWanted(s: Session, steps: seq<Step>)
    requires Inv(s) && Possible(s, steps)
    ensures Wanted(Exec(s, steps)) == WantedOf(Wanted(s), steps)
    decreases |steps|
  {
    if steps != [] {
      StepKeepsFlow(s, steps[0]);
      StepKeepsLists(s, steps[0]);
      StepKeepsFlush(s, steps[0]);
      RunKeepsWanted(Apply(s, steps[0]), steps[1..]);
    }
  }

  /** Through every connect, error, flush and replay the wanted list is what the calls made it, without repetition. */
  lemma WantedIsWhatWasAsked(steps: seq<Step>)
    requires Possible(START, steps)
    ensures Wanted(Exec(START, steps)) == WantedOf([], steps)
    ensures Distinct(WantedOf([], steps))
  {
    StartHasInv();
    ReachedHasInv(steps);
    RunKeepsWanted(START, steps);
  }

  /**
    A subscribe frame is queued only on a connection whose greeting has arrived, is never
    written before it, and never survives from one generation to the next. A channel counts
    as subscribed only if its frame was written or is queued on the present connection.
   */
  lemma GreetingGatesSubscriptions(steps: seq<Step>)
    requires Possible(START, steps)
    ensures var s := Exec(START, steps);
            && (s.subscriptions != [] ==> s.connected && s.ready && s.trace.greeted)
            && (forall f :: f in s.outboundQueue && f.Subscribe? ==> s.connected && s.ready)
            && (forall f :: f in s.trace.written && f.Subscribe? ==> s.trace.greeted && f in s.trace.enqueued)
            && (forall channel :: channel in s.subscriptions ==>
                  Subscribe(channel) in s.trace.written || Subscribe(channel) in s.outboundQueue)
  {
    ReachedHasInv(steps);
    var s := Exec(START, steps);
    var all := s.trace.atStart + s.trace.enqueued;
    forall f | f in s.trace.written && f.Subscribe?
      ensures f in s.trace.enqueued
    {
      var k :| 0 <= k < |s.trace.written| && s.trace.written[k] == f;
      assert all[k] == f;
    }
    forall channel | channel in s.subscriptions
      ensures Subscribe(channel) in s.trace.written || Subscribe(channel) in s.outboundQueue
    {
      assert Subscribe(channel) in all;
      assert s.trace.written + s.outboundQueue == all;
    }
  }

  lemma GreetingReplays(s: Session)
    requires s.connected && s.subscriptions == []
    ensures var t := Dispatch(s, Greeting);
            && t.subscriptions == s.pendingTopics && t.pendingTopics == []
            && t.trace.enqueued == s.trace.enqueued + Subscribes(s.pendingTopics)
            && t.connected && t.ready && t.reconnectDelayS == 1 && !t.reconnectScheduled == !s.reconnectScheduled
            && t.generation == s.generation
            && (s.hasStream && s.open && s.pendingTopics != [] ==> t.writeInFlight)
  {
    var filled := Filled(Greeted(s));
    assert filled.subscriptions == [] + s.pendingTopics;
    assert s.pendingTopics != [] ==> |filled.outboundQueue| > 0;
  }

  /**
    The first greeting on a connection queues one subscribe frame per wanted channel, in
    order, and subscribes them all.
   */
  lemma FirstGreetingReplays(s: Session, silent: nat)
    requires Inv(s) && s.connected && !s.ready && s.now[Read] > 0
    ensures var t := Apply(s, Complete(Read, s.generation, true, Greeting, silent));
            && t.subscriptions == Wanted(s) && t.pendingTopics == []
            && t.trace.enqueued == s.trace.enqueued + Subscribes(Wanted(s))
            && t.connected && t.ready && t.reconnectDelayS == 1
            && (s.open && !s.userClosed && Wanted(s) != [] ==> t.writeInFlight)
  {
    GreetingReplays(Finish(s, Read, s.generation));
  }

  // ---- isConnected -----------------------------------------------------

  /**
    The flag is up only on a connection that the session has neither found failed nor
    closed. That it lags behind a stream that has just failed is not held against it.
   */
  predicate FlagIsHonest(s: Session) {
    s.connectedFlag ==> s.connected && !s.userClosed
  }

  /** A greeting that was already read when its connection failed or was closed. */
  predicate StaleGreeting(s: Session, step: Step) {
    && step.Complete? && step.op == Read && step.gen == s.generation && step.ok && step.m == Greeting
    && (!s.connected || s.userClosed)
  }

  /** The user's close of a ready connection: nothing clears the flag. */
  predicate CloseWhileUp(s: Session, step: Step) {
    step == RunTask(Close) && s.connectedFlag
  }

  predicate SameFlags(s: Session, t: Session) {
    t.connectedFlag == s.connectedFlag && t.connected == s.connected && t.userClosed == s.userClosed
  }

  lemma PumpKeepsFlags(s: Session)
    ensures SameFlags(s, Pump(s))
  {}

  /** Of all messages only the greeting touches the flag. */
  lemma DispatchKeepsFlags(s: Session, m: Inbound)
    ensures SameFlags(if m == Greeting then s.(connectedFlag := true) else s, Dispatch(s, m))
  {
    PumpKeepsFlags(Filled(Greeted(s)));
    PumpKeepsFlags(Enqueue(s, Pong));
  }

  lemma ReadKeepsFlagHonest(s: Session, ok: bool, m: Inbound)
    requires FlagIsHonest(s)
    ensures FlagIsHonest(OnRead(s, s.generation, ok, m)) <==> !(ok && m == Greeting && (!s.connected || s.userClosed))
  {
    DispatchKeepsFlags(s, m);
  }

  lemma ChainKeepsFlagHonest(s: Session, ok: bool, next: Op)
    requires FlagIsHonest(s)
    ensures FlagIsHonest(Advance(s, s.generation, ok, next)) && FlagIsHonest(OnHandshake(s, s.generation, ok))
  {}

  lemma WriteKeepsFlagHonest(s: Session, ok: bool)
    requires FlagIsHonest(s)
    ensures FlagIsHonest(OnWritten(s, s.generation, ok))
  {
    PumpKeepsFlags(s.(writeInFlight := false));
  }

  lemma PingKeepsFlagHonest(s: Session, ok: bool, silent: nat)
    requires FlagIsHonest(s)
    ensures FlagIsHonest(OnPingTimer(s, s.generation, ok, silent))
  {
    PumpKeepsFlags(Enqueue(s, Ping));
  }

  lemma ReconnectKeepsFlagHonest(s: Session, ok: bool)
    requires FlagIsHonest(s)
    ensures FlagIsHonest(OnReconnectTimer(s, s.generation, ok))
  {}

  lemma HandleKeepsFlagHonest(s: Session, op: Op, ok: bool, m: Inbound, silent: nat)
    requires FlagIsHonest(s)
    ensures FlagIsHonest(Handle(s, op, s.generation, ok, m, silent)) <==>
            !(op == Read && ok && m == Greeting && (!s.connected || s.userClosed))
  {
    match op
    case Resolve => ChainKeepsFlagHonest(s, ok, Connect);
    case Connect => ChainKeepsFlagHonest(s, ok, TlsHandshake);
    case TlsHandshake => ChainKeepsFlagHonest(s, ok, WsHandshake);
    case WsHandshake => ChainKeepsFlagHonest(s, ok, Read);
    case Read => ReadKeepsFlagHonest(s, ok, m);
    case Write => WriteKeepsFlagHonest(s, ok);
    case PingWait => PingKeepsFlagHonest(s, ok, silent);
    case ReconnectWait => ReconnectKeepsFlagHonest(s, ok);
  }

  lemma CompleteKeepsFlagHonest(s: Session, op: Op, gen: nat, ok: bool, m: Inbound, silent: nat)
    requires Enabled(s, Complete(op, gen, ok, m, silent)) && FlagIsHonest(s)
    ensures FlagIsHonest(Apply(s, Complete(op, gen, ok, m, silent))) <==>
            !StaleGreeting(s, Complete(op, gen, ok, m, silent))
  {
    if gen != s.generation {
      OlderGenerationsChangeNothing(s, op, gen, ok, m, silent);
    } else {
      HandleKeepsFlagHonest(Finish(s, op, gen), op, ok, m, silent);
    }
  }

  lemma TaskKeepsFlagHonest(s: Session, task: Task)
    requires Enabled(s, RunTask(task)) && FlagIsHonest(s)
    ensures FlagIsHonest(Perform(s, task)) <==> !(task == Close && s.connectedFlag)
  {}

  lemma SubscribeKeepsFlagHonest(s: Session, channel: string)
    requires FlagIsHonest(s)
    ensures FlagIsHonest(SubscribeCall(s, channel))
  {}

  lemma UnsubscribeKeepsFlagHonest(s: Session, channel: string)
    requires FlagIsHonest(s)
    ensures FlagIsHonest(UnsubscribeCall(s, channel))
  {}

  /**
    The flag stays honest across a step exactly when the step is neither a greeting read
    after the connection failed or was closed, nor the user's close of a ready connection.
   */
  lemma FlagStaysHonestIff(s: Session, step: Step)
    requires Enabled(s, step) && FlagIsHonest(s)
    ensures FlagIsHonest(Apply(s, step)) <==> !StaleGreeting(s, step) && !CloseWhileUp(s, step)
  {
    match step
    case Complete(op, gen, ok, m, silent) => CompleteKeepsFlagHonest(s, op, gen, ok, m, silent);
    case RunTask(task) => TaskKeepsFlagHonest(s, task);
    case AskSubscribe(channel) => SubscribeKeepsFlagHonest(s, channel);
    case AskUnsubscribe(channel) => UnsubscribeKeepsFlagHonest(s, channel);
    case AskClose =>
    case StreamFails =>
  }

  /** A flag left up by the user's close. */
  predicate ClosedFlagUp(s: Session) {
    s.userClosed && s.connectedFlag
  }

  lemma ReadKeepsClosedFlag(s: Session, gen: nat, ok: bool, m: Inbound)
    requires ClosedFlagUp(s)
    ensures ClosedFlagUp(OnRead(s, gen, ok, m))
  {
    DispatchKeepsFlags(s, m);
  }

  lemma HandleKeepsClosedFlag(s: Session, op: Op, gen: nat, ok: bool, m: Inbound, silent: nat)
    requires ClosedFlagUp(s)
    ensures ClosedFlagUp(Handle(s, op, gen, ok, m, silent))
  {
    ReadKeepsClosedFlag(s, gen, ok, m);
    PumpKeepsFlags(s.(writeInFlight := false));
  }

  lemma CompleteKeepsClosedFlag(s: Session, step: Step)
    requires ClosedFlagUp(s) && Enabled(s, step) && step.Complete?
    ensures ClosedFlagUp(Apply(s, step))
  {
    HandleKeepsClosedFlag(Finish(s, step.op, step.gen), step.op, step.gen, step.ok, step.m, step.silent);
  }

  lemma OthersKeepClosedFlag(s: Session, step: Step)
    requires ClosedFlagUp(s) && Enabled(s, step) && !step.Complete?
    ensures ClosedFlagUp(Apply(s, step))
  {}

  /** No step ever takes it down again. */
  lemma {:induction false} ClosedFlagStaysUp(s: Session, steps: seq<Step>)
    requires ClosedFlagUp(s) && Possible(s, steps)
    ensures ClosedFlagUp(Exec(s, steps))
    decreases |steps|
  {
    if steps != [] {
      if steps[0].Complete? { CompleteKeepsClosedFlag(s, steps[0]); } else { OthersKeepClosedFlag(s, steps[0]); }
      ClosedFlagStaysUp(Apply(s, steps[0]), steps[1..]);
    }
  }

  // ---- Runs from the start ---------------------------------------------

  lemma {:induction false} RunSnoc(s: Session, steps: seq<Step>, step: Step)
    requires Possible(s, steps) && Enabled(Exec(s, steps), step)
    ensures Possible(s, steps + [step])
    ensures Exec(s, steps + [step]) == Apply(Exec(s, steps), step)
    decreases |steps|
  {
    if steps == [] {
      assert [step][1..] == [];
    } else {
      RunSnoc(Apply(s, steps[0]), steps[1..], step);
      assert (steps + [step])[1..] == steps[1..] + [step];
    }
  }

  /** Some run from the start ends here. */
  ghost predicate IsReached(s: Session) {
    exists steps :: Possible(START, steps) && Exec(START, steps) == s
  }

  lemma ReachOn(s: Session, step: Step)
    requires IsReached(s) && Enabled(s, step)
    ensures IsReached(Apply(s, step))
  {
    var steps :| Possible(START, steps) && Exec(START, steps) == s;
    RunSnoc(START, steps, step);
  }

  lemma IsReachedHasInv(s: Session)
    requires IsReached(s)
    ensures Inv(s)
  {
    var steps :| Possible(START, steps) && Exec(START, steps) == s;
    ReachedHasInv(steps);
  }

  predicate Dialing(s: Session, op: Op) {
    op in s.now && !s.userClosed
  }

  lemma DialOn(s: Session, op: Op, next: Op) returns (t: Session)
    requires IsReached(s) && Dialing(s, op)
    requires (op, next) in {(Resolve, Connect), (Connect, TlsHandshake), (TlsHandshake, WsHandshake)}
    ensures IsReached(t) && Dialing(t, next)
  {
    var step := Complete(op, s.generation, true, Data, 0);
    ReachOn(s, step);
    t := Apply(s, step);
  }

  predicate IsLive(s: Session) {
    s.connected && s.open && !s.userClosed
  }

  lemma HandshakeOn(s: Session, step: Step) returns (t: Session)
    requires IsReached(s) && Dialing(s, WsHandshake) && step == Complete(WsHandshake, s.generation, true, Data, 0)
    ensures IsReached(t) && IsLive(t)
  {
    ReachOn(s, step);
    t := Apply(s, step);
  }

  /** A session that is left to run gets a live connection. */
  lemma LiveIsReached() returns (s: Session)
    ensures IsReached(s) && IsLive(s)
  {
    assert Possible(START, []) && Exec(START, []) == START;
    ReachOn(START, RunTask(Run));
    s := Apply(START, RunTask(Run));
    s := DialOn(s, Resolve, Connect);
    s := DialOn(s, Connect, TlsHandshake);
    s := DialOn(s, TlsHandshake, WsHandshake);
    s := HandshakeOn(s, Complete(WsHandshake, s.generation, true, Data, 0));
  }

  /** The watchdog's verdict closes the connection but leaves its read outstanding. */
  lemma WatchdogLeavesRead(s: Session, step: Step)
    requires Inv(s) && s.connected && !s.userClosed
    requires step == Complete(PingWait, s.generation, true, Data, ACTIVITY_TIMEOUT_IN_S + 1)
    ensures Enabled(s, step)
    ensures var t := Apply(s, step); !t.connected && !t.userClosed && t.generation == s.generation && Read in t.now
  {}

  lemma StaleGreetingRaisesFlag(s: Session, step: Step)
    requires !s.connected && !s.userClosed && Read in s.now
    requires step == Complete(Read, s.generation, true, Greeting, 0)
    ensures Enabled(s, step)
    ensures var t := Apply(s, step); t.connectedFlag && !t.connected && !t.userClosed
  {}

  /** The first failing input: the watchdog gives up while a greeting waits to be handled. */
  lemma FlagCanLie()
    ensures exists s :: IsReached(s) && s.connectedFlag && !s.connected && !s.userClosed
  {
    var s := LiveIsReached();
    IsReachedHasInv(s);
    var givesUp := Complete(PingWait, s.generation, true, Data, ACTIVITY_TIMEOUT_IN_S + 1);
    WatchdogLeavesRead(s, givesUp);
    ReachOn(s, givesUp);
    var t := Apply(s, givesUp);
    var greets := Complete(Read, s.generation, true, Greeting, 0);
    StaleGreetingRaisesFlag(t, greets);
    ReachOn(t, greets);
    assert IsReached(Apply(t, greets)) && Apply(t, greets).connectedFlag;
  }

  lemma GreetingRaisesFlag(s: Session, step: Step)
    requires Inv(s) && IsLive(s) && step == Complete(Read, s.generation, true, Greeting, 0)
    ensures Enabled(s, step)
    ensures IsLive(Apply(s, step)) && Apply(s, step).connectedFlag
  {}

  lemma CloseLeavesFlag(s: Session, ask: Step, close: Step)
    requires Inv(s) && IsLive(s) && s.connectedFlag && ask == AskClose && close == RunTask(Close)
    ensures Enabled(s, ask) && Enabled(Apply(s, ask), close)
    ensures var t := Apply(Apply(s, ask), close);
            ClosedFlagUp(t) && Read in t.now && !t.reconnectScheduled
  {}

  lemma FailingReadIsIgnored(s: Session, step: Step)
    requires Inv(s) && ClosedFlagUp(s) && Read in s.now && !s.reconnectScheduled && !s.open
    requires step == Complete(Read, s.generation, false, Data, 0)
    ensures Enabled(s, step)
    ensures var t := Apply(s, step); ClosedFlagUp(t) && !t.open && Chain(t.now) == 0 && !t.reconnectScheduled
  {}

  /** Closed by the user, the stream shut and no operation left that could notice. */
  predicate ClosedForGood(s: Session) {
    ClosedFlagUp(s) && !s.open && Chain(s.now) == 0 && !s.reconnectScheduled
  }

  /** The second failing input: after close() the flag stays up for ever. */
  lemma ClosedFlagLiesForEver()
    ensures exists s ::
              && IsReached(s) && ClosedForGood(s)
              && forall steps :: Possible(s, steps) ==> Exec(s, steps).connectedFlag
  {
    var s := LiveIsReached();
    IsReachedHasInv(s);
    var greets := Complete(Read, s.generation, true, Greeting, 0);
    GreetingRaisesFlag(s, greets);
    ReachOn(s, greets);
    s := Apply(s, greets);
    var ask, close := AskClose, RunTask(Close);
    IsReachedHasInv(s);
    ReachOn(s, ask);
    CloseLeavesFlag(s, ask, close);
    ReachOn(Apply(s, ask), close);
    s := Apply(Apply(s, ask), close);
    ReachOn(s, StreamFails);
    s := Apply(s, StreamFails);
    var fails := Complete(Read, s.generation, false, Data, 0);
    IsReachedHasInv(s);
    FailingReadIsIgnored(s, fails);
    ReachOn(s, fails);
    s := Apply(s, fails);
    forall steps | Possible(s, steps)
      ensures Exec(s, steps).connectedFlag
    {
      ClosedFlagStaysUp(s, steps);
    }
    assert IsReached(s) && ClosedForGood(s);
  }

  // ---- Backoff ---------------------------------------------------------

  function Power2(n: nat): nat {
    if n == 0 then 1 else 2 * Power2(n - 1)
  }

  lemma {:induction false} DelayIsPowerOfTwo(errors: nat)
    ensures DelayAfter(errors) ==
            if Power2(errors) < RECONNECT_DELAY_MAX_IN_S then Power2(errors) else RECONNECT_DELAY_MAX_IN_S
  {
    if errors > 0 { DelayIsPowerOfTwo(errors - 1); }
  }

  /**
    The delay doubles with every error that leads to a reconnect, up to 30 seconds, and
    only a greeting brings it back to one.
   */
  lemma BackoffDoublesToThirty(steps: seq<Step>)
    requires Possible(START, steps)
    ensures var s := Exec(START, steps);
            && s.reconnectDelayS == (if Power2(s.trace.errors) < 30 then Power2(s.trace.errors) else 30)
            && (s.ready ==> s.reconnectDelayS == 1)
  {
    ReachedHasInv(steps);
    DelayIsPowerOfTwo(Exec(START, steps).trace.errors);
  }
}
