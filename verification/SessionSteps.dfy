/**
  What the steps of the WebSocket session bring about, told by the frames queued and the
  operations outstanding.
 */
module SessionSteps {
  import opened SessionModel
  import opened SessionInvariants
  import opened SessionLists
  import opened SessionTheorems

  // ---- Connecting ------------------------------------------------------

  /** Each success of the connect chain starts the next operation and nothing else. */
  lemma SuccessAdvancesChain(s: Session, op: Op, next: Op, step: Step)
    requires Inv(s) && op in s.now && step == Complete(op, s.generation, true, Data, 0)
    requires (op, next) in {(Resolve, Connect), (Connect, TlsHandshake), (TlsHandshake, WsHandshake)}
    ensures Enabled(s, step)
    ensures var t := Apply(s, step);
            && op !in t.now && next in t.now && Chain(t.now) == 1
            && t.connected == s.connected && t.ready == s.ready && t.generation == s.generation
            && t.outboundQueue == s.outboundQueue && Wanted(t) == Wanted(s)
  {}

  /** A finished handshake brings the transport up with one read and one watchdog, and waits for the greeting. */
  lemma HandshakeBringsUp(s: Session, step: Step)
    requires Inv(s) && WsHandshake in s.now && !s.userClosed
    requires step == Complete(WsHandshake, s.generation, true, Data, 0)
    ensures Enabled(s, step)
    ensures var t := Apply(s, step);
            && t.connected && t.open && !t.ready && !t.connectedFlag
            && t.now[Read] == 1 && t.now[PingWait] == 1 && Chain(t.now) == 1
            && t.outboundQueue == s.outboundQueue && t.pendingTopics == s.pendingTopics
  {}

  /** The first start, and the reconnect timer, begin a generation with a resolve outstanding and nothing else. */
  lemma StartBeginsGeneration(s: Session, step: Step)
    requires Inv(s) && !s.userClosed && Enabled(s, step)
    requires step == RunTask(Run) || step == Complete(ReconnectWait, s.generation, true, Data, 0)
    ensures var t := Apply(s, step);
            && t.generation == s.generation + 1 && t.now == multiset{Resolve}
            && !t.connected && !t.ready && !t.connectedFlag && !t.reconnectScheduled && !t.writeInFlight && !t.open
            && Wanted(t) == Wanted(s) && t.reconnectDelayS == s.reconnectDelayS
  {
    StepKeepsLists(s, step);
  }

  /**
    Any failure of the present generation, a malformed message included, takes the
    connection down and sets the timer.
   */
  lemma FailureReconnects(s: Session, step: Step)
    requires Inv(s) && !s.userClosed && !s.reconnectScheduled && Enabled(s, step)
    requires step.Complete? && step.gen == s.generation
    requires (!step.ok && step.op != PingWait) || (step.op == Read && step.m == Malformed)
    ensures IsDownAfter(s, Apply(s, step))
  {
    StepKeepsLists(s, step);
  }

  ghost predicate IsDownAfter(s: Session, t: Session) {
    && !t.connected && !t.ready && !t.connectedFlag && !t.writeInFlight
    && t.reconnectScheduled && t.now[ReconnectWait] == 1 && t.generation == s.generation
    && t.outboundQueue == [] && t.subscriptions == [] && t.pendingTopics == Wanted(s)
    && t.reconnectDelayS == if 2 * s.reconnectDelayS < 30 then 2 * s.reconnectDelayS else 30
  }

  // ---- Keepalive -------------------------------------------------------

  /** Frames newly queued by a step, and a write under way for them if the stream is open. */
  ghost predicate Queues(s: Session, t: Session, frames: seq<Frame>) {
    && t.trace.enqueued == s.trace.enqueued + frames
    && (s.ready && s.open && !s.userClosed && frames != [] ==> t.writeInFlight)
  }

  /**
    A tick of a live connection: more than 45 seconds of silence takes it down; otherwise it
    stays up, one ping is queued if the greeting has come, and the timer is set again.
   */
  lemma KeepaliveTick(s: Session, step: Step)
    requires Inv(s) && s.connected && !s.userClosed
    requires step.Complete? && step.op == PingWait && step.gen == s.generation && step.ok
    ensures Enabled(s, step)
    ensures step.silent > 45 ==> IsDownAfter(s, Apply(s, step))
    ensures step.silent <= 45 ==>
              var t := Apply(s, step);
              && t.connected && t.ready == s.ready && t.now[PingWait] == 1 && t.now[Read] == s.now[Read]
              && Queues(s, t, if s.ready then [Ping] else [])
  {
    StepKeepsLists(s, step);
    assert s.trace.enqueued + [] == s.trace.enqueued;
  }

  // ---- Inbound messages ------------------------------------------------

  lemma DispatchAnswers(s: Session, m: Inbound)
    requires m != Greeting
    ensures var t := Dispatch(s, m);
            && t.trace.enqueued == s.trace.enqueued + (if m == PingMessage then [Pong] else [])
            && t.connected == s.connected && t.ready == s.ready && t.reconnectScheduled == s.reconnectScheduled
            && t.generation == s.generation && t.now[Read] == s.now[Read]
            && t.subscriptions == s.subscriptions && t.pendingTopics == s.pendingTopics
  {
    assert s.trace.enqueued + [] == s.trace.enqueued;
  }

  /** A message on a live connection is followed by the next read; only a ping is answered, with one pong. */
  lemma MessagesAreRead(s: Session, step: Step)
    requires Inv(s) && s.connected && Read in s.now && !s.userClosed
    requires step.Complete? && step.op == Read && step.gen == s.generation && step.ok
    requires step.m != Greeting && step.m != Malformed
    ensures Enabled(s, step)
    ensures var t := Apply(s, step);
            && t.connected && t.ready == s.ready && t.now[Read] == 1
            && t.subscriptions == s.subscriptions && t.pendingTopics == s.pendingTopics
            && Queues(s, t, if step.m == PingMessage then [Pong] else [])
  {
    DispatchAnswers(Finish(s, Read, s.generation), step.m);
    ReadKeepsLists(s, true, step.m);
    if step.m == PingMessage { ReadQueuesPong(s, step, step.silent); }
  }

  lemma ReadQueuesPong(s: Session, step: Step, silent: nat)
    requires Inv(s) && s.connected && Read in s.now && !s.userClosed
    requires step == Complete(Read, s.generation, true, PingMessage, silent)
    ensures s.ready && s.open ==> Apply(s, step).writeInFlight
  {}

  /** A message that arrives after its connection went down is the last: no read follows and nothing is written. */
  lemma StaleReadIsLast(s: Session, step: Step)
    requires Inv(s) && !s.connected && Enabled(s, step)
    requires step.Complete? && step.op == Read && step.gen == s.generation && step.ok && step.m != Malformed
    ensures var t := Apply(s, step);
            && !t.connected && Chain(t.now) == 0 && t.generation == s.generation
            && t.reconnectScheduled == s.reconnectScheduled
            && t.trace.written == s.trace.written && t.subscriptions == [] && t.pendingTopics == s.pendingTopics
  {
    StepKeepsFlow(s, step);
    StaleDispatchIsQuiet(Finish(s, Read, s.generation), step.m);
  }

  lemma NothingMovesWhileDown(s: Session)
    requires !s.connected
    ensures Pump(s) == s && FlushTopics(s) == s
  {}

  lemma StaleDispatchIsQuiet(s: Session, m: Inbound)
    requires !s.connected
    ensures Dispatch(s, m) == (
              match m
              case Greeting => Greeted(s)
              case PingMessage => Enqueue(s, Pong)
              case _ => s)
  {
    NothingMovesWhileDown(Greeted(s));
    NothingMovesWhileDown(Enqueue(s, Pong));
  }

  // ---- Writes ----------------------------------------------------------

  /** When a write is done the next frame of the queue is handed to the stream, or the writer rests. */
  lemma WriterTakesNext(s: Session, step: Step)
    requires Inv(s) && s.connected && s.open && Write in s.now
    requires step == Complete(Write, s.generation, true, Data, 0)
    ensures Enabled(s, step)
    ensures var t := Apply(s, step);
            if s.outboundQueue == [] then !t.writeInFlight && t.trace.written == s.trace.written
            else
              && t.writeInFlight && t.now[Write] == 1
              && t.trace.written == s.trace.written + [s.outboundQueue[0]]
              && t.outboundQueue == s.outboundQueue[1..]
  {}

  // ---- Unsubscribing ---------------------------------------------------

  /** Removing a topic that was subscribed posts its frame; one that was only pending is simply forgotten. */
  lemma UnsubscribePostsFrame(s: Session, channel: string)
    requires Inv(s)
    ensures var t := Apply(s, AskUnsubscribe(channel));
            && t.posted.unsubscribes == s.posted.unsubscribes + (if channel in s.subscriptions then [channel] else [])
            && Wanted(t) == Without(Wanted(s), channel)
  {
    StepKeepsLists(s, AskUnsubscribe(channel));
  }

  /** A posted frame is queued on a live connection and dropped on any other. */
  lemma PostedFrameIsQueued(s: Session, step: Step)
    requires Inv(s) && s.posted.unsubscribes != [] && step == RunTask(SendUnsubscribe)
    ensures Enabled(s, step)
    ensures var t := Apply(s, step);
            && t.posted.unsubscribes == s.posted.unsubscribes[1..]
            && Queues(s, t, if s.connected then [Unsubscribe(s.posted.unsubscribes[0])] else [])
  {
    StepKeepsLists(s, step);
    assert s.trace.enqueued + [] == s.trace.enqueued;
  }

  // ---- Closing ---------------------------------------------------------

  /** No new generation, no transport brought up, and no timer set. */
  predicate StaysClosed(s: Session, t: Session) {
    && t.userClosed == s.userClosed && t.generation == s.generation && (t.connected ==> s.connected)
    && t.now[PingWait] <= s.now[PingWait] && t.now[ReconnectWait] <= s.now[ReconnectWait]
  }

  lemma PumpStaysClosed(s: Session)
    ensures StaysClosed(s, Pump(s))
  {}

  lemma DispatchStaysClosed(s: Session, m: Inbound)
    ensures StaysClosed(s, Dispatch(s, m))
  {
    PumpStaysClosed(Filled(Greeted(s)));
    PumpStaysClosed(Enqueue(s, Pong));
  }

  lemma ReadStaysClosed(s: Session, gen: nat, ok: bool, m: Inbound)
    requires s.userClosed
    ensures StaysClosed(s, OnRead(s, gen, ok, m))
  {
    DispatchStaysClosed(s, m);
  }

  lemma WriteStaysClosed(s: Session, gen: nat, ok: bool)
    requires s.userClosed
    ensures StaysClosed(s, OnWritten(s, gen, ok))
  {
    PumpStaysClosed(s.(writeInFlight := false));
  }

  lemma TimersStayClosed(s: Session, gen: nat, ok: bool, silent: nat)
    requires s.userClosed
    ensures StaysClosed(s, OnPingTimer(s, gen, ok, silent)) && StaysClosed(s, OnReconnectTimer(s, gen, ok))
  {}

  lemma AdvanceStaysClosed(s: Session, gen: nat, ok: bool, next: Op)
    requires s.userClosed && next in {Connect, TlsHandshake, WsHandshake}
    ensures StaysClosed(s, Advance(s, gen, ok, next))
  {
    assert Started(s.now, next)[PingWait] == s.now[PingWait];
    assert Started(s.now, next)[ReconnectWait] == s.now[ReconnectWait];
  }

  lemma HandshakeStaysClosed(s: Session, gen: nat, ok: bool)
    requires s.userClosed
    ensures StaysClosed(s, OnHandshake(s, gen, ok))
  {}

  lemma HandleStaysClosed(s: Session, op: Op, gen: nat, ok: bool, m: Inbound, silent: nat)
    requires s.userClosed
    ensures StaysClosed(s, Handle(s, op, gen, ok, m, silent))
  {
    match op
    case Resolve => AdvanceStaysClosed(s, gen, ok, Connect);
    case Connect => AdvanceStaysClosed(s, gen, ok, TlsHandshake);
    case TlsHandshake => AdvanceStaysClosed(s, gen, ok, WsHandshake);
    case WsHandshake => HandshakeStaysClosed(s, gen, ok);
    case Read => ReadStaysClosed(s, gen, ok, m);
    case Write => WriteStaysClosed(s, gen, ok);
    case PingWait => TimersStayClosed(s, gen, ok, silent);
    case ReconnectWait => TimersStayClosed(s, gen, ok, silent);
  }

  lemma RunStaysClosed(s: Session)
    requires s.userClosed && s.posted.runs > 0
    ensures StaysClosed(s, Perform(s, Run))
  {}

  lemma FlushStaysClosed(s: Session)
    requires s.userClosed && s.posted.flushes > 0
    ensures StaysClosed(s, Perform(s, Flush))
  {
    PumpStaysClosed(Filled(s.(posted := s.posted.(flushes := s.posted.flushes - 1))));
  }

  lemma FrameStaysClosed(s: Session)
    requires s.userClosed && s.posted.unsubscribes != []
    ensures StaysClosed(s, Perform(s, SendUnsubscribe))
  {
    var rest := s.(posted := s.posted.(unsubscribes := s.posted.unsubscribes[1..]));
    PumpStaysClosed(Enqueue(rest, Unsubscribe(s.posted.unsubscribes[0])));
  }

  lemma TaskStaysClosed(s: Session, task: Task)
    requires s.userClosed && Enabled(s, RunTask(task))
    ensures StaysClosed(s, Perform(s, task))
  {
    match task
    case Run => RunStaysClosed(s);
    case Flush => FlushStaysClosed(s);
    case SendUnsubscribe => FrameStaysClosed(s);
    case Close =>
  }

  lemma StepStaysClosed(s: Session, step: Step)
    requires s.userClosed && Enabled(s, step)
    ensures StaysClosed(s, Apply(s, step))
  {
    match step
    case Complete(op, gen, ok, m, silent) =>
      FinishStaysClosed(s, op, gen);
      HandleStaysClosed(Finish(s, op, gen), op, gen, ok, m, silent);
    case RunTask(task) => TaskStaysClosed(s, task);
    case _ =>
  }

  lemma FinishStaysClosed(s: Session, op: Op, gen: nat)
    requires op in Outstanding(s, gen)
    ensures StaysClosed(s, Finish(s, op, gen))
  {
    if gen == s.generation {
      FinishedIsFewer(s.now, op, PingWait);
      FinishedIsFewer(s.now, op, ReconnectWait);
    }
  }

  lemma FinishedIsFewer(ops: Ops, op: Op, other: Op)
    requires op in ops
    ensures Finished(ops, op)[other] <= ops[other]
  {}

  /** A session closed by the user never connects again, and its timers run out. */
  lemma {:induction false} ClosedSessionStops(s: Session, steps: seq<Step>)
    requires s.userClosed && Possible(s, steps)
    ensures StaysClosed(s, Exec(s, steps))
    decreases |steps|
  {
    if steps != [] {
      StepStaysClosed(s, steps[0]);
      ClosedSessionStops(Apply(s, steps[0]), steps[1..]);
    }
  }
}
