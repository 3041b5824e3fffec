/** What every step of the WebSocket session keeps. */
module SessionInvariants {
  import opened SessionModel

  // ---- The connection never gets lost ----------------------------------

  /** Outstanding operations of the connect chain and the read loop. */
  function Chain(ops: Ops): nat {
    ops[Resolve] + ops[Connect] + ops[TlsHandshake] + ops[WsHandshake] + ops[Read]
  }

  predicate OnlyReads(ops: Ops) {
    Chain(ops) == ops[Read]
  }

  /** Nothing is outstanding twice, and nothing is outstanding that should not be. */
  ghost predicate FlowCore(s: Session) {
    && (s.generation == 0 ==> s.now == NO_OPS)
    && (forall gen :: gen in s.older ==> gen < s.generation && s.older[gen][ReconnectWait] == 0)
    && s.now[ReconnectWait] == (if s.reconnectScheduled then 1 else 0)
    && s.posted.runs <= 1 && (s.posted.runs == 1 ==> s.generation == 0)
    && Chain(s.now) <= 1 && s.now[PingWait] <= 1 && s.now[Write] <= 1
    && (s.connected ==> !s.reconnectScheduled)
    && (s.generation >= 1 <==> s.hasStream)
    && (s.connected || s.reconnectScheduled || s.now[PingWait] == 1 || s.now[Write] == 1 ==>
          s.hasStream && OnlyReads(s.now))
    && (s.writeInFlight ==> s.now[Write] == 1)
    && (s.connected && s.now[Write] == 1 ==> s.writeInFlight)
  }

  /** Unless the user closed it, the session has something to wait for, and a live connection its watchdog. */
  predicate Alive(s: Session) {
    !s.userClosed ==>
      && (s.generation == 0 ==> s.posted.runs == 1)
      && (s.generation >= 1 && !s.reconnectScheduled ==> Chain(s.now) == 1)
      && (s.connected ==> s.now[PingWait] == 1)
  }

  ghost predicate FlowInv(s: Session) {
    FlowCore(s) && Alive(s) && (s.now[Read] == 1 ==> s.connected || s.reconnectScheduled || s.userClosed)
  }

  /** Only the writer and the lists may differ. */
  predicate SameFlow(s: Session, t: Session) {
    && t.generation == s.generation && t.hasStream == s.hasStream && t.connected == s.connected
    && t.reconnectScheduled == s.reconnectScheduled && t.userClosed == s.userClosed
    && t.posted == s.posted && t.older == s.older && t.now == s.now[Write := t.now[Write]]
  }

  /** Pumping starts at most one write and leaves everything else that is outstanding alone. */
  lemma PumpIsLocal(s: Session)
    requires FlowCore(s)
    ensures FlowCore(Pump(s)) && SameFlow(s, Pump(s))
  {}

  lemma FlushIsLocal(s: Session)
    requires FlowCore(s)
    ensures FlowCore(FlushTopics(s)) && SameFlow(s, FlushTopics(s))
  {
    PumpIsLocal(Filled(s));
  }

  lemma DispatchIsLocal(s: Session, m: Inbound)
    requires FlowCore(s)
    ensures FlowCore(Dispatch(s, m)) && SameFlow(s, Dispatch(s, m))
  {
    match m
    case Greeting => FlushIsLocal(Greeted(s));
    case PingMessage => PumpIsLocal(Enqueue(s, Pong));
    case _ =>
  }

  /** An error repairs a session that has just used up what it was waiting for. */
  lemma HandleErrorRevives(s: Session)
    requires FlowCore(s) && s.hasStream && OnlyReads(s.now)
    ensures FlowInv(HandleError(s, s.generation))
  {}

  lemma StartConnectKeepsFlow(s: Session)
    requires FlowCore(s) && s.posted.runs == 0 && s.now[ReconnectWait] == 0
    ensures FlowInv(StartConnect(s))
  {}

  /** A completion from an older generation changes nothing but the count of what is outstanding. */
  lemma OlderGenerationsChangeNothing(s: Session, op: Op, gen: nat, ok: bool, m: Inbound, silent: nat)
    requires Enabled(s, Complete(op, gen, ok, m, silent)) && gen != s.generation
    ensures gen in s.older
    ensures Apply(s, Complete(op, gen, ok, m, silent)) == s.(older := s.older[gen := Finished(s.older[gen], op)])
  {}

  lemma OlderKeepsFlow(s: Session, op: Op, gen: nat)
    requires FlowInv(s) && gen in s.older && gen != s.generation && op in s.older[gen]
    ensures FlowInv(s.(older := s.older[gen := Finished(s.older[gen], op)]))
  {}

  lemma ChainKeepsFlow(s: Session, op: Op, next: Op, ok: bool)
    requires FlowInv(s) && op in s.now
    requires (op, next) in {(Resolve, Connect), (Connect, TlsHandshake), (TlsHandshake, WsHandshake)}
    ensures FlowInv(Advance(Finish(s, op, s.generation), s.generation, ok, next))
  {
    if !ok { HandleErrorRevives(Finish(s, op, s.generation)); }
  }

  lemma HandshakeKeepsFlow(s: Session, ok: bool)
    requires FlowInv(s) && s.now[WsHandshake] > 0
    ensures FlowInv(OnHandshake(Finish(s, WsHandshake, s.generation), s.generation, ok))
  {
    if !ok { HandleErrorRevives(Finish(s, WsHandshake, s.generation)); }
  }

  lemma StaleReadKeepsFlow(s: Session, after: Session)
    requires FlowInv(s) && s.now[Read] > 0
    requires FlowCore(after) && SameFlow(Finish(s, Read, s.generation), after) && !after.connected
    requires after.reconnectScheduled || after.userClosed
    ensures FlowInv(after)
  {}

  lemma RereadKeepsFlow(s: Session, after: Session, delay: int)
    requires FlowInv(s) && s.now[Read] > 0
    requires FlowCore(after) && SameFlow(Finish(s, Read, s.generation), after) && after.connected
    ensures FlowInv(Begin(after.(reconnectDelayS := delay), Read))
  {}

  lemma ReadKeepsFlow(s: Session, ok: bool, m: Inbound)
    requires FlowInv(s) && s.now[Read] > 0
    ensures FlowInv(OnRead(Finish(s, Read, s.generation), s.generation, ok, m))
  {
    var used := Finish(s, Read, s.generation);
    if !ok || m == Malformed {
      HandleErrorRevives(used);
    } else {
      var after := Dispatch(used, m);
      DispatchIsLocal(used, m);
      if after.connected {
        RereadKeepsFlow(s, after, if after.ready then 1 else after.reconnectDelayS);
      } else {
        StaleReadKeepsFlow(s, after);
      }
    }
  }

  lemma WrittenKeepsFlow(s: Session, ok: bool)
    requires FlowInv(s) && s.now[Write] > 0
    ensures FlowInv(OnWritten(Finish(s, Write, s.generation), s.generation, ok))
  {
    var idle := Finish(s, Write, s.generation).(writeInFlight := false);
    if ok { PumpIsLocal(idle); } else { HandleErrorRevives(idle); }
  }

  lemma RewatchKeepsFlow(s: Session, after: Session)
    requires FlowInv(s) && PingWait in s.now
    requires FlowCore(after) && SameFlow(Finish(s, PingWait, s.generation), after)
    ensures FlowInv(Begin(after, PingWait))
  {}

  lemma PingTimerKeepsFlow(s: Session, ok: bool, silent: nat)
    requires FlowInv(s) && PingWait in s.now
    requires !ok ==> !s.connected || s.userClosed
    ensures FlowInv(OnPingTimer(Finish(s, PingWait, s.generation), s.generation, ok, silent))
  {
    var used := Finish(s, PingWait, s.generation);
    if ok && !s.userClosed {
      if s.connected && silent > ACTIVITY_TIMEOUT_IN_S {
        HandleErrorRevives(used);
      } else if s.connected && s.ready {
        PumpIsLocal(Enqueue(used, Ping));
        RewatchKeepsFlow(s, Pump(Enqueue(used, Ping)));
      } else {
        RewatchKeepsFlow(s, used);
      }
    }
  }

  lemma ReconnectTimerKeepsFlow(s: Session, ok: bool)
    requires FlowInv(s) && s.now[ReconnectWait] > 0
    requires !ok ==> s.userClosed
    ensures FlowInv(OnReconnectTimer(Finish(s, ReconnectWait, s.generation), s.generation, ok))
  {
    if ok { StartConnectKeepsFlow(Finish(s, ReconnectWait, s.generation).(reconnectScheduled := false)); }
  }

  lemma PostedKeepsFlow(s: Session, posted: Posted)
    requires FlowInv(s) && posted.runs == s.posted.runs
    ensures FlowInv(s.(posted := posted))
  {}

  lemma UnsubscribeKeepsFlow(s: Session, channel: string)
    requires FlowInv(s)
    ensures FlowInv(OnUnsubscribePosted(s, channel))
  {
    PumpIsLocal(Enqueue(s, Unsubscribe(channel)));
  }

  lemma RunKeepsFlow(s: Session)
    requires FlowInv(s) && s.posted.runs > 0
    ensures FlowInv(Perform(s, Run))
  {
    StartConnectKeepsFlow(s.(posted := s.posted.(runs := s.posted.runs - 1)));
  }

  lemma FlushTaskKeepsFlow(s: Session)
    requires FlowInv(s) && s.posted.flushes > 0
    ensures FlowInv(Perform(s, Flush))
  {
    PostedKeepsFlow(s, s.posted.(flushes := s.posted.flushes - 1));
    FlushIsLocal(s.(posted := s.posted.(flushes := s.posted.flushes - 1)));
  }

  lemma UnsubscribeTaskKeepsFlow(s: Session)
    requires FlowInv(s) && s.posted.unsubscribes != []
    ensures FlowInv(Perform(s, SendUnsubscribe))
  {
    PostedKeepsFlow(s, s.posted.(unsubscribes := s.posted.unsubscribes[1..]));
    UnsubscribeKeepsFlow(s.(posted := s.posted.(unsubscribes := s.posted.unsubscribes[1..])), s.posted.unsubscribes[0]);
  }

  lemma TaskKeepsFlow(s: Session, task: Task)
    requires FlowInv(s) && Enabled(s, RunTask(task))
    ensures FlowInv(Perform(s, task))
  {
    match task
    case Run => RunKeepsFlow(s);
    case Flush => FlushTaskKeepsFlow(s);
    case SendUnsubscribe => UnsubscribeTaskKeepsFlow(s);
    case Close =>
  }

  lemma CompleteKeepsFlow(s: Session, op: Op, gen: nat, ok: bool, m: Inbound, silent: nat)
    requires FlowInv(s) && Enabled(s, Complete(op, gen, ok, m, silent))
    ensures FlowInv(Apply(s, Complete(op, gen, ok, m, silent)))
  {
    if gen != s.generation {
      OlderGenerationsChangeNothing(s, op, gen, ok, m, silent);
      OlderKeepsFlow(s, op, gen);
    } else {
      match op
      case Resolve => ChainKeepsFlow(s, op, Connect, ok);
      case Connect => ChainKeepsFlow(s, op, TlsHandshake, ok);
      case TlsHandshake => ChainKeepsFlow(s, op, WsHandshake, ok);
      case WsHandshake => HandshakeKeepsFlow(s, ok);
      case Read => ReadKeepsFlow(s, ok, m);
      case Write => WrittenKeepsFlow(s, ok);
      case PingWait => PingTimerKeepsFlow(s, ok, silent);
      case ReconnectWait => ReconnectTimerKeepsFlow(s, ok);
    }
  }

  lemma SubscribeKeepsFlow(s: Session, channel: string)
    requires FlowInv(s)
    ensures FlowInv(SubscribeCall(s, channel))
  {}

  lemma UnsubscribeCallKeepsFlow(s: Session, channel: string)
    requires FlowInv(s)
    ensures FlowInv(UnsubscribeCall(s, channel))
  {}

  lemma StepKeepsFlow(s: Session, step: Step)
    requires FlowInv(s) && Enabled(s, step)
    ensures FlowInv(Apply(s, step))
  {
    match step
    case Complete(op, gen, ok, m, silent) => CompleteKeepsFlow(s, op, gen, ok, m, silent);
    case RunTask(task) => TaskKeepsFlow(s, task);
    case AskSubscribe(channel) => SubscribeKeepsFlow(s, channel);
    case AskUnsubscribe(channel) => UnsubscribeCallKeepsFlow(s, channel);
    case _ =>
  }
}
