/**
  The WebSocket session: its fields, and what each strand handler does to them.
  Completions that Asio still owes the session are counted by generation; the
  environment may finish any of them, in any order. Models src/lighter_ws_session.cpp.
 */
module SessionModel {

  const ACTIVITY_TIMEOUT_IN_S := 45
  const RECONNECT_DELAY_MAX_IN_S := 30

  datatype Frame = Subscribe(channel: string) | Unsubscribe(channel: string) | Ping | Pong

  /** A parsed inbound message; `Malformed` is text that does not parse. */
  datatype Inbound = Greeting | PingMessage | PongMessage | Data | NotAnObject | Malformed

  /** The asynchronous operations of one generation. */
  datatype Op = Resolve | Connect | TlsHandshake | WsHandshake | Read | Write | PingWait | ReconnectWait

  /** The operations outstanding in one generation. */
  type Ops = multiset<Op>

  const NO_OPS: Ops := multiset{}

  function Started(ops: Ops, op: Op): Ops {
    ops[op := ops[op] + 1]
  }

  function Finished(ops: Ops, op: Op): Ops
    requires op in ops
  {
    ops[op := ops[op] - 1]
  }

  /** Handlers posted to the strand and not yet run. */
  datatype Posted = Posted(runs: nat, flushes: nat, closes: nat, unsubscribes: seq<string>)

  /**
    The frames of the current generation: queued when it began, queued since, and handed
    to the stream; whether its greeting has arrived and whether it has failed. `errors`
    counts the errors that led to a reconnect since the last greeting of any generation.
   */
  datatype Trace = Trace(atStart: seq<Frame>, enqueued: seq<Frame>, written: seq<Frame>, greeted: bool, failed: bool,
                         errors: nat)

  datatype Session = Session(
    generation: nat,
    hasStream: bool,
    open: bool,
    connected: bool,
    ready: bool,
    connectedFlag: bool,
    writeInFlight: bool,
    reconnectScheduled: bool,
    userClosed: bool,
    reconnectDelayS: int,
    outboundQueue: seq<Frame>,
    subscriptions: seq<string>,
    pendingTopics: seq<string>,
    now: Ops,                  // outstanding in the current generation
    older: map<nat, Ops>,      // outstanding in each generation before it
    posted: Posted,
    trace: Trace)

  /** Right after run(). */
  const START := Session(0, false, false, false, false, false, false, false, false, 1, [], [], [],
                         NO_OPS, map[], Posted(1, 0, 0, []), Trace([], [], [], false, false, 0))

  function Outstanding(s: Session, gen: nat): Ops {
    if gen == s.generation then s.now else if gen in s.older then s.older[gen] else NO_OPS
  }

  function Begin(s: Session, op: Op): Session {
    s.(now := Started(s.now, op))
  }

  // ---- Write pump ------------------------------------------------------

  function Enqueue(s: Session, f: Frame): Session {
    s.(outboundQueue := s.outboundQueue + [f], trace := s.trace.(enqueued := s.trace.enqueued + [f]))
  }

  function Pump(s: Session): Session {
    if s.writeInFlight || !s.connected || !s.hasStream || !s.open || s.outboundQueue == [] then s
    else
      s.(outboundQueue := s.outboundQueue[1..],
         writeInFlight := true,
         now := Started(s.now, Write),
         trace := s.trace.(written := s.trace.written + [s.outboundQueue[0]]))
  }

  function OnWritten(s: Session, gen: nat, ok: bool): Session {
    if gen != s.generation then s
    else
      var idle := s.(writeInFlight := false);
      if ok then Pump(idle) else HandleError(idle, gen)
  }

  // ---- Topics ----------------------------------------------------------

  /** What the caller wants, in the order it was asked for. */
  function Wanted(s: Session): seq<string> {
    s.subscriptions + s.pendingTopics
  }

  function Without(topics: seq<string>, channel: string): seq<string> {
    if topics == [] then []
    else if topics[0] == channel then Without(topics[1..], channel)
    else [topics[0]] + Without(topics[1..], channel)
  }

  function WithoutFirst(topics: seq<string>, channel: string): seq<string> {
    if topics == [] then []
    else if topics[0] == channel then topics[1..]
    else [topics[0]] + WithoutFirst(topics[1..], channel)
  }

  function AddTopic(s: Session, channel: string): Session {
    var known := channel in s.subscriptions || channel in s.pendingTopics;
    s.(pendingTopics := s.pendingTopics + if known then [] else [channel])
  }

  function RemoveTopic(s: Session, channel: string): Session {
    s.(pendingTopics := Without(s.pendingTopics, channel), subscriptions := WithoutFirst(s.subscriptions, channel))
  }

  function Subscribes(channels: seq<string>): seq<Frame> {
    seq(|channels|, k requires 0 <= k < |channels| => Subscribe(channels[k]))
  }

  /** Every pending topic becomes a subscription, with a frame in the queue. */
  function Filled(s: Session): Session {
    var frames := Subscribes(s.pendingTopics);
    s.(subscriptions := s.subscriptions + s.pendingTopics,
       pendingTopics := [],
       outboundQueue := s.outboundQueue + frames,
       trace := s.trace.(enqueued := s.trace.enqueued + frames))
  }

  function FlushTopics(s: Session): Session {
    if !s.connected || !s.ready then s else Pump(Filled(s))
  }

  function OnUnsubscribePosted(s: Session, channel: string): Session {
    if !s.connected then s else Pump(Enqueue(s, Unsubscribe(channel)))
  }

  // ---- Connect chain ---------------------------------------------------

  /** What startConnect and handleError both begin with. */
  function Down(s: Session): Session {
    s.(connected := false, ready := false, connectedFlag := false, writeInFlight := false)
  }

  /** A new stream and the first link of its chain: what is outstanding now belongs to an older generation. */
  function NextGeneration(s: Session): Session {
    s.(generation := s.generation + 1,
       hasStream := true, open := false,
       now := Started(NO_OPS, Resolve), older := s.older[s.generation := s.now],
       trace := Trace(s.outboundQueue, [], [], false, false, s.trace.errors))
  }

  function StartConnect(s: Session): Session {
    if s.userClosed then s else NextGeneration(Down(s))
  }

  /** One link of the chain: on success the next operation starts. */
  function Advance(s: Session, gen: nat, ok: bool, next: Op): Session {
    if gen != s.generation then s
    else if !ok then HandleError(s, gen)
    else Begin(s, next)
  }

  function OnHandshake(s: Session, gen: nat, ok: bool): Session {
    if gen != s.generation then s
    else if !ok then HandleError(s, gen)
    else if s.userClosed then s.(open := true)
    else Begin(Begin(s.(connected := true, open := true), PingWait), Read)
  }

  // ---- Inbound ---------------------------------------------------------

  function Greeted(s: Session): Session {
    s.(ready := true, connectedFlag := true, reconnectDelayS := 1, trace := s.trace.(greeted := true, errors := 0))
  }

  function Dispatch(s: Session, m: Inbound): Session {
    match m
    case Greeting => FlushTopics(Greeted(s))
    case PingMessage => Pump(Enqueue(s, Pong))
    case _ => s
  }

  function OnRead(s: Session, gen: nat, ok: bool, m: Inbound): Session {
    if gen != s.generation then s
    else if !ok || m == Malformed then HandleError(s, gen)
    else
      var dispatched := Dispatch(s, m);
      if gen != dispatched.generation || dispatched.reconnectScheduled || !dispatched.connected then dispatched
      else
        Begin(dispatched.(reconnectDelayS := if dispatched.ready then 1 else dispatched.reconnectDelayS), Read)
  }

  // ---- Watchdog, error, close ------------------------------------------

  function OnPingTimer(s: Session, gen: nat, ok: bool, silent: nat): Session {
    if !ok || gen != s.generation || s.userClosed then s
    else if s.connected && silent > ACTIVITY_TIMEOUT_IN_S then HandleError(s, gen)
    else
      var pinged := if s.connected && s.ready then Pump(Enqueue(s, Ping)) else s;
      Begin(pinged, PingWait)
  }

  function Doubled(delay: int): int {
    if delay * 2 < RECONNECT_DELAY_MAX_IN_S then delay * 2 else RECONNECT_DELAY_MAX_IN_S
  }

  function HandleError(s: Session, gen: nat): Session {
    if gen != s.generation || s.reconnectScheduled || s.userClosed then s
    else
      Down(s).(
         reconnectScheduled := true,
         outboundQueue := [],
         pendingTopics := s.subscriptions + s.pendingTopics,
         subscriptions := [],
         reconnectDelayS := Doubled(s.reconnectDelayS),
         now := Started(s.now, ReconnectWait),
         trace := s.trace.(failed := true, errors := s.trace.errors + 1))
  }

  function OnReconnectTimer(s: Session, gen: nat, ok: bool): Session {
    if gen != s.generation then s
    else
      var due := s.(reconnectScheduled := false);
      if !ok || s.userClosed then due else StartConnect(due)
  }

  function CloseByUser(s: Session): Session {
    s.(userClosed := true)
  }

  // ---- Calls from any thread --------------------------------------------

  function SubscribeCall(s: Session, channel: string): Session {
    AddTopic(s.(posted := s.posted.(flushes := s.posted.flushes + 1)), channel)
  }

  /** The frame is posted only if the channel had been sent; a pending one is simply forgotten. */
  function UnsubscribeCall(s: Session, channel: string): Session {
    var frames := if channel in s.subscriptions then [channel] else [];
    RemoveTopic(s.(posted := s.posted.(unsubscribes := s.posted.unsubscribes + frames)), channel)
  }

  // ---- Steps -----------------------------------------------------------

  datatype Task = Run | Flush | SendUnsubscribe | Close

  /** `ok`, `m` and `silent` are what the completion brings, where its handler looks at them. */
  datatype Step =
    | Complete(op: Op, gen: nat, ok: bool, m: Inbound, silent: nat)
    | RunTask(task: Task)
    | AskSubscribe(channel: string)
    | AskUnsubscribe(channel: string)
    | AskClose
    | StreamFails

  /** Timers fail only when cancelled: by an error, by a newer generation, or by the user's close. */
  predicate Enabled(s: Session, step: Step) {
    match step
    case Complete(op, gen, ok, _, _) =>
      && op in Outstanding(s, gen)
      && (op == PingWait && !ok ==> gen != s.generation || !s.connected || s.userClosed)
      && (op == ReconnectWait && !ok ==> s.userClosed)
    case RunTask(Run) => s.posted.runs > 0
    case RunTask(Flush) => s.posted.flushes > 0
    case RunTask(SendUnsubscribe) => s.posted.unsubscribes != []
    case RunTask(Close) => s.posted.closes > 0
    case _ => true
  }

  /** The completion is no longer outstanding. */
  function Finish(s: Session, op: Op, gen: nat): Session
    requires op in Outstanding(s, gen)
  {
    if gen == s.generation then s.(now := Finished(s.now, op))
    else s.(older := s.older[gen := Finished(s.older[gen], op)])
  }

  function Handle(s: Session, op: Op, gen: nat, ok: bool, m: Inbound, silent: nat): Session {
    match op
    case Resolve => Advance(s, gen, ok, Connect)
    case Connect => Advance(s, gen, ok, TlsHandshake)
    case TlsHandshake => Advance(s, gen, ok, WsHandshake)
    case WsHandshake => OnHandshake(s, gen, ok)
    case Read => OnRead(s, gen, ok, m)
    case Write => OnWritten(s, gen, ok)
    case PingWait => OnPingTimer(s, gen, ok, silent)
    case ReconnectWait => OnReconnectTimer(s, gen, ok)
  }

  function Perform(s: Session, task: Task): Session
    requires Enabled(s, RunTask(task))
  {
    match task
    case Run => StartConnect(s.(posted := s.posted.(runs := s.posted.runs - 1)))
    case Flush => FlushTopics(s.(posted := s.posted.(flushes := s.posted.flushes - 1)))
    case SendUnsubscribe =>
      OnUnsubscribePosted(s.(posted := s.posted.(unsubscribes := s.posted.unsubscribes[1..])), s.posted.unsubscribes[0])
    case Close => CloseByUser(s.(posted := s.posted.(closes := s.posted.closes - 1)))
  }

  function Apply(s: Session, step: Step): Session
    requires Enabled(s, step)
  {
    match step
    case Complete(op, gen, ok, m, silent) => Handle(Finish(s, op, gen), op, gen, ok, m, silent)
    case RunTask(task) => Perform(s, task)
    case AskSubscribe(channel) => SubscribeCall(s, channel)
    case AskUnsubscribe(channel) => UnsubscribeCall(s, channel)
    case AskClose => s.(posted := s.posted.(closes := s.posted.closes + 1))
    case StreamFails => s.(open := false)
  }

  // ---- Runs ------------------------------------------------------------

  predicate Possible(s: Session, steps: seq<Step>)
    decreases |steps|
  {
    steps == [] || (Enabled(s, steps[0]) && Possible(Apply(s, steps[0]), steps[1..]))
  }

  function Exec(s: Session, steps: seq<Step>): Session
    requires Possible(s, steps)
    decreases |steps|
  {
    if steps == [] then s else Exec(Apply(s, steps[0]), steps[1..])
  }
}
