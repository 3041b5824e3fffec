/**
  The execution gateway and the venue as one transition system. Every step is
  one uninterrupted stretch of the source: what one thread does under one lock,
  or one action of the venue. Any number of submitting and cancelling threads
  interleave with the account-event thread and with the venue.
  Models src/lighter_execution_gateway.cpp.
 */
module GatewayProtocol {
  import opened Wrappers
  import opened Orders

  // ---- Transactions ----------------------------------------------------

  datatype What = Create(idx: int) | CancelOrder(idx: int, marketId: int, orderIndex: int)

  /** `serial` counts signed transactions, so no two are equal. */
  datatype Tx = Tx(serial: nat, nonce: int, what: What)

  /** `idx` of a cancel is the order it was planned for; the signed payload is the market and the venue index. */
  datatype Job = SubmitJob(idx: int, clientOrderId: string) | CancelJob(idx: int, marketId: int, orderIndex: int)

  function WhatOf(job: Job): What {
    match job
    case SubmitJob(idx, _) => Create(idx)
    case CancelJob(idx, marketId, orderIndex) => CancelOrder(idx, marketId, orderIndex)
  }

  /** A thread that has drawn an index but not yet written its record, or one waiting for the transaction lock. */
  datatype Thread = Numbered(idx: int, rec: OrderRec) | Queued(job: Job)

  /** What the venue did with the transaction whose reply is awaited. */
  datatype Answer = Silent | Landed | Refused

  /**
    Progress of the one thread that holds the transaction lock. `quiet` notes that
    nothing was in flight when the venue served its nonce.
   */
  datatype TxSection =
    | Free
    | Holding(job: Job)
    | Awaiting(job: Job, tx: Tx, answer: Answer)
    | Resyncing(job: Job, refused: bool, served: Option<int>, quiet: bool)
    | Settling(job: Job, refused: bool)

  // ---- State -----------------------------------------------------------

  datatype Venue = Venue(nonce: int, inFlight: set<Tx>, accepted: seq<Tx>, landed: set<int>, resting: set<int>)

  /** Progress of the account-event thread through one order event. */
  datatype Io =
    | Idle
    | Filling(rec: OrderRec, e: OwnEvent, qty: real)
    | Updating(rec: OrderRec, e: OwnEvent)
    | Pruning(rec: OrderRec, e: OwnEvent)

  /** What has happened so far; nothing here influences a step. */
  datatype History = History(
    base: int,                   // the nonce the gateway was seeded with
    issued: map<int, OrderRec>,  // every order ever numbered
    bound: map<int, int>,        // venue index learned for an order
    signed: seq<Tx>,
    reports: seq<OrderEvent>,    // events that were not ignored
    log: seq<Emission>)

  datatype Sys = Sys(
    l: Ledger,
    counter: int,
    nextNonce: int,
    threads: map<nat, Thread>,
    section: TxSection,
    venue: Venue,
    io: Io,
    h: History,
    read: Reader)

  ghost predicate Init(s: Sys) {
    && s.l == Ledger(map[], map[])
    && s.counter >= 0
    && s.threads == map[] && s.section == Free && s.io == Idle
    && s.nextNonce == s.venue.nonce == s.h.base >= 0
    && s.venue == Venue(s.h.base, {}, [], {}, {})
    && s.h == History(s.h.base, map[], map[], [], [], [])
  }

  // ---- Steps -----------------------------------------------------------

  /** A submitting thread, up to the transaction lock, or a cancelling one. */
  datatype ThreadStep =
    | Number(clientOrderId: string, symbol: string, marketId: int, qty: real)
    | Record
    | Plan(clientOrderId: string)
    | Lock

  /** The thread that holds the transaction lock. */
  datatype LockStep =
    | SignFails
    | SignAndSend
    | ReplyAccepted
    | ReplyRefused
    | ReplyUnknown
    | ServeNonce
    | FinishResync
    | FailResync
    | Settle

  datatype VenueStep =
    | Accept(tx: Tx)
    | Refuse(tx: Tx)
    | Lose(tx: Tx)
    | LeaveBook(idx: int)

  /** The account-event thread. */
  datatype IoStep =
    | Deliver(e: OrderEvent)
    | EmitFill
    | EmitUpdate
    | Prune

  datatype Step =
    | ByThread(t: nat, thread: ThreadStep)
    | UnderLock(lock: LockStep)
    | AtVenue(venue: VenueStep)
    | OnEvents(io: IoStep)

  /** The event is not skipped: known order, no collision of venue indices. */
  predicate TakesEffect(s: Sys, e: OrderEvent) {
    && e.clientOrderIndex >= 0
    && e.clientOrderIndex in s.l.ordersByIndex
    && !Collides(s.l.ordersByIndex[e.clientOrderIndex], e)
  }

  predicate Enabled(s: Sys, step: Step) {
    match step
    case ByThread(t, thread) => ThreadEnabled(s, t, thread)
    case UnderLock(lock) => LockEnabled(s, lock)
    case AtVenue(venue) => VenueEnabled(s.venue, venue)
    case OnEvents(io) => IoEnabled(s.io, io)
  }

  predicate ThreadEnabled(s: Sys, t: nat, step: ThreadStep) {
    match step
    case Number(_, _, _, _) => t !in s.threads
    case Record => t in s.threads && s.threads[t].Numbered?
    case Plan(clientOrderId) => t !in s.threads && PlanCancel(s.l, clientOrderId).Send?
    case Lock => t in s.threads && s.threads[t].Queued? && s.section.Free?
  }

  predicate LockEnabled(s: Sys, step: LockStep) {
    match step
    case SignFails => s.section.Holding?
    case SignAndSend => s.section.Holding?
    case ReplyAccepted => s.section.Awaiting? && s.section.answer == Landed
    case ReplyRefused => s.section.Awaiting? && s.section.answer == Refused
    case ReplyUnknown => s.section.Awaiting?
    case ServeNonce => s.section.Resyncing? && s.section.served.None?
    case FinishResync => s.section.Resyncing? && s.section.served.Some?
    case FailResync => s.section.Resyncing?
    case Settle => s.section.Settling?
  }

  predicate VenueEnabled(v: Venue, step: VenueStep) {
    match step
    case Accept(tx) => tx in v.inFlight && tx.nonce == v.nonce
    case Refuse(tx) => tx in v.inFlight
    case Lose(tx) => tx in v.inFlight
    case LeaveBook(idx) => idx in v.resting
  }

  predicate IoEnabled(io: Io, step: IoStep) {
    match step
    case Deliver(_) => io.Idle?
    case EmitFill => io.Filling?
    case EmitUpdate => io.Updating?
    case Prune => io.Pruning?
  }

  function Drop(s: Sys, job: Job): Ledger {
    if job.SubmitJob? then Erase(s.l, job.idx, job.clientOrderId) else s.l
  }

  function Answered(section: TxSection, tx: Tx, answer: Answer): TxSection {
    if section.Awaiting? && section.tx == tx then section.(answer := answer) else section
  }

  function DeliverEvent(s: Sys, e: OrderEvent): Sys {
    if !TakesEffect(s, e) then s
    else
      var idx := e.clientOrderIndex;
      var rec := s.l.ordersByIndex[idx];
      var rec' := CreditRec(rec, e, s.read);
      s.(l := s.l.(ordersByIndex := s.l.ordersByIndex[idx := rec']),
         io := Filling(rec', e, NewFill(rec, e, s.read)),
         h := s.h.(reports := s.h.reports + [e],
                   bound := if rec'.orderIndex >= 0 then s.h.bound[idx := rec'.orderIndex] else s.h.bound))
  }

  function Apply(s: Sys, step: Step): Sys
    requires Enabled(s, step)
  {
    match step
    case ByThread(t, thread) => ApplyThread(s, t, thread)
    case UnderLock(lock) => ApplyLock(s, lock)
    case AtVenue(venue) => ApplyVenue(s, venue)
    case OnEvents(io) => ApplyIo(s, io)
  }

  function ApplyThread(s: Sys, t: nat, step: ThreadStep): Sys
    requires ThreadEnabled(s, t, step)
  {
    match step
    case Number(clientOrderId, symbol, marketId, qty) =>
      var rec := FreshRec(clientOrderId, symbol, marketId, qty);
      s.(counter := s.counter + 1,
         threads := s.threads[t := Numbered(s.counter, rec)],
         h := s.h.(issued := s.h.issued[s.counter := rec]))
    case Record =>
      var idx, rec := s.threads[t].idx, s.threads[t].rec;
      s.(l := Insert(s.l, idx, rec),
         threads := s.threads[t := Queued(SubmitJob(idx, rec.clientOrderId))])
    case Plan(clientOrderId) =>
      var plan := PlanCancel(s.l, clientOrderId);
      var job := CancelJob(s.l.clientIdToIndex[clientOrderId], plan.marketId, plan.orderIndex);
      s.(threads := s.threads[t := Queued(job)])
    case Lock =>
      s.(section := Holding(s.threads[t].job), threads := s.threads - {t})
  }

  function ApplyLock(s: Sys, step: LockStep): Sys
    requires LockEnabled(s, step)
  {
    match step
    case SignFails =>
      s.(section := Free, l := Drop(s, s.section.job))
    case SignAndSend =>
      var tx := Tx(|s.h.signed|, s.nextNonce, WhatOf(s.section.job));
      s.(section := Awaiting(s.section.job, tx, Silent),
         venue := s.venue.(inFlight := s.venue.inFlight + {tx}),
         h := s.h.(signed := s.h.signed + [tx]))
    case ReplyAccepted =>
      s.(section := Free, nextNonce := s.nextNonce + 1)
    case ReplyRefused =>
      s.(section := Resyncing(s.section.job, true, None, false))
    case ReplyUnknown =>
      s.(section := Resyncing(s.section.job, false, None, false))
    case ServeNonce =>
      s.(section := s.section.(served := Some(s.venue.nonce), quiet := s.venue.inFlight == {}))
    case FinishResync =>
      s.(section := Settling(s.section.job, s.section.refused), nextNonce := s.section.served.value)
    case FailResync =>
      s.(section := Settling(s.section.job, s.section.refused))
    case Settle =>
      s.(section := Free, l := if s.section.refused then Drop(s, s.section.job) else s.l)
  }

  function ApplyVenue(s: Sys, step: VenueStep): Sys
    requires VenueEnabled(s.venue, step)
  {
    match step
    case Accept(tx) =>
      var created := if tx.what.Create? then {tx.what.idx} else {};
      s.(section := Answered(s.section, tx, Landed),
         venue := Venue(s.venue.nonce + 1, s.venue.inFlight - {tx}, s.venue.accepted + [tx],
                        s.venue.landed + created, s.venue.resting + created))
    case Refuse(tx) =>
      s.(section := Answered(s.section, tx, Refused), venue := s.venue.(inFlight := s.venue.inFlight - {tx}))
    case Lose(tx) =>
      s.(venue := s.venue.(inFlight := s.venue.inFlight - {tx}))
    case LeaveBook(idx) =>
      s.(venue := s.venue.(resting := s.venue.resting - {idx}))
  }

  function ApplyIo(s: Sys, step: IoStep): Sys
    requires IoEnabled(s.io, step)
  {
    match step
    case Deliver(e) =>
      DeliverEvent(s, e)
    case EmitFill =>
      s.(io := Updating(s.io.rec, s.io.e),
         h := if s.io.qty > 0.0 then s.h.(log := s.h.log + [FillOf(s.io.rec, s.io.e, s.io.qty)]) else s.h)
    case EmitUpdate =>
      s.(io := if IsTerminal(s.io.e.status) then Pruning(s.io.rec, s.io.e) else Idle,
         h := s.h.(log := s.h.log + [UpdateOf(s.io.rec, s.io.e, s.read)]))
    case Prune =>
      s.(io := Idle, l := Erase(s.l, s.io.e.clientOrderIndex, s.io.rec.clientOrderId))
  }

  // ---- Which orders are live -------------------------------------------

  predicate JobOwns(job: Job, i: int) {
    job.SubmitJob? && job.idx == i
  }

  predicate ThreadOwns(th: Thread, i: int) {
    if th.Numbered? then th.idx == i else JobOwns(th.job, i)
  }

  predicate SectionOwns(section: TxSection, i: int) {
    !section.Free? && JobOwns(section.job, i)
  }

  /** No create for this index has reached the venue or is on its way. */
  ghost predicate Unsent(v: Venue, i: int) {
    i !in v.landed && forall tx :: tx in v.inFlight ==> tx.what != Create(i)
  }

  /** The submission in hand will end as one whose outcome is unknown. */
  predicate GivenUp(section: TxSection) {
    match section
    case Awaiting(_, _, answer) => answer.Silent?
    case Resyncing(_, refused, _, _) => !refused
    case Settling(_, refused) => !refused
    case _ => false
  }

  /** The order never landed and never will, and nothing is left that could erase its record. */
  ghost predicate Lost(s: Sys, i: int) {
    && Unsent(s.venue, i)
    && (forall t :: t in s.threads ==> !ThreadOwns(s.threads[t], i))
    && (SectionOwns(s.section, i) ==> GivenUp(s.section))
  }

  // ---- Assumptions about the caller and the venue ----------------------

  ghost predicate NotBeingRecorded(s: Sys, clientOrderId: string) {
    forall t :: t in s.threads && s.threads[t].Numbered? ==> s.threads[t].rec.clientOrderId != clientOrderId
  }

  /** Every order recorded under the client id, if there is any, is lost. */
  ghost predicate OnlyLost(s: Sys, clientOrderId: string) {
    forall i :: i in s.l.ordersByIndex && s.l.ordersByIndex[i].clientOrderId == clientOrderId ==> Lost(s, i)
  }

  /** Callers do not reuse the client order id of a live order. */
  ghost predicate CallerKeepsLiveIdsApart(s: Sys, step: Step) {
    step.ByThread? && step.thread.Number? ==>
      NotBeingRecorded(s, step.thread.clientOrderId) && OnlyLost(s, step.thread.clientOrderId)
  }

  /** Callers do not reuse a client order id that is still in the ledger. */
  ghost predicate CallerTakesFreshIds(s: Sys, step: Step) {
    step.ByThread? && step.thread.Number? ==>
      NotBeingRecorded(s, step.thread.clientOrderId) && step.thread.clientOrderId !in s.l.clientIdToIndex
  }

  /** An order is reported as ended only after it reached the venue and left the book. */
  ghost predicate VenueEndsTruthfully(s: Sys, step: Step) {
    step.OnEvents? && step.io.Deliver? && TakesEffect(s, step.io.e) && IsTerminal(step.io.e.status) ==>
      var idx := step.io.e.clientOrderIndex;
      idx in s.venue.landed && idx !in s.venue.resting
  }

  /** How much is assumed of a run: each case asks for what the one before it asks, and more. */
  datatype Care = TruthfulReports | LiveIdsApart | FreshIds

  ghost predicate Fair(care: Care, s: Sys, step: Step) {
    && VenueEndsTruthfully(s, step)
    && (care.LiveIdsApart? ==> CallerKeepsLiveIdsApart(s, step))
    && (care.FreshIds? ==> CallerTakesFreshIds(s, step))
  }

  // ---- Runs ------------------------------------------------------------

  ghost predicate Possible(s: Sys, steps: seq<Step>)
    decreases |steps|
  {
    steps == [] || (Enabled(s, steps[0]) && Possible(Apply(s, steps[0]), steps[1..]))
  }

  ghost function Exec(s: Sys, steps: seq<Step>): Sys
    requires Possible(s, steps)
    decreases |steps|
  {
    if steps == [] then s else Exec(Apply(s, steps[0]), steps[1..])
  }

  /** Every step of the run keeps what is assumed. */
  ghost predicate FairRun(care: Care, s: Sys, steps: seq<Step>)
    requires Possible(s, steps)
    decreases |steps|
  {
    steps == [] || (Fair(care, s, steps[0]) && FairRun(care, Apply(s, steps[0]), steps[1..]))
  }
}
