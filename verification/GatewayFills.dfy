/** Credited fills and callbacks over every run of the gateway protocol. */
module GatewayFills {
  import opened Orders
  import opened GatewayProtocol
  import opened GatewayInvariants

  /** A fill that has been credited in the ledger but not yet handed to the caller. */
  function Pending(io: Io, i: int): real {
    if io.Filling? && io.e.clientOrderIndex == i then io.qty else 0.0
  }

  ghost function Credited(issued: map<int, OrderRec>, reports: seq<OrderEvent>, i: int, read: Reader): real
    requires i in issued
  {
    MaxCredit(reports, i, issued[i].submittedQty, read)
  }

  ghost predicate Untouched(s: Sys, i: int) {
    && (forall e :: e in s.h.reports ==> e.clientOrderIndex != i)
    && (forall m :: m in s.h.log ==> m.idx != i)
    && (!s.io.Idle? ==> s.io.e.clientOrderIndex != i)
  }

  // ---- Conservation ----------------------------------------------------

  ghost predicate FillInv(s: Sys) {
    && (forall e :: e in s.h.reports ==> e.clientOrderIndex in s.h.issued)
    && (forall m :: m in s.h.log ==> m.idx in s.h.issued)
    && (forall t :: t in s.threads && s.threads[t].Numbered? ==> Untouched(s, s.threads[t].idx))
    && (s.io.Filling? ==> s.io.qty >= 0.0)
    && (forall i :: i in s.h.issued ==>
          FillSum(s.h.log, i) + Pending(s.io, i) == Credited(s.h.issued, s.h.reports, i, s.read))
    && (forall i :: i in s.l.ordersByIndex && i in s.h.issued ==>
          s.l.ordersByIndex[i].cumFilledBase == Credited(s.h.issued, s.h.reports, i, s.read))
  }

  lemma {:induction false} UntouchedHasNoCredit(reports: seq<OrderEvent>, i: int, qty: real, read: Reader)
    requires forall e :: e in reports ==> e.clientOrderIndex != i
    ensures MaxCredit(reports, i, qty, read) == 0.0
  {
    if reports != [] { UntouchedHasNoCredit(reports[..|reports| - 1], i, qty, read); }
  }

  lemma {:induction false} UntouchedHasNoFills(log: seq<Emission>, i: int)
    requires forall m :: m in log ==> m.idx != i
    ensures FillSum(log, i) == 0.0
  {
    if log != [] { UntouchedHasNoFills(log[..|log| - 1], i); }
  }

  lemma ThreadKeepsFills(s: Sys, t: nat, step: ThreadStep)
    requires IndexInv(s) && FillInv(s) && ThreadEnabled(s, t, step)
    ensures FillInv(ApplyThread(s, t, step))
  {
    if step.Number? {
      UntouchedHasNoCredit(s.h.reports, s.counter, step.qty, s.read);
      UntouchedHasNoFills(s.h.log, s.counter);
    }
    if step.Record? {
      UntouchedHasNoCredit(s.h.reports, s.threads[t].idx, s.threads[t].rec.submittedQty, s.read);
    }
  }

  lemma DeliverKeepsFills(s: Sys, e: OrderEvent)
    requires IndexInv(s) && FillInv(s) && s.io.Idle?
    ensures FillInv(DeliverEvent(s, e))
  {
    if TakesEffect(s, e) {
      forall i | i in s.h.issued
        ensures Credited(s.h.issued, s.h.reports + [e], i, s.read) ==
                var before := Credited(s.h.issued, s.h.reports, i, s.read);
                var clamped := Clamp(s.h.issued[i].submittedQty, s.read(e.amount));
                if e.clientOrderIndex == i && clamped > before then clamped else before
      {
        MaxCreditSnoc(s.h.reports, e, i, s.h.issued[i].submittedQty, s.read);
      }
    }
  }

  lemma EmitKeepsFills(s: Sys, step: IoStep)
    requires IndexInv(s) && FillInv(s) && IoEnabled(s.io, step) && !step.Deliver?
    ensures FillInv(ApplyIo(s, step))
  {
    if step.EmitFill? {
      forall i { FillSumSnoc(s.h.log, FillOf(s.io.rec, s.io.e, s.io.qty), i); }
    }
    if step.EmitUpdate? {
      forall i { FillSumSnoc(s.h.log, UpdateOf(s.io.rec, s.io.e, s.read), i); }
    }
  }

  /** The steps that touch neither callbacks nor reports only ever drop records. */
  lemma LockKeepsFills(s: Sys, step: LockStep)
    requires FillInv(s) && LockEnabled(s, step)
    ensures FillInv(ApplyLock(s, step))
  {}

  lemma VenueKeepsFills(s: Sys, step: VenueStep)
    requires FillInv(s) && VenueEnabled(s.venue, step)
    ensures FillInv(ApplyVenue(s, step))
  {}

  lemma StepKeepsFills(s: Sys, step: Step)
    requires IndexInv(s) && FillInv(s) && Enabled(s, step)
    ensures FillInv(Apply(s, step))
  {
    match step
    case ByThread(t, thread) => ThreadKeepsFills(s, t, thread);
    case UnderLock(lock) => LockKeepsFills(s, lock);
    case AtVenue(venue) => VenueKeepsFills(s, venue);
    case OnEvents(io) =>
      if io.Deliver? { DeliverKeepsFills(s, io.e); } else { EmitKeepsFills(s, io); }
  }

  // ---- Terminal updates ------------------------------------------------

  /** Callbacks carry the order's own names, and fill ids are made of index and amount. */
  ghost predicate Attributed(issued: map<int, OrderRec>, m: Emission) {
    && 0 <= m.idx && m.idx in issued
    && m.clientOrderId == issued[m.idx].clientOrderId && m.symbol == issued[m.idx].symbol
    && (m.Fill? ==> m.qty > 0.0 && m.fillId == FillId(m.idx, m.amount))
  }

  ghost predicate EndInv(log: seq<Emission>, orders: map<int, OrderRec>, io: Io) {
    && (forall k, n :: 0 <= k < n < |log| && EndsOrder(log[k]) ==> log[n].idx != log[k].idx)
    && (forall m :: m in log && EndsOrder(m) && m.idx in orders ==> io.Pruning? && io.e.clientOrderIndex == m.idx)
    && (forall m :: m in log && EndsOrder(m) && (io.Filling? || io.Updating?) ==> m.idx != io.e.clientOrderIndex)
  }

  lemma RecordKeepsEnds(s: Sys, t: nat)
    requires FillInv(s) && EndInv(s.h.log, s.l.ordersByIndex, s.io) && ThreadEnabled(s, t, Record)
    ensures EndInv(s.h.log, ApplyThread(s, t, Record).l.ordersByIndex, s.io)
  {}

  lemma IoKeepsEnds(s: Sys, step: IoStep)
    requires EndInv(s.h.log, s.l.ordersByIndex, s.io) && IoEnabled(s.io, step)
    ensures var s' := ApplyIo(s, step); EndInv(s'.h.log, s'.l.ordersByIndex, s'.io)
  {}

  lemma IoKeepsAttribution(s: Sys, step: IoStep)
    requires EventInv(s) && IoEnabled(s.io, step)
    requires forall m :: m in s.h.log ==> Attributed(s.h.issued, m)
    ensures forall m :: m in ApplyIo(s, step).h.log ==> Attributed(s.h.issued, m)
  {}

  // ---- Fill ids --------------------------------------------------------

  /** The amount a fill callback raised its order to. */
  ghost function RaisedTo(issued: map<int, OrderRec>, m: Emission, read: Reader): real
    requires m.Fill?
  {
    if m.idx in issued then Clamp(issued[m.idx].submittedQty, read(m.amount)) else 0.0
  }

  /** Successive fills of an order raise it further and further, up to what has been credited. */
  ghost predicate RaiseInv(issued: map<int, OrderRec>, reports: seq<OrderEvent>, log: seq<Emission>, io: Io,
                           read: Reader) {
    && (forall k, n :: 0 <= k < n < |log| && log[k].Fill? && log[n].Fill? && log[k].idx == log[n].idx ==>
          RaisedTo(issued, log[k], read) < RaisedTo(issued, log[n], read))
    && (forall m :: m in log && m.Fill? && m.idx in issued ==>
          RaisedTo(issued, m, read) <= Credited(issued, reports, m.idx, read))
    && (io.Filling? && io.qty > 0.0 && io.e.clientOrderIndex in issued ==>
          var i := io.e.clientOrderIndex;
          && Clamp(issued[i].submittedQty, read(io.e.amount)) == Credited(issued, reports, i, read)
          && forall m :: m in log && m.Fill? && m.idx == i ==>
              RaisedTo(issued, m, read) < Credited(issued, reports, i, read))
  }

  ghost predicate RaisesIn(s: Sys) {
    RaiseInv(s.h.issued, s.h.reports, s.h.log, s.io, s.read)
  }

  lemma NumberKeepsRaises(s: Sys, t: nat, step: ThreadStep)
    requires IndexInv(s) && FillInv(s) && RaisesIn(s) && ThreadEnabled(s, t, step) && step.Number?
    ensures RaisesIn(ApplyThread(s, t, step))
  {}

  lemma DeliverKeepsRaises(s: Sys, e: OrderEvent)
    requires IndexInv(s) && FillInv(s) && RaisesIn(s) && s.io.Idle?
    ensures RaisesIn(DeliverEvent(s, e))
  {
    if TakesEffect(s, e) {
      forall i | i in s.h.issued
        ensures Credited(s.h.issued, s.h.reports + [e], i, s.read) ==
                var before := Credited(s.h.issued, s.h.reports, i, s.read);
                var clamped := Clamp(s.h.issued[i].submittedQty, s.read(e.amount));
                if e.clientOrderIndex == i && clamped > before then clamped else before
      {
        MaxCreditSnoc(s.h.reports, e, i, s.h.issued[i].submittedQty, s.read);
      }
    }
  }

  lemma EmitKeepsRaises(s: Sys, step: IoStep)
    requires EventInv(s) && RaisesIn(s) && IoEnabled(s.io, step) && !step.Deliver?
    ensures RaisesIn(ApplyIo(s, step))
  {}

  // ---- Every end is reported -------------------------------------------

  ghost predicate EndIsLogged(log: seq<Emission>, i: int) {
    exists m :: m in log && EndsOrder(m) && m.idx == i
  }

  /** The event whose update has not been handed out yet. */
  predicate InHand(io: Io, e: OrderEvent) {
    (io.Filling? || io.Updating?) && io.e == e
  }

  /** An accepted report of an end has its update in the log, or is being handled. */
  ghost predicate ReportedInv(reports: seq<OrderEvent>, log: seq<Emission>, io: Io) {
    forall e :: e in reports && IsTerminal(e.status) ==> EndIsLogged(log, e.clientOrderIndex) || InHand(io, e)
  }

  lemma LoggedStaysLogged(log: seq<Emission>, m: Emission)
    ensures forall i :: EndIsLogged(log, i) ==> EndIsLogged(log + [m], i)
    ensures EndsOrder(m) ==> EndIsLogged(log + [m], m.idx)
  {
    assert m in log + [m] && forall k :: k in log ==> k in log + [m];
  }

  lemma IoKeepsReported(s: Sys, step: IoStep)
    requires ReportedInv(s.h.reports, s.h.log, s.io) && IoEnabled(s.io, step)
    ensures var s' := ApplyIo(s, step); ReportedInv(s'.h.reports, s'.h.log, s'.io)
  {
    if step.EmitFill? { LoggedStaysLogged(s.h.log, FillOf(s.io.rec, s.io.e, s.io.qty)); }
    if step.EmitUpdate? { LoggedStaysLogged(s.h.log, UpdateOf(s.io.rec, s.io.e, s.read)); }
  }

  // ---- Together --------------------------------------------------------

  ghost predicate LogInv(s: Sys) {
    && (forall m :: m in s.h.log ==> Attributed(s.h.issued, m))
    && EndInv(s.h.log, s.l.ordersByIndex, s.io)
    && ReportedInv(s.h.reports, s.h.log, s.io)
    && RaisesIn(s)
  }

  lemma LockKeepsLog(s: Sys, step: LockStep)
    requires LogInv(s) && LockEnabled(s, step)
    ensures LogInv(ApplyLock(s, step))
  {}

  lemma ThreadKeepsLog(s: Sys, t: nat, step: ThreadStep)
    requires LogInv(s) && ThreadEnabled(s, t, step) && (step.Plan? || step.Lock?)
    ensures LogInv(ApplyThread(s, t, step))
  {}

  lemma VenueKeepsLog(s: Sys, step: VenueStep)
    requires LogInv(s) && VenueEnabled(s.venue, step)
    ensures LogInv(ApplyVenue(s, step))
  {}

  lemma StepKeepsLog(s: Sys, step: Step)
    requires IndexInv(s) && FillInv(s) && LogInv(s) && Enabled(s, step)
    ensures LogInv(Apply(s, step))
  {
    match step
    case ByThread(t, Number(_, _, _, _)) => NumberKeepsRaises(s, t, step.thread);
    case ByThread(t, Record) => RecordKeepsEnds(s, t);
    case OnEvents(io) =>
      IoKeepsEnds(s, io);
      IoKeepsAttribution(s, io);
      IoKeepsReported(s, io);
      if io.Deliver? { DeliverKeepsRaises(s, io.e); } else { EmitKeepsRaises(s, io); }
    case ByThread(t, thread) => ThreadKeepsLog(s, t, thread);
    case UnderLock(lock) => LockKeepsLog(s, lock);
    case AtVenue(venue) => VenueKeepsLog(s, venue);
  }
}
