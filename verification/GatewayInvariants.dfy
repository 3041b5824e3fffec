/**
  What the steps of the gateway protocol keep: the bookkeeping of indices, whatever
  the caller and the venue do, and the records of live orders, while the venue
  reports truthfully.
 */
module GatewayInvariants {
  import opened Orders
  import opened GatewayProtocol

  // ---- Indices ---------------------------------------------------------

  predicate SameOrder(rec: OrderRec, issued: OrderRec) {
    && rec.clientOrderId == issued.clientOrderId && rec.symbol == issued.symbol
    && rec.marketId == issued.marketId && rec.submittedQty == issued.submittedQty
  }

  /** An index is drawn once, and every record is the order that was issued under its index. */
  ghost predicate IssueInv(s: Sys) {
    && s.counter >= 0
    && (forall i :: i in s.h.issued ==>
          && 0 <= i < s.counter
          && s.h.issued[i].orderIndex == -1 && s.h.issued[i].cumFilledBase == 0.0)
    && (forall i :: i in s.l.ordersByIndex ==> i in s.h.issued && SameOrder(s.l.ordersByIndex[i], s.h.issued[i]))
  }

  /** Orders that have an index but no record yet. */
  ghost predicate NumberedInv(s: Sys) {
    forall t :: t in s.threads && s.threads[t].Numbered? ==>
      var idx := s.threads[t].idx;
      idx in s.h.issued && s.h.issued[idx] == s.threads[t].rec && idx !in s.l.ordersByIndex
  }

  /** No two threads work on the submission of one index. */
  ghost predicate ApartInv(s: Sys) {
    && (forall t, i :: t in s.threads && ThreadOwns(s.threads[t], i) ==> i in s.h.issued && !SectionOwns(s.section, i))
    && (forall i :: SectionOwns(s.section, i) ==> i in s.h.issued)
    && (forall t, u, i :: t in s.threads && u in s.threads && t != u && ThreadOwns(s.threads[t], i) ==>
          !ThreadOwns(s.threads[u], i))
  }

  /** The event in hand concerns an issued order. */
  ghost predicate EventInv(s: Sys) {
    !s.io.Idle? ==>
      var idx := s.io.e.clientOrderIndex;
      && idx in s.h.issued && SameOrder(s.io.rec, s.h.issued[idx])
      && (s.io.Pruning? ==> IsTerminal(s.io.e.status))
  }

  ghost predicate IndexInv(s: Sys) {
    IssueInv(s) && NumberedInv(s) && ApartInv(s) && EventInv(s)
  }

  lemma RecordKeepsIndex(s: Sys, t: nat)
    requires IndexInv(s) && ThreadEnabled(s, t, Record)
    ensures IndexInv(ApplyThread(s, t, Record))
  {
    assert ThreadOwns(s.threads[t], s.threads[t].idx);
  }

  lemma EnterKeepsIndex(s: Sys, t: nat)
    requires IndexInv(s) && ThreadEnabled(s, t, Lock)
    ensures IndexInv(ApplyThread(s, t, Lock))
  {
    assert forall i :: JobOwns(s.threads[t].job, i) ==> ThreadOwns(s.threads[t], i);
  }

  lemma BeginKeepsIndex(s: Sys, t: nat, step: ThreadStep)
    requires IndexInv(s) && ThreadEnabled(s, t, step) && (step.Number? || step.Plan?)
    ensures IndexInv(ApplyThread(s, t, step))
  {}

  lemma ThreadKeepsIndex(s: Sys, t: nat, step: ThreadStep)
    requires IndexInv(s) && ThreadEnabled(s, t, step)
    ensures IndexInv(ApplyThread(s, t, step))
  {
    match step
    case Record => RecordKeepsIndex(s, t);
    case Lock => EnterKeepsIndex(s, t);
    case _ => BeginKeepsIndex(s, t, step);
  }

  lemma LockKeepsIndex(s: Sys, step: LockStep)
    requires IndexInv(s) && LockEnabled(s, step)
    ensures IndexInv(ApplyLock(s, step))
  {
    assert forall i :: SectionOwns(ApplyLock(s, step).section, i) ==> SectionOwns(s.section, i);
  }

  lemma VenueKeepsIndex(s: Sys, step: VenueStep)
    requires IndexInv(s) && VenueEnabled(s.venue, step)
    ensures IndexInv(ApplyVenue(s, step))
  {}

  lemma IoKeepsIndex(s: Sys, step: IoStep)
    requires IndexInv(s) && IoEnabled(s.io, step)
    ensures IndexInv(ApplyIo(s, step))
  {}

  lemma StepKeepsIndex(s: Sys, step: Step)
    requires IndexInv(s) && Enabled(s, step)
    ensures IndexInv(Apply(s, step))
  {
    match step
    case ByThread(t, thread) => ThreadKeepsIndex(s, t, thread);
    case UnderLock(lock) => LockKeepsIndex(s, lock);
    case AtVenue(venue) => VenueKeepsIndex(s, venue);
    case OnEvents(io) => IoKeepsIndex(s, io);
  }

  // ---- Records of live orders ------------------------------------------

  predicate Holds(l: Ledger, idx: int, clientOrderId: string) {
    idx in l.ordersByIndex && l.ordersByIndex[idx].clientOrderId == clientOrderId
  }

  /** A submission that has not been sent, or was refused: its record can be erased without loss. */
  ghost predicate Erasable(s: Sys, job: Job) {
    job.SubmitJob? ==> Holds(s.l, job.idx, job.clientOrderId) && Unsent(s.venue, job.idx)
  }

  ghost predicate WaitingInv(s: Sys) {
    forall t :: t in s.threads ==>
      if s.threads[t].Numbered? then Unsent(s.venue, s.threads[t].idx) else Erasable(s, s.threads[t].job)
  }

  ghost predicate SectionInv(s: Sys) {
    match s.section
    case Free => true
    case Holding(job) => Erasable(s, job)
    case Awaiting(job, tx, answer) =>
      && tx.what == WhatOf(job)
      && (answer != Silent ==> tx !in s.venue.inFlight)
      && (job.SubmitJob? ==>
            && (job.idx !in s.venue.landed ==> Holds(s.l, job.idx, job.clientOrderId))
            && (answer == Landed ==> job.idx in s.venue.landed)
            && (answer == Refused ==> Unsent(s.venue, job.idx))
            && (forall other :: other in s.venue.inFlight && other.what == tx.what ==> other == tx))
    case Resyncing(job, refused, _, _) => refused ==> Erasable(s, job)
    case Settling(job, refused) => refused ==> Erasable(s, job)
  }

  /** Whatever rests or may still land has its record. */
  ghost predicate VenueInv(s: Sys) {
    && (forall tx :: tx in s.venue.inFlight ==> tx.serial < |s.h.signed| && s.h.signed[tx.serial] == tx)
    && (forall tx :: tx in s.venue.inFlight && tx.what.Create? ==>
          tx.what.idx !in s.venue.landed && tx.what.idx in s.l.ordersByIndex)
    && (forall tx, other :: tx in s.venue.inFlight && other in s.venue.inFlight ==>
          tx.what.Create? && other.what == tx.what ==> other == tx)
    && (forall i :: i in s.venue.landed ==> i in s.h.issued)
    && (forall i :: i in s.venue.resting ==> i in s.venue.landed && i in s.l.ordersByIndex)
  }

  /** An order whose end is being reported has left the book, and its record is still there. */
  ghost predicate EndedInv(s: Sys) {
    !s.io.Idle? && IsTerminal(s.io.e.status) ==>
      var idx := s.io.e.clientOrderIndex;
      idx in s.venue.landed && idx !in s.venue.resting && Holds(s.l, idx, s.io.rec.clientOrderId)
  }

  ghost predicate RecordInv(s: Sys) {
    WaitingInv(s) && SectionInv(s) && VenueInv(s) && EndedInv(s)
  }

  ghost predicate OwnershipInv(s: Sys) {
    IndexInv(s) && RecordInv(s)
  }

  lemma ThreadKeepsRecords(s: Sys, t: nat, step: ThreadStep)
    requires OwnershipInv(s) && ThreadEnabled(s, t, step)
    ensures RecordInv(ApplyThread(s, t, step))
  {}

  /** Erasing the record of a submission that never reached the venue. */
  lemma DropKeepsRecords(s: Sys, job: Job)
    requires OwnershipInv(s) && !s.section.Free? && s.section.job == job && Erasable(s, job)
    ensures RecordInv(s.(section := Free, l := Drop(s, job)))
  {
    if job.SubmitJob? {
      assert SectionOwns(s.section, job.idx);
      forall t | t in s.threads && s.threads[t].Queued? && s.threads[t].job.SubmitJob?
        ensures s.threads[t].job.idx != job.idx
      {
        assert ThreadOwns(s.threads[t], s.threads[t].job.idx);
      }
    }
  }

  lemma SendKeepsRecords(s: Sys)
    requires OwnershipInv(s) && LockEnabled(s, SignAndSend)
    ensures RecordInv(ApplyLock(s, SignAndSend))
  {
    var s' := ApplyLock(s, SignAndSend);
    forall t, i | t in s.threads && ThreadOwns(s.threads[t], i) && Unsent(s.venue, i)
      ensures Unsent(s'.venue, i)
    {
      assert !SectionOwns(s.section, i);
    }
  }

  lemma ReplyKeepsRecords(s: Sys, step: LockStep)
    requires OwnershipInv(s) && LockEnabled(s, step)
    requires !step.SignFails? && !step.SignAndSend? && !step.Settle?
    ensures RecordInv(ApplyLock(s, step))
  {}

  lemma VenueKeepsRecords(s: Sys, step: VenueStep)
    requires OwnershipInv(s) && VenueEnabled(s.venue, step)
    ensures RecordInv(ApplyVenue(s, step))
  {}

  lemma DeliverKeepsRecords(s: Sys, e: OrderEvent)
    requires OwnershipInv(s) && s.io.Idle? && VenueEndsTruthfully(s, OnEvents(Deliver(e)))
    ensures RecordInv(DeliverEvent(s, e))
  {}

  lemma EmitKeepsRecords(s: Sys, step: IoStep)
    requires OwnershipInv(s) && IoEnabled(s.io, step) && !step.Deliver?
    ensures RecordInv(ApplyIo(s, step))
  {}

  lemma StepKeepsOwnership(s: Sys, step: Step)
    requires OwnershipInv(s) && Enabled(s, step) && VenueEndsTruthfully(s, step)
    ensures OwnershipInv(Apply(s, step))
  {
    StepKeepsIndex(s, step);
    match step
    case ByThread(t, thread) => ThreadKeepsRecords(s, t, thread);
    case UnderLock(lock) =>
      match lock {
        case SignFails => DropKeepsRecords(s, s.section.job);
        case SignAndSend => SendKeepsRecords(s);
        case Settle =>
          if s.section.refused { DropKeepsRecords(s, s.section.job); }
        case _ => ReplyKeepsRecords(s, lock);
      }
    case AtVenue(venue) => VenueKeepsRecords(s, venue);
    case OnEvents(io) =>
      if io.Deliver? { DeliverKeepsRecords(s, io.e); } else { EmitKeepsRecords(s, io); }
  }
}
