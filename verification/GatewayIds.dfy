/**
  Client order ids over the runs of the gateway protocol: which orders their id still
  leads to, and when the two ledger maps are inverse to each other.
 */
module GatewayIds {
  import opened Orders
  import opened GatewayProtocol
  import opened GatewayInvariants

  // ---- Live orders are found by their id -------------------------------

  /** Every order that is not lost is found by its client id, and every id leads to a record that bears it. */
  ghost predicate LedgerInv(s: Sys) {
    && (forall i :: i in s.l.ordersByIndex && !Lost(s, i) ==> Recorded(s.l, i, s.l.ordersByIndex[i].clientOrderId))
    && (forall x :: x in s.l.clientIdToIndex ==> Holds(s.l, s.l.clientIdToIndex[x], x))
  }

  /** No two orders are about to be recorded under one client id. */
  ghost predicate NumberedApart(s: Sys) {
    forall t, u :: t in s.threads && u in s.threads && s.threads[t].Numbered? && s.threads[u].Numbered? && t != u ==>
      s.threads[t].rec.clientOrderId != s.threads[u].rec.clientOrderId
  }

  /** The client ids about to be recorded belong to no live order. */
  ghost predicate ApartIdsInv(s: Sys) {
    && (forall t :: t in s.threads && s.threads[t].Numbered? ==> OnlyLost(s, s.threads[t].rec.clientOrderId))
    && NumberedApart(s)
  }

  ghost predicate IdInv(s: Sys) {
    LedgerInv(s) && ApartIdsInv(s)
  }

  /** Nothing brings a lost order back. */
  lemma LostStaysLost(s: Sys, step: Step, i: int)
    requires OwnershipInv(s) && Enabled(s, step) && i in s.h.issued && Lost(s, i)
    ensures Lost(Apply(s, step), i)
  {
    match step
    case ByThread(t, thread) => ThreadKeepsLost(s, t, thread, i);
    case UnderLock(lock) =>
    case AtVenue(venue) =>
    case OnEvents(io) =>
  }

  lemma ThreadKeepsLost(s: Sys, t: nat, step: ThreadStep, i: int)
    requires IndexInv(s) && ThreadEnabled(s, t, step) && i in s.h.issued && Lost(s, i)
    ensures Lost(ApplyThread(s, t, step), i)
  {
    if step.Lock? { assert !ThreadOwns(s.threads[t], i); }
    if step.Record? { assert !ThreadOwns(s.threads[t], i); }
  }

  lemma LostStayLost(s: Sys, step: Step)
    requires OwnershipInv(s) && Enabled(s, step)
    ensures forall i :: i in s.h.issued && Lost(s, i) ==> Lost(Apply(s, step), i)
  {
    forall i | i in s.h.issued && Lost(s, i)
      ensures Lost(Apply(s, step), i)
    {
      LostStaysLost(s, step, i);
    }
  }

  /**
    Recording an order keeps every live order within reach of its id if and only if no
    live order holds the id that is taken.
   */
  lemma RecordKeepsLedgerIffIdNotLive(s: Sys, t: nat)
    requires IndexInv(s) && LedgerInv(s) && ThreadEnabled(s, t, Record)
    ensures LedgerInv(ApplyThread(s, t, Record)) <==> OnlyLost(s, s.threads[t].rec.clientOrderId)
  {
    var idx, id := s.threads[t].idx, s.threads[t].rec.clientOrderId;
    var s' := ApplyThread(s, t, Record);
    RecordMovesNothing(s, t);
    if !OnlyLost(s, id) {
      var i :| i in s.l.ordersByIndex && s.l.ordersByIndex[i].clientOrderId == id && !Lost(s, i);
      assert i in s'.l.ordersByIndex && !Lost(s', i) && !Recorded(s'.l, i, id);
    }
  }

  lemma RecordMovesNothing(s: Sys, t: nat)
    requires ThreadEnabled(s, t, Record)
    ensures forall i :: Lost(ApplyThread(s, t, Record), i) <==> Lost(s, i)
  {
    var s' := ApplyThread(s, t, Record);
    assert forall u, i :: u in s.threads ==> (ThreadOwns(s'.threads[u], i) <==> ThreadOwns(s.threads[u], i));
  }

  lemma RecordKeepsIds(s: Sys, t: nat)
    requires IndexInv(s) && IdInv(s) && ThreadEnabled(s, t, Record)
    ensures IdInv(ApplyThread(s, t, Record))
  {
    RecordKeepsLedgerIffIdNotLive(s, t);
    RecordMovesNothing(s, t);
  }

  /** Erasing a live order under its own index and id. */
  lemma EraseKeepsLedger(s: Sys, s': Sys, i: int)
    requires IndexInv(s) && IdInv(s) && i in s.l.ordersByIndex && !Lost(s, i)
    requires s'.l == Erase(s.l, i, s.l.ordersByIndex[i].clientOrderId)
    requires forall k :: k in s.h.issued && Lost(s, k) ==> Lost(s', k)
    ensures LedgerInv(s')
  {}

  /** Erasing only takes away from the orders an id about to be recorded must stay clear of. */
  lemma FewerRecordsStayApart(s: Sys, s': Sys)
    requires IndexInv(s) && ApartIdsInv(s)
    requires forall k :: k in s.h.issued && Lost(s, k) ==> Lost(s', k)
    requires forall k :: k in s'.l.ordersByIndex ==>
               k in s.l.ordersByIndex && s'.l.ordersByIndex[k].clientOrderId == s.l.ordersByIndex[k].clientOrderId
    requires forall t :: t in s'.threads && s'.threads[t].Numbered? ==> t in s.threads && s'.threads[t] == s.threads[t]
    ensures ApartIdsInv(s')
  {}

  lemma DropKeepsIds(s: Sys, step: LockStep)
    requires OwnershipInv(s) && IdInv(s) && LockEnabled(s, step)
    requires step.SignFails? || (step.Settle? && s.section.refused)
    ensures IdInv(ApplyLock(s, step))
  {
    var s' := ApplyLock(s, step);
    LostStayLost(s, UnderLock(step));
    FewerRecordsStayApart(s, s');
    if s.section.job.SubmitJob? {
      assert SectionOwns(s.section, s.section.job.idx);
      EraseKeepsLedger(s, s', s.section.job.idx);
    }
  }

  lemma PruneKeepsIds(s: Sys)
    requires OwnershipInv(s) && IdInv(s) && s.io.Pruning?
    ensures IdInv(ApplyIo(s, Prune))
  {
    var s' := ApplyIo(s, Prune);
    LostStayLost(s, OnEvents(Prune));
    FewerRecordsStayApart(s, s');
    EraseKeepsLedger(s, s', s.io.e.clientOrderIndex);
  }

  /** The steps that neither record nor erase. */
  lemma QuietStepKeepsIds(s: Sys, s': Sys)
    requires IndexInv(s) && IdInv(s)
    requires forall k :: k in s.h.issued && Lost(s, k) ==> Lost(s', k)
    requires s'.l.clientIdToIndex == s.l.clientIdToIndex && s'.l.ordersByIndex.Keys == s.l.ordersByIndex.Keys
    requires forall k :: k in s.l.ordersByIndex ==>
               s'.l.ordersByIndex[k].clientOrderId == s.l.ordersByIndex[k].clientOrderId
    requires forall t :: t in s'.threads && s'.threads[t].Numbered? ==> t in s.threads && s'.threads[t] == s.threads[t]
    ensures IdInv(s')
  {}

  lemma NumberKeepsIds(s: Sys, t: nat, step: ThreadStep)
    requires OwnershipInv(s) && IdInv(s) && ThreadEnabled(s, t, step) && step.Number?
    requires CallerKeepsLiveIdsApart(s, ByThread(t, step))
    ensures IdInv(ApplyThread(s, t, step))
  {
    LostStayLost(s, ByThread(t, step));
  }

  lemma ThreadKeepsIds(s: Sys, t: nat, step: ThreadStep)
    requires OwnershipInv(s) && IdInv(s) && ThreadEnabled(s, t, step) && CallerKeepsLiveIdsApart(s, ByThread(t, step))
    ensures IdInv(ApplyThread(s, t, step))
  {
    match step
    case Number(_, _, _, _) => NumberKeepsIds(s, t, step);
    case Record => RecordKeepsIds(s, t);
    case _ =>
      LostStayLost(s, ByThread(t, step));
      QuietStepKeepsIds(s, ApplyThread(s, t, step));
  }

  lemma LockKeepsIds(s: Sys, step: LockStep)
    requires OwnershipInv(s) && IdInv(s) && LockEnabled(s, step)
    ensures IdInv(ApplyLock(s, step))
  {
    if step.SignFails? || (step.Settle? && s.section.refused) {
      DropKeepsIds(s, step);
    } else {
      LostStayLost(s, UnderLock(step));
      QuietStepKeepsIds(s, ApplyLock(s, step));
    }
  }

  lemma IoKeepsIds(s: Sys, step: IoStep)
    requires OwnershipInv(s) && IdInv(s) && IoEnabled(s.io, step)
    ensures IdInv(ApplyIo(s, step))
  {
    if step.Prune? {
      PruneKeepsIds(s);
    } else {
      LostStayLost(s, OnEvents(step));
      QuietStepKeepsIds(s, ApplyIo(s, step));
    }
  }

  lemma StepKeepsIds(s: Sys, step: Step)
    requires OwnershipInv(s) && IdInv(s) && Enabled(s, step) && CallerKeepsLiveIdsApart(s, step)
    ensures IdInv(Apply(s, step))
  {
    match step
    case ByThread(t, thread) => ThreadKeepsIds(s, t, thread);
    case UnderLock(lock) => LockKeepsIds(s, lock);
    case AtVenue(venue) =>
      LostStayLost(s, step);
      QuietStepKeepsIds(s, ApplyVenue(s, venue));
    case OnEvents(io) => IoKeepsIds(s, io);
  }

  // ---- With fresh ids the maps are inverse -----------------------------

  /** The client ids about to be recorded are not in the ledger. */
  ghost predicate InverseInv(s: Sys) {
    && Bijection(s.l)
    && (forall t :: t in s.threads && s.threads[t].Numbered? ==> s.threads[t].rec.clientOrderId !in s.l.clientIdToIndex)
    && NumberedApart(s)
  }

  /** Taking only fresh ids keeps live ones apart. */
  lemma FreshIdsAreApart(s: Sys, step: Step)
    requires InverseInv(s) && CallerTakesFreshIds(s, step)
    ensures CallerKeepsLiveIdsApart(s, step)
  {}

  lemma StepKeepsInverse(s: Sys, step: Step)
    requires OwnershipInv(s) && InverseInv(s) && Enabled(s, step) && CallerTakesFreshIds(s, step)
    ensures InverseInv(Apply(s, step))
  {
    match step
    case ByThread(t, thread) => ThreadKeepsInverse(s, t, thread);
    case UnderLock(lock) => LockKeepsInverse(s, lock);
    case AtVenue(venue) =>
    case OnEvents(io) => IoKeepsInverse(s, io);
  }

  lemma ThreadKeepsInverse(s: Sys, t: nat, step: ThreadStep)
    requires OwnershipInv(s) && InverseInv(s) && ThreadEnabled(s, t, step) && CallerTakesFreshIds(s, ByThread(t, step))
    ensures InverseInv(ApplyThread(s, t, step))
  {
    if step.Record? { InsertKeepsBijectionIffIdFree(s.l, s.threads[t].idx, s.threads[t].rec); }
  }

  lemma LockKeepsInverse(s: Sys, step: LockStep)
    requires OwnershipInv(s) && InverseInv(s) && LockEnabled(s, step)
    ensures InverseInv(ApplyLock(s, step))
  {}

  lemma IoKeepsInverse(s: Sys, step: IoStep)
    requires OwnershipInv(s) && InverseInv(s) && IoEnabled(s.io, step)
    ensures InverseInv(ApplyIo(s, step))
  {}
}
