/** Nonces, transactions sent, and venue indices over every run of the gateway protocol. */
module GatewayNonces {
  import opened Orders
  import opened GatewayProtocol
  import opened GatewayInvariants

  // ---- Nonces ----------------------------------------------------------

  ghost predicate NonceInv(s: Sys) {
    && 0 <= s.h.base <= s.nextNonce <= s.venue.nonce <= s.nextNonce + 1
    && s.venue.nonce == s.h.base + |s.venue.accepted|
    && (forall k :: 0 <= k < |s.venue.accepted| ==> s.venue.accepted[k].nonce == s.h.base + k)
    && (forall tx :: tx in s.venue.inFlight ==> tx.nonce <= s.nextNonce)
    && (s.section.Awaiting? ==>
          && s.section.tx.nonce == s.nextNonce
          && (s.section.answer == Landed ==> s.venue.nonce == s.nextNonce + 1))
    && (s.section.Resyncing? && s.section.served.Some? ==>
          var v := s.section.served.value;
          && s.nextNonce <= v <= s.venue.nonce <= v + 1
          && (s.section.quiet ==> v == s.venue.nonce && s.venue.inFlight == {}))
  }

  lemma LockKeepsNonces(s: Sys, step: LockStep)
    requires NonceInv(s) && LockEnabled(s, step)
    ensures NonceInv(ApplyLock(s, step)) && s.nextNonce <= ApplyLock(s, step).nextNonce
  {}

  lemma VenueKeepsNonces(s: Sys, step: VenueStep)
    requires NonceInv(s) && VenueEnabled(s.venue, step)
    ensures NonceInv(ApplyVenue(s, step)) && s.nextNonce == ApplyVenue(s, step).nextNonce
  {}

  /** The other steps touch neither nonces nor transactions. */
  lemma OthersKeepNonces(s: Sys, step: Step)
    requires NonceInv(s) && Enabled(s, step) && (step.ByThread? || step.OnEvents?)
    ensures NonceInv(Apply(s, step)) && s.nextNonce == Apply(s, step).nextNonce
  {}

  lemma StepKeepsNonces(s: Sys, step: Step)
    requires NonceInv(s) && Enabled(s, step)
    ensures NonceInv(Apply(s, step))
    ensures s.nextNonce <= Apply(s, step).nextNonce
  {
    match step
    case UnderLock(lock) => LockKeepsNonces(s, lock);
    case AtVenue(venue) => VenueKeepsNonces(s, venue);
    case _ => OthersKeepNonces(s, step);
  }

  /** A 200 reply, and a resync served while nothing was in flight, leave the two counters equal. */
  lemma CountersMeet(s: Sys, step: Step)
    requires NonceInv(s) && Enabled(s, step)
    requires step == UnderLock(ReplyAccepted) || (step == UnderLock(FinishResync) && s.section.quiet)
    ensures Apply(s, step).nextNonce == Apply(s, step).venue.nonce
  {}

  // ---- Every order is sent once, every cancel names a bound order ------

  ghost predicate NeverSigned(signed: seq<Tx>, i: int) {
    forall k :: 0 <= k < |signed| ==> signed[k].what != Create(i)
  }

  predicate CancelIsBound(h: History, idx: int, marketId: int, orderIndex: int) {
    && idx in h.bound && h.bound[idx] == orderIndex
    && idx in h.issued && h.issued[idx].marketId == marketId
  }

  predicate JobIsBound(h: History, job: Job) {
    job.CancelJob? ==> CancelIsBound(h, job.idx, job.marketId, job.orderIndex)
  }

  predicate TxIsBound(h: History, what: What) {
    what.CancelOrder? ==> CancelIsBound(h, what.idx, what.marketId, what.orderIndex)
  }

  ghost predicate BindingInv(s: Sys) {
    && (forall i :: i in s.h.bound ==> i in s.h.issued && s.h.bound[i] >= 0)
    && (forall i :: i in s.l.ordersByIndex ==>
          && (s.l.ordersByIndex[i].orderIndex >= 0 <==> i in s.h.bound)
          && (i in s.h.bound ==> s.h.bound[i] == s.l.ordersByIndex[i].orderIndex))
    && (forall t :: t in s.threads && s.threads[t].Numbered? ==> s.threads[t].idx !in s.h.bound)
    && (forall t :: t in s.threads && s.threads[t].Queued? ==> JobIsBound(s.h, s.threads[t].job))
    && (!s.section.Free? ==> JobIsBound(s.h, s.section.job))
    && (forall k :: 0 <= k < |s.h.signed| ==> TxIsBound(s.h, s.h.signed[k].what))
  }

  ghost predicate SentOnceInv(s: Sys) {
    && (forall k :: 0 <= k < |s.h.signed| && s.h.signed[k].what.Create? ==> s.h.signed[k].what.idx in s.h.issued)
    && (forall t, i :: t in s.threads && ThreadOwns(s.threads[t], i) ==> NeverSigned(s.h.signed, i))
    && (s.section.Holding? && s.section.job.SubmitJob? ==> NeverSigned(s.h.signed, s.section.job.idx))
    && (forall k, m :: 0 <= k < m < |s.h.signed| && s.h.signed[k].what.Create? ==>
          s.h.signed[m].what != s.h.signed[k].what)
  }

  lemma ThreadKeepsBindings(s: Sys, t: nat, step: ThreadStep)
    requires IndexInv(s) && BindingInv(s) && ThreadEnabled(s, t, step)
    ensures BindingInv(ApplyThread(s, t, step))
  {}

  lemma DeliverKeepsBindings(s: Sys, e: OrderEvent)
    requires IndexInv(s) && BindingInv(s) && s.io.Idle?
    ensures BindingInv(DeliverEvent(s, e))
  {}

  lemma LockKeepsBindings(s: Sys, step: LockStep)
    requires BindingInv(s) && LockEnabled(s, step)
    ensures BindingInv(ApplyLock(s, step))
  {}

  lemma VenueKeepsBindings(s: Sys, step: VenueStep)
    requires BindingInv(s) && VenueEnabled(s.venue, step)
    ensures BindingInv(ApplyVenue(s, step))
  {}

  lemma EmitKeepsBindings(s: Sys, step: IoStep)
    requires BindingInv(s) && IoEnabled(s.io, step) && !step.Deliver?
    ensures BindingInv(ApplyIo(s, step))
  {}

  lemma StepKeepsBindings(s: Sys, step: Step)
    requires IndexInv(s) && BindingInv(s) && Enabled(s, step)
    ensures BindingInv(Apply(s, step))
  {
    match step
    case ByThread(t, thread) => ThreadKeepsBindings(s, t, thread);
    case UnderLock(lock) => LockKeepsBindings(s, lock);
    case AtVenue(venue) => VenueKeepsBindings(s, venue);
    case OnEvents(io) =>
      if io.Deliver? { DeliverKeepsBindings(s, io.e); } else { EmitKeepsBindings(s, io); }
  }

  /** A venue index, once learned for an order, is never replaced. */
  lemma BindingsAreFinal(s: Sys, step: Step, i: int)
    requires BindingInv(s) && Enabled(s, step) && i in s.h.bound
    ensures i in Apply(s, step).h.bound && Apply(s, step).h.bound[i] == s.h.bound[i]
  {}

  lemma ThreadKeepsSentOnce(s: Sys, t: nat, step: ThreadStep)
    requires IndexInv(s) && SentOnceInv(s) && ThreadEnabled(s, t, step)
    ensures SentOnceInv(ApplyThread(s, t, step))
  {
    var s' := ApplyThread(s, t, step);
    forall u, i | u in s'.threads && ThreadOwns(s'.threads[u], i)
      ensures NeverSigned(s'.h.signed, i)
    {
      if u in s.threads && ThreadOwns(s.threads[u], i) {
        assert NeverSigned(s.h.signed, i);
      } else {
        assert i == s.counter;
        assert forall k :: 0 <= k < |s.h.signed| && s.h.signed[k].what.Create? ==> s.h.signed[k].what.idx != i;
      }
    }
    if step.Lock? && s.threads[t].job.SubmitJob? {
      assert ThreadOwns(s.threads[t], s.threads[t].job.idx);
    }
  }

  lemma SendKeepsSentOnce(s: Sys)
    requires IndexInv(s) && SentOnceInv(s) && s.section.Holding?
    ensures SentOnceInv(ApplyLock(s, SignAndSend))
  {
    forall t, i | t in s.threads && ThreadOwns(s.threads[t], i)
      ensures NeverSigned(ApplyLock(s, SignAndSend).h.signed, i)
    {
      assert !SectionOwns(s.section, i) && NeverSigned(s.h.signed, i);
    }
  }

  lemma OthersKeepSentOnce(s: Sys, step: Step)
    requires SentOnceInv(s) && Enabled(s, step)
    requires !step.ByThread? && !(step.UnderLock? && step.lock.SignAndSend?)
    ensures SentOnceInv(Apply(s, step))
  {}

  lemma StepKeepsSentOnce(s: Sys, step: Step)
    requires IndexInv(s) && SentOnceInv(s) && Enabled(s, step)
    ensures SentOnceInv(Apply(s, step))
  {
    match step
    case ByThread(t, thread) => ThreadKeepsSentOnce(s, t, thread);
    case UnderLock(SignAndSend) => SendKeepsSentOnce(s);
    case _ => OthersKeepSentOnce(s, step);
  }
}
