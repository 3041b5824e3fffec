/**
  The gateway's methods, run without interruption, are runs of the protocol: the
  states their contracts describe are states the protocol reaches.
 */
module GatewayRuns {
  import opened Wrappers
  import opened Orders
  import opened GatewayProtocol
  import opened GatewayTheorems
  import Gateways

  // ---- Account messages ------------------------------------------------

  lemma EventIsARun(s0: Sys, s: Sys, e: OrderEvent) returns (s': Sys)
    requires Leads(s0, s) && s.io.Idle?
    ensures Leads(s0, s') && s'.io.Idle?
    ensures (s'.l, s'.h.log) == Gateways.AfterEvent(s.l, s.h.log, e, s.read)
    ensures s'.h.reports == s.h.reports + if s'.h.log == s.h.log then [] else [e]
    ensures s'.nextNonce == s.nextNonce && s'.section == s.section && s'.venue == s.venue && s'.read == s.read
  {
    s' := LeadsOn(s0, s, OnEvents(Deliver(e)));
    if TakesEffect(s, e) {
      s' := LeadsOn(s0, s', OnEvents(EmitFill));
      s' := LeadsOn(s0, s', OnEvents(EmitUpdate));
      if IsTerminal(e.status) {
        s' := LeadsOn(s0, s', OnEvents(Prune));
      }
    }
  }

  /** OnAccountMessage ends where the account-event thread ends after the same events. */
  lemma {:induction false} MessageIsARun(s0: Sys, s: Sys, es: seq<OrderEvent>) returns (s': Sys)
    requires Leads(s0, s) && s.io.Idle?
    ensures Leads(s0, s') && s'.io.Idle?
    ensures (s'.l, s'.h.log) == Gateways.AfterEvents(s.l, s.h.log, es, s.read)
    ensures s'.nextNonce == s.nextNonce && s'.section == s.section && s'.venue == s.venue && s'.read == s.read
  {
    if es == [] {
      s' := s;
    } else {
      s' := MessageIsARun(s0, s, es[..|es| - 1]);
      s' := EventIsARun(s0, s', es[|es| - 1]);
    }
  }

  // ---- Transactions ----------------------------------------------------

  /**
    What can become of one call: the signer fails, or the venue gives a verdict, the
    transaction lands or not, and the resync after a failure succeeds or not.
   */
  datatype Outcome = SignerFails | Sent(verdict: Gateways.Verdict, lands: bool, resyncs: bool)

  /** A transaction lands only at the nonce the venue expects; a 200 means that it landed, a reject that it did not. */
  predicate CanHappen(s: Sys, o: Outcome) {
    o.Sent? ==>
      && (o.lands ==> s.nextNonce == s.venue.nonce)
      && (o.verdict.Taken? ==> o.lands)
      && (o.verdict.Refused? ==> !o.lands)
  }

  function VenueNonceAfter(s: Sys, o: Outcome): int {
    if o.Sent? && o.lands then s.venue.nonce + 1 else s.venue.nonce
  }

  function NonceAfter(s: Sys, o: Outcome): int {
    if o.SignerFails? then s.nextNonce
    else if o.verdict.Taken? then s.nextNonce + 1
    else if o.resyncs then VenueNonceAfter(s, o)
    else s.nextNonce
  }

  function SignedAfter(s: Sys, what: What, o: Outcome): seq<Tx> {
    if o.SignerFails? then s.h.signed else s.h.signed + [Tx(|s.h.signed|, s.nextNonce, what)]
  }

  lemma ReplyIsARun(s0: Sys, s: Sys, tx: Tx, o: Outcome) returns (s': Sys)
    requires Leads(s0, s) && s.section.Awaiting? && s.section.tx == tx && s.section.answer.Silent?
    requires tx in s.venue.inFlight && tx.nonce == s.nextNonce && o.Sent? && CanHappen(s, o)
    ensures Leads(s0, s') && s'.h.signed == s.h.signed && s'.counter == s.counter && s'.l == s.l
    ensures s'.nextNonce == NonceAfter(s, o) && s'.venue.nonce == VenueNonceAfter(s, o)
    ensures s'.section == if o.verdict.Taken? then Free else Settling(s.section.job, o.verdict.Refused?)
  {
    s' := s;
    if o.lands { s' := LeadsOn(s0, s', AtVenue(Accept(tx))); }
    match o.verdict {
      case Taken =>
        s' := LeadsOn(s0, s', UnderLock(ReplyAccepted));
      case Refused(_, _) =>
        s' := LeadsOn(s0, s', AtVenue(Refuse(tx)));
        s' := LeadsOn(s0, s', UnderLock(ReplyRefused));
      case Unknown =>
        s' := LeadsOn(s0, s', UnderLock(ReplyUnknown));
    }
    if !o.verdict.Taken? {
      s' := ResyncIsARun(s0, s', o.resyncs);
    }
  }

  lemma ResyncIsARun(s0: Sys, s: Sys, resyncs: bool) returns (s': Sys)
    requires Leads(s0, s) && s.section.Resyncing? && s.section.served.None?
    ensures Leads(s0, s') && s'.section == Settling(s.section.job, s.section.refused)
    ensures s'.l == s.l && s'.h == s.h && s'.venue == s.venue && s'.counter == s.counter
    ensures s'.nextNonce == if resyncs then s.venue.nonce else s.nextNonce
  {
    if resyncs {
      s' := LeadsOn(s0, s, UnderLock(ServeNonce));
      s' := LeadsOn(s0, s', UnderLock(FinishResync));
    } else {
      s' := LeadsOn(s0, s, UnderLock(FailResync));
    }
  }

  /** With the lock held, each outcome ends as the methods that send a transaction say. */
  lemma TransactionIsARun(s0: Sys, s: Sys, o: Outcome) returns (s': Sys)
    requires Leads(s0, s) && s.section.Holding? && CanHappen(s, o)
    ensures Leads(s0, s') && s'.section.Free? && s'.counter == s.counter
    ensures s'.l == if o.SignerFails? || o.verdict.Refused? then Drop(s, s.section.job) else s.l
    ensures s'.nextNonce == NonceAfter(s, o) && s'.venue.nonce == VenueNonceAfter(s, o)
    ensures s'.h.signed == SignedAfter(s, WhatOf(s.section.job), o)
  {
    if o.SignerFails? {
      s' := LeadsOn(s0, s, UnderLock(SignFails));
    } else {
      s' := LeadsOn(s0, s, UnderLock(SignAndSend));
      s' := ReplyIsARun(s0, s', s'.section.tx, o);
      if !o.verdict.Taken? {
        s' := LeadsOn(s0, s', UnderLock(Settle));
      }
    }
  }

  /** Place is a run: numbered, recorded, locked, sent and settled. */
  lemma PlacementIsARun(s: Sys, t: nat, clientOrderId: string, symbol: string, marketId: int, qty: real, o: Outcome)
    returns (s': Sys)
    requires t !in s.threads && s.section.Free? && CanHappen(s, o)
    ensures Leads(s, s') && s'.section.Free? && s'.counter == s.counter + 1
    ensures var inserted := Insert(s.l, s.counter, FreshRec(clientOrderId, symbol, marketId, qty));
            s'.l == if o.SignerFails? || o.verdict.Refused? then Erase(inserted, s.counter, clientOrderId) else inserted
    ensures s'.nextNonce == NonceAfter(s, o) && s'.venue.nonce == VenueNonceAfter(s, o)
    ensures s'.h.signed == SignedAfter(s, Create(s.counter), o)
  {
    assert Possible(s, []) && Exec(s, []) == s;
    s' := LeadsOn(s, s, ByThread(t, Number(clientOrderId, symbol, marketId, qty)));
    s' := LeadsOn(s, s', ByThread(t, Record));
    s' := LeadsOn(s, s', ByThread(t, Lock));
    s' := TransactionIsARun(s, s', o);
  }

  /** Cancel of an acknowledged order is a run that leaves the ledger alone. */
  lemma CancellationIsARun(s: Sys, t: nat, clientOrderId: string, o: Outcome) returns (s': Sys)
    requires t !in s.threads && s.section.Free? && CanHappen(s, o)
    requires PlanCancel(s.l, clientOrderId).Send?
    ensures Leads(s, s') && s'.section.Free? && s'.l == s.l && s'.counter == s.counter
    ensures s'.nextNonce == NonceAfter(s, o) && s'.venue.nonce == VenueNonceAfter(s, o)
    ensures var plan := PlanCancel(s.l, clientOrderId);
            var what := CancelOrder(s.l.clientIdToIndex[clientOrderId], plan.marketId, plan.orderIndex);
            s'.h.signed == SignedAfter(s, what, o)
  {
    assert Possible(s, []) && Exec(s, []) == s;
    s' := LeadsOn(s, s, ByThread(t, Plan(clientOrderId)));
    s' := LeadsOn(s, s', ByThread(t, Lock));
    s' := TransactionIsARun(s, s', o);
  }
}
