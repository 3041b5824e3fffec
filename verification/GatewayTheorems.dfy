/**
  What holds in every state that a run of the gateway protocol can reach. Only the
  hold on live orders depends on how the caller behaves and what the venue reports.
 */
module GatewayTheorems {
  import opened Orders
  import opened GatewayProtocol
  import opened GatewayInvariants
  import opened GatewayNonces
  import opened GatewayFills
  import opened GatewayIds
  import Text

  ghost predicate Inv(s: Sys) {
    IndexInv(s) && NonceInv(s) && BindingInv(s) && SentOnceInv(s) && FillInv(s) && LogInv(s)
  }

  lemma InitHasInv(s: Sys)
    requires Init(s)
    ensures Inv(s) && OwnershipInv(s) && IdInv(s) && InverseInv(s)
  {}

  lemma StepKeepsInv(s: Sys, step: Step)
    requires Inv(s) && Enabled(s, step)
    ensures Inv(Apply(s, step))
  {
    StepKeepsIndex(s, step);
    StepKeepsNonces(s, step);
    StepKeepsBindings(s, step);
    StepKeepsSentOnce(s, step);
    StepKeepsFills(s, step);
    StepKeepsLog(s, step);
  }

  lemma {:induction false} RunKeepsInv(s: Sys, steps: seq<Step>)
    requires Inv(s) && Possible(s, steps)
    ensures Inv(Exec(s, steps))
    decreases |steps|
  {
    if steps != [] {
      StepKeepsInv(s, steps[0]);
      RunKeepsInv(Apply(s, steps[0]), steps[1..]);
    }
  }

  lemma {:induction false} FairRunKeepsOwnership(care: Care, s: Sys, steps: seq<Step>)
    requires OwnershipInv(s) && Possible(s, steps) && FairRun(care, s, steps)
    ensures OwnershipInv(Exec(s, steps))
    decreases |steps|
  {
    if steps != [] {
      StepKeepsOwnership(s, steps[0]);
      FairRunKeepsOwnership(care, Apply(s, steps[0]), steps[1..]);
    }
  }

  lemma {:induction false} FairRunKeepsIds(s: Sys, steps: seq<Step>)
    requires OwnershipInv(s) && IdInv(s) && Possible(s, steps) && FairRun(LiveIdsApart, s, steps)
    ensures IdInv(Exec(s, steps))
    decreases |steps|
  {
    if steps != [] {
      StepKeepsOwnership(s, steps[0]);
      StepKeepsIds(s, steps[0]);
      FairRunKeepsIds(Apply(s, steps[0]), steps[1..]);
    }
  }

  /** With fresh ids the maps stay inverse, and then live ids are kept apart as well. */
  lemma {:induction false} FreshRunKeepsInverse(s: Sys, steps: seq<Step>)
    requires OwnershipInv(s) && InverseInv(s) && Possible(s, steps) && FairRun(FreshIds, s, steps)
    ensures InverseInv(Exec(s, steps)) && FairRun(LiveIdsApart, s, steps)
    decreases |steps|
  {
    if steps != [] {
      StepKeepsOwnership(s, steps[0]);
      FreshIdsAreApart(s, steps[0]);
      StepKeepsInverse(s, steps[0]);
      FreshRunKeepsInverse(Apply(s, steps[0]), steps[1..]);
    }
  }

  /** A run from the start, with no assumption on the caller or on what the venue reports. */
  ghost predicate Reached(s0: Sys, steps: seq<Step>) {
    Init(s0) && Possible(s0, steps)
  }

  /** A run from the start in which the caller and the venue keep what is assumed. */
  ghost predicate FairlyReached(care: Care, s0: Sys, steps: seq<Step>) {
    Reached(s0, steps) && FairRun(care, s0, steps)
  }

  lemma ReachedHasInv(s0: Sys, steps: seq<Step>)
    requires Reached(s0, steps)
    ensures Inv(Exec(s0, steps))
  {
    InitHasInv(s0);
    RunKeepsInv(s0, steps);
  }

  lemma FairlyReachedHasInv(care: Care, s0: Sys, steps: seq<Step>)
    requires FairlyReached(care, s0, steps)
    ensures var s := Exec(s0, steps);
            && Inv(s) && OwnershipInv(s)
            && (care.LiveIdsApart? ==> IdInv(s))
            && (care.FreshIds? ==> InverseInv(s))
  {
    ReachedHasInv(s0, steps);
    InitHasInv(s0);
    FairRunKeepsOwnership(care, s0, steps);
    if care.LiveIdsApart? { FairRunKeepsIds(s0, steps); }
    if care.FreshIds? { FreshRunKeepsInverse(s0, steps); }
  }

  // ---- No live order is forgotten --------------------------------------

  /** The order rests at the venue, or its create may still land. */
  ghost predicate IsLive(v: Venue, i: int) {
    i in v.resting || exists tx :: tx in v.inFlight && tx.what == Create(i)
  }

  /** While the venue reports truthfully, a live order keeps its record, whatever ids the caller takes. */
  lemma LiveOrdersKeepTheirRecords(care: Care, s0: Sys, steps: seq<Step>, i: int)
    requires FairlyReached(care, s0, steps) && IsLive(Exec(s0, steps).venue, i)
    ensures var s := Exec(s0, steps);
            && i in s.h.issued && i in s.l.ordersByIndex
            && SameOrder(s.l.ordersByIndex[i], s.h.issued[i])
            && (if i in s.h.bound then s.l.ordersByIndex[i].orderIndex == s.h.bound[i]
                else s.l.ordersByIndex[i].orderIndex < 0)
  {
    FairlyReachedHasInv(care, s0, steps);
  }

  /**
    If besides callers never reuse the id of a live order, a live order has its record
    under both keys; a cancel of it is sent with its own market and venue index, or
    refuses to answer while that index is unknown.
   */
  lemma NoLiveOrderIsForgotten(s0: Sys, steps: seq<Step>, i: int)
    requires FairlyReached(LiveIdsApart, s0, steps) && IsLive(Exec(s0, steps).venue, i)
    ensures var s := Exec(s0, steps);
            && i in s.h.issued
            && Recorded(s.l, i, s.h.issued[i].clientOrderId)
            && PlanCancel(s.l, s.h.issued[i].clientOrderId) ==
               if i in s.h.bound then Send(s.h.issued[i].marketId, s.h.bound[i]) else NotYetAcknowledged
  {
    FairlyReachedHasInv(LiveIdsApart, s0, steps);
    LiveOrdersKeepTheirRecords(LiveIdsApart, s0, steps, i);
    assert !Lost(Exec(s0, steps), i);
  }

  /** So cancel answers "gone" without asking the venue only for an id that has nothing resting. */
  lemma UnknownIdIsNotResting(s0: Sys, steps: seq<Step>, clientOrderId: string)
    requires FairlyReached(LiveIdsApart, s0, steps)
    requires PlanCancel(Exec(s0, steps).l, clientOrderId) == NoRecord
    ensures var s := Exec(s0, steps);
            forall i :: i in s.venue.resting ==> i in s.h.issued && s.h.issued[i].clientOrderId != clientOrderId
  {
    var s := Exec(s0, steps);
    forall i | i in s.venue.resting
      ensures i in s.h.issued && s.h.issued[i].clientOrderId != clientOrderId
    {
      NoLiveOrderIsForgotten(s0, steps, i);
    }
  }

  /** If callers take only ids that are not in the ledger, the two maps stay inverse. */
  lemma LedgerStaysInverse(s0: Sys, steps: seq<Step>)
    requires FairlyReached(FreshIds, s0, steps)
    ensures Bijection(Exec(s0, steps).l)
  {
    FairlyReachedHasInv(FreshIds, s0, steps);
  }

  /** And such callers keep live ids apart as well. */
  lemma FreshRunsAreApart(s0: Sys, steps: seq<Step>)
    requires FairlyReached(FreshIds, s0, steps)
    ensures FairlyReached(LiveIdsApart, s0, steps)
  {
    InitHasInv(s0);
    FreshRunKeepsInverse(s0, steps);
  }

  /** Every record is the order that was submitted under its index. */
  lemma RecordsAreWhatWasSubmitted(s0: Sys, steps: seq<Step>)
    requires Reached(s0, steps)
    ensures var s := Exec(s0, steps);
            forall i :: i in s.l.ordersByIndex ==> i in s.h.issued && SameOrder(s.l.ordersByIndex[i], s.h.issued[i])
  {
    ReachedHasInv(s0, steps);
  }

  lemma {:induction false} RunSnoc(s: Sys, steps: seq<Step>, step: Step)
    requires Possible(s, steps) && Enabled(Exec(s, steps), step)
    ensures Possible(s, steps + [step])
    ensures Exec(s, steps + [step]) == Apply(Exec(s, steps), step)
    decreases |steps|
  {
    if steps == [] {
      assert [step][1..] == [];
    } else {
      RunSnoc(Apply(s, steps[0]), steps[1..], step);
      assert (steps + [step])[1..] == steps[1..] + [step];
    }
  }

  lemma {:induction false} FairRunSnoc(s: Sys, steps: seq<Step>, step: Step)
    requires Possible(s, steps) && FairRun(LiveIdsApart, s, steps)
    requires Enabled(Exec(s, steps), step) && Fair(LiveIdsApart, Exec(s, steps), step)
    ensures Possible(s, steps + [step]) && FairRun(LiveIdsApart, s, steps + [step])
    decreases |steps|
  {
    RunSnoc(s, steps, step);
    if steps == [] {
      assert [step][1..] == [];
    } else {
      FairRunSnoc(Apply(s, steps[0]), steps[1..], step);
      assert (steps + [step])[1..] == steps[1..] + [step];
    }
  }

  /** Some run leads from one state to the other. */
  ghost predicate Leads(s: Sys, s': Sys) {
    exists steps :: Possible(s, steps) && Exec(s, steps) == s'
  }

  lemma LeadsOn(s: Sys, s': Sys, step: Step) returns (s'': Sys)
    requires Leads(s, s') && Enabled(s', step)
    ensures s'' == Apply(s', step) && Leads(s, s'')
  {
    var steps :| Possible(s, steps) && Exec(s, steps) == s';
    RunSnoc(s, steps, step);
    s'' := Apply(s', step);
  }

  /** Some run that keeps the assumptions leads from one state to the other. */
  ghost predicate FairlyLeads(s: Sys, s': Sys) {
    exists steps :: Possible(s, steps) && FairRun(LiveIdsApart, s, steps) && Exec(s, steps) == s'
  }

  lemma FairlyLeadsOn(s: Sys, s': Sys, step: Step) returns (s'': Sys)
    requires FairlyLeads(s, s') && Enabled(s', step) && Fair(LiveIdsApart, s', step)
    ensures s'' == Apply(s', step) && FairlyLeads(s, s'')
  {
    var steps :| Possible(s, steps) && FairRun(LiveIdsApart, s, steps) && Exec(s, steps) == s';
    RunSnoc(s, steps, step);
    FairRunSnoc(s, steps, step);
    s'' := Apply(s', step);
  }

  /** A state in which an order has just ended and its record is about to be pruned. */
  ghost predicate AboutToPrune(s: Sys, clientOrderId: string) {
    && s.io.Pruning? && s.io.rec.clientOrderId == clientOrderId
    && Holds(s.l, s.io.e.clientOrderIndex, clientOrderId) && s.io.e.clientOrderIndex in s.venue.landed
    && s.threads == map[] && s.section.Free? && s.nextNonce == s.venue.nonce
  }

  /** An order that landed and left the book, before anything is reported about it. */
  ghost predicate Gone(s: Sys, i: int, rec: OrderRec) {
    && s.l == Ledger(map[i := rec], map[rec.clientOrderId := i])
    && i in s.venue.landed && i !in s.venue.resting
    && s.io.Idle? && s.threads == map[] && s.section.Free? && s.nextNonce == s.venue.nonce
  }

  lemma GoneIsReached(s0: Sys, clientOrderId: string, symbol: string, marketId: int, qty: real) returns (s: Sys)
    requires Init(s0)
    ensures FairlyLeads(s0, s) && Gone(s, s0.counter, FreshRec(clientOrderId, symbol, marketId, qty))
  {
    assert Possible(s0, []) && FairRun(LiveIdsApart, s0, []) && Exec(s0, []) == s0;
    s := FairlyLeadsOn(s0, s0, ByThread(0, Number(clientOrderId, symbol, marketId, qty)));
    s := FairlyLeadsOn(s0, s, ByThread(0, Record));
    s := FairlyLeadsOn(s0, s, ByThread(0, Lock));
    s := FairlyLeadsOn(s0, s, UnderLock(SignAndSend));
    s := FairlyLeadsOn(s0, s, AtVenue(Accept(s.section.tx)));
    s := FairlyLeadsOn(s0, s, UnderLock(ReplyAccepted));
    s := FairlyLeadsOn(s0, s, AtVenue(LeaveBook(s0.counter)));
  }

  /** A reported end leads on to the moment before its record is pruned. */
  lemma ReportLeadsToPruning(s0: Sys, s: Sys, i: nat, rec: OrderRec) returns (s': Sys)
    requires FairlyLeads(s0, s) && Gone(s, i, rec)
    ensures FairlyLeads(s0, s') && AboutToPrune(s', rec.clientOrderId)
  {
    var e := OrderEvent(i, -1, "0", "canceled");
    s' := FairlyLeadsOn(s0, s, OnEvents(Deliver(e)));
    s' := FairlyLeadsOn(s0, s', OnEvents(EmitFill));
    s' := FairlyLeadsOn(s0, s', OnEvents(EmitUpdate));
  }

  ghost predicate Forgotten(s: Sys, i: int) {
    && i in s.venue.resting && i in s.h.issued
    && PlanCancel(s.l, s.h.issued[i].clientOrderId) == NoRecord
  }

  /**
    One submission under the id of an order that is not lost, everything before and after it
    within the assumptions.
   */
  ghost predicate ForgetsAfterReuse(s0: Sys, s: Sys, call: Step, s': Sys) {
    && FairlyLeads(s0, s)
    && Enabled(s, call) && !CallerKeepsLiveIdsApart(s, call)
    && FairlyLeads(Apply(s, call), s')
    && Forgotten(s', s.counter)
  }

  /** The new order lands, and then the old record is pruned, and the id with it. */
  lemma PruningTakesReusedId(numbered: Sys, i: nat, rec: OrderRec) returns (s': Sys)
    requires numbered.threads == map[0 := Numbered(i, rec)] && numbered.section.Free?
    requires numbered.nextNonce == numbered.venue.nonce && numbered.io.Pruning?
    requires i in numbered.h.issued && numbered.h.issued[i] == rec && numbered.io.rec.clientOrderId == rec.clientOrderId
    ensures FairlyLeads(numbered, s') && Forgotten(s', i)
  {
    assert Possible(numbered, []) && FairRun(LiveIdsApart, numbered, []) && Exec(numbered, []) == numbered;
    s' := FairlyLeadsOn(numbered, numbered, ByThread(0, Record));
    s' := FairlyLeadsOn(numbered, s', ByThread(0, Lock));
    s' := FairlyLeadsOn(numbered, s', UnderLock(SignAndSend));
    s' := FairlyLeadsOn(numbered, s', AtVenue(Accept(s'.section.tx)));
    s' := FairlyLeadsOn(numbered, s', OnEvents(Prune));
  }

  /**
    The caller's assumption is needed. The terminal update reaches the caller before
    the record is pruned; an id taken again in between is pruned with the old record,
    and cancel then answers "gone" for an order that is resting.
   */
  lemma ReuseBeforePruneForgetsLiveOrder(s0: Sys, clientOrderId: string, symbol: string, marketId: int, qty: real)
    requires Init(s0)
    ensures exists s, call, s' :: ForgetsAfterReuse(s0, s, call, s')
  {
    var rec := FreshRec(clientOrderId, symbol, marketId, qty);
    var gone := GoneIsReached(s0, clientOrderId, symbol, marketId, qty);
    var s := ReportLeadsToPruning(s0, gone, s0.counter, rec);
    CounterStaysNatural(s0, s);
    var call := ByThread(0, Number(clientOrderId, symbol, marketId, qty));
    assert !Lost(s, s.io.e.clientOrderIndex);
    var s' := PruningTakesReusedId(Apply(s, call), s.counter, rec);
    assert ForgetsAfterReuse(s0, s, call, s');
  }

  lemma CounterStaysNatural(s0: Sys, s: Sys)
    requires Init(s0) && FairlyLeads(s0, s)
    ensures s.counter >= 0
  {
    var steps :| Possible(s0, steps) && FairRun(LiveIdsApart, s0, steps) && Exec(s0, steps) == s;
    ReachedHasInv(s0, steps);
  }

  // ---- Nonces ----------------------------------------------------------

  /** The gateway is never ahead of the venue and never more than one behind; accepted nonces are consecutive. */
  lemma NoncesStaySynchronised(s0: Sys, steps: seq<Step>)
    requires Reached(s0, steps)
    ensures var s := Exec(s0, steps);
            && s.nextNonce <= s.venue.nonce <= s.nextNonce + 1
            && s.venue.nonce == s.h.base + |s.venue.accepted|
            && forall k, m :: 0 <= k < m < |s.venue.accepted| ==> s.venue.accepted[k].nonce < s.venue.accepted[m].nonce
  {
    ReachedHasInv(s0, steps);
  }

  /** A 200 reply, and a successful resync that found nothing in flight, leave both counters equal. */
  lemma CountersMeetAgain(s0: Sys, steps: seq<Step>, step: Step)
    requires Reached(s0, steps) && Enabled(Exec(s0, steps), step)
    requires step == UnderLock(ReplyAccepted) || (step == UnderLock(FinishResync) && Exec(s0, steps).section.quiet)
    ensures var s' := Apply(Exec(s0, steps), step);
            s'.nextNonce == s'.venue.nonce
  {
    ReachedHasInv(s0, steps);
    CountersMeet(Exec(s0, steps), step);
  }

  /** The gateway's nonce never goes back. */
  lemma {:induction false} NonceNeverDecreases(s: Sys, steps: seq<Step>)
    requires NonceInv(s) && Possible(s, steps)
    ensures NonceInv(Exec(s, steps)) && s.nextNonce <= Exec(s, steps).nextNonce
    decreases |steps|
  {
    if steps != [] {
      StepKeepsNonces(s, steps[0]);
      NonceNeverDecreases(Apply(s, steps[0]), steps[1..]);
    }
  }

  /**
    Each order is sent in at most one transaction, and each signed cancel names the venue
    index and market of one order.
   */
  lemma TransactionsAreSound(s0: Sys, steps: seq<Step>)
    requires Reached(s0, steps)
    ensures var h := Exec(s0, steps).h;
            && (forall k, m :: 0 <= k < m < |h.signed| && h.signed[k].what.Create? ==>
                  h.signed[m].what != h.signed[k].what)
            && (forall k :: 0 <= k < |h.signed| && h.signed[k].what.CancelOrder? ==>
                  var c := h.signed[k].what;
                  && c.idx in h.bound && h.bound[c.idx] == c.orderIndex >= 0
                  && c.idx in h.issued && h.issued[c.idx].marketId == c.marketId)
  {
    ReachedHasInv(s0, steps);
  }

  /** A venue index learned once stays for the rest of the run. */
  lemma {:induction false} VenueIndexIsFinal(s: Sys, steps: seq<Step>, i: int)
    requires Inv(s) && Possible(s, steps) && i in s.h.bound
    ensures i in Exec(s, steps).h.bound && Exec(s, steps).h.bound[i] == s.h.bound[i]
    decreases |steps|
  {
    if steps != [] {
      BindingsAreFinal(s, steps[0], i);
      StepKeepsInv(s, steps[0]);
      VenueIndexIsFinal(Apply(s, steps[0]), steps[1..], i);
    }
  }

  // ---- What a call submits is what is kept -----------------------------

  lemma IssuedIsFinal(s: Sys, step: Step, i: int)
    requires IndexInv(s) && Enabled(s, step) && i in s.h.issued
    ensures i in Apply(s, step).h.issued && Apply(s, step).h.issued[i] == s.h.issued[i]
  {}

  lemma {:induction false} RunKeepsIssued(s: Sys, steps: seq<Step>, i: int)
    requires IndexInv(s) && Possible(s, steps) && i in s.h.issued
    ensures i in Exec(s, steps).h.issued && Exec(s, steps).h.issued[i] == s.h.issued[i]
    decreases |steps|
  {
    if steps != [] {
      IssuedIsFinal(s, steps[0], i);
      StepKeepsIndex(s, steps[0]);
      RunKeepsIssued(Apply(s, steps[0]), steps[1..], i);
    }
  }

  /**
    A submission takes the next index. However the run goes on, the record under that index
    carries the caller's id, symbol, market and quantity, every cancel signed for it carries
    that market, and every callback about it that id and symbol.
   */
  lemma SubmittedOrderIsKept(s0: Sys, before: seq<Step>, t: nat, clientOrderId: string, symbol: string, marketId: int,
                             qty: real, call: Step, after: seq<Step>)
    requires Reached(s0, before) && call == ByThread(t, Number(clientOrderId, symbol, marketId, qty))
    requires Enabled(Exec(s0, before), call) && Possible(Apply(Exec(s0, before), call), after)
    ensures var i := Exec(s0, before).counter;
            var s := Exec(Apply(Exec(s0, before), call), after);
            && i !in Exec(s0, before).h.issued && i in s.h.issued
            && s.h.issued[i] == OrderRec(clientOrderId, symbol, marketId, -1, 0.0, qty)
            && (i in s.l.ordersByIndex ==>
                  var rec := s.l.ordersByIndex[i];
                  && rec.clientOrderId == clientOrderId && rec.symbol == symbol
                  && rec.marketId == marketId && rec.submittedQty == qty)
            && (forall k :: 0 <= k < |s.h.signed| && s.h.signed[k].what.CancelOrder? && s.h.signed[k].what.idx == i ==>
                  s.h.signed[k].what.marketId == marketId)
            && (forall m :: m in s.h.log && m.idx == i ==> m.clientOrderId == clientOrderId && m.symbol == symbol)
  {
    var s := Exec(s0, before);
    ReachedHasInv(s0, before);
    StepKeepsInv(s, call);
    RunKeepsInv(Apply(s, call), after);
    RunKeepsIssued(Apply(s, call), after, s.counter);
    IssuedOrderIsKept(Exec(Apply(s, call), after), s.counter);
  }

  lemma IssuedOrderIsKept(s: Sys, i: int)
    requires Inv(s) && i in s.h.issued
    ensures i in s.l.ordersByIndex ==> SameOrder(s.l.ordersByIndex[i], s.h.issued[i])
    ensures forall k :: 0 <= k < |s.h.signed| && s.h.signed[k].what.CancelOrder? && s.h.signed[k].what.idx == i ==>
              s.h.signed[k].what.marketId == s.h.issued[i].marketId
    ensures forall m :: m in s.h.log && m.idx == i ==>
              m.clientOrderId == s.h.issued[i].clientOrderId && m.symbol == s.h.issued[i].symbol
  {}

  /** Its record, when it is written, has no venue index and nothing credited yet. */
  lemma NewRecordIsUntouched(s0: Sys, steps: seq<Step>, t: nat)
    requires Reached(s0, steps) && Enabled(Exec(s0, steps), ByThread(t, Record))
    ensures var s := Exec(s0, steps);
            var i, s' := s.threads[t].idx, Apply(s, ByThread(t, Record));
            && i in s.h.issued && s'.l.ordersByIndex == s.l.ordersByIndex[i := s.h.issued[i]]
            && s'.l.clientIdToIndex == s.l.clientIdToIndex[s.h.issued[i].clientOrderId := i]
            && s.h.issued[i].orderIndex == -1 && s.h.issued[i].cumFilledBase == 0.0
  {
    ReachedHasInv(s0, steps);
  }

  // ---- Fills and updates -----------------------------------------------

  lemma FillsMatchReports(s0: Sys, steps: seq<Step>, i: int)
    requires Reached(s0, steps) && i in Exec(s0, steps).h.issued
    ensures var s := Exec(s0, steps);
            var total := MaxCredit(s.h.reports, i, s.h.issued[i].submittedQty, s.read);
            && FillSum(s.h.log, i) + Pending(s.io, i) == total
            && (i in s.l.ordersByIndex ==> s.l.ordersByIndex[i].cumFilledBase == total)
  {
    ReachedHasInv(s0, steps);
  }

  /**
    The fills handed to the caller for an order, with the one being handed over, add up
    to the largest of zero and what its reports count as; that is the record's
    cumFilledBase, and at most 1.001 times a positive submitted quantity.
   */
  lemma FillsAreConserved(s0: Sys, steps: seq<Step>, i: int)
    requires Reached(s0, steps) && i in Exec(s0, steps).h.issued
    ensures var s := Exec(s0, steps);
            var total := FillSum(s.h.log, i) + Pending(s.io, i);
            && IsLargestOf(total, s.h.reports, i, s.h.issued[i].submittedQty, s.read)
            && (i in s.l.ordersByIndex ==> s.l.ordersByIndex[i].cumFilledBase == total)
            && (s.h.issued[i].submittedQty > 0.0 ==> total <= s.h.issued[i].submittedQty * 1.001)
  {
    FillsMatchReports(s0, steps, i);
    var s := Exec(s0, steps);
    MaxCreditIsLargest(s.h.reports, i, s.h.issued[i].submittedQty, s.read);
    if s.h.issued[i].submittedQty > 0.0 {
      MaxCreditBounded(s.h.reports, i, s.h.issued[i].submittedQty, s.read);
    }
  }

  lemma {:induction false} FillSumPrefix(log: seq<Emission>, k: nat, i: int)
    requires k <= |log| && forall n :: k <= n < |log| ==> log[n].idx != i
    ensures FillSum(log, i) == FillSum(log[..k], i)
  {
    if k < |log| {
      FillSumPrefix(log[..|log| - 1], k, i);
      assert log[..|log| - 1][..k] == log[..k];
    } else {
      assert log[..k] == log;
    }
  }

  /**
    An order gets at most one terminal update and no callback after it, and by then
    all of its credited quantity has been handed over.
   */
  lemma TerminalUpdateIsLast(s0: Sys, steps: seq<Step>, k: nat)
    requires Reached(s0, steps)
    requires k < |Exec(s0, steps).h.log| && EndsOrder(Exec(s0, steps).h.log[k])
    ensures var s := Exec(s0, steps);
            var i := s.h.log[k].idx;
            && i in s.h.issued
            && (forall n :: k < n < |s.h.log| ==> s.h.log[n].idx != i)
            && IsLargestOf(FillSum(s.h.log[..k], i), s.h.reports, i, s.h.issued[i].submittedQty, s.read)
  {
    ReachedHasInv(s0, steps);
    AllIsCreditedBeforeTheEnd(Exec(s0, steps), k);
  }

  lemma AllIsCreditedBeforeTheEnd(s: Sys, k: nat)
    requires FillInv(s) && LogInv(s) && k < |s.h.log| && EndsOrder(s.h.log[k])
    ensures var i := s.h.log[k].idx;
            && i in s.h.issued
            && (forall n :: k < n < |s.h.log| ==> s.h.log[n].idx != i)
            && IsLargestOf(FillSum(s.h.log[..k], i), s.h.reports, i, s.h.issued[i].submittedQty, s.read)
  {
    var i := s.h.log[k].idx;
    assert s.h.log[k] in s.h.log;
    FillSumPrefix(s.h.log, k + 1, i);
    FillSumSnoc(s.h.log[..k], s.h.log[k], i);
    assert s.h.log[..k + 1] == s.h.log[..k] + [s.h.log[k]];
    MaxCreditIsLargest(s.h.reports, i, s.h.issued[i].submittedQty, s.read);
  }

  /**
    An accepted report of an order's end leads to its terminal update, at once or as soon
    as the event in hand is handled; between events the order then has no record any more.
   */
  lemma EveryEndIsReported(s0: Sys, steps: seq<Step>, e: OrderEvent)
    requires Reached(s0, steps)
    requires e in Exec(s0, steps).h.reports && IsTerminal(e.status)
    ensures var s := Exec(s0, steps);
            && (EndIsLogged(s.h.log, e.clientOrderIndex) || InHand(s.io, e))
            && (s.io.Idle? ==> EndIsLogged(s.h.log, e.clientOrderIndex) && e.clientOrderIndex !in s.l.ordersByIndex)
  {
    ReachedHasInv(s0, steps);
  }

  /** Runs that accepted the same reports for an order, in whatever order and however often, credited it the same. */
  lemma FillTotalIgnoresReportOrder(s0: Sys, steps: seq<Step>, s0': Sys, steps': seq<Step>, i: int)
    requires Reached(s0, steps) && Reached(s0', steps')
    requires var s, s' := Exec(s0, steps), Exec(s0', steps');
             && s.read == s'.read && i in s.h.issued && i in s'.h.issued
             && s.h.issued[i].submittedQty == s'.h.issued[i].submittedQty
             && forall e: OrderEvent :: e.clientOrderIndex == i ==> (e in s.h.reports <==> e in s'.h.reports)
    ensures var s, s' := Exec(s0, steps), Exec(s0', steps');
            FillSum(s.h.log, i) + Pending(s.io, i) == FillSum(s'.h.log, i) + Pending(s'.io, i)
  {
    var s, s' := Exec(s0, steps), Exec(s0', steps');
    FillsMatchReports(s0, steps, i);
    FillsMatchReports(s0', steps', i);
    MaxCreditIgnoresOrder(s.h.reports, s'.h.reports, i, s.h.issued[i].submittedQty, s.read);
  }

  /** No two fills of a run carry the same fill id. */
  lemma FillIdsNeverRepeat(s0: Sys, steps: seq<Step>, k: nat, n: nat)
    requires Reached(s0, steps)
    requires k < n < |Exec(s0, steps).h.log|
    requires Exec(s0, steps).h.log[k].Fill? && Exec(s0, steps).h.log[n].Fill?
    ensures Exec(s0, steps).h.log[k].fillId != Exec(s0, steps).h.log[n].fillId
  {
    ReachedHasInv(s0, steps);
    var log := Exec(s0, steps).h.log;
    assert log[k] in log && log[n] in log;
    if log[k].fillId == log[n].fillId {
      Text.DashedIsInjective(log[k].idx, log[k].amount, log[n].idx, log[n].amount);
      assert false;
    }
  }
}
