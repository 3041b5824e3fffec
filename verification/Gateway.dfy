/**
  The execution gateway as an object: the fields of the source and the methods that
  update them. The venue's replies, the signer's success and the scaled amounts come
  in as parameters. Models src/lighter_execution_gateway.cpp.
 */
module Gateways {
  import opened Wrappers
  import opened Orders
  import Text

  // ---- Sending one transaction -----------------------------------------

  /** What sendTx did: returned an envelope, or threw, perhaps with a venue body in the text. */
  datatype Reply = Returned(code: int, message: string) | Threw(body: Option<(int, string)>)

  datatype Verdict = Taken | Refused(code: int, message: string) | Unknown

  datatype Side = Buy | Sell

  datatype OrderType = Limit | Market

  datatype TimeInForce = ImmediateOrCancel | PostOnly

  datatype Terms = Terms(isAsk: bool, orderType: OrderType, timeInForce: TimeInForce, reduceOnly: bool,
                         triggerPrice: int, orderExpiry: int)

  const NIL_TRIGGER_PRICE := 0
  const DEFAULT_28_DAY_EXPIRY := -1
  const DEFAULT_IOC_EXPIRY := 0

  /** What was handed to the native signer. */
  datatype Signed =
    | SignedCreate(marketId: int, clientOrderIndex: int, baseAmount: int, price: int, terms: Terms, nonce: int)
    | SignedCancel(marketId: int, orderIndex: int, nonce: int)

  const UINT32_MAX := 0xFFFF_FFFF

  datatype Placed =
    | Ok
    | Invalid(kind: RejectKind)
    | SignFailed
    | VenueRefused(code: int, message: string)
    | OutcomeUnknown

  datatype CancelResult =
    | Gone
    | Sent
    | NotAcknowledged
    | CancelSignFailed
    | CancelRefused(code: int, message: string)
    | TransportFailure

  // ---- One account message ---------------------------------------------

  /** The ledger and the callbacks after one order event, handled without interruption. */
  function AfterEvent(l: Ledger, log: seq<Emission>, e: OrderEvent, read: Reader): (Ledger, seq<Emission>) {
    if e.clientOrderIndex < 0 || e.clientOrderIndex !in l.ordersByIndex then (l, log)
    else
      var idx := e.clientOrderIndex;
      var rec := l.ordersByIndex[idx];
      if Collides(rec, e) then (l, log)
      else
        var rec' := CreditRec(rec, e, read);
        var credited := l.(ordersByIndex := l.ordersByIndex[idx := rec']);
        var newFill := NewFill(rec, e, read);
        var filled := if newFill > 0.0 then log + [FillOf(rec', e, newFill)] else log;
        (if IsTerminal(e.status) then Erase(credited, idx, rec'.clientOrderId) else credited,
         filled + [UpdateOf(rec', e, read)])
  }

  function AfterEvents(l: Ledger, log: seq<Emission>, es: seq<OrderEvent>, read: Reader): (Ledger, seq<Emission>) {
    if es == [] then (l, log)
    else
      var before := AfterEvents(l, log, es[..|es| - 1], read);
      AfterEvent(before.0, before.1, es[|es| - 1], read)
  }

  /** Handling a message is handling its first part and then the rest. */
  lemma {:induction false} AfterEventsConcat(l: Ledger, log: seq<Emission>, a: seq<OrderEvent>, b: seq<OrderEvent>,
                                             read: Reader)
    ensures AfterEvents(l, log, a + b, read) ==
            (var mid := AfterEvents(l, log, a, read); AfterEvents(mid.0, mid.1, b, read))
  {
    if b == [] {
      assert a + b == a;
    } else {
      assert (a + b)[..|a + b| - 1] == a + b[..|b| - 1];
      AfterEventsConcat(l, log, a, b[..|b| - 1], read);
    }
  }

  /** Reports that leave the order open credit its record, and hand out as fills exactly what they credit. */
  lemma {:induction false} OpenReportsCredit(l: Ledger, log: seq<Emission>, es: seq<OrderEvent>, idx: int, read: Reader)
    requires idx >= 0 && idx in l.ordersByIndex
    requires forall e :: e in es ==> e.clientOrderIndex == idx && !IsTerminal(e.status)
    ensures var rec, after := l.ordersByIndex[idx], AfterEvents(l, log, es, read);
            && after.0 == l.(ordersByIndex := l.ordersByIndex[idx := CreditAll(rec, es, read)])
            && FillSum(after.1, idx) - FillSum(log, idx) == CreditAll(rec, es, read).cumFilledBase - rec.cumFilledBase
  {
    if es == [] {
      assert l.ordersByIndex[idx := l.ordersByIndex[idx]] == l.ordersByIndex;
    } else {
      var n := |es| - 1;
      assert es[n] in es && forall e :: e in es[..n] ==> e in es;
      OpenReportsCredit(l, log, es[..n], idx, read);
      var before := AfterEvents(l, log, es[..n], read);
      EventCredits(before.0, before.1, es[n], read);
    }
  }

  lemma EventCredits(l: Ledger, log: seq<Emission>, e: OrderEvent, read: Reader)
    requires e.clientOrderIndex >= 0 && e.clientOrderIndex in l.ordersByIndex && !IsTerminal(e.status)
    ensures var idx := e.clientOrderIndex;
            var rec, after := l.ordersByIndex[idx], AfterEvent(l, log, e, read);
            && after.0 == l.(ordersByIndex := l.ordersByIndex[idx := CreditRec(rec, e, read)])
            && FillSum(after.1, idx) - FillSum(log, idx) == NewFill(rec, e, read)
  {
    var idx := e.clientOrderIndex;
    var rec := l.ordersByIndex[idx];
    if Collides(rec, e) {
      assert l.ordersByIndex[idx := rec] == l.ordersByIndex;
    } else {
      var rec', newFill := CreditRec(rec, e, read), NewFill(rec, e, read);
      var filled := if newFill > 0.0 then log + [FillOf(rec', e, newFill)] else log;
      FillSumSnoc(log, FillOf(rec', e, newFill), idx);
      FillSumSnoc(filled, UpdateOf(rec', e, read), idx);
    }
  }

  /** Reordering or repeating such reports leaves the same ledger and hands out the same total. */
  lemma ReportOrderDoesNotMatter(l: Ledger, log: seq<Emission>, a: seq<OrderEvent>, b: seq<OrderEvent>, idx: int,
                                 venueIndex: int, read: Reader)
    requires idx >= 0 && idx in l.ordersByIndex && Agree(l.ordersByIndex[idx], a, venueIndex)
    requires forall e :: e in a ==> e.clientOrderIndex == idx && !IsTerminal(e.status)
    requires forall e :: e in a <==> e in b
    ensures AfterEvents(l, log, a, read).0 == AfterEvents(l, log, b, read).0
    ensures FillSum(AfterEvents(l, log, a, read).1, idx) == FillSum(AfterEvents(l, log, b, read).1, idx)
  {
    OpenReportsCredit(l, log, a, idx, read);
    OpenReportsCredit(l, log, b, idx, read);
    CreditIgnoresOrder(l.ordersByIndex[idx], a, b, venueIndex, read);
  }

  /** Events add no record and change no venue index that is known. */
  lemma {:induction false} EventsOnlyPrune(l: Ledger, log: seq<Emission>, es: seq<OrderEvent>, read: Reader)
    ensures var after := AfterEvents(l, log, es, read).0.ordersByIndex;
            forall i :: i in after ==>
              && i in l.ordersByIndex
              && (l.ordersByIndex[i].orderIndex >= 0 ==> after[i].orderIndex == l.ordersByIndex[i].orderIndex)
  {
    if es != [] { EventsOnlyPrune(l, log, es[..|es| - 1], read); }
  }

  /** An event is ignored if it names no order on record, or another venue index than the order's own. */
  lemma EventIsIgnored(l: Ledger, log: seq<Emission>, e: OrderEvent, read: Reader)
    requires var i := e.clientOrderIndex;
             || i < 0 || i !in l.ordersByIndex
             || (e.orderIndex >= 0 && l.ordersByIndex[i].orderIndex >= 0
                 && e.orderIndex != l.ordersByIndex[i].orderIndex)
    ensures AfterEvent(l, log, e, read) == (l, log)
  {}

  /**
    Any other event, whose report counts as `x`, raises the record to `x` if that is more
    and teaches it the venue index; the raise is handed out first, as one fill, and then
    the update with the raw report. If the status ends the order its record goes, under
    both keys; nothing else changes.
   */
  lemma EventIsHandled(l: Ledger, log: seq<Emission>, e: OrderEvent, read: Reader, x: real)
    requires var i := e.clientOrderIndex;
             && 0 <= i && i in l.ordersByIndex
             && (e.orderIndex < 0 || l.ordersByIndex[i].orderIndex < 0 || e.orderIndex == l.ordersByIndex[i].orderIndex)
             && CountsAs(l.ordersByIndex[i].submittedQty, read(e.amount), x)
    ensures var i := e.clientOrderIndex;
            var rec, after := l.ordersByIndex[i], AfterEvent(l, log, e, read);
            var venueIndex := if rec.orderIndex < 0 <= e.orderIndex then e.orderIndex else rec.orderIndex;
            var total := if x > rec.cumFilledBase then x else rec.cumFilledBase;
            var rec' := OrderRec(rec.clientOrderId, rec.symbol, rec.marketId, venueIndex, total, rec.submittedQty);
            var (state, rejectKind) := ClassifyStatus(e.status);
            var fillId := Text.Digits(i) + "-" + e.amount;
            var fill := Fill(i, rec.clientOrderId, rec.symbol, e.amount, fillId, x - rec.cumFilledBase);
            var update := Update(i, rec.clientOrderId, rec.symbol, state, rejectKind, e.status, read(e.amount));
            && after.1 == log + (if x > rec.cumFilledBase then [fill] else []) + [update]
            && after.0 == if e.status == "filled" || "canceled" <= e.status
                          then Ledger(l.ordersByIndex - {i}, l.clientIdToIndex - {rec.clientOrderId})
                          else Ledger(l.ordersByIndex[i := rec'], l.clientIdToIndex)
  {
    TerminalStatuses(e.status);
    var i := e.clientOrderIndex;
    var rec' := CreditRec(l.ordersByIndex[i], e, read);
    assert l.ordersByIndex[i := rec'] - {i} == l.ordersByIndex - {i};
    assert log + [] == log;
  }

  /** A terminal event delivered again, whatever came in between, changes nothing and calls nobody. */
  lemma TerminalEventIsHandledOnce(l: Ledger, log: seq<Emission>, e: OrderEvent, between: seq<OrderEvent>, read: Reader)
    requires IsTerminal(e.status)
    ensures var once := AfterEvent(l, log, e, read);
            var later := AfterEvents(once.0, once.1, between, read);
            AfterEvent(later.0, later.1, e, read) == later
  {
    var once := AfterEvent(l, log, e, read);
    EventsOnlyPrune(once.0, once.1, between, read);
  }

  class Gateway {
    var ordersByIndex: map<int, OrderRec>
    var clientIdToIndex: map<string, int>
    var clientOrderCounter: int
    var nextNonce: int
    var accountFeedLive: bool
    var signed: seq<Signed>
    var callbacks: seq<Emission>

    function Book(): Ledger
      reads this
    {
      Ledger(ordersByIndex, clientIdToIndex)
    }

    constructor (epochMs: int, seededNonce: int)
      ensures Book() == Ledger(map[], map[])
      ensures clientOrderCounter == epochMs && nextNonce == seededNonce && !accountFeedLive
      ensures signed == [] && callbacks == []
    {
      ordersByIndex, clientIdToIndex := map[], map[];
      clientOrderCounter, nextNonce := epochMs, seededNonce;
      accountFeedLive := false;
      signed, callbacks := [], [];
    }

    method EraseOrderRec(clientOrderIndex: int, clientOrderId: string)
      modifies this`ordersByIndex, this`clientIdToIndex
      ensures ordersByIndex == old(ordersByIndex) - {clientOrderIndex}
      ensures clientIdToIndex == old(clientIdToIndex) - {clientOrderId}
    {
      ordersByIndex := ordersByIndex - {clientOrderIndex};
      clientIdToIndex := clientIdToIndex - {clientOrderId};
    }

    method ResyncNonce(served: Option<int>)
      modifies this`nextNonce
      ensures nextNonce == if served.Some? then served.value else old(nextNonce)
    {
      match served {
        case Some(v) => nextNonce := v;
        case None =>
      }
    }

    /**
      A code other than 200 is the venue's verdict, whether it came in the envelope or in the
      text of an exception. The nonce advances by one on a 200 and is resynced on everything else.
     */
    method SendSigned(reply: Reply, served: Option<int>) returns (verdict: Verdict)
      modifies this`nextNonce
      ensures verdict.Taken? <==> reply.Returned? && reply.code == 200
      ensures forall c, m :: verdict == Refused(c, m) <==>
                c != 200 && (reply == Returned(c, m) || reply == Threw(Some((c, m))))
      ensures reply.Returned? && reply.code == 200 ==> nextNonce == old(nextNonce) + 1
      ensures !(reply.Returned? && reply.code == 200) ==>
                nextNonce == if served.Some? then served.value else old(nextNonce)
    {
      match reply {
        case Threw(body) =>
          ResyncNonce(served);
          if body.Some? && body.value.0 != 200 {
            return Refused(body.value.0, body.value.1);
          }
          return Unknown;
        case Returned(code, message) =>
          if code != 200 {
            ResyncNonce(served);
            return Refused(code, message);
          }
          nextNonce := nextNonce + 1;
          return Taken;
      }
    }

    /**
      From drawing the index to the venue's verdict, common to both kinds of order.
      The record survives success and an unknown outcome, and nothing else.
     */
    method Place(clientOrderId: string, symbol: string, marketId: int, qty: real, baseAmount: int, price: int,
                 terms: Terms, signs: bool, reply: Reply, served: Option<int>)
      returns (r: Placed)
      modifies this`ordersByIndex, this`clientIdToIndex, this`clientOrderCounter, this`nextNonce, this`signed
      ensures clientOrderCounter == old(clientOrderCounter) + 1
      ensures !r.Invalid? && (r.SignFailed? <==> !signs)
      ensures r.Ok? <==> signs && reply.Returned? && reply.code == 200
      ensures forall c, m :: r == VenueRefused(c, m) <==>
                signs && c != 200 && (reply == Returned(c, m) || reply == Threw(Some((c, m))))
      ensures r.Ok? || r.OutcomeUnknown? ==>
                && ordersByIndex == old(ordersByIndex)[old(clientOrderCounter) :=
                                      OrderRec(clientOrderId, symbol, marketId, -1, 0.0, qty)]
                && clientIdToIndex == old(clientIdToIndex)[clientOrderId := old(clientOrderCounter)]
      ensures r.SignFailed? || r.VenueRefused? ==>
                && ordersByIndex == old(ordersByIndex) - {old(clientOrderCounter)}
                && clientIdToIndex == old(clientIdToIndex) - {clientOrderId}
      ensures signed == old(signed) + if !signs then [] else
                [SignedCreate(marketId, old(clientOrderCounter), baseAmount, price, terms, old(nextNonce))]
      ensures r.Ok? ==> nextNonce == old(nextNonce) + 1
      ensures r.SignFailed? ==> nextNonce == old(nextNonce)
      ensures r.VenueRefused? || r.OutcomeUnknown? ==>
                nextNonce == if served.Some? then served.value else old(nextNonce)
    {
      var clientOrderIndex := clientOrderCounter;
      clientOrderCounter := clientOrderCounter + 1;
      ordersByIndex := ordersByIndex[clientOrderIndex := FreshRec(clientOrderId, symbol, marketId, qty)];
      clientIdToIndex := clientIdToIndex[clientOrderId := clientOrderIndex];
      if !signs {
        EraseOrderRec(clientOrderIndex, clientOrderId);
        return SignFailed;
      }
      signed := signed + [SignedCreate(marketId, clientOrderIndex, baseAmount, price, terms, nextNonce)];
      var verdict := SendSigned(reply, served);
      match verdict {
        case Taken => return Ok;
        case Refused(code, message) =>
          EraseOrderRec(clientOrderIndex, clientOrderId);
          return VenueRefused(code, message);
        case Unknown => return OutcomeUnknown;
      }
    }

    /** A rejected argument leaves no trace: no index drawn, no record, nothing signed. */
    method SubmitPostOnlyLimit(clientOrderId: string, symbol: string, market: Option<int>, side: Side, qty: real,
                               baseAmount: int, priceScaled: int, reduceOnly: bool, signs: bool, reply: Reply,
                               served: Option<int>)
      returns (r: Placed)
      modifies this`ordersByIndex, this`clientIdToIndex, this`clientOrderCounter, this`nextNonce, this`signed
      ensures r.Invalid? <==> market.None? || baseAmount <= 0 || !(0 < priceScaled <= UINT32_MAX)
      ensures r.Invalid? ==>
                && r.kind == (if market.None? then Permanent else if baseAmount <= 0 then MinNotional else Hard)
                && Book() == old(Book()) && clientOrderCounter == old(clientOrderCounter)
                && nextNonce == old(nextNonce) && signed == old(signed)
      ensures !r.Invalid? ==> clientOrderCounter == old(clientOrderCounter) + 1 && (r.SignFailed? <==> !signs)
      ensures r.Ok? <==> !r.Invalid? && signs && reply.Returned? && reply.code == 200
      ensures forall c, m :: r == VenueRefused(c, m) <==>
                !r.Invalid? && signs && c != 200 && (reply == Returned(c, m) || reply == Threw(Some((c, m))))
      ensures r.Ok? || r.OutcomeUnknown? ==>
                && ordersByIndex == old(ordersByIndex)[old(clientOrderCounter) :=
                                      OrderRec(clientOrderId, symbol, market.value, -1, 0.0, qty)]
                && clientIdToIndex == old(clientIdToIndex)[clientOrderId := old(clientOrderCounter)]
      ensures r.SignFailed? || r.VenueRefused? ==>
                && ordersByIndex == old(ordersByIndex) - {old(clientOrderCounter)}
                && clientIdToIndex == old(clientIdToIndex) - {clientOrderId}
      ensures !r.Invalid? && signs ==>
                var terms := Terms(side == Sell, Limit, PostOnly, reduceOnly, NIL_TRIGGER_PRICE, DEFAULT_28_DAY_EXPIRY);
                signed == old(signed) + [SignedCreate(market.value, old(clientOrderCounter), baseAmount, priceScaled,
                                                      terms, old(nextNonce))]
      ensures r.Ok? ==> nextNonce == old(nextNonce) + 1
      ensures r.SignFailed? ==> nextNonce == old(nextNonce) && signed == old(signed)
      ensures r.VenueRefused? || r.OutcomeUnknown? ==>
                nextNonce == if served.Some? then served.value else old(nextNonce)
    {
      if market.None? {
        return Invalid(Permanent);
      }
      if baseAmount <= 0 {
        return Invalid(MinNotional);
      }
      if priceScaled <= 0 || priceScaled > UINT32_MAX {
        return Invalid(Hard);
      }
      var terms := Terms(side == Sell, Limit, PostOnly, reduceOnly, NIL_TRIGGER_PRICE, DEFAULT_28_DAY_EXPIRY);
      r := Place(clientOrderId, symbol, market.value, qty, baseAmount, priceScaled, terms, signs, reply, served);
    }

    /** `bound` is the scaled price bound taken from a sane quote; it is forced into the signer's uint32 domain. */
    method SubmitReduceOnlyMarket(clientOrderId: string, symbol: string, market: Option<int>, side: Side, qty: real,
                                  baseAmount: int,
                                  bound: Option<int>, signs: bool, reply: Reply, served: Option<int>)
      returns (r: Placed)
      modifies this`ordersByIndex, this`clientIdToIndex, this`clientOrderCounter, this`nextNonce, this`signed
      ensures r.Invalid? <==> market.None? || baseAmount <= 0 || bound.None?
      ensures r.Invalid? ==>
                && r.kind == (if market.None? then Permanent else if baseAmount <= 0 then MinNotional else Hard)
                && Book() == old(Book()) && clientOrderCounter == old(clientOrderCounter)
                && nextNonce == old(nextNonce) && signed == old(signed)
      ensures !r.Invalid? ==> clientOrderCounter == old(clientOrderCounter) + 1 && (r.SignFailed? <==> !signs)
      ensures r.Ok? <==> !r.Invalid? && signs && reply.Returned? && reply.code == 200
      ensures forall c, m :: r == VenueRefused(c, m) <==>
                !r.Invalid? && signs && c != 200 && (reply == Returned(c, m) || reply == Threw(Some((c, m))))
      ensures r.Ok? || r.OutcomeUnknown? ==>
                && ordersByIndex == old(ordersByIndex)[old(clientOrderCounter) :=
                                      OrderRec(clientOrderId, symbol, market.value, -1, 0.0, qty)]
                && clientIdToIndex == old(clientIdToIndex)[clientOrderId := old(clientOrderCounter)]
      ensures r.SignFailed? || r.VenueRefused? ==>
                && ordersByIndex == old(ordersByIndex) - {old(clientOrderCounter)}
                && clientIdToIndex == old(clientIdToIndex) - {clientOrderId}
      ensures !r.Invalid? && signs ==>
                && |signed| == |old(signed)| + 1 && signed[..|old(signed)|] == old(signed)
                && var tx := signed[|old(signed)|];
                   && tx.SignedCreate? && 1 <= tx.price <= UINT32_MAX
                   && (1 <= bound.value <= UINT32_MAX ==> tx.price == bound.value)
                   && (bound.value < 1 ==> tx.price == 1)
                   && (bound.value > UINT32_MAX ==> tx.price == UINT32_MAX)
                   && tx.terms == Terms(side == Sell, Market, ImmediateOrCancel, true,
                                        NIL_TRIGGER_PRICE, DEFAULT_IOC_EXPIRY)
                   && tx == SignedCreate(market.value, old(clientOrderCounter), baseAmount, tx.price, tx.terms,
                                         old(nextNonce))
      ensures r.Ok? ==> nextNonce == old(nextNonce) + 1
      ensures r.SignFailed? ==> nextNonce == old(nextNonce) && signed == old(signed)
      ensures r.VenueRefused? || r.OutcomeUnknown? ==>
                nextNonce == if served.Some? then served.value else old(nextNonce)
    {
      if market.None? {
        return Invalid(Permanent);
      }
      if baseAmount <= 0 {
        return Invalid(MinNotional);
      }
      if bound.None? {
        return Invalid(Hard);
      }
      var price := if bound.value < 1 then 1 else if bound.value > UINT32_MAX then UINT32_MAX else bound.value;
      var terms := Terms(side == Sell, Market, ImmediateOrCancel, true, NIL_TRIGGER_PRICE, DEFAULT_IOC_EXPIRY);
      r := Place(clientOrderId, symbol, market.value, qty, baseAmount, price, terms, signs, reply, served);
    }

    /** A cancel never touches the ledger; it signs only for a record whose venue index is known. */
    method Cancel(clientOrderId: string, signs: bool, reply: Reply, served: Option<int>, isGone: string -> bool)
      returns (r: CancelResult)
      modifies this`nextNonce, this`signed
      ensures clientOrderId !in clientIdToIndex || clientIdToIndex[clientOrderId] !in ordersByIndex ==>
                r == Gone && nextNonce == old(nextNonce) && signed == old(signed)
      ensures r.NotAcknowledged? || r.CancelSignFailed? ==> nextNonce == old(nextNonce) && signed == old(signed)
      ensures clientOrderId in clientIdToIndex && clientIdToIndex[clientOrderId] in ordersByIndex ==>
                var rec := ordersByIndex[clientIdToIndex[clientOrderId]];
                && (r.NotAcknowledged? <==> rec.orderIndex < 0)
                && (r.CancelSignFailed? <==> rec.orderIndex >= 0 && !signs)
                && (rec.orderIndex >= 0 && signs ==>
                      && signed == old(signed) + [SignedCancel(rec.marketId, rec.orderIndex, old(nextNonce))]
                      && (r.Sent? <==> reply.Returned? && reply.code == 200)
                      && (r.TransportFailure? <==> reply.Threw? && (reply.body.None? || reply.body.value.0 == 200))
                      && (forall c, m :: reply == Returned(c, m) || reply == Threw(Some((c, m))) ==>
                            c != 200 ==> r == if isGone(m) then Gone else CancelRefused(c, m))
                      && nextNonce == if r.Sent? then old(nextNonce) + 1
                                      else if served.Some? then served.value else old(nextNonce))
    {
      if clientOrderId !in clientIdToIndex {
        return Gone;
      }
      var idx := clientIdToIndex[clientOrderId];
      if idx !in ordersByIndex {
        return Gone;
      }
      if ordersByIndex[idx].orderIndex < 0 {
        return NotAcknowledged;
      }
      var marketId, orderIndex := ordersByIndex[idx].marketId, ordersByIndex[idx].orderIndex;
      if !signs {
        return CancelSignFailed;
      }
      signed := signed + [SignedCancel(marketId, orderIndex, nextNonce)];
      var verdict := SendSigned(reply, served);
      match verdict {
        case Taken => return Sent;
        case Refused(code, message) =>
          return if isGone(message) then Gone else CancelRefused(code, message);
        case Unknown => return TransportFailure;
      }
    }

    /** Only messages whose type begins with one of the two names of the order feed are looked at. */
    method OnAccountMessage(kind: string, orders: seq<OrderEvent>, read: Reader)
      modifies this`ordersByIndex, this`clientIdToIndex, this`accountFeedLive, this`callbacks
      ensures "subscribed/account_all_orders" <= kind || "update/account_all_orders" <= kind ==>
                && accountFeedLive
                && (Book(), callbacks) == AfterEvents(old(Book()), old(callbacks), orders, read)
      ensures !("subscribed/account_all_orders" <= kind || "update/account_all_orders" <= kind) ==>
                accountFeedLive == old(accountFeedLive) && Book() == old(Book()) && callbacks == old(callbacks)
    {
      if !("subscribed/account_all_orders" <= kind || "update/account_all_orders" <= kind) {
        return;
      }
      accountFeedLive := true;
      var k := 0;
      while k < |orders|
        invariant 0 <= k <= |orders|
        invariant accountFeedLive
        invariant (Book(), callbacks) == AfterEvents(old(Book()), old(callbacks), orders[..k], read)
      {
        OnOrderEvent(orders[k], read);
        assert orders[..k + 1][..k] == orders[..k];
        k := k + 1;
      }
      assert orders[..k] == orders;
    }

    method OnOrderEvent(e: OrderEvent, read: Reader)
      modifies this`ordersByIndex, this`clientIdToIndex, this`callbacks
      ensures (Book(), callbacks) == AfterEvent(old(Book()), old(callbacks), e, read)
    {
      var idx := e.clientOrderIndex;
      if idx < 0 || idx !in ordersByIndex {
        return;
      }
      var rec := ordersByIndex[idx];
      if e.orderIndex >= 0 {
        if rec.orderIndex < 0 {
          rec := rec.(orderIndex := e.orderIndex);
        } else if rec.orderIndex != e.orderIndex {
          return;
        }
      }
      var cumFilled := read(e.amount);
      if rec.submittedQty > 0.0 && cumFilled > rec.submittedQty * 1.001 {
        cumFilled := rec.submittedQty;
      }
      var newFill := 0.0;
      if cumFilled > rec.cumFilledBase {
        newFill := cumFilled - rec.cumFilledBase;
        rec := rec.(cumFilledBase := cumFilled);
      }
      ordersByIndex := ordersByIndex[idx := rec];
      if newFill > 0.0 {
        callbacks := callbacks + [FillOf(rec, e, newFill)];
      }
      callbacks := callbacks + [UpdateOf(rec, e, read)];
      if IsTerminal(e.status) {
        EraseOrderRec(idx, rec.clientOrderId);
      }
    }
  }
}
