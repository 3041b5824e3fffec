/**
  Orders of the execution gateway: venue statuses, the two ledger maps, and the
  crediting of cumulative fill reports.
  Models src/lighter_execution_gateway.cpp.
 */
module Orders {
  import Text

  // ---- Statuses --------------------------------------------------------

  datatype OrderState = Accepted | Filled | Cancelled | Rejected

  datatype RejectKind = Hard | BenignPostOnlyCross | Throttled | Permanent | MinNotional

  function ClassifyStatus(status: string): (OrderState, RejectKind) {
    if status == "open" || status == "pending" || status == "in-progress" then (Accepted, Hard)
    else if status == "filled" then (Filled, Hard)
    else if status == "canceled" then (Cancelled, Hard)
    else if status == "canceled-post-only" then (Rejected, BenignPostOnlyCross)
    else if status == "canceled-not-enough-liquidity" || status == "canceled-too-much-slippage" then (Rejected, Hard)
    else if status == "canceled-reduce-only" || status == "canceled-position-not-allowed"
         || status == "canceled-margin-not-allowed" || status == "canceled-invalid-balance" then (Rejected, Permanent)
    else if "canceled" <= status then (Cancelled, Hard)
    else (Accepted, Hard)
  }

  /** The states after which the gateway prunes the record. */
  predicate IsTerminal(status: string) {
    ClassifyStatus(status).0 != Accepted
  }

  /** Exactly "filled" and everything beginning with "canceled" ends an order. */
  lemma TerminalStatuses(status: string)
    ensures IsTerminal(status) <==> status == "filled" || "canceled" <= status
  {
    assert "canceled" <= "canceled-post-only";
    assert "canceled" <= "canceled-not-enough-liquidity" && "canceled" <= "canceled-too-much-slippage";
    assert "canceled" <= "canceled-reduce-only" && "canceled" <= "canceled-position-not-allowed";
    assert "canceled" <= "canceled-margin-not-allowed" && "canceled" <= "canceled-invalid-balance";
    assert "open"[0] != "canceled"[0] && "pending"[0] != "canceled"[0] && "in-progress"[0] != "canceled"[0];
  }

  /** The state and the reject kind for every status there is. */
  lemma StatusTable(status: string)
    ensures var (state, rejectKind) := ClassifyStatus(status);
            && (state == Filled <==> status == "filled")
            && (state == Rejected <==> status in {
                  "canceled-post-only", "canceled-not-enough-liquidity", "canceled-too-much-slippage",
                  "canceled-reduce-only", "canceled-position-not-allowed", "canceled-margin-not-allowed",
                  "canceled-invalid-balance"})
            && (state == Accepted <==> status != "filled" && !("canceled" <= status))
            && (rejectKind == BenignPostOnlyCross <==> status == "canceled-post-only")
            && (rejectKind == Permanent <==> status in {
                  "canceled-reduce-only", "canceled-position-not-allowed", "canceled-margin-not-allowed",
                  "canceled-invalid-balance"})
            && rejectKind in {Hard, BenignPostOnlyCross, Permanent}
  {
    TerminalStatuses(status);
  }

  // ---- The ledger ------------------------------------------------------

  datatype OrderRec = OrderRec(
    clientOrderId: string,
    symbol: string,
    marketId: int,
    orderIndex: int,       // venue index, -1 until an account event delivers it
    cumFilledBase: real,
    submittedQty: real)

  function FreshRec(clientOrderId: string, symbol: string, marketId: int, qty: real): OrderRec {
    OrderRec(clientOrderId, symbol, marketId, -1, 0.0, qty)
  }

  datatype Ledger = Ledger(ordersByIndex: map<int, OrderRec>, clientIdToIndex: map<string, int>)

  function Insert(l: Ledger, idx: int, rec: OrderRec): Ledger {
    Ledger(l.ordersByIndex[idx := rec], l.clientIdToIndex[rec.clientOrderId := idx])
  }

  function Erase(l: Ledger, idx: int, clientOrderId: string): Ledger {
    Ledger(l.ordersByIndex - {idx}, l.clientIdToIndex - {clientOrderId})
  }

  /** The two maps are inverse to each other. */
  ghost predicate Bijection(l: Ledger) {
    && (forall i :: i in l.ordersByIndex ==>
          && l.ordersByIndex[i].clientOrderId in l.clientIdToIndex
          && l.clientIdToIndex[l.ordersByIndex[i].clientOrderId] == i)
    && (forall x :: x in l.clientIdToIndex ==>
          && l.clientIdToIndex[x] in l.ordersByIndex
          && l.ordersByIndex[l.clientIdToIndex[x]].clientOrderId == x)
  }

  /** The index and the client id name each other. */
  ghost predicate Recorded(l: Ledger, idx: int, clientOrderId: string) {
    && idx in l.ordersByIndex && l.ordersByIndex[idx].clientOrderId == clientOrderId
    && clientOrderId in l.clientIdToIndex && l.clientIdToIndex[clientOrderId] == idx
  }

  /**
    Inserting keeps the maps inverse exactly when the client order id is not in
    use: with a live id the older record loses its entry in clientIdToIndex.
   */
  lemma InsertKeepsBijectionIffIdFree(l: Ledger, idx: int, rec: OrderRec)
    requires Bijection(l) && idx !in l.ordersByIndex
    ensures Bijection(Insert(l, idx, rec)) <==> rec.clientOrderId !in l.clientIdToIndex
  {
    var l' := Insert(l, idx, rec);
    if rec.clientOrderId in l.clientIdToIndex {
      var older := l.clientIdToIndex[rec.clientOrderId];
      assert older in l'.ordersByIndex && older != idx;
    } else {
      forall x | x in l'.clientIdToIndex
        ensures l'.clientIdToIndex[x] in l'.ordersByIndex
        ensures l'.ordersByIndex[l'.clientIdToIndex[x]].clientOrderId == x
      {}
    }
  }

  /** Erasing right after inserting restores the ledger exactly when the id was not in use. */
  lemma EraseUndoesInsertIffIdFree(l: Ledger, idx: int, rec: OrderRec)
    requires Bijection(l) && idx !in l.ordersByIndex
    ensures Erase(Insert(l, idx, rec), idx, rec.clientOrderId) == l <==> rec.clientOrderId !in l.clientIdToIndex
  {}

  /** What cancel finds under the ledger lock, before it takes the transaction lock. */
  datatype CancelPlan = NoRecord | NotYetAcknowledged | Send(marketId: int, orderIndex: int)

  function PlanCancel(l: Ledger, clientOrderId: string): CancelPlan {
    if clientOrderId !in l.clientIdToIndex then NoRecord
    else
      var idx := l.clientIdToIndex[clientOrderId];
      if idx !in l.ordersByIndex then NoRecord
      else if l.ordersByIndex[idx].orderIndex < 0 then NotYetAcknowledged
      else Send(l.ordersByIndex[idx].marketId, l.ordersByIndex[idx].orderIndex)
  }

  // ---- Crediting reports -----------------------------------------------

  /** One order of an account message; `orderIndex` and `clientOrderIndex` are -1 when absent. */
  datatype OrderEvent = OrderEvent(clientOrderIndex: int, orderIndex: int, amount: string, status: string)

  /** An event that names an order index. */
  type OwnEvent = e: OrderEvent | e.clientOrderIndex >= 0 witness OrderEvent(0, -1, "0", "open")

  /** What the gateway reads from the amount text. */
  type Reader = string -> real

  function Clamp(submittedQty: real, cumFilled: real): real {
    if submittedQty > 0.0 && cumFilled > submittedQty * 1.001 then submittedQty else cumFilled
  }

  /**
    How much a report of `r` says is filled of an order for `q`: more than 1.001 times a
    positive `q` is taken for `q`.
   */
  ghost predicate CountsAs(q: real, r: real, x: real) {
    && (q <= 0.0 || r <= 1.001 * q ==> x == r)
    && (q > 0.0 && r > 1.001 * q ==> x == q)
  }

  /** A different venue index for the same client index: the event is ignored. */
  predicate Collides(rec: OrderRec, e: OrderEvent) {
    e.orderIndex >= 0 && rec.orderIndex >= 0 && rec.orderIndex != e.orderIndex
  }

  function Learn(rec: OrderRec, e: OrderEvent): OrderRec {
    if e.orderIndex >= 0 && rec.orderIndex < 0 then rec.(orderIndex := e.orderIndex) else rec
  }

  function Raise(rec: OrderRec, cumFilled: real): OrderRec {
    if cumFilled > rec.cumFilledBase then rec.(cumFilledBase := cumFilled) else rec
  }

  function CreditRec(rec: OrderRec, e: OrderEvent, read: Reader): OrderRec {
    if Collides(rec, e) then rec else Raise(Learn(rec, e), Clamp(rec.submittedQty, read(e.amount)))
  }

  /** The quantity this event adds, to be emitted as a fill. */
  function NewFill(rec: OrderRec, e: OrderEvent, read: Reader): real {
    CreditRec(rec, e, read).cumFilledBase - rec.cumFilledBase
  }

  /** The largest clamped amount among the reports for `idx`, at least zero. */
  function MaxCredit(reports: seq<OrderEvent>, idx: int, submittedQty: real, read: Reader): real {
    if reports == [] then 0.0
    else
      var last := reports[|reports| - 1];
      var before := MaxCredit(reports[..|reports| - 1], idx, submittedQty, read);
      if last.clientOrderIndex == idx && Clamp(submittedQty, read(last.amount)) > before
      then Clamp(submittedQty, read(last.amount)) else before
  }

  lemma MaxCreditSnoc(reports: seq<OrderEvent>, e: OrderEvent, idx: int, submittedQty: real, read: Reader)
    ensures var before := MaxCredit(reports, idx, submittedQty, read);
            MaxCredit(reports + [e], idx, submittedQty, read) ==
            if e.clientOrderIndex == idx && Clamp(submittedQty, read(e.amount)) > before
            then Clamp(submittedQty, read(e.amount)) else before
  {
    assert (reports + [e])[..|reports|] == reports;
  }

  /** `total` is the largest of zero and what the reports for `idx` count as. */
  ghost predicate IsLargestOf(total: real, reports: seq<OrderEvent>, idx: int, submittedQty: real, read: Reader) {
    && total >= 0.0
    && (forall e, x :: e in reports && e.clientOrderIndex == idx && CountsAs(submittedQty, read(e.amount), x) ==>
          x <= total)
    && (total == 0.0 ||
        exists e :: e in reports && e.clientOrderIndex == idx && CountsAs(submittedQty, read(e.amount), total))
  }

  lemma {:induction false} MaxCreditIsLargest(reports: seq<OrderEvent>, idx: int, submittedQty: real, read: Reader)
    ensures IsLargestOf(MaxCredit(reports, idx, submittedQty, read), reports, idx, submittedQty, read)
  {
    if reports != [] {
      var n := |reports| - 1;
      MaxCreditIsLargest(reports[..n], idx, submittedQty, read);
      assert forall e :: e in reports <==> e in reports[..n] || e == reports[n];
      assert CountsAs(submittedQty, read(reports[n].amount), Clamp(submittedQty, read(reports[n].amount)));
    }
  }

  /** Order and repetition of reports do not matter. */
  lemma MaxCreditIgnoresOrder(a: seq<OrderEvent>, b: seq<OrderEvent>, idx: int, submittedQty: real, read: Reader)
    requires forall e: OrderEvent :: e.clientOrderIndex == idx ==> (e in a <==> e in b)
    ensures MaxCredit(a, idx, submittedQty, read) == MaxCredit(b, idx, submittedQty, read)
  {
    MaxCreditIsLargest(a, idx, submittedQty, read);
    MaxCreditIsLargest(b, idx, submittedQty, read);
  }

  /** A credited total never exceeds 1.001 times a positive submitted quantity. */
  lemma MaxCreditBounded(reports: seq<OrderEvent>, idx: int, submittedQty: real, read: Reader)
    requires submittedQty > 0.0
    ensures 0.0 <= MaxCredit(reports, idx, submittedQty, read) <= submittedQty * 1.001
  {
    MaxCreditIsLargest(reports, idx, submittedQty, read);
  }

  /** A record after a run of reports, none of which ends the order. */
  function CreditAll(rec: OrderRec, es: seq<OrderEvent>, read: Reader): OrderRec {
    if es == [] then rec
    else CreditRec(CreditAll(rec, es[..|es| - 1], read), es[|es| - 1], read)
  }

  /** The reports concern one order at the venue: its index is absent or always the same. */
  ghost predicate Agree(rec: OrderRec, es: seq<OrderEvent>, venueIndex: int) {
    && venueIndex >= 0 && (rec.orderIndex < 0 || rec.orderIndex == venueIndex)
    && forall e :: e in es ==> e.orderIndex < 0 || e.orderIndex == venueIndex
  }

  /**
    The credited amount ends at the larger of what was credited before and the largest
    clamped report, the venue index is learned if any report names it, and nothing else changes.
   */
  lemma {:induction false} CreditAllIsLargest(rec: OrderRec, es: seq<OrderEvent>, venueIndex: int, read: Reader)
    requires Agree(rec, es, venueIndex)
    ensures var r := CreditAll(rec, es, read);
            && r == rec.(orderIndex := r.orderIndex, cumFilledBase := r.cumFilledBase)
            && r.orderIndex == (if exists e :: e in es && e.orderIndex >= 0 then venueIndex else rec.orderIndex)
            && rec.cumFilledBase <= r.cumFilledBase
            && (forall e, x :: e in es && CountsAs(rec.submittedQty, read(e.amount), x) ==> x <= r.cumFilledBase)
            && (r.cumFilledBase == rec.cumFilledBase
                || exists e :: e in es && CountsAs(rec.submittedQty, read(e.amount), r.cumFilledBase))
  {
    if es != [] {
      var n := |es| - 1;
      assert forall e :: e in es <==> e in es[..n] || e == es[n];
      CreditAllIsLargest(rec, es[..n], venueIndex, read);
      assert CountsAs(rec.submittedQty, read(es[n].amount), Clamp(rec.submittedQty, read(es[n].amount)));
    }
  }

  /** Reordering or repeating the reports of an order leaves the same record. */
  lemma CreditIgnoresOrder(rec: OrderRec, a: seq<OrderEvent>, b: seq<OrderEvent>, venueIndex: int, read: Reader)
    requires Agree(rec, a, venueIndex)
    requires forall e :: e in a <==> e in b
    ensures CreditAll(rec, a, read) == CreditAll(rec, b, read)
  {
    CreditAllIsLargest(rec, a, venueIndex, read);
    CreditAllIsLargest(rec, b, venueIndex, read);
  }

  // ---- What the gateway reports to its caller --------------------------

  /**
    `idx` is the client order index the callback belongs to and `amount` the text
    the fill id was made from; the rest is what the callback receives.
   */
  datatype Emission =
    | Fill(idx: int, clientOrderId: string, symbol: string, amount: string, fillId: string, qty: real)
    | Update(idx: int, clientOrderId: string, symbol: string, state: OrderState, rejectKind: RejectKind,
             reason: string, cumFilledQty: real)

  function FillId(idx: nat, amount: string): string {
    Text.Digits(idx) + "-" + amount
  }

  function FillOf(rec: OrderRec, e: OwnEvent, qty: real): Emission {
    Fill(e.clientOrderIndex, rec.clientOrderId, rec.symbol, e.amount, FillId(e.clientOrderIndex, e.amount), qty)
  }

  function UpdateOf(rec: OrderRec, e: OrderEvent, read: Reader): Emission {
    var (state, rejectKind) := ClassifyStatus(e.status);
    Update(e.clientOrderIndex, rec.clientOrderId, rec.symbol, state, rejectKind, e.status, read(e.amount))
  }

  predicate EndsOrder(m: Emission) {
    m.Update? && m.state != Accepted
  }

  /** The total of the fills emitted for one order. */
  function FillSum(log: seq<Emission>, idx: int): real {
    if log == [] then 0.0
    else
      var last := log[|log| - 1];
      FillSum(log[..|log| - 1], idx) + if last.Fill? && last.idx == idx then last.qty else 0.0
  }

  lemma FillSumSnoc(log: seq<Emission>, m: Emission, idx: int)
    ensures FillSum(log + [m], idx) == FillSum(log, idx) + if m.Fill? && m.idx == idx then m.qty else 0.0
  {
    assert (log + [m])[..|log|] == log;
  }
}
