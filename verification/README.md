# Lighter connector: a Dafny model

This project models the stateful core of a C++ connector to the Lighter exchange and proves
properties of it. Four components are covered.

* **Execution gateway** (`src/lighter_execution_gateway.cpp`). `GatewayProtocol` is an
  interleaving state machine: any number of submitting and cancelling threads, the thread that
  holds the transaction lock, the account-event thread, and the venue with its in-flight
  transactions and its book. `GatewayInvariants`, `GatewayIds`, `GatewayNonces`
  and `GatewayFills` prove what each step keeps; `GatewayTheorems` states what holds in every state a run can reach.
  `Gateways.Gateway` is the object itself with its fields and methods, and `GatewayRuns` shows
  that its methods, run without interruption, are runs of the state machine.
* **WebSocket session** (`src/lighter_ws_session.cpp`). `SessionModel` gives each strand handler
  as one step over the session's fields and the multiset, per generation, of the completions Asio
  still owes; the environment may finish any of them, including a read that succeeds after its
  connection failed. `Sessions.WebSocketSession` is the object, each handler proved to do what
  `SessionModel` says; `SessionTheorems` states what holds over every run, `SessionSteps` what
  each step brings about.
* **History downloads, throttle, form body** (`src/lighter_rest_client.cpp`). `History`,
  `RestClient`, `Throttling`, `FormEncoding`.
* **Local order book** (`src/lighter_ws_stream_manager.cpp`). `OrderBooks`.

`Orders` holds the gateway's ledger, statuses and crediting rule; `Arithmetic`, `Text` and
`Wrappers` are helpers. `dafny verify dfyconfig.toml` checks everything.

## Assumptions

Gateway, for every result. The gateway is the only user of its API key. The venue accepts a
transaction only at the nonce it expects, and the nonce endpoint serves that nonce. A 200 reply means
the transaction landed. A definitive reject means it did not land and its nonce was not
consumed; an ambiguous outcome may land at once, later, or never. One thread delivers account
events. The signer, the REST client and the account feed are modelled by their outcomes only.
Both callbacks are installed and do not throw. These are the premises `Init` and the guards of
`Enabled`; a run that meets them is `Reached`.

Gateway, for live orders only. An order is reported as ended only after it reached the venue
and left the book (`TruthfulReports`): then a live order keeps its record. A caller also does
not reuse the `clientOrderId` of an order unless that order is lost, one that never landed and
never will (`LiveIdsApart`): then a live order is also found by its id. A caller takes only
ids that are not in the ledger (`FreshIds`): then the maps are inverse as well. Nonces,
transactions, fills, fill ids and terminal updates need none of this; they hold in every
`Reached` state.

Session. `run()` is called once, on a fresh session. A strand handler is one step: each takes
the topic lock at most once around the lists it decides on, so a subscribe or unsubscribe call from another
thread falls before or after it. Such a call is one step too: it edits the lists and posts its
task. A timer wait fails only if something cancelled it. The
auth-token provider does not throw.

Downloads. The server answers each request from one fixed history, with a run of entries ending
at the last one not after `end_timestamp`, at least `count_back` long unless it reaches the
first entry. `History.LastEntriesIsServed` shows that a server returning exactly the last
`count_back` entries meets this.

## Where the code does less than its interface suggests

* Reusing a client order id as soon as its terminal update arrives loses the new order: the
  update is handed out before the old record is pruned, and pruning erases the id
  (`GatewayTheorems.ReuseBeforePruneForgetsLiveOrder`). In general, recording an order keeps
  every live order within reach of its id exactly when no live order holds that id
  (`GatewayIds.RecordKeepsLedgerIffIdNotLive`); reusing the id of a lost order does no harm.
  Whether a cancel then answers "gone" for the order put out of reach depends on the steps
  that follow; for which of them it does is left open beyond the run above.
* `isConnected()` can answer true for a connection the session has already found failed or has
  closed, in two ways. A greeting already
  read when the connection fails or is closed still sets the flag (`SessionTheorems.FlagCanLie`). And `close()` never
  clears it: the read error that follows returns before the flag is touched, so it stays up for
  good (`SessionTheorems.ClosedFlagLiesForEver`). A step keeps the flag truthful in this sense exactly when it
  is neither such a greeting nor a close while the flag is up (`SessionTheorems.FlagStaysHonestIff`).
  Besides, the flag lags: it stays up on a stream that has failed until the read error or the
  watchdog is handled.
* `getHistoricalPrices` starts from a last open time of -1, so candles that open before the epoch
  are never returned; the download is exact exactly when none is wanted (`RestClient.CandlesAreExact`).
* `getFundingRates` sends no request when both ends of the range fall in the same second; it
  is exact exactly when they do not, or when nothing lies in the range (`RestClient.FundingIsExact`).

## Model

| member | source | states |
|---|---|---|
| GatewayTheorems.LiveOrdersKeepTheirRecords | src/lighter_execution_gateway.cpp:704-730 | while the venue reports truthfully, whatever ids the caller takes, each order resting or still in flight has its record, with its own data and its learned venue index |
| GatewayTheorems.NoLiveOrderIsForgotten | src/lighter_execution_gateway.cpp:704-730 | while besides no live order's id is reused, each order resting at the venue, or still in flight to it, is recorded under both keys, and cancelling it is sent with its own market and venue index, or is refused while that index is unknown |
| GatewayTheorems.UnknownIdIsNotResting | src/lighter_execution_gateway.cpp:741-753 | under the same assumptions, cancel answers "gone" without asking the venue only for an id with nothing resting |
| GatewayTheorems.ReuseBeforePruneForgetsLiveOrder | src/lighter_execution_gateway.cpp:500-508 | from every start a run exists, with one submission under the id of an order that is not lost and no other breach, that ends with a resting order unknown to cancel |
| GatewayTheorems.LedgerStaysInverse | src/lighter_execution_gateway.cpp:187-213 | while callers take only ids not in the ledger, the two maps stay mutually inverse in every interleaving |
| GatewayTheorems.FreshRunsAreApart | src/lighter_execution_gateway.cpp:704-709 | callers that take only ids not in the ledger never reuse a live order's id |
| GatewayTheorems.RecordsAreWhatWasSubmitted | src/lighter_execution_gateway.cpp:704-709 | in every run each record is the order submitted under its index |
| GatewayTheorems.SubmittedOrderIsKept | src/lighter_execution_gateway.cpp:704-709 | however a run goes on after a submission, its record, every cancel signed for it and every callback about it carry the id, symbol, market and quantity of the call |
| GatewayTheorems.NewRecordIsUntouched | src/lighter_execution_gateway.cpp:705-709 | a record is written under the drawn index and the id, with no venue index and nothing credited |
| GatewayIds.RecordKeepsLedgerIffIdNotLive | src/lighter_execution_gateway.cpp:705-709 | recording an order keeps every live order within reach of its id if and only if no live order holds the id taken |
| GatewayIds.LostStaysLost | src/lighter_execution_gateway.cpp:724-728 | an order that never landed and never will is not brought back by any step |
| GatewayIds.StepKeepsIds | src/lighter_execution_gateway.cpp:704-730 | every step within the assumptions keeps live orders within reach of their ids |
| GatewayIds.StepKeepsInverse | src/lighter_execution_gateway.cpp:187-213 | every step with fresh ids keeps the maps inverse |
| GatewayTheorems.NoncesStaySynchronised | src/lighter_execution_gateway.cpp:329-355 | the gateway's nonce is the venue's or one behind, and no two accepted transactions share a nonce, in every run |
| GatewayTheorems.NonceNeverDecreases | src/lighter_execution_gateway.cpp:255-261 | the gateway's nonce never goes back, through rejects, unknown outcomes and failed resyncs |
| GatewayTheorems.CountersMeetAgain | src/lighter_execution_gateway.cpp:329-355 | after a 200 reply, and after a resync served with nothing in flight, both nonces are equal |
| GatewayTheorems.TransactionsAreSound | src/lighter_execution_gateway.cpp:754-769 | each order is created by at most one signed transaction, and each signed cancel carries the venue index and market of one submitted order |
| GatewayTheorems.VenueIndexIsFinal | src/lighter_execution_gateway.cpp:435-444 | a venue index, once learned, never changes for the rest of any run |
| GatewayTheorems.FillsAreConserved | src/lighter_execution_gateway.cpp:446-487 | fills handed out plus the one on its way add up to the record's cumulative amount: the largest of zero and what its reports count as, a report counting for itself up to 1.001 times a positive submitted quantity and for that quantity beyond; so at most 1.001 times it |
| GatewayTheorems.TerminalUpdateIsLast | src/lighter_execution_gateway.cpp:476-508 | over any event stream an order has at most one terminal update and no callback after it, and all its credited quantity was handed out before |
| GatewayTheorems.EveryEndIsReported | src/lighter_execution_gateway.cpp:489-508 | each accepted report of an end has its terminal update, or is the event in hand, and between events its order has no record |
| GatewayTheorems.FillTotalIgnoresReportOrder | src/lighter_execution_gateway.cpp:446-460 | two runs that accepted the same reports for an order, reordered or repeated and interleaved with anything, credited it the same |
| GatewayTheorems.FillIdsNeverRepeat | src/lighter_execution_gateway.cpp:478-520 | no two fills of a run share a fill id, although ids use the raw text and crediting the clamped amount |
| GatewayInvariants.StepKeepsIndex | src/lighter_execution_gateway.cpp:704-709 | every step of any party keeps the bookkeeping of indices: each is drawn once, owned by one thread, and its record is the order submitted under it |
| GatewayInvariants.StepKeepsOwnership | src/lighter_execution_gateway.cpp:704-730 | every step, while reports are truthful, keeps which thread, record or in-flight transaction stands for an order |
| GatewayNonces.StepKeepsNonces | src/lighter_execution_gateway.cpp:329-355 | every step, of any party, keeps the nonce invariant |
| GatewayNonces.StepKeepsSentOnce | src/lighter_execution_gateway.cpp:711-723 | every step keeps that no order is signed for creation twice |
| GatewayNonces.StepKeepsBindings | src/lighter_execution_gateway.cpp:754-769 | every step keeps cancels tied to the bound venue index |
| GatewayFills.StepKeepsFills | src/lighter_execution_gateway.cpp:446-487 | every step keeps emitted fills, pending fill, record and reports in balance |
| GatewayFills.StepKeepsLog | src/lighter_execution_gateway.cpp:476-508 | every step keeps callbacks attributed, terminal updates last, and successive fills of an order strictly rising |
| GatewayRuns.MessageIsARun | src/lighter_execution_gateway.cpp:414-511 | handling a whole account message ends where the account-event thread of the state machine ends |
| GatewayRuns.PlacementIsARun | src/lighter_execution_gateway.cpp:704-730 | a submission run without interruption is a run of the state machine, whether the signer fails or with any verdict, landing or resync, at the venue's nonce or one behind |
| GatewayRuns.CancellationIsARun | src/lighter_execution_gateway.cpp:741-787 | the same for a cancel, which leaves the ledger alone |
| Orders.InsertKeepsBijectionIffIdFree | src/lighter_execution_gateway.cpp:705-709 | recording an order keeps the maps inverse if and only if its client id is not in use |
| Orders.EraseUndoesInsertIffIdFree | src/lighter_execution_gateway.cpp:209-213 | dropping a rejected order restores the ledger if and only if its client id was not in use |
| Orders.TerminalStatuses | src/lighter_execution_gateway.cpp:83-106 | an order ends on "filled" and on everything beginning with "canceled", and on nothing else |
| Orders.StatusTable | src/lighter_execution_gateway.cpp:83-106 | the state and the reject kind for every status |
| Orders.MaxCreditIsLargest | src/lighter_execution_gateway.cpp:449-459 | the credited total is the largest of zero and what the reports for the order count as |
| Orders.MaxCreditIgnoresOrder | src/lighter_execution_gateway.cpp:449-459 | that total depends only on which reports came for the order |
| Orders.CreditAllIsLargest | src/lighter_execution_gateway.cpp:435-459 | crediting reports one by one, to any record, leaves the larger of what it had and the most a report counts as, learns the venue index, and changes nothing else |
| Orders.CreditIgnoresOrder | src/lighter_execution_gateway.cpp:435-459 | reordered or repeated reports of an order leave the same record |
| Gateways.OpenReportsCredit | src/lighter_execution_gateway.cpp:414-501 | handling reports that leave the order open credits its record alone and hands out as fills exactly what it credits |
| Gateways.ReportOrderDoesNotMatter | src/lighter_execution_gateway.cpp:414-501 | reordered or repeated reports of this kind leave the same ledger and hand out the same total |
| Gateways.TerminalEventIsHandledOnce | src/lighter_execution_gateway.cpp:503-508 | a terminal event delivered again, whatever came in between, changes nothing and calls nobody |
| Gateways.EventIsIgnored | src/lighter_execution_gateway.cpp:414-444 | an event without a known index, or with another venue index than the order's own, changes nothing |
| Gateways.EventIsHandled | src/lighter_execution_gateway.cpp:433-508 | any other event: the record after it, the fill and the update it hands out field by field and in that order, and when the record goes |
| Gateways.AfterEventsConcat | src/lighter_execution_gateway.cpp:414-511 | splitting a message's orders over two messages makes no difference |
| Gateways.Gateway.EraseOrderRec | src/lighter_execution_gateway.cpp:209-213 | both maps lose exactly the order |
| Gateways.Gateway.SendSigned | src/lighter_execution_gateway.cpp:329-355 | taken if and only if an envelope with code 200 came back; refused with a code and text if and only if the code is not 200 and both came in the envelope or in the exception; unknown otherwise; and the nonce in each case |
| Gateways.Gateway.SubmitPostOnlyLimit | src/lighter_execution_gateway.cpp:677-733 | which arguments are refused, without a trace; the result for each reply; the record written or gone, field by field; the nonce; the whole order that is signed |
| Gateways.Gateway.SubmitReduceOnlyMarket | src/lighter_execution_gateway.cpp:789-847 | the same for a market close, whose signed price always lies in the signer's uint32 domain and equals the bound when that does, or the end it lies beyond |
| Gateways.Gateway.Cancel | src/lighter_execution_gateway.cpp:741-787 | the result in each case, the signed cancel, the nonce, and that the ledger is untouched |
| Gateways.Gateway.OnAccountMessage | src/lighter_execution_gateway.cpp:374-512 | messages of the two order-feed types leave ledger and callbacks as their events do one by one; others change nothing |
| SessionTheorems.SessionNeverStalls | src/lighter_ws_session.cpp:209-375 | unless user-closed, the session waits for its start, for the reconnect timer, or for exactly one operation of the current connect chain or read loop; a live connection has its watchdog armed |
| SessionInvariants.OlderGenerationsChangeNothing | src/lighter_ws_session.cpp:228-234 | a completion from an older generation changes no field of the session |
| SessionInvariants.StepKeepsFlow | src/lighter_ws_session.cpp:439-490 | every step keeps the count of outstanding operations and the session alive |
| SessionTheorems.WriterNeverSleeps | src/lighter_ws_session.cpp:95-132 | at most one write is under way, and after each step no frame waits on a ready open connection without one |
| SessionTheorems.NoSubscriptionIsLost | src/lighter_ws_session.cpp:531-536 | a topic pending on a ready connection always has a flush on its way |
| SessionTheorems.FramesLeaveInOrder | src/lighter_ws_session.cpp:95-132 | frames written are a prefix of those queued at the start of the generation and since; a live connection loses none |
| SessionTheorems.WantedIsWhatWasAsked | src/lighter_ws_session.cpp:154-205 | over every run subscriptions and pending topics together are, without repetition and in order, what the subscribe and unsubscribe calls made them |
| SessionTheorems.GreetingGatesSubscriptions | src/lighter_ws_session.cpp:183-205 | no subscribe frame is written before the greeting or survives a disconnect, and a subscribed channel has its frame written or queued on this connection |
| SessionTheorems.FirstGreetingReplays | src/lighter_ws_session.cpp:377-388 | the first greeting queues one subscribe frame per wanted channel in order and starts writing |
| SessionTheorems.FlagStaysHonestIff | src/lighter_ws_session.cpp:439-523 | a step leaves isConnected() truthful, true only on a connection neither found failed nor closed, if and only if it is neither a greeting read after failure or close nor a close while the flag is up |
| SessionTheorems.FlagCanLie | src/lighter_ws_session.cpp:381-388 | a run from the start leaves isConnected() true on a failed connection |
| SessionTheorems.ClosedFlagStaysUp | src/lighter_ws_session.cpp:446-448 | once closed with the flag up, no run takes it down |
| SessionTheorems.ClosedFlagLiesForEver | src/lighter_ws_session.cpp:492-523 | a run from the start ends closed, the stream shut and nothing left that could notice, with isConnected() true ever after |
| SessionTheorems.LiveIsReached | src/lighter_ws_session.cpp:209-328 | a run from the start reaches a live connection |
| SessionSteps.SuccessAdvancesChain | src/lighter_ws_session.cpp:237-301 | each success of the connect chain starts the next operation and nothing else |
| SessionSteps.HandshakeBringsUp | src/lighter_ws_session.cpp:303-328 | a finished handshake leaves the transport up, not ready, with one read and one watchdog |
| SessionSteps.StartBeginsGeneration | src/lighter_ws_session.cpp:209-235 | the first start and the reconnect timer begin a generation with a resolve outstanding and nothing else |
| SessionSteps.FailureReconnects | src/lighter_ws_session.cpp:439-490 | any failed operation and any malformed message takes the connection down, empties the queue, requeues the topics and sets the timer |
| SessionSteps.KeepaliveTick | src/lighter_ws_session.cpp:412-435 | more than 45 s of silence takes the connection down; otherwise one ping is queued if the greeting has come, a write is under way for it and the timer is set again |
| SessionSteps.MessagesAreRead | src/lighter_ws_session.cpp:355-408 | every message on a live connection is followed by the next read; only a ping is answered, by one pong |
| SessionSteps.StaleReadIsLast | src/lighter_ws_session.cpp:355-357 | a message read after its connection went down is followed by no read and writes nothing |
| SessionSteps.WriterTakesNext | src/lighter_ws_session.cpp:111-131 | after a write the head of the queue goes out, or the writer rests |
| SessionSteps.UnsubscribePostsFrame | src/lighter_ws_session.cpp:538-552 | removing a subscribed topic posts its unsubscribe frame, removing a pending one posts none |
| SessionSteps.PostedFrameIsQueued | src/lighter_ws_session.cpp:544-551 | a posted frame is queued and written on a live connection and dropped on any other |
| SessionSteps.ClosedSessionStops | src/lighter_ws_session.cpp:446-486 | a session closed by the user never begins another generation, brings no transport up and sets no timer |
| SessionTheorems.BackoffDoublesToThirty | src/lighter_ws_session.cpp:473-475 | in every reachable state the delay is the lesser of 30 s and two to the power of the reconnects since the last greeting, so one second on a ready connection |
| SessionLists.AddTopicAppends | src/lighter_ws_session.cpp:154-162 | a new topic joins the end of the wanted list, a known one changes nothing |
| SessionLists.RemoveTopicDeletes | src/lighter_ws_session.cpp:164-174 | removal takes the topic out of both lists and leaves the order of the rest |
| SessionLists.HandleErrorKeepsLists | src/lighter_ws_session.cpp:450-466 | an error moves subscriptions back in front of the pending topics, so the wanted list is the same |
| SessionLists.StepKeepsLists | src/lighter_ws_session.cpp:183-205 | every step keeps the topic, gate and writer invariants, and only calls change the wanted list |
| Sessions.WebSocketSession.Pump | src/lighter_ws_session.cpp:100-132 | the head of the queue goes to the stream if and only if the writer is idle and the stream usable |
| Sessions.WebSocketSession.RemoveTopic | src/lighter_ws_session.cpp:164-174 | the loops remove every pending copy and the first subscription, and say whether there was one |
| Sessions.WebSocketSession.FlushTopics | src/lighter_ws_session.cpp:183-205 | the loops turn each pending topic into a subscription and a queued frame, and wake the writer |
| Sessions.WebSocketSession.StartConnect | src/lighter_ws_session.cpp:209-235 | a new generation starts, with only a resolve outstanding |
| Sessions.WebSocketSession.OnHandshake | src/lighter_ws_session.cpp:303-328 | a finished handshake brings the transport up with its first read and its watchdog |
| Sessions.WebSocketSession.OnRead | src/lighter_ws_session.cpp:332-375 | a message is dispatched and the next read starts, except after an error, a failure or a malformed text |
| Sessions.WebSocketSession.OnPingTimer | src/lighter_ws_session.cpp:412-435 | silence beyond 45 s is an error, otherwise a ping goes out on a ready connection and the timer is set again |
| Sessions.WebSocketSession.HandleError | src/lighter_ws_session.cpp:439-490 | the first error of a generation takes everything down, requeues the topics in order and sets the reconnect timer |
| RestClient.CandlesAreExact | src/lighter_rest_client.cpp:254-304 | the download equals the plain filter of the server's history, in order and once each, if and only if no wanted candle opens before the epoch |
| RestClient.FundingIsExact | src/lighter_rest_client.cpp:311-352 | the funding download equals the events of the range in milliseconds if and only if the range crosses a whole second or holds none |
| RestClient.EventTimeIsRecovered | src/lighter_rest_client.cpp:334-339 | a whole-second time is recovered from milliseconds always and from seconds exactly below the limit |
| RestClient.OddTimesStay | src/lighter_rest_client.cpp:334-339 | times not above zero are left alone |
| RestClient.ArrivalIsNormalised | src/lighter_rest_client.cpp:334-339 | a batch mixing seconds and milliseconds is turned back into the events |
| RestClient.GetHistoricalPrices | src/lighter_rest_client.cpp:254-304 | result, writer calls and requests of the loop, for any server |
| RestClient.DownloadCandles | src/lighter_rest_client.cpp:261-303 | the loop itself, for an interval already known to be valid |
| RestClient.GetFundingRates | src/lighter_rest_client.cpp:311-352 | result and requests of the loop, for any server |
| RestClient.KeepCandles | src/lighter_rest_client.cpp:286-293 | the three skipping rules keep exactly the in-range candles later than all kept before |
| RestClient.NextRequest | src/lighter_rest_client.cpp:280-282 | the window never passes the end, and the cap at 500 never cuts its count |
| RestClient.IntervalTable | src/lighter.cpp:11-31 | the length of each candle interval |
| History.CountCoversWindow | src/lighter_rest_client.cpp:272-282 | the count asked for always covers the window, so the clamp never fires |
| History.RequestCount | src/lighter_rest_client.cpp:279-300 | as many requests are sent as windows of 499 intervals cover the range, rounded up, and none for an empty range |
| History.RequestsTile | src/lighter_rest_client.cpp:279-300 | the requests cover the range in order without gap or overlap, each of 499 intervals but the last |
| History.DownloadIsOrdered | src/lighter_rest_client.cpp:286-297 | whatever the server sends, the result is strictly ascending and in range |
| History.WriterSeesResult | src/lighter_rest_client.cpp:295-298 | the writer gets non-empty batches that add up to the result |
| History.WindowIsServed | src/lighter_rest_client.cpp:280-284 | the response holds every wanted entry of its window |
| History.WindowIsExact | src/lighter_rest_client.cpp:279-301 | one turn of the loop adds exactly the wanted entries it newly covers |
| History.DownloadIsExact | src/lighter_rest_client.cpp:279-301 | the loop, from any cursor, ends with exactly the wanted entries up to the end |
| Throttling.Throttle.Wait | src/lighter_rest_client.cpp:67-79 | how long a call sleeps and what it stamps |
| Throttling.StampsAreApart | src/lighter_rest_client.cpp:67-79 | successive requests are stamped at least the interval apart |
| Throttling.StampIsPrompt | src/lighter_rest_client.cpp:67-79 | a call waits until the interval has passed and no longer |
| Throttling.RateIsBounded | src/lighter_rest_client.cpp:67-79 | a closed window of width W holds at most W / interval + 1 requests |
| FormEncoding.UrlEncode | src/lighter_rest_client.cpp:35-46 | the loop builds the percent-encoding of the bytes |
| FormEncoding.DecodeInvertsEncode | src/lighter_rest_client.cpp:35-46 | percent-decoding gives back every byte string |
| FormEncoding.EncodeIsPlain | src/lighter_rest_client.cpp:39-44 | only letters, digits, the four marks and percent signs occur in the encoding |
| FormEncoding.EveryByteIsEncoded | src/lighter_rest_client.cpp:39-44 | which bytes stand for themselves, and the two capital hex digits of every other |
| FormEncoding.BuildBody | src/lighter_rest_client.cpp:421-423 | the text of the form body |
| FormEncoding.BodyRoundTrip | src/lighter_rest_client.cpp:421-423 | splitting the body at & and = and decoding recovers both fields |
| FormEncoding.BodyIsInjective | src/lighter_rest_client.cpp:421-423 | different submissions have different bodies |
| OrderBooks.ApplyLevels | src/lighter_ws_stream_manager.cpp:88-116 | on a sorted side the loop leaves a sorted side that stands for the fold of the levels |
| OrderBooks.FoldIsLastWrite | src/lighter_ws_stream_manager.cpp:88-116 | a price has a size exactly when that was the last one written there, with the price positive and the size not zero |
| OrderBooks.BidsAreLastWords | src/lighter_ws_stream_manager.cpp:118-131 | a level is among a market's bids exactly when it is the last word on its price in the bids of the market's messages, with no snapshot after it, and neither price nor size is zero |
| OrderBooks.AsksAreLastWords | src/lighter_ws_stream_manager.cpp:118-131 | the same for the asks |
| OrderBooks.SnapshotReplacesBook | src/lighter_ws_stream_manager.cpp:121-131 | a snapshot leaves exactly its own bids and asks; a side it lacks ends empty |
| OrderBooks.MissingSideStays | src/lighter_ws_stream_manager.cpp:126-132 | a delta without a side leaves that side as it was |
| OrderBooks.Begin | src/lighter_ws_stream_manager.cpp:133-134 | the first level of a side is its true extremum, or zero for an empty side |
| OrderBooks.MessageFolds | src/lighter_ws_stream_manager.cpp:118-131 | a message folds into its own market, from nothing if it is a snapshot, and leaves every other alone |
| OrderBooks.ResubscribesIffCrossed | src/lighter_ws_stream_manager.cpp:139-147 | a fresh snapshot is asked for if and only if some bid is above some ask |
| OrderBooks.AnswerIsTrue | src/lighter_ws_stream_manager.cpp:133-152 | a callback carries the true best prices, positive and not crossed when both sides hold levels |
| OrderBooks.EveryMessageIsAnswered | src/lighter_ws_stream_manager.cpp:133-152 | what is called for every pair of best prices, with and without a session and a callback, and under which channel name |
| OrderBooks.ChannelNamesMarket | src/lighter_ws_stream_manager.cpp:29-40 | both spellings of a market's channel name that market, for every int |
| OrderBooks.UnreadableChannelIsMinusOne | src/lighter_ws_stream_manager.cpp:29-40 | a channel with no separator or no number stands for market -1 |
| OrderBooks.WSStreamManager.OnOrderBookMessage | src/lighter_ws_stream_manager.cpp:118-153 | after any sequence of messages every book is the fold of its market's levels since its last snapshot, and every callback was true when made |
| OrderBooks.WSStreamManager.OnMessage | src/lighter_ws_stream_manager.cpp:155-180 | which message types are snapshots, which deltas, which go to the account callback, and that others do nothing |

## Left out

- Sockets, TLS, HTTP, the Asio runtime and the native signer: their outcomes are parameters or environment steps.
- JSON parsing and number texts: messages arrive parsed; the amount text of an order event is kept, and what it is read as is a parameter.
- Reject texts: sorting rejects by their wording (`classifyReject`, `isOrderGoneReason`) is a parameter of cancel; only the split between a definitive and an unknown outcome is modelled.
- Floating point: quantities, prices and the factor 1.001 are exact reals; scaling with `llround` and the slippage factor give the integers that the submit methods take as parameters.
- Wrap-around: `int64` counters and times are unbounded here; only the uint32 price domain and the int32 channel id are modelled.
- Missing callbacks: without a fill or update callback the gateway emits less; both are taken as installed.
- Fill price and the quote cache: callbacks carry quantity, ids and state but no price.
- OrderUpdate.cumFilledQty: carried as the raw report, as in the source; it is not claimed to equal the credited fills.
- Token refresh, symbol cache, instrument loading, start-up gating and logging: no part in the properties above.
- Failed downloads: a request that throws ends a download with no result; the model covers answered requests.
- Order of a subscription at the venue: an unsubscribe removes the topic and posts its frame as separate steps, so a queued flush can put a new subscribe frame first; only the local list and the order of frames are stated.
- Auth token in subscribe frames, and the close frame of a user's close: frames are named by channel, and a close is only its flag; what it cancels appears as failing completions.
- Data callbacks of the session: a data message reaches the consumer without effect on the session.
- A second call of `run()` on one session: the model starts a session once.
- std::map inside the order book: each side is a sorted list searched by bisection, which is one way to be a sorted map; the books are a map that each message reassigns, so references into it are not modelled.
