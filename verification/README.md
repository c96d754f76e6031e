# A verified model of the order-gateway client

The package `pkg/trading` sends orders to a trading gate over a message socket and matches what comes back to the
callers who wait for it. This project models that client in Dafny and proves what its callers rely on. The code is
the only specification there is, so the model follows the code: the same branches, the same error cases, the same
constants.

It has four parts.

**The request/reply protocol** (`History`, `Gates`, `Windows`, `ZmqTraders`, `Protocol`, `Registration`, `Snapshots`,
`Epochs`, `Outcomes`, `CacheRuns`, `SnapshotReads`, `Theorems`, `CallLaws`, `Operations`, `Counterexamples`). Many callers register a call in one of three pending maps, send a
request and wait for a one-slot channel or for their context to end; one goroutine handles snapshots, reports and
rejects and completes calls through the same maps.

- `ZmqTraders` is the client as a class over call objects. Every method is one critical section or one handler of the
  program, and is proved to change the heap as a function of `Gates` says.
- `Protocol` is the client under concurrency: each API call has a program counter, the input goroutine has one, and a
  step is one critical section (the same functions of `Gates`), one send, one wake or timeout, one cache operation, or
  one read of a completed call. Sends may fail and contexts may end at any moment. A run is any sequence of events;
  events that are not possible change nothing, so every interleaving is a run.
- A run writes a history. `Theorems` says what holds in every reachable state, and almost everything follows from one
  fact: what a call in flight holds (its reply, its error, its trades, whether its caller is woken) is exactly what a
  reader of the history since its registration would say, who knows only the call's user, order and kind (its
  ticket) and nothing of the pending maps. That nobody else's report is ever delivered rests on the 40-byte key being
  injective.

`CallLaws` and `Operations` say what one message and one caller's next steps do from any reachable state on, in terms
of what the caller asked for and of the fields of the message: which reports and rejects reach whom and with what
trade, what the cache becomes, which way a lookup sends each operation, and how it ends on an answer, a failed send or
a timeout.

**The order cache** (`OrdersContainers`). The container is a class with the lock table and the nested map. Its state
after any history equals a declarative reading of that history: for each order, the last entry that touched it decides.

**The cluster router** (`RoundRobin`, `ClusterTraders`, `StickyGates`). The ring of ready gates is a linked structure;
drawing from it is rotating a queue, and the fairness results are about that queue. Migration is a method over the
assignment map. The races of assigning a gate are a small state machine of their own.

**The codecs** (`Bytes`, `Identifiers`, `ClientOrderIds`, `UserIds`): the key of the pending maps, the NUL-padded order
id and its JSON form, the decimal user id, and the framing of messages by topic.

Four things the code does that its names do not suggest:

- An empty order id does not survive a round trip through text: it is printed as 32 NUL bytes
  (`ClientOrderIds.EmptyTextIsNotPreserved`; `ClientOrderIds.StringOfStrToType` says exactly which texts survive).
- A caller does not get the first report. `Done` carries the call, whose reply later reports overwrite until the caller
  reads it; so the theorems speak of the last report before the read. `Counterexamples.FirstReportIsLost` gives a run for
  any two reports, `Counterexamples.FirstReportIsReturned` says exactly when the answer is the first one after all.
- A reject of a cancel also completes a pending new order under the same id, whatever request it names
  (`Counterexamples.RejectCompletesNewOrder`).
- A report of a user who is not accepted completes calls without entering the cache.
  `Counterexamples.AnsweredWithoutCache` gives a run for any report, `Theorems.CachedUnlessNotAccepted` says that it is
  cached if and only if its user was accepted when it came in.

`dafny verify dfyconfig.toml` verifies everything.

## Model

| member | source | states |
|---|---|---|
| Theorems.CallsReadTheHistory | pkg/trading/zmq-trader.go:404-472 | in every reachable state a call in flight holds the last reply, the last error and the trades of its ticket since registration, and its caller is woken if and only if something that wakes it was handled |
| Theorems.ReplyAttribution | pkg/trading/zmq-trader.go:348-472 | a returned reply was received for the caller's own user and order and handled while it was registered, is of a kind its operation may be answered with, and is the last such report before the read; a returned error is that of the last reject for the caller's own user and order, for a cancel of its own request, received and handled in the same time; no answer is without reply and error |
| Theorems.FullMeansResult | pkg/trading/zmq-trader.go:166-171 | whichever call it is, in every reachable state a full Done slot means that a reply or an error is there |
| Theorems.TradesAreExact | pkg/trading/zmq-trader.go:425-437 | the trades returned with a new order are exactly the trades reported for it between registering and reading, in order, each with the report's trade id, time, last quantity, last price and fee; a cancel or replace returns none |
| Theorems.WaitCompleteIsSafe | pkg/trading/zmq-trader.go:425-448 | for immediate orders that wait for completion, the caller is woken if and only if a reject or a terminal report was handled; and when nothing follows the terminal report, a reply without error is terminal |
| Theorems.RepliesAreExact | pkg/trading/zmq-trader.go:404-472 | handling a report changes exactly the calls of callers in flight whose ticket it answers, as the ticket says, and no other call, map, user or cache entry |
| Theorems.RejectsAreExact | pkg/trading/zmq-trader.go:348-372 | the same for a reject, where a replace is told by the request id it was called with |
| Theorems.RepliesWereReceived | pkg/trading/zmq-trader.go:333-346 | whatever is handed to the calls as a report or a reject was received from the gate as that report or reject of that user |
| Theorems.NoLeaks | pkg/trading/zmq-trader.go:154-158 | each of the three pending maps has an entry, outer or inner, if and only if a caller in flight with that key and that call holds it, and no inner map is ever empty |
| Theorems.OneNewOrderPerId | pkg/trading/zmq-trader.go:142-158 | two callers placing one order id are never both between registering and clean-up, and the entry under the id is the caller's own |
| Theorems.CacheReadsTheHistory | pkg/trading/orders-container.go:18-108 | in every reachable state the cache is the last-touch reading of the history, orders sit under their own ids, only accepted users are cached, and if snapshots hold only orders that are new, partially filled or suspended, so does the cache |
| Theorems.CachedUnlessNotAccepted | pkg/trading/zmq-trader.go:474-480 | a report handed to the calls was cached before if and only if its user was accepted when it came in; at most drops came in between |
| Theorems.ReadYourWrites | pkg/trading/zmq-trader.go:474-480 | after a cached report was handed to the calls, a lookup of its order agrees with it unless the user was dropped meanwhile or a later entry touched the order; and the order it replaced is gone unless a later entry touched that |
| Theorems.LookupAfterReply | pkg/trading/zmq-trader.go:474-480 | the same for a caller and the reply it returned, the order that a replace asked about included |
| Theorems.SnapshotIsCached | pkg/trading/zmq-trader.go:307-320 | from its wake-up to the end of its operation a caller was served: a snapshot of its user was stored, the one it was released for if it waited, and the user is cached unless dropped since; GetSnapshot lists the orders of a moment after that, and finds none only if the user was dropped after that |
| Theorems.OneSnapshotWakesAll | pkg/trading/zmq-trader.go:383-389 | a caller that subscribes or waits has its slot full if and only if its user's waiters were released since it joined |
| Theorems.SnapshotCompletesAll | pkg/trading/zmq-trader.go:374-390 | an accepted user's snapshot completes every registered waiter of that user, also the one that has yet to subscribe, and nobody else, and replaces the user's orders; a user who is not accepted changes nothing |
| Theorems.OneSubscriptionPerEpoch | pkg/trading/zmq-trader.go:78-101 | over every run the subscriptions tried equal the times that the set of those who wait for the user became non-empty, less one exactly while somebody has yet to send |
| Theorems.SilentAfterUnsubscribe | pkg/trading/zmq-trader.go:58-69 | after a user was dropped, nothing re-creates its cache until somebody asks for its snapshot again |
| Theorems.LookupsReadTheCache | pkg/trading/zmq-trader.go:119-135 | a new order was only sent if the order was not cached at a moment after the caller was served, a replace only if it would change the order cached then; what was found, not found or not changed was so at such a moment |
| Theorems.FoundIsLastTouch | pkg/trading/zmq-trader.go:322-331 | an order that GetOrder found is what the last entry that touched it left of it, at a moment after the caller was served |
| CallLaws.CallAfterReject | pkg/trading/zmq-trader.go:348-372 | from every reachable state a reject completes, with its error, the calls in flight of its user and order, replaces and cancels only if it names their request, and leaves every other call in flight alone |
| CallLaws.CallsAreNamed | pkg/trading/zmq-trader.go:274-275 | a call in flight carries the request id its caller gave for a replace, and the one generated when it registered for a cancel |
| CallLaws.CancelIsNamed | pkg/trading/zmq-trader.go:198-207 | the request id of a cancel is the one generated when it registered, and stays so to its answer |
| CallLaws.CallAfterReport | pkg/trading/zmq-trader.go:404-480 | from every reachable state a report that comes in and is handled becomes the reply of exactly the calls in flight it answers, adds its trade to a new order's, and completes them unless the new order waits on for an immediate order's completion |
| CallLaws.CacheAfterReport | pkg/trading/orders-container.go:70-95 | from every reachable state a report of a cached user leaves its order if it is new, partially filled or suspended, and nothing of it for any other status, removes the order it replaced, and touches nothing else; reports of type Status or Rejected change nothing |
| CallLaws.UnsubscribeIsExact | pkg/trading/zmq-trader.go:57-65 | from every reachable state unsubscribing forgets the user's acceptance and orders and changes nothing else |
| Operations.CachedUserIsServed | pkg/trading/zmq-trader.go:111-117 | an operation for a cached user goes to its lookup without waiting; GetSnapshot accepts the user all the same |
| Operations.UncachedUserIsWaitedFor | pkg/trading/zmq-trader.go:71-101 | an operation for another user accepts the user and registers a waiting call, and subscribes if and only if nobody was waiting |
| Operations.SubscribeFails | pkg/trading/zmq-trader.go:96-101 | a subscription that cannot be sent ends the operation with that error and leaves no waiting call |
| Operations.SnapshotWakes | pkg/trading/zmq-trader.go:103-105 | a waiting caller goes on to its lookup if and only if its user's waiters were released since it joined, and leaves no waiting call |
| Operations.SnapshotTimesOut | pkg/trading/zmq-trader.go:106-108 | a caller whose context ends returns that and leaves no waiting call |
| Operations.SearchDecides | pkg/trading/zmq-trader.go:119-135 | from every reachable state: GetOrder returns the cached order or not found; a new order is a duplicate if and only if it is cached; a cancel goes on at once if it is; a replace is not found if it is not cached, and not changed if price and quantity asked for are each empty or the cached ones |
| Operations.SearchPendingDecides | pkg/trading/zmq-trader.go:184-190 | a cancel of an order that is not cached goes on if and only if a new order of that user and id is in flight, and is not found otherwise |
| Operations.RegisterDecides | pkg/trading/zmq-trader.go:142-153 | a new order is a duplicate if and only if one of that user and id is in flight; otherwise, and for every cancel and replace, the request is sent |
| Operations.SendFails | pkg/trading/zmq-trader.go:160-164 | a request that cannot be sent ends the operation with that error and leaves no pending call |
| Operations.AnswerTimesOut | pkg/trading/zmq-trader.go:169-170 | a caller whose context ends returns that and leaves no pending call |
| Operations.AnswerIsReturned | pkg/trading/zmq-trader.go:166-168 | a caller returns if and only if something that wakes it was handled since it registered; it returns the last reply, the trades and the last error of that time and leaves no pending call |
| Theorems.Reachable | pkg/trading/zmq-trader.go:71-305 | all invariants hold after every run |
| Registration.StepKeeps | pkg/trading/zmq-trader.go:142-305 | every step keeps ownership of the pending maps and the exactness of what calls have seen |
| Registration.Exclusive | pkg/trading/zmq-trader.go:142-158 | a call in flight is registered under its own ticket and nowhere else |
| Registration.LeaveTakesOwnEntry | pkg/trading/zmq-trader.go:214-221 | the deferred clean-up takes the caller's own entry out of the pending maps, leaves every other entry as it is, and leaves no group empty |
| Registration.HandlerKeeps | pkg/trading/zmq-trader.go:404-472 | a handler step that reaches calls by ticket keeps every call in line with the history |
| Snapshots.StepWaits | pkg/trading/zmq-trader.go:71-109 | every step keeps ownership of waiting calls and that of those waiting for a user at most one found nobody waiting |
| Epochs.StepEpoch | pkg/trading/zmq-trader.go:78-101 | every step keeps the balance of openings and subscriptions |
| Outcomes.StepResults | pkg/trading/zmq-trader.go:166-171 | what a caller has read stays what the history between registering and reading says |
| CacheRuns.StepCache | pkg/trading/zmq-trader.go:374-402 | every step keeps the cache equal to the replay of the history and cached users accepted |
| CacheRuns.StepLog | pkg/trading/zmq-trader.go:474-480 | every reply and release in the history was prepared by the cache entry it names |
| SnapshotReads.StepReads | pkg/trading/zmq-trader.go:71-125 | every step keeps it that whoever is past waiting was served, and that what a lookup found or decided is explained by the history |
| SnapshotReads.ReleasedIsServed | pkg/trading/zmq-trader.go:103-105 | whoever waited successfully was released after it joined, for a snapshot of its user that had been stored |
| SnapshotReads.UncachedIsLost | pkg/trading/zmq-trader.go:314-319 | whoever was served and then finds its user uncached comes after a drop |
| Counterexamples.FirstReportIsReturned | pkg/trading/zmq-trader.go:425-427 | a caller returned the first report that answered it if and only if the last one before it read is the same report |
| Counterexamples.FirstReportIsLost | pkg/trading/zmq-trader.go:425-427 | for any two reports that answer a new order there is a run in which the first comes first and the second is returned |
| Counterexamples.RejectCompletesNewOrder | pkg/trading/zmq-trader.go:352-359 | in every reachable state a reject completes the new order pending under its order id with its error, whichever cancel request it names |
| Counterexamples.AnsweredWithoutCache | pkg/trading/zmq-trader.go:474-480 | for any report that answers a new order there is a run in which it is returned and its user is not cached |
| Windows.WaitComplete | pkg/trading/zmq-trader.go:439-448 | over any window: who waits for completion is woken exactly by a reject or a terminal report |
| Windows.LastReplyAt | pkg/trading/zmq-trader.go:427 | the reply is the last report that answers the ticket |
| Windows.LastErrorAt | pkg/trading/zmq-trader.go:354-364 | the error is that of the last reject that refuses the ticket |
| Windows.TradePositions | pkg/trading/zmq-trader.go:429-437 | the trade log of a window lists exactly the trade reports of the order in it, in order, field by field |
| Epochs.CountsAgree | pkg/trading/zmq-trader.go:78-101 | what the history counts as openings and subscriptions are the steps of the run at which the set of waiters became non-empty and at which somebody subscribed |
| Windows.WokenHasResult | pkg/trading/zmq-trader.go:425-471 | whatever wakes a caller left a reply or an error |
| Gates.ReplyReaches | pkg/trading/zmq-trader.go:404-472 | a report does to a registered call what its ticket says: canceled, replaced-original, filled and new-order answers, trades, and waking |
| Gates.ReplySpares | pkg/trading/zmq-trader.go:404-472 | a call that is registered nowhere is left alone by reports |
| Gates.RejectReaches | pkg/trading/zmq-trader.go:348-372 | a reject does to a registered call what its ticket says |
| Gates.RejectSpares | pkg/trading/zmq-trader.go:348-372 | a call that is registered nowhere is left alone by rejects |
| ZmqTraders.RequestCall.SignalDone | pkg/trading/call.go:25-37 | completion fills the slot or is dropped, and changes nothing else |
| ZmqTraders.CallSnapshot.SignalDone | pkg/trading/call.go:56-66 | the same for a snapshot call |
| ZmqTraders.ZmqTrader.RegisterNew | pkg/trading/zmq-trader.go:137-149 | registers the call unless one is pending under the id, and says which |
| ZmqTraders.ZmqTrader.UnregisterNew | pkg/trading/zmq-trader.go:154-158 | takes out the entry of the id |
| ZmqTraders.ZmqTrader.RegisterCancel | pkg/trading/zmq-trader.go:206-213 | adds a call to the group of the id, making the group if there is none |
| ZmqTraders.ZmqTrader.UnregisterCancel | pkg/trading/zmq-trader.go:214-221 | takes the call out of the group, and the group out of the map when it is empty |
| ZmqTraders.ZmqTrader.JoinSnap | pkg/trading/zmq-trader.go:78-85 | adds a waiting call for the user and says whether somebody was waiting already |
| ZmqTraders.ZmqTrader.LeaveSnap | pkg/trading/zmq-trader.go:87-94 | takes the waiting call out, and the user when nobody is left |
| ZmqTraders.ZmqTrader.EnsureUserAccepted | pkg/trading/zmq-trader.go:67-69 | the user is accepted, nothing else changes |
| ZmqTraders.ZmqTrader.Unsubscribe | pkg/trading/zmq-trader.go:57-65 | the user is neither accepted nor cached, nothing else changes |
| ZmqTraders.ZmqTrader.AnswerAll | pkg/trading/zmq-trader.go:410-415 | every call of a group gets the report and is completed |
| ZmqTraders.ZmqTrader.AnswerPending | pkg/trading/zmq-trader.go:425-448 | the pending new order gets the reply, a trade with the report's trade id, time, last quantity, last price and fee if it is one, and completion as its time in force and waiting mode say |
| ZmqTraders.ZmqTrader.RejectMatching | pkg/trading/zmq-trader.go:361-371 | exactly the calls with the reject's request id get the error and are completed |
| ZmqTraders.ZmqTrader.HandleReportReplyCall | pkg/trading/zmq-trader.go:404-472 | the handler's loops do to the heap what the value model says |
| ZmqTraders.ZmqTrader.HandleRejectPayload | pkg/trading/zmq-trader.go:348-372 | the same for rejects |
| ZmqTraders.ZmqTrader.ReleaseWaiters | pkg/trading/zmq-trader.go:383-389 | everybody who waits for the user is completed, and nobody else |
| ZmqTraders.ZmqTrader.HandleSnapshot | pkg/trading/zmq-trader.go:374-390 | an accepted user's snapshot is stored and then releases the waiters; any other is ignored |
| ZmqTraders.ZmqTrader.HandleReportFillSnapshot | pkg/trading/zmq-trader.go:392-402 | the cache takes the report, the pending maps are untouched |
| ZmqTraders.ZmqTrader.HandleReport | pkg/trading/zmq-trader.go:474-480 | the cache first, for accepted users only; then the pending calls, for every user |
| OrdersContainers.CacheIsLastTouch | pkg/trading/orders-container.go:18-108 | for every history: an order is cached with a value if and only if the user was stored and not dropped since, and the last entry touching the order left that value |
| OrdersContainers.ReplayDomain | pkg/trading/orders-container.go:18-108 | a user is cached if and only if some snapshot was stored and not followed by a drop |
| OrdersContainers.LastTouchWins | pkg/trading/orders-container.go:87-94 | a lookup gives the verdict of the last touching entry, replaced reports included |
| OrdersContainers.LookupInBookOf | pkg/trading/orders-container.go:26-29 | of orders with one id in a snapshot the last one wins |
| OrdersContainers.CacheInvariant | pkg/trading/orders-container.go:70-95 | every stored order sits under its own id, and live snapshots keep the cache live |
| OrdersContainers.OrdersContainer.SetOrders | pkg/trading/orders-container.go:18-31 | the user's orders are replaced; lock table and users keep one domain |
| OrdersContainers.OrdersContainer.HasOrders | pkg/trading/orders-container.go:33-36 | whether the user is cached |
| OrdersContainers.OrdersContainer.GetOrders | pkg/trading/orders-container.go:38-53 | lists each cached order once: storing the list again would give the same orders |
| OrdersContainers.OrdersContainer.GetOrder | pkg/trading/orders-container.go:55-67 | the order cached under the id, if any |
| OrdersContainers.OrdersContainer.HandleReport | pkg/trading/orders-container.go:69-95 | keeps a cached user's reported order if it is new, partially filled or suspended and deletes it otherwise, deletes the replaced order, changes nothing else, and ignores every other user and reports of type Status or Rejected |
| OrdersContainers.OrdersContainer.Delete | pkg/trading/orders-container.go:97-108 | forgets the user in both tables |
| RoundRobin.DrawAt | pkg/trading/cluster-trader.go:120-128 | in a turn order of n gates the k-th draw is the (k mod n)-th gate |
| RoundRobin.FullRound | pkg/trading/cluster-trader.go:120-128 | any n consecutive draws from a turn order draw every gate as often as it occurs |
| RoundRobin.Balanced | pkg/trading/cluster-trader.go:120-128 | after k draws from a turn order each gate was drawn k/n times as often as it occurs, or up to one round more |
| ClusterTraders.ClusterTrader.GetNextEnabled | pkg/trading/cluster-trader.go:120-128 | on the linked ring: gives the head of the turn order and rotates it; gives nothing on the empty ring |
| ClusterTraders.ClusterTrader.DrawMany | pkg/trading/cluster-trader.go:120-128 | k draws on the linked ring are the first k draws from the turn order; on the empty ring all are refused |
| ClusterTraders.ClusterTrader.UpdateAndDraw | pkg/trading/cluster-trader.go:120-173 | on the linked ring, after a rebuild: draw k is the (k mod n)-th ready gate in configured order, any n draws in a row are one full round, any number of draws is balanced to within one round, and with no ready gate every draw is refused |
| ClusterTraders.ClusterTrader.FillRing | pkg/trading/cluster-trader.go:165-170 | filling goes once around: each ready gate sits one node ahead of its turn |
| ClusterTraders.ClusterTrader.UpdateEnabled | pkg/trading/cluster-trader.go:156-173 | from now on the ready gates are drawn in configured order from the first; the flag says whether there is one, and a change is signalled |
| ClusterTraders.ClusterTrader.SetReady | pkg/trading/cluster-trader.go:95-114 | stores the flag; exactly a change is put into the ready channel, and is dropped if the channel is full |
| ClusterTraders.FirstChangesAreSignalled | pkg/trading/cluster-trader.go:95-114 | an unread ready channel holds the first changes of the flag, two at most |
| ClusterTraders.ClusterTrader.GetGate | pkg/trading/cluster-trader.go:26-39 | an assigned user keeps its gate without a draw, another gets the next gate in turn, or none if there is none |
| ClusterTraders.ClusterTrader.Unsubscribe | pkg/trading/cluster-trader.go:41-49 | forgets the assignment and tells the gate that was forgotten |
| ClusterTraders.ClusterTrader.MoveUser | pkg/trading/cluster-trader.go:132-152 | one user's turn: a user on a ready gate is left alone and nothing is drawn; another is moved to the next gate in turn if and only if that gate answers with a snapshot; no other gate is asked |
| ClusterTraders.ClusterTrader.MoveUsersForAvailableGates | pkg/trading/cluster-trader.go:131-153 | the same users stay assigned; only users on gates that are not ready move, onto ready ones that answered; each moved user is unsubscribed from its old gate exactly once and no other is; with a gate to draw, every user whom the gates in turn answer ends on a ready gate, whatever other gates answer and whatever happens to other users; with none nothing changes |
| ClusterTraders.ClusterTrader.HandleReady | pkg/trading/cluster-trader.go:185-189 | rebuilding and then moving, with nothing in between, puts every user whom the configured ready gates answer on a ready gate if there is one, and changes nothing otherwise |
| StickyGates.SameGate | pkg/trading/cluster-trader.go:26-39 | callers of one user that take effect with no change of its assignment in between get one gate, whatever they drew |
| StickyGates.StillAssigned | pkg/trading/cluster-trader.go:26-39 | a gate that was got stays the user's until the user is unsubscribed or moved |
| StickyGates.GatesAreOffered | pkg/trading/cluster-trader.go:26-39 | every gate that a caller gets was in the ring at some time, or is one that its user was moved to |
| StickyGates.GetGateAlone | pkg/trading/cluster-trader.go:26-39 | a call that nobody interferes with keeps an assigned user's gate, or assigns the next gate in turn of the ring as it is, and fails only on an empty ring |
| StickyGates.AssignmentChanges | pkg/trading/cluster-trader.go:26-49 | an assignment ends by unsubscribing, is replaced by moving, and is made only where there is none, with the gate that was drawn |
| Identifiers.GetIdentifier | pkg/trading/zmq-trader.go:32-38 | user and order can be read back from the key |
| Identifiers.IdentifierIsBijective | pkg/trading/zmq-trader.go:32-38 | every 40-byte key belongs to exactly one user and order |
| ClientOrderIds.StrToType | pkg/trading/clientorderid.go:21-28 | a text is refused if and only if it is over 32 bytes; otherwise the id starts with it and is NUL from there on |
| ClientOrderIds.StringIsExact | pkg/trading/clientorderid.go:13-19 | an id is printed up to its first NUL, or whole if it has none or starts with one |
| ClientOrderIds.MarshalJSON | pkg/trading/clientorderid.go:48-62 | the text up to the first NUL in quotes, or an error when there is none |
| ClientOrderIds.UnmarshalJSON | pkg/trading/clientorderid.go:64-73 | copies the quoted text over the receiver, which an error leaves alone |
| ClientOrderIds.StringOfStrToType | pkg/trading/clientorderid.go:13-28 | exactly which texts survive: at most 32 bytes and either non-empty without NUL or 32 bytes starting with NUL |
| ClientOrderIds.EmptyTextIsNotPreserved | pkg/trading/clientorderid.go:13-19 | the empty text comes back as 32 NUL bytes |
| ClientOrderIds.StrToTypeOfString | pkg/trading/clientorderid.go:13-28 | exactly which ids survive: the padded ones and those that start with NUL |
| ClientOrderIds.UnmarshalOfMarshal | pkg/trading/clientorderid.go:48-73 | encoding fails exactly on a leading NUL; decoding restores the id if and only if the receiver holds the bytes after the text |
| ClientOrderIds.UnmarshalIntoZeroed | pkg/trading/clientorderid.go:48-73 | into a zeroed receiver, exactly the padded ids survive |
| UserIds.ParseOfDecimal | pkg/trading/messages.go:20-39 | parsing inverts printing on all of uint64, and printing inverts parsing exactly without a leading zero |
| UserIds.MarshalUser | pkg/trading/messages.go:20-27 | the buffer holds the quoted user text |
| UserIds.UnmarshalUserOfMarshal | pkg/trading/messages.go:20-39 | decoding inverts encoding on all of uint64 |
| UserIds.UserStrToIDOfText | pkg/trading/messages.go:188-194 | the user text of every id parses to that id |
| UserIds.UserStrToIDIsExact | pkg/trading/messages.go:188-194 | a text gives an id if and only if what follows its first five bytes is decimal digits in the range of 64 bits, and never an error |
| UserIds.UnmarshalUserIsExact | pkg/trading/messages.go:29-39 | decoding gives an id if and only if the quoted prefix is followed by decimal digits in the range of 64 bits and one more byte, and panics exactly on the bare prefix |
| UserIds.TextsOfUser42 | pkg/trading/zmq-xsub.go:196 | user 42 is user_42 in messages and user_42.7 in a topic with token 7 |
| UserIds.SlicesAreExact | pkg/trading/zmq-xsub.go:238-288 | of any message with a dot the user is what comes before the first dot and the payload what lies between the token's length after it and the last byte, if the message is long enough |
| UserIds.FrameRoundTrip | pkg/trading/zmq-xsub.go:238-288 | for every user, token and payload the index arithmetic recovers the payload, the user text and the user id |
| UserIds.TopicSelectsItsUser | pkg/trading/zmq-xsub.go:192-201 | a subscribed topic is a prefix of a user's frame if and only if it is that user's topic |

## Left out

- Sockets, keys, the socket monitor, counters, logging and clocks: a send is a step that succeeds or fails, a timeout a step that may happen at any moment.
- JSON parsing and the decoding of messages into orders and reports: the handlers start from the decoded payloads. Trade ids are not copied from the wire by `CreateOrderReport`, so the trade results start at the payload too.
- The text tables of the enumerations and the table of reject reasons: a reject carries the error it was looked up to.
- What requests say (symbol, side, price and quantity defaults, login): only that and when a request is sent is modelled, and for a replace whether it would change anything.
- The random source of cancel request ids: the id is a parameter of the step. The canary loop, `UserWatcher`, `MockTrader` and DSN parsing.
- Wrap-around of the 64-bit counter of call ids: call ids are natural numbers.
- Interleavings finer than a step: the cache's lock lookup against a concurrent delete, the accepted check against a concurrent unsubscribe, and the three field reads of a completed call, which are one step here.
- Readiness that changes between the two passes of `updateEnabled` or during a migration, and two migrations at once: readiness and snapshot results are parameters of those methods.
- NewOrder, CancelOrder, ReplaceOrder, GetOrder and GetSnapshot as whole methods: their critical sections are methods of the class, their order and branching are the program counters of `Protocol`.
- ClientOrderIds.UnmarshalIntoZeroed: speaks of the zeroed receiver that the JSON decoder supplies; what a receiver with other bytes gives is in `ClientOrderIds.UnmarshalOfMarshal`.
- ZmqTraders.ZmqTrader.RegisterNew: the symbol and side that the call keeps for a later cancel are left out with the contents of requests.
- ZmqTraders.ZmqTrader.Unsubscribe: the unsubscription sent to the socket first is left out with the sockets; its failure is only logged.
- ClusterTraders.ClusterTrader.HandleReady: the pass runs on its own beside the handler; here it runs to its end before the next change.
