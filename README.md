# gdax-node order-book synchronisation, modelled in Dafny

This project models the core of the gdax-node client library. It has three parts.

- **The order-book syncer** (`OrderbookSync`, specified by `SyncSpec`). Each tracked product has three dictionary entries:
  - a sequence number, where `-1` means "not synced";
  - a queue of feed messages buffered while the product is not synced;
  - a book.

  Feed messages are buffered or classified against the sequence: a stale message is skipped, the next one is applied to the book by its type, and a gap resets the product and requests a new snapshot. A snapshot completion loads the book, takes the snapshot's sequence, replays the queue through the same classifier and empties the queue.

  The class `OrderbookSync.OrderbookSync` keeps the dictionaries as maps that its methods update in place. Each method is proved against a pure per-product function of `SyncSpec`: `Receive`, `Process`, `Replay` or `LoadSnapshot`. The properties of the syncer are proved as lemmas about those functions.

  The book is abstract. It is the log of the operations applied to it (`Add`, `Remove`, `Match`, `Change`, `Load`), so "exactly one book operation happened" can be stated. The snapshot fetches the syncer starts are recorded in `snapshotRequests`. Their completions arrive through `OnSnapshot`.
- **The public REST client** (`PublicClient`). It covers:
  - the constructor defaults;
  - relative and absolute URIs;
  - the merging of default headers into a request's options;
  - the paging of the historical trade stream, modelled as a function over the sequence of page replies the stream receives.
- **The authenticated REST client** (`AuthenticatedClient`). It covers:
  - the required-parameter check;
  - the order and transfer helpers, which set fields of their parameter object in place and validate it before any request is issued;
  - the missing-id guards of `cancelOrder` and `getOrder`;
  - the batch loop of `cancelAllOrders`, modelled over the sequence of batch replies it receives.

The syncer's behaviour, as the code has it:

- a product has only two modes, `-1` (not synced) and a real sequence; there is no separate loading state;
- a failed snapshot fetch throws and is not retried;
- the queue is replayed in arrival order through the ordinary classifier, so stale entries are skipped and a gap during the replay resets the product again.

## Model

| member | source | states |
|---|---|---|
| `OrderbookSync.OrderbookSync.constructor` | lib/orderbook_sync.js:19-29 | every listed product is tracked, starts at sequence -1 with an empty queue and an empty book, and one snapshot is requested per product in list order; the invariant holds |
| `OrderbookSync.OrderbookSync.LoadOrderbook` | lib/orderbook_sync.js:46-60 | a snapshot fetch for the product is requested (appended to the request log) and nothing else changes |
| `OrderbookSync.OrderbookSync.OnMessage` | lib/orderbook_sync.js:32-44 | the new state of the message's product is `Receive` of its old state, every other product's entries are unchanged, and the invariant "synced implies empty queue" is kept |
| `OrderbookSync.OrderbookSync.ProcessMessage` | lib/orderbook_sync.js:84-125 | the new state of the message's product is `Process` of its old state, reloads requested exactly as `Process` counts them, every other product untouched, invariant kept |
| `OrderbookSync.OrderbookSync.ReplayQueue` | lib/orderbook_sync.js:79 | feeding a queue message by message to `ProcessMessage` leaves the product in `Replay` of its start state, with the reloads `Replay` counts, other products untouched |
| `OrderbookSync.OrderbookSync.ApplySnapshot` | lib/orderbook_sync.js:75-80 | load, take the sequence, replay, empty the queue: the product ends in `LoadSnapshot` of its old state and the invariant is kept |
| `OrderbookSync.OrderbookSync.OnSnapshot` | lib/orderbook_sync.js:62-81 | the verdict is `SnapshotVerdict` of the reply; a thrown error or an ignored product changes nothing; a load changes exactly the product's entries as `LoadSnapshot` says |
| `SyncSpec.Receive` | lib/orderbook_sync.js:32-44 | receiving keeps the invariant "synced implies empty queue"; while not synced it appends the message to the queue, leaves the book alone and requests no reload; the queue otherwise stays or is emptied; the book only grows, by at most one operation, keeping its old operations as a prefix |
| `SyncSpec.Process` | lib/orderbook_sync.js:84-125 | at most one reload, requested exactly when the product is synced and the message skips past the next sequence; the queue stays or is emptied; the book only grows, by at most one operation, keeping its old operations as a prefix |
| `SyncSpec.Replay` | lib/orderbook_sync.js:79 | the queue stays or is emptied; the book grows by at most one operation per replayed message, keeping its old operations as a prefix |
| `SyncSpec.LoadSnapshot` | lib/orderbook_sync.js:75-80 | the queue ends empty; the book is the old book, then the snapshot load, then at most one operation per queued message |
| `SyncSpec.ReceiveBuffers` | lib/orderbook_sync.js:38-40 | while not synced, a message is appended to the end of the queue and nothing else changes |
| `SyncSpec.StaleIsNoop` | lib/orderbook_sync.js:87-94 | while not synced, or for a sequence at or below the current one, processing changes nothing and requests no reload |
| `SyncSpec.ReprocessIsNoop` | lib/orderbook_sync.js:91-94 | processing the same message twice equals processing it once |
| `SyncSpec.NextAppliesOneOp` | lib/orderbook_sync.js:105-124 | the next message in sequence sets the sequence to it and appends exactly the one book operation its type selects (open, done, match, change); an unknown type advances the sequence and leaves the book as it was |
| `SyncSpec.GapResets` | lib/orderbook_sync.js:96-103 | a gap empties the queue, sets the sequence to -1, requests one reload, and leaves the book untouched; the message is neither applied nor queued |
| `SyncSpec.ProcessMoves` | lib/orderbook_sync.js:84-125 | a sequence only stays, grows by exactly one, or resets to -1; the invariant is kept; the book only grows, by at most one operation |
| `SyncSpec.ResyncIsInert` | lib/orderbook_sync.js:87-90 | once a product is reset, processing any messages is a no-op until a snapshot completes |
| `SyncSpec.ReplayAppend` | lib/orderbook_sync.js:79 | replaying two queues one after the other is replaying their concatenation, with the reloads added |
| `SyncSpec.StaleReplayIsNoop` | lib/orderbook_sync.js:91-94 | replaying messages all covered by the current sequence changes nothing |
| `SyncSpec.ContiguousReplay` | lib/orderbook_sync.js:105-124 | replaying a gap-free run after the current sequence applies each message once, in order, and advances the sequence by the run's length |
| `SyncSpec.GapEndsReplay` | lib/orderbook_sync.js:96-103 | a gap during a replay resets the product and the rest of the queue has no further effect |
| `SyncSpec.ReplayReloadsAtMostOnce` | lib/orderbook_sync.js:84-103 | a replay requests at most one reload, only by ending unsynced with an empty queue, and none when it starts unsynced |
| `SyncSpec.SnapshotCatchesUp` | lib/orderbook_sync.js:75-80 | with a queue of messages the snapshot covers followed by a gap-free run, completion yields the snapshot's sequence plus the run's length, an empty queue, and the book loaded from the snapshot followed by the run's operations |
| `SyncSpec.SnapshotLeavesCoherent` | lib/orderbook_sync.js:75-80 | completion always leaves the queue empty, keeps the invariant, and requests at most one reload, only when it ends unsynced |
| `SyncSpec.SnapshotVerdict` | lib/orderbook_sync.js:62-73 | the callback loads exactly when there is no error, the status is 200 and the product has a book; it ignores the reply exactly when the book is missing; it throws a fetch error exactly when there is one, and otherwise throws the status for any status but 200 |
| `SyncSpec.SnapshotVerdictAsWritten` | lib/orderbook_sync.js:50-73 | as written, the public path gives the intended verdict, and the authenticated path always throws, with the unbound-receiver error where the intended callback would load |
| `SyncSpec.LoadSnapshotAsWritten` | lib/orderbook_sync.js:75-80 | as written, completion throws exactly when the queue is non-empty, after the book was loaded and the sequence taken, and leaves the queue as it was; with an empty queue it agrees with the intended completion |
| `SyncSpec.UnboundCallbackNeverLoads` | lib/orderbook_sync.js:50-51 | as written, the authenticated path throws on every successful fetch, where the intended callback loads |
| `SyncSpec.UnboundReplayStrandsQueue` | lib/orderbook_sync.js:79 | as written, a snapshot at 10 with message 11 buffered throws, leaves the product synced with a non-empty queue and the message unapplied; the intended completion applies it and empties the queue |
| `PublicClient.DefaultClient` | lib/clients/public.js:5-9 | the defaults are product `BTC-USD`, API URI `https://api.gdax.com` and page size 100 |
| `PublicClient.MakeRelativeUri` | lib/clients/public.js:24-26 | a relative URI starts with '/' |
| `PublicClient.RelativeUriParts` | lib/clients/public.js:24-26 | for at least one part, none containing '/', a relative URI is '/' followed by the parts joined with '/': split on '/', it gives an empty piece and then the parts, in order |
| `PublicClient.RelativeUriAmbiguous` | lib/clients/public.js:24-26 | outside that precondition the parts are not recoverable: no parts give "/", as one empty part does, and `['funding/repay']` gives the same URI as `['funding', 'repay']` |
| `PublicClient.SplitJoin` | lib/clients/public.js:24-26 | joining separator-free parts and splitting again gives the parts back |
| `PublicClient.MakeAbsoluteUri` | lib/clients/public.js:28-30 | the absolute URI is the API URI followed by the relative URI |
| `PublicClient.MergeHeaders` | lib/clients/public.js:11-22 | the merged headers hold every existing, default and additional key; additional values win, then the defaults, and existing keys named by neither keep their values |
| `PublicClient.AddHeaders` | lib/clients/public.js:11-22 | the options object ends with headers equal to the merge of its old headers (none counting as empty) with the defaults and the additional ones, and those are returned |
| `PublicClient.PageWindow` | lib/clients/public.js:124-132 | the window starts at `tradesFrom` with the page size as limit; it ends at a truthy `tradesTo` exactly when that is within `tradesFrom + API_LIMIT + 1`, and is then the last window; otherwise it spans API_LIMIT ids and another page follows; it never passes a truthy `tradesTo` |
| `PublicClient.Emission` | lib/clients/public.js:157-164 | a page pushes its trades in reverse array order up to the first one the stop predicate holds of; that trade is not pushed, and the page stops exactly when such a trade exists |
| `PublicClient.EmitPage` | lib/clients/public.js:157-164 | the descending loop pushes exactly what `Emission` says and reports whether it stopped |
| `PublicClient.FetchTrades` | lib/clients/public.js:123-180 | one request per reply received, plus one still waiting for its reply exactly when the stream has not ended; a stream that fails reports the transport error or the status of the last reply it received |
| `PublicClient.TradeStream` | lib/clients/public.js:103-121 | the first window starts at `tradesFrom`; with a truthy last id no window passes it, and otherwise every window spans API_LIMIT ids; with a stop predicate no trade it holds of is pushed |
| `PublicClient.WindowsTile` | lib/clients/public.js:124-177 | the first window starts at `tradesFrom`; each window spans API_LIMIT ids or ends at a truthy `tradesTo`, and never passes it; each next window repeats the previous one or starts exactly API_LIMIT further on |
| `PublicClient.RateLimitRetriesSameWindow` | lib/clients/public.js:142-148 | a 429 reply requests the very same window again with the same bounds |
| `PublicClient.NothingPushedPastStop` | lib/clients/public.js:158-161 | no trade the stop predicate holds of is ever pushed |
| `PublicClient.StopEndsStream` | lib/clients/public.js:157-161 | when the stop predicate holds within a page, the stream ends there and no further page is requested |
| `PublicClient.PageAdvances` | lib/clients/public.js:157-177 | a 200 page with no stop is pushed whole in reverse and is followed by the window API_LIMIT further on, or ends the stream if it was the last window |
| `PublicClient.PageYieldsWindow` | lib/clients/public.js:157-164 | a full page served newest first yields its window's ids in increasing order |
| `PublicClient.StreamYieldsConsecutiveIds` | tests/public_client.js:61-82 | against a server answering every window in full, streaming from `tradesFrom` to `tradesTo` yields every id strictly between them, consecutively, and ends |
| `AuthenticatedClient.FirstMissing` | lib/clients/authenticated.js:239-245 | the position of the first undefined required name: every name before it is defined and the one at it is not |
| `AuthenticatedClient.RequireOutcome` | lib/clients/authenticated.js:239-245 | the check returns true exactly when every required name is defined; otherwise it throws naming an undefined name all of whose predecessors are defined |
| `AuthenticatedClient.RequireParams` | lib/clients/authenticated.js:239-245 | the loop over the required names gives exactly `RequireOutcome` |
| `AuthenticatedClient.PostValidated` | lib/clients/authenticated.js:204-222 | a helper issues its POST, with the whole parameter object as body, only after the check passes; otherwise it returns the check's error |
| `AuthenticatedClient.Validated` | lib/clients/authenticated.js:204-245 | a posting helper issues its POST exactly when every required name is defined, with the whole object as body; otherwise it reports the first undefined name in list order |
| `AuthenticatedClient.OrderRequired` | lib/clients/authenticated.js:78-81 | the required list starts with size, side and product_id, and holds price exactly when the type is not `market` |
| `AuthenticatedClient.PlaceOrder` | lib/clients/authenticated.js:78-86 | the required list is size, side and product_id, plus price unless the type is `market`, and the order is validated against it before it is posted |
| `AuthenticatedClient.PlaceOrderRequirements` | lib/clients/authenticated.js:78-86 | an order is posted exactly when size, side and product_id are defined and, unless the type is `market`, the price; missing size is reported first, then side |
| `AuthenticatedClient.Buy` | lib/clients/authenticated.js:88-91 | the side is set to `buy`, overwriting the caller's, and nothing else in the object changes; then the order is placed |
| `AuthenticatedClient.Sell` | lib/clients/authenticated.js:93-96 | the side is set to `sell`, overwriting the caller's, and nothing else in the object changes; then the order is placed |
| `AuthenticatedClient.SideIsForced` | lib/clients/authenticated.js:88-96 | after the side is set, the caller's own side has no effect, the side is never reported missing, and a posted order carries the side that was set |
| `AuthenticatedClient.TransferFunds` | lib/clients/authenticated.js:234-237 | a transfer requires type, amount and coinbase_account_id before it is posted to `transfers` |
| `AuthenticatedClient.Deposit` | lib/clients/authenticated.js:224-227 | the type is set to `deposit`, overwriting the caller's, and then the transfer is validated and posted |
| `AuthenticatedClient.Withdraw` | lib/clients/authenticated.js:229-232 | the type is set to `withdraw`, overwriting the caller's, and then the transfer is validated and posted |
| `AuthenticatedClient.TransferRequirements` | lib/clients/authenticated.js:224-237 | once the type is set, a transfer is posted exactly when amount and coinbase_account_id are defined, carries the type that was set, and reports a missing amount first |
| `AuthenticatedClient.Repay` | lib/clients/authenticated.js:204-207 | repay requires amount and currency before it is posted |
| `AuthenticatedClient.MarginTransfer` | lib/clients/authenticated.js:209-217 | marginTransfer requires margin_profile_id, type, currency and amount before it is posted |
| `AuthenticatedClient.ClosePosition` | lib/clients/authenticated.js:219-222 | closePosition requires repay_only before it is posted |
| `AuthenticatedClient.CancelOrder` | lib/clients/authenticated.js:102-110 | called with only the callback, the callback gets the error "must provide an orderID or consider cancelOrders" and no request is issued; with one, a DELETE of `/orders/<id>` is issued |
| `AuthenticatedClient.GetOrder` | lib/clients/authenticated.js:181-189 | called with only the callback, the callback gets the error "must provide an orderID or consider getOrders" and no request is issued; with one, a GET of `/orders/<id>` is issued |
| `AuthenticatedClient.CancelAllOrders` | lib/clients/authenticated.js:126-170 | the do-while loop over the batch replies computes exactly `CancelAll` of them |
| `AuthenticatedClient.CancelAllFrom` | lib/clients/authenticated.js:141-165 | the loop from any state only appends to the deleted list; an error always ends it; it ends only after a reply; the response is the one it started with or a 200 |
| `AuthenticatedClient.CancelAll` | lib/clients/authenticated.js:126-170 | a response handed to the callback is a 200; an error always ends the loop; with no reply yet nothing is deleted, nothing reported, and the loop waits |
| `AuthenticatedClient.StopAt` | lib/clients/authenticated.js:163-165 | the loop's continuation test: every batch before the stopping one was accepted and non-empty, and the stopping one was not |
| `AuthenticatedClient.CancelAllFromSummary` | lib/clients/authenticated.js:141-165 | from any intermediate state, the final list is the earlier total followed by the recorded batches up to the stopping reply, and the response is that of the last accepted batch, or the earlier one if none was accepted |
| `AuthenticatedClient.CancelAllSummary` | lib/clients/authenticated.js:134-169 | the callback receives the in-order concatenation of all deleted batches; the loop continues exactly while batches are non-empty and accepted; it reports the transport error, or "Failed to cancel all orders" for a non-200 status or a missing list, exactly when it stops on one; the response is that of the last accepted batch, or none |

## Left out

- Transport, JSON parsing and signing are not modelled:
  - the WebSocket feed, `emit('message')` and the JSON parsing of feed messages and snapshot bodies, which arrive already decoded;
  - HTTP transport (`request`), `makeRequestCallback` and `_getSignature`; the signature headers depend on `lib/request_signer`, which is not part of this model.
- The book's internals are not modelled: `lib/orderbook.js` is not part of this model, and the book is the log of operations applied to it.
- `Utils.determineProductIDs`, the syncer's `apiURI`/`websocketURI` plumbing and the `_public_clients` cache are not modelled. `LoadOrderbook` only records the request; the reply is delivered to `OnSnapshot`.
- OrderbookSync.OrderbookSync.OnMessage: requires the message's product to be tracked. The code reads an `undefined` entry for an untracked product, which is an accident of JavaScript and not promised behaviour.
- OrderbookSync.OrderbookSync.ProcessMessage: requires the message's product to be tracked, for the same reason.
- The error messages "Failed to load orderbook: …" are the `LoadError` values `FetchFailed` and `BadStatus`, not strings.
- Concurrency is out of scope: each method runs to completion, as JavaScript's single thread guarantees.
- PublicClient.FetchTrades: a status other than 200 or 429 ends the stream with an error. As written, the callback emits the error and then still reads `data` (lib/clients/public.js:150-155), which is a JavaScript accident.
- The `Readable` stream mechanics of the trade stream are not modelled: the `started` flag, `push(null)` (modelled as `Ended`), `emit('error')` (modelled as `Errored`/`BadStatus`) and the 900 ms `setTimeout` before a retry.
- Callback-argument shuffling (`typeof args === 'function'`) is not modelled, except that the id guards of `cancelOrder`/`getOrder` take `None` for a call whose only argument is the callback. A call such as `cancelOrder(undefined, cb)` passes the guard and issues `DELETE /orders/`; that path is not modelled.
- PublicClient.AddHeaders: headers are a map value. `Object.assign` writes into the existing headers object in place, and aliases of that object elsewhere are not captured.
- Endpoints that only forward to `get`/`post`/`delete` are not part of the modelled core: accounts, fills, fundings, trailing volume, the order-book override, `getOrders` and `cancelOrders`. The same goes for the `AuthenticatedClient` constructor and its `request` override.
- `async.doWhilst` is taken with a synchronous test, as `untilEmpty` is written. The response object is reduced to its status code.
- Prices, sizes and other parameter values are opaque values; only their definedness, `type === 'market'`, and the sides and types the helpers set are used.

## Findings

| source | as written | input that shows it | evidently intended | confidence | as-written member | corrected member |
|---|---|---|---|---|---|---|
| lib/orderbook_sync.js:79 | `forEach(this.processMessage)` passes the method without its receiver. In class (strict) code the first queued message makes `this._sequences` throw a TypeError after the book and the sequence were set, so the queue is neither replayed nor emptied. | a product with message 11 buffered and a snapshot at sequence 10 | replay each queued message through `processMessage` bound to the syncer, then empty the queue | not executed | `SyncSpec.UnboundReplayStrandsQueue` | `SyncSpec.SnapshotCatchesUp` |
| lib/orderbook_sync.js:51 | on the authenticated path `cb` is passed unbound (the public path binds it at :59), so `this.books` throws a TypeError on every successful fetch and the product never syncs | any reply with no error and status 200 through an authenticated client | run the callback bound to the syncer on both paths | not executed | `SyncSpec.UnboundCallbackNeverLoads` | `OrderbookSync.OrderbookSync.OnSnapshot` |
