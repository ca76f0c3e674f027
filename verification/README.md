# Verified model of the SideSwap wallet, dealers and servers

This project models the parts of the SideSwap repository whose correctness rests on more than one
function: coin selection, the headless order server, the client's order-signing machine and the
messages that keep its user interface up to date, the dealer's rebalancing and own orders, payjoin
construction, the framing of the Jade serial port, and the money arithmetic under all of them. Each
part is a Dafny module (or two): value datatypes and functions describe what a handler does, lemmas
say what holds of every input or every run, and, where the program updates an object or a buffer in
place, a class or a looping method is proved to do exactly what the functions say.

- `Sequences`, `Shuffle`: sums, multisets, shuffles
- `CoinSelection`: `select_utxo`, `select_utxo_values`
- `Money`: fees, quotes, peg-out, asset amounts
- `Cbor`, `JadeFraming`: reassembly of CBOR messages from serial chunks
- `HeadlessServer`, `HeadlessSafety`, `HeadlessCompletion`, `HeadlessReplies`, `HeadlessStories`, `HeadlessWorker`: order server: transition function, run-level safety, permanence of completions, answers and requests, concrete runs, worker object
- `ClientSigning`, `ClientTerms`, `ClientChoice`, `ClientChecks`, `ClientScreen`, `ClientStories`, `ClientWorker`: submit records, sign notifications, prompts: operations, the terms of every signature, who let it be made, the checks in numbers, the screen at a decision, concrete runs, worker object
- `UiMirror`, `TxMirror`: order list and transaction list of the user interface
- `Rebalance`, `TransferMachine`: rebalancing advice, transfer episodes
- `Payjoin`, `PsetAssembly`: payjoin amounts, arrangement and signatures
- `DealerQuote`: own orders: submit rule against sign rule

`dafny verify dfyconfig.toml` checks everything.

## How the program is represented

- Amounts are unbounded integers in satoshi. `f64` is an exact real; `round()` is to the nearest
  integer with halves away from zero; an `as u64` of a negative real is zero.
- Random numbers, wallet and server answers, balances and the order in which hash maps are visited
  are parameters or arbitrary values.
- Histories (answers given, continuations stored and run, orders completed, the log of an order's
  terms) are part of the modelled states; no decision depends on them.
- Panics and errors are results (`Panic`, `None`, `ok == false`), never preconditions, except for
  `assert!`s on the arguments of a call (`amount > 0` in `select_utxo`).
- The continuations of the headless server are a datatype with one constructor per closure; its two
  threads are one system whose steps are arrivals, wallet answers and handled messages.

## Where the code does not do what one would expect

- Rebalancing does not settle for every price: advice is rounded to satoshi when it is carried out,
  so from 2e11 USDT per bitcoin on some balances are advised forever (`Rebalance.NeverSettles`,
  with the exact bound in `Rebalance.SettlesExactlyBelow`).
- A payjoin balances only if the server's coins are of one asset, which the client does not check:
  `Payjoin.UnbalancedPayjoin` is an offer that passes all checks and gives an unbalanced transaction.
- Own orders of the dealer between 10000 and 17166 satoshi that buy bitcoin may be refused at
  signing although nothing changed (`DealerQuote.AlwaysAcceptedExactlyWhen`).
- A dealer's sale may exceed the wallet by its fee: the size leaves a thousandth for a fee that is at least
  500 satoshi (`DealerQuote.SalesAreCoveredExactly`).
- Quotes are exact only from a price of one on, in one direction (`Money.SendQuoteExact`).
- A completed order of the headless server is not safe: a removal, a completion without transaction, a
  failed signature, a disconnect while a signature is pending and some responses fail it again
  (`HeadlessStories.CompletionUndone`, exactly in `HeadlessCompletion.CompletedStaysExactly`). Its coins
  are then free again, and a second order of the same unique key may complete with them
  (`HeadlessStories.TwoCompletionsOfOneKey`).
- An accepted prompt signs what the record says at that moment, which is not what was shown if the
  price was edited in between (`ClientTerms.EditedPromptSigned`), and not what was notified either if
  the order was cancelled, which closes the prompt, and recorded anew
  (`ClientTerms.RerecordedPromptSigned`). A prompt that was rejected, or that the review of its order
  covers, is still signed when its order is accepted (`ClientScreen.RejectedPromptSigned`,
  `ClientScreen.ReviewedPromptSigned`). `ClientStories` has runs from the initial state.
- A rebalancing episode fails on replies that are not its own (`TransferMachine.ForeignReplyFails`).
- Garbage on the serial port may be fatal: a leading break byte stops all deliveries
  (`JadeFraming.BreakIsFatal`, exactly in `JadeFraming.DeliversAgainExactly`).

## Model

| member | source | states |
|---|---|---|
| `CoinSelection.SelectionCorrect` | rust/sideswap_common/src/types.rs:70-86 | for every list of non-negative coins: selection succeeds iff the total reaches the amount; the result is part of the coins, reaches the amount, and no smaller part of it does, although the prune loop tests with a strict `>` |
| `CoinSelection.NoExactSubset` | rust/sideswap_common/src/types.rs:74-85 | a part of a greedy pick list sums to exactly the amount only if it is the whole list; this is why the equality case of the prune test cannot arise |
| `CoinSelection.PicksGreedy` | rust/sideswap_common/src/types.rs:74-79 | what the loop picks are coins of the list, each at least as close to what is missing as every later pick |
| `CoinSelection.PicksExist` | rust/sideswap_common/src/types.rs:74-79 | the pick loop runs out of coins (the `expect`) iff the total is too small |
| `CoinSelection.GreedyCovers` | rust/sideswap_common/src/types.rs:74-79 | a complete greedy pick order covers the amount, and not before its last pick |
| `CoinSelection.PickFrom` | rust/sideswap_common/src/types.rs:74-79 | the sort-and-pop loop computes the pick order, or `None` for its panic |
| `CoinSelection.PruneFrom` | rust/sideswap_common/src/types.rs:80-85 | the prune loop computes the pruned list and never empties it, so `last().unwrap()` holds |
| `CoinSelection.SelectUtxo` | rust/sideswap_common/src/types.rs:70-86 | the whole of `select_utxo` computes the selection |
| `CoinSelection.TakenMatches` | rust/sideswap_common/src/types.rs:88-101 | amounts drawn from the coins always find their coins (`position(..).unwrap()`), and the coins found are distinct list members with exactly those amounts |
| `CoinSelection.TakeFrom` | rust/sideswap_common/src/types.rs:91-99 | the matching loop with `swap_remove` computes the coins taken |
| `CoinSelection.SelectUtxoValues` | rust/sideswap_common/src/types.rs:88-101 | `select_utxo_values` returns the payloads of the selected coins |
| `CoinSelection.SelectionOfCoinsCorrect` | rust/sideswap_common/src/types.rs:88-101 | for coins with payloads: found iff the total suffices, distinct members of the list, reaching the amount, none removable |
| `Money.MaxAmountIsLargest` | rust/sideswap_common/src/types.rs:119-135 | an amount is returned iff the balance is at least 2500; it is the largest whose fee still fits, and one satoshi is left over iff the balance is at least 500500 and 500 modulo 1001, otherwise none |
| `Money.ServerFeeInIntegers` | rust/sideswap_common/src/types.rs:114-117 | the rounded real fee is max((a + 500) / 1000, 500) in integers |
| `Money.FeeMonotone` | rust/sideswap_common/src/types.rs:114-117 | a larger amount never has a smaller fee |
| `Money.BitcoinRoundTrip` | rust/sideswap_common/src/types.rs:35-45 | satoshi to bitcoin and back is the identity |
| `Money.SendQuoteExact` | rust/sideswap_common/src/pset.rs:8-32 | sending bitcoin: send to receive to send returns every amount iff the price is at least one |
| `Money.RecvQuoteExact` | rust/sideswap_common/src/pset.rs:8-32 | receiving bitcoin: receive to send to receive returns every amount iff the price is at least one |
| `Money.OppositeQuotes` | rust/sideswap_common/src/pset.rs:8-32 | the opposite directions are off by at most (price + 1) / 2 |
| `Money.PegOutRequote` | rust/sideswap_common/src/types.rs:194-215 | for a rate in (0, 1] re-quoting a receive-entered request by its send amount gives the same quote iff that send amount is positive, which a non-negative fixed fee guarantees |
| `Money.PegOutOpposite` | rust/sideswap_common/src/types.rs:194-215 | re-quoting a send-entered request by its receive amount moves the send amount by at most 1/(2 rate) + 1/2, and fails iff that takes it below the minimum |
| `Money.QuotesAreNear` | rust/sideswap_common/src/pset.rs:8-32 | the quotes in numbers: the bitcoin side less or plus the fee, the other side that times or over the price, to the nearest unit |
| `Money.PegOutExactly` | rust/sideswap_common/src/types.rs:194-215 | the peg-out in numbers: fee = size times fee rate, received = sent less the percentage and the fee, to the nearest satoshi; a quote iff the amount is positive, the minimum is met and something is received |
| `Money.AmountsAreNear` | rust/sideswap_common/src/types.rs:137-170 | asset and bitcoin amounts in numbers, for both kinds of market, to the nearest unit |
| `Money.AmountsDetermineEachOther` | rust/sideswap_common/src/types.rs:137-170 | `asset_amount` and `bitcoin_amount` undo each other: bitcoin survives the way through the asset iff a satoshi is worth at least one unit, the asset amount survives the way through bitcoin iff at most one |
| `Cbor.ItemExtends` | rust/sideswap_jade/src/serial.rs:129-140 | a decoded CBOR item does not depend on the bytes after it |
| `Cbor.ItemRoundTrip` | rust/sideswap_jade/src/serial.rs:129-140 | an encoded item followed by anything decodes to itself and its own length (section 3 of RFC 8949) |
| `Cbor.ArrayRoundTrip` | rust/sideswap_jade/src/serial.rs:129-140 | arrays and maps of indefinite length decode to the items between head and break; a map may not end after a key |
| `Cbor.StringsRoundTrip` | rust/sideswap_jade/src/serial.rs:129-140 | strings of indefinite length decode to their chunks joined |
| `Cbor.TextIsValid` | rust/sideswap_jade/src/serial.rs:129-140 | the encoding of any scalar values is accepted as text (section 4 of RFC 3629) |
| `Cbor.ValidIsText` | rust/sideswap_jade/src/serial.rs:129-140 | and every accepted text is the encoding of scalar values |
| `Cbor.StandardExamples` | rust/sideswap_jade/src/serial.rs:129-140 | numbers and simple values of Appendix A of RFC 8949 |
| `Cbor.StringExamples` | rust/sideswap_jade/src/serial.rs:129-140 | strings of Appendix A of RFC 8949 |
| `Cbor.NestedExamples` | rust/sideswap_jade/src/serial.rs:129-140 | arrays, maps and tags of Appendix A of RFC 8949 |
| `JadeFraming.CborStable` | rust/sideswap_jade/src/serial.rs:129-140 | the CBOR decoder takes at least one byte and depends only on what it takes |
| `JadeFraming.DrainInSteps` | rust/sideswap_jade/src/serial.rs:120-160 | draining a buffer, appending bytes and draining again is draining everything at once, for any stable decoder |
| `JadeFraming.ChunkingIsIrrelevant` | rust/sideswap_jade/src/serial.rs:120-160 | however the stream is split into reads, frames and leftover are those of the greedy decoding of the whole stream |
| `JadeFraming.BytesConserved` | rust/sideswap_jade/src/serial.rs:120-160 | the bytes of the frames followed by the leftover are exactly the bytes received |
| `JadeFraming.MessagesSurviveChunking` | rust/sideswap_jade/src/serial.rs:120-160 | messages written back to back are found one by one whatever the chunks, nothing is left over, and exactly the encodings of the messages that are not log messages are delivered, in order |
| `JadeFraming.DeliveredExactly` | rust/sideswap_jade/src/serial.rs:138-150 | a map with the text "log" among its keys is dropped, every other value is delivered as it was sent, in whatever chunks |
| `JadeFraming.Port.OnRead` | rust/sideswap_jade/src/serial.rs:120-160 | for any stable decoder: after every read the buffer and the delivered frames are those of the greedy decoding of the whole stream so far; the inner loop terminates |
| `JadeFraming.Port.TakeFrame` | rust/sideswap_jade/src/serial.rs:127-158 | for any stable decoder: one round of the inner loop removes one frame from the front of the buffer and delivers it unless it is a log message, or finds nothing to decode |
| `JadeFraming.TakeItem` | rust/sideswap_jade/src/serial.rs:127-158 | the same of the round as the source has it: the CBOR decoder reads through the shared buffer, and just what it has read is removed and delivered |
| `JadeFraming.HandleRead` | rust/sideswap_jade/src/serial.rs:120-160 | the loop over such rounds: after every read buffer and deliveries are those of the greedy decoding of all bytes received |
| `JadeFraming.DeliversAgainExactly` | rust/sideswap_jade/src/serial.rs:120-160 | after any bytes a frame is ever delivered again iff some continuation of the leftover decodes; otherwise the buffer only grows |
| `JadeFraming.BreakIsFatal` | rust/sideswap_jade/src/serial.rs:120-160 | a break byte where an item should start is such garbage: nothing is delivered any more |
| `JadeFraming.NewPort` | rust/sideswap_jade/src/serial.rs:68-70 | the port of the device is that port with the CBOR decoder and the log test |
| `JadeFraming.DecodeItem` | rust/sideswap_jade/src/serial.rs:129-131 | the CBOR decoder reading through the buffer returns the item and advances the position by its length, or fails with the pure decoder |
| `JadeFraming.DecodeHead` | rust/sideswap_jade/src/serial.rs:129-131 | the head of an item as read through the buffer |
| `JadeFraming.DecodeBody` | rust/sideswap_jade/src/serial.rs:129-131 | the body of an item as read through the buffer |
| `JadeFraming.DecodeItems` | rust/sideswap_jade/src/serial.rs:129-131 | a row of items as read through the buffer |
| `JadeFraming.DecodeUnbounded` | rust/sideswap_jade/src/serial.rs:129-131 | strings, arrays and maps of indefinite length (section 3.2 of RFC 8949) as read through the buffer |
| `JadeFraming.DecodeChunks` | rust/sideswap_jade/src/serial.rs:129-131 | the chunks of a string of indefinite length up to the break; text has to be UTF-8 |
| `JadeFraming.DecodeUntil` | rust/sideswap_jade/src/serial.rs:129-131 | the items of an array or a map of indefinite length up to the break, which may not follow a key |
| `JadeFraming.BufReader.ReadExact` | rust/sideswap_jade/src/reader.rs:15-21 | reads the next bytes and advances, or fails and leaves the position alone |
| `JadeFraming.BufReader.ResetPos` | rust/sideswap_jade/src/reader.rs:25-28 | back to the start of the data |
| `JadeFraming.BufReader.RemoveRead` | rust/sideswap_jade/src/reader.rs:30-36 | returns the bytes read, keeps the rest, position zero |
| `JadeFraming.BufReader.AppendData` | rust/sideswap_jade/src/reader.rs:38-41 | appends, position unchanged |
| `JadeFraming.BufReader.Size` | rust/sideswap_jade/src/reader.rs:43-46 | the number of bytes held |
| `Shuffle.ShuffledPermutes` | rust/sideswap_payjoin/src/pset.rs:218-219 | whatever the random numbers, a shuffle only rearranges |
| `Shuffle.ShuffleInPlace` | rust/sideswap_payjoin/src/pset.rs:218-219 | the in-place swap loop computes the shuffle |
| `HeadlessSafety.RunsAreSafe` | rust/sideswap_headless_server/src/worker.rs:437-470 | in every state of every run of worker, wallet thread and arbitrary arrivals: reservations disjoint, every reply channel accounted for, every stored continuation pending and not run or run once, signing requests counted exactly; with fresh server order ids also at most the current order of a key alive |
| `HeadlessSafety.StepKeepsInv` | rust/sideswap_headless_server/src/wallet.rs:102-136 | every step of the two-thread system keeps that invariant; the wallet answers each signing request exactly once |
| `HeadlessSafety.HandleKeepsOrders` | rust/sideswap_headless_server/src/worker.rs:346-433 | every message keeps the coins of active and completed orders pairwise disjoint and duplicate-free; with fresh order ids no order is forgotten and no failed order revived |
| `HeadlessSafety.SelectedCoins` | rust/sideswap_headless_server/src/worker.rs:185-240 | coins selected for a new order are distinct and none is reserved, given duplicate-free wallet lists |
| `HeadlessSafety.SelectionSucceeds` | rust/sideswap_headless_server/src/worker.rs:230-240 | after the amount check the coin selection cannot fail |
| `HeadlessSafety.ActiveOrderIsFunded` | rust/sideswap_headless_server/src/worker.rs:156-252 | an order that becomes active holds listed wallet coins of the asset it sends (bitcoin amount plus fee, or asset amount), none superfluous, and exactly these are sent to the server |
| `HeadlessReplies.SubmittedExactly` | rust/sideswap_headless_server/src/worker.rs:156-252 | an accepted submission that sends something is taken, its coins reserved and sent, iff coins are listed, the worker is connected and the listed coins of the asset it sends that no order holds reach bitcoin amount plus fee, or the asset amount; otherwise it has failed, is cancelled and answered so |
| `HeadlessReplies.SubmitResponseExactly` | rust/sideswap_headless_server/src/worker.rs:286-331 | the same of the response to a pending submission |
| `HeadlessReplies.NewOrderExactly` | rust/sideswap_headless_server/src/worker.rs:296-331 | a new order is refused with more than five signatures in flight, else submitted, or answered with an error without a connection |
| `HeadlessReplies.ConfirmedExactly` | rust/sideswap_headless_server/src/worker.rs:254-285 | a confirmed order is recorded under its key and reported, unless the key belongs to an active or completed order; then it is cancelled as a duplicate |
| `HeadlessReplies.WalletRepliesExactly` | rust/sideswap_headless_server/src/worker.rs:96-122 | each signed transaction leads to one Sign request for its order, or to its cancellation without a connection; each failure cancels the order |
| `HeadlessReplies.LoginExactly` | rust/sideswap_headless_server/src/worker.rs:348-370 | a connection is answered with a login, which cancels exactly the listed orders |
| `HeadlessReplies.NotificationsExactly` | rust/sideswap_headless_server/src/worker.rs:396-433 | the effect of wallet lists, removals, completions and signing requests |
| `HeadlessReplies.SignConfirmedExactly` | rust/sideswap_headless_server/src/worker.rs:96-117 | a confirmed signature only ends its request |
| `HeadlessReplies.DisconnectExactly` | rust/sideswap_headless_server/src/worker.rs:372-386 | a disconnect asks for one new connection and fails exactly the orders with a pending coin list or signature |
| `HeadlessReplies.StatusExactly` | rust/sideswap_headless_server/src/worker.rs:126-146 | a status answer agrees with the entry of the order |
| `HeadlessReplies.StatusTellsCompletion` | rust/sideswap_headless_server/src/worker.rs:126-146 | in a run without reused order ids the status is a transaction iff the server completed the order with it and no message has undone that since |
| `HeadlessReplies.BecomesCompleted` | rust/sideswap_headless_server/src/worker.rs:408-425 | an order becomes completed only by a completion that names its transaction |
| `HeadlessSafety.StoredRunsOnce` | rust/sideswap_headless_server/src/worker.rs:65-88 | of all four kinds of continuations: every one ever stored is pending and has not run, or is not pending and has run exactly once; nothing else ever runs |
| `HeadlessSafety.HandleLedger` | rust/sideswap_headless_server/src/worker.rs:372-395 | every message keeps these books, responses and disconnects included |
| `HeadlessSafety.FailAllLedger` | rust/sideswap_headless_server/src/worker.rs:372-384 | a disconnect runs every pending continuation, and each one once |
| `HeadlessSafety.FailedContinuation` | rust/sideswap_headless_server/src/worker.rs:65-88 | what a failed request does: the login nothing, a submission the answer, a coin list and a signature the cancellation of their order, sent while connected |
| `HeadlessSafety.HandleBalance` | rust/sideswap_headless_server/src/worker.rs:65-88 | requests taken minus answers given minus pending holders of the reply channel is unchanged by every message |
| `HeadlessSafety.RunBalance` | rust/sideswap_headless_server/src/worker.rs:156-331 | running a continuation pays exactly the reply it holds, none for a login or a signature, or hands it on to one new request |
| `HeadlessSafety.ErrBalance` | rust/sideswap_headless_server/src/worker.rs:65-88 | a continuation that fails pays its reply and stores nothing |
| `HeadlessSafety.AnsweredOnceOrPending` | rust/sideswap_headless_server/src/worker.rs:296-331 | a new-order request has been answered exactly once and holds nothing, or has not been answered and exactly one pending request holds its channel |
| `HeadlessSafety.DisconnectSettlesAll` | rust/sideswap_headless_server/src/worker.rs:372-395 | right after a disconnect nothing is pending and everything has been answered |
| `HeadlessSafety.HandleKeepsKeys` | rust/sideswap_headless_server/src/worker.rs:254-285 | every message keeps: of the orders ever accepted under a key all but the current one have failed |
| `HeadlessSafety.OneLiveOrderPerKey` | rust/sideswap_headless_server/src/worker.rs:254-275 | hence at most one order per unique key is active or completed |
| `HeadlessSafety.HandleSigns` | rust/sideswap_headless_server/src/worker.rs:96-122 | each message changes the signing counter by what it adds to the wallet's queue minus the sign reply it is |
| `HeadlessSafety.FailedStaysFailed` | rust/sideswap_headless_server/src/worker.rs:148-154 | in a run without reused order ids a failed order stays failed |
| `HeadlessSafety.PanicsExactly` | rust/sideswap_headless_server/src/worker.rs:388-420 | from any state: the worker panics iff the server breaks the protocol or a sign reply was not counted |
| `HeadlessSafety.PanicsOnlyOnServerFault` | rust/sideswap_headless_server/src/worker.rs:286-420 | in a reachable state the worker panics iff the server sends a response without a request id, answers with the wrong kind of message, completes an order that is not active, or quotes an order that sends nothing; neither the coin selection nor the counter can fail |
| `HeadlessCompletion.CompletedStaysExactly` | rust/sideswap_headless_server/src/worker.rs:346-433 | a completed order stays completed, with its coins and transaction, iff the message is none of: its removal, a completion without transaction, a failed or unsendable signature, a disconnect or an error for a pending coin list or signature of it, a login that lists it, a reuse of its id, a confirmation whose key is taken |
| `HeadlessCompletion.CompletedOverRuns` | rust/sideswap_headless_server/src/worker.rs:400-425 | over runs without reused order ids: a completed order is unchanged later iff no message in between was one of those; otherwise it has failed |
| `HeadlessCompletion.UndoneIsFailed` | rust/sideswap_headless_server/src/worker.rs:148-154 | with fresh ids each of those messages leaves the order failed |
| `HeadlessCompletion.OneCompletionPerKey` | rust/sideswap_headless_server/src/worker.rs:254-275 | two orders of a key that have ever completed are the same order, or one of them was undone after the state in which it was completed, and has failed |
| `HeadlessStories.CompletionUndone` | rust/sideswap_headless_server/src/worker.rs:400-425 | from the initial state: an order is sold, signed and completed, and each of four server messages fails it again |
| `HeadlessStories.TwoCompletionsOfOneKey` | rust/sideswap_headless_server/src/worker.rs:254-275 | from the initial state: two orders of one key complete, both holding the same coin, because the first was removed in between |
| `HeadlessWorker.Worker.constructor` | rust/sideswap_headless_server/src/worker.rs:437-460 | starts in the initial state, where the invariant holds |
| `HeadlessWorker.Worker.Send` | rust/sideswap_headless_server/src/worker.rs:54-63 | sends only while connected |
| `HeadlessWorker.Worker.MakeRequest` | rust/sideswap_headless_server/src/worker.rs:65-88 | stores the continuation under a new id, or runs it at once with an error |
| `HeadlessWorker.Worker.Call` | rust/sideswap_headless_server/src/worker.rs:96-331 | runs a continuation as the state function says; a wrong response is a panic |
| `HeadlessWorker.Worker.Cancel` | rust/sideswap_headless_server/src/worker.rs:148-154 | marks the order failed and tells the server |
| `HeadlessWorker.Worker.CancelEach` | rust/sideswap_headless_server/src/worker.rs:362-364 | cancels every order the server reports at login |
| `HeadlessWorker.Worker.SubmitInputs` | rust/sideswap_headless_server/src/worker.rs:156-293 | filters, shuffles and selects coins, reserves them, or cancels and answers |
| `HeadlessWorker.Worker.Accept` | rust/sideswap_headless_server/src/worker.rs:254-285 | records the order under its key, or refuses a duplicate |
| `HeadlessWorker.Worker.FailPending` | rust/sideswap_headless_server/src/worker.rs:372-384 | runs every pending continuation with an error, once |
| `HeadlessWorker.Worker.ProcessApi` | rust/sideswap_headless_server/src/worker.rs:296-344 | the API half of the transition function |
| `HeadlessWorker.Worker.ProcessWallet` | rust/sideswap_headless_server/src/worker.rs:90-124 | the wallet half of the transition function |
| `HeadlessWorker.Worker.ProcessConnection` | rust/sideswap_headless_server/src/worker.rs:346-395 | the connection half of the transition function |
| `HeadlessWorker.Worker.ProcessNotification` | rust/sideswap_headless_server/src/worker.rs:396-433 | the notification half of the transition function |
| `HeadlessWorker.Worker.Dispatch` | rust/sideswap_headless_server/src/worker.rs:462-469 | one message of the event loop is one step of the transition function |
| `HeadlessWorker.Worker.Process` | rust/sideswap_headless_server/src/worker.rs:462-469 | the worker keeps the invariant of the model, and panics iff the server breaks the protocol or a sign reply was not counted |
| `ClientSigning.AtMostOneSignPerOrder` | rust/sideswap_client/src/worker.rs:2784-2979 | over any run at most one Sign request is sent per order id, and none without a sign notification; queued prompts, the active prompt and signatures together never exceed one per processed order |
| `ClientSigning.ApplyKeepsSignedOnce` | rust/sideswap_client/src/worker.rs:2519-2527 | every operation keeps that bound |
| `ClientSigning.OpLoad` | rust/sideswap_client/src/worker.rs:3753-3780 | an operation adds to an order's load only when it processes the first notification for it |
| `ClientSigning.ProcessSignLoad` | rust/sideswap_client/src/worker.rs:2852-2920 | a notification counts only once per order id |
| `ClientSigning.RecordsStayConsistent` | rust/sideswap_client/src/worker.rs:2416-2469 | in every reachable state each submit record has the fee of its bitcoin amount and satisfies the price formula of its order type (market and precision of an order fixed) |
| `ClientSigning.ApplyKeepsRecords` | rust/sideswap_client/src/worker.rs:3624-3655 | every operation keeps the records consistent |
| `ClientSigning.RepricedOk` | rust/sideswap_client/src/worker.rs:3018-3043 | a price edit leaves fee and formula consistent |
| `ClientSigning.SamePriceSameAmounts` | rust/sideswap_client/src/worker.rs:2863-2918 | a consistent record and a verified notification that agree on the price and on the compared amount agree on every amount |
| `ClientSigning.AutoSignSignsTheRecord` | rust/sideswap_client/src/worker.rs:2863-2918 | a signature without asking, for a taker or an unforced maker that follows no index, leaves every recorded amount unchanged and is made for exactly those amounts |
| `ClientTerms.EverySignatureIsPriced` | rust/sideswap_client/src/worker.rs:2784-2920 | over any run: every Sign request was made for terms whose fee is the fee of the bitcoin amount and whose amounts satisfy the price formula at their own price, market and precision, with the fee added for the seller of bitcoin and taken off for the buyer; a notification of the order was accepted before, with just the terms it reports, and the terms are those of the last event that set them: that notification or a later price edit, unless the order was recorded anew in between |
| `ClientTerms.SignedTerms` | rust/sideswap_client/src/worker.rs:2784-2850 | the same, read off any log that is in order |
| `ClientTerms.RunsKeepTerms` | rust/sideswap_client/src/worker.rs:2784-2979 | over any run the log is in order and every record has the terms its order was given last |
| `ClientTerms.ApplyTerms` | rust/sideswap_client/src/worker.rs:2784-2979 | every operation keeps that |
| `ClientTerms.PromptSignsShown` | rust/sideswap_client/src/worker.rs:2939-2979 | an accepted prompt signs exactly the terms that were shown iff the record still has the price that was shown, unless the order was recorded anew since |
| `ClientTerms.EditedPromptSigned` | rust/sideswap_client/src/worker.rs:3018-3043 | a price edit while the prompt is up makes the decision sign the edited price |
| `ClientTerms.RerecordedPromptSigned` | rust/sideswap_client/src/worker.rs:3624-3655 | an order that is cancelled, which closes its prompt but leaves it active, and recorded anew is signed for the new terms, of neither the notification nor an edit |
| `ClientScreen.DecisionSignsExactly` | rust/sideswap_client/src/worker.rs:2516-2526 | a decision sends a Sign request iff it accepts the order of the active prompt, the order has a record and the wallet signs; what is on the screen plays no role |
| `ClientScreen.PromptOnScreenExactly` | rust/sideswap_client/src/worker.rs:2939-2979 | over any run the prompt of an order is on the screen iff the order is the visible one and what is visible is not the review of the same order |
| `ClientScreen.RunsKeepScreen` | rust/sideswap_client/src/worker.rs:2739-2782 | over any run the visible order is that of the last prompt or review shown and not closed |
| `ClientScreen.ApplyScreen` | rust/sideswap_client/src/worker.rs:2739-2782 | every operation keeps that |
| `ClientScreen.RejectedPromptSigned` | rust/sideswap_client/src/worker.rs:2516-2526 | a rejected prompt stays active: accepting its order later signs it with nothing on the screen |
| `ClientScreen.ReviewedPromptSigned` | rust/sideswap_client/src/worker.rs:2519-2526 | while the review of the same order is on the screen, accepting it signs the prompt and does not place the order |
| `ClientStories.OpeningShowsPrompt` | rust/sideswap_client/src/worker.rs:2852-2920 | from the initial state: an asset is learnt, an order recorded and notified, and its prompt is up with the price of one |
| `ClientStories.EditedStory` | rust/sideswap_client/src/worker.rs:3018-3043 | from there: the price is edited to two and the decision signs two |
| `ClientStories.RejectedStory` | rust/sideswap_client/src/worker.rs:2516-2526 | from there: the prompt is rejected and signed later, with a blank screen |
| `ClientStories.RerecordedStory` | rust/sideswap_client/src/worker.rs:3624-3655 | from there: the order is cancelled and recorded anew at two, which is signed |
| `ClientTerms.SamePriceSameTerms` | rust/sideswap_client/src/worker.rs:2863-2918 | terms of the same order are equal iff their prices are |
| `ClientChoice.SignedByChoice` | rust/sideswap_client/src/worker.rs:2893-2918 | over any run the event before a Sign request is the user's agreement to a prompt of the order that was shown, or its notification, and then the order is a taker's, or signing is forced, or the maker's last explicit choice (when placing, by an edit, or a two-step record) was automatic and the notified price is the recorded one, for an index order within a tenth of it |
| `ClientChoice.AutoSignExactly` | rust/sideswap_client/src/worker.rs:2881-2903 | the rule of automatic signing in numbers |
| `ClientChoice.RunsKeepChoices` | rust/sideswap_client/src/worker.rs:2537-2538 | over any run side, index and choice of every record are those of the log |
| `ClientChoice.ApplyChoice` | rust/sideswap_client/src/worker.rs:3048-3064 | every operation keeps that |
| `ClientChoice.RecordedAsPlaced` | rust/sideswap_client/src/worker.rs:2705-2733 | over any run every record has the terms of what was placed or found missing |
| `ClientChecks.VerifiedExactly` | rust/sideswap_client/src/worker.rs:2416-2469 | the amount checks in numbers |
| `ClientChecks.AcceptsExactly` | rust/sideswap_client/src/worker.rs:2852-2892 | the first notification of an order is accepted iff its amounts verify and it agrees with the record; otherwise nothing happens but that it counts as processed |
| `ClientChecks.SettlesExactly` | rust/sideswap_client/src/worker.rs:2893-2918 | an accepted notification puts its amounts into the record and is signed iff the rule allows it, else it goes to the end of the prompts |
| `ClientChecks.NextPromptExactly` | rust/sideswap_client/src/worker.rs:2939-2979 | prompts are taken in order, those of unknown orders dropped, the first other one shown |
| `ClientChecks.CompletionExactly` | rust/sideswap_client/src/worker.rs:3207-3253 | a completion notes the transaction, or drops the record and leaves the screen iff it shows the order or waits for it |
| `ClientChecks.PlacesExactly` | rust/sideswap_client/src/worker.rs:2528-2737 | an order is placed iff it is accepted, under review, verified and let through; its record is what was reviewed, with automatic signing only for a maker who chose it |
| `ClientWorker.Client.Sign` | rust/sideswap_client/src/worker.rs:2784-2850 | `try_sign` is one signing attempt with some outcome |
| `ClientWorker.Client.NextPrompt` | rust/sideswap_client/src/worker.rs:2939-2979 | the prompt loop shows the next prompt whose order is still known |
| `ClientWorker.Client.ProcessSign` | rust/sideswap_client/src/worker.rs:2852-2920 | `try_process_sign` is the transition function of a notification |
| `ClientWorker.Client.SettleSign` | rust/sideswap_client/src/worker.rs:2868-2918 | after the checks: the relative price change decides between a signature and a prompt, also for recorded prices that are not positive |
| `ClientWorker.Client.Verify` | rust/sideswap_client/src/worker.rs:2416-2469 | accepts iff all amount checks hold |
| `ClientWorker.Client.AddAsset` | rust/sideswap_client/src/worker.rs:571-582 | an unknown asset is looked up and learnt, a known one is left alone, a failed look-up changes nothing |
| `ClientWorker.Client.AddMissingSubmitData` | rust/sideswap_client/src/worker.rs:3618-3658 | adds a record only for an unknown order with verified amounts; succeeds iff the order is known or its amounts verify |
| `ClientWorker.Client.OnNotification` | rust/sideswap_client/src/worker.rs:2922-2937 | a sign notification keeps the invariant of the client: at most one signature per order, consistent records, a log of terms in order |
| `ClientWorker.Client.OnSign` | rust/sideswap_client/src/worker.rs:2922-2937 | a taker's notification is processed at once and nothing else happens; a maker's is queued first and the pump runs |
| `ClientWorker.Client.DownloadSign` | rust/sideswap_client/src/worker.rs:3660-3669 | a pushed order is fetched, its asset learnt, recorded if missing and processed, in this order |
| `ClientWorker.Client.PendingRequests` | rust/sideswap_client/src/worker.rs:3671-3780 | the pump runs iff connected and not blocked by the AMP gate; it is then a sequence of operations after which no pushed order, submission, link or notification is queued and the prompts have been looked at |
| `ClientWorker.Client.FinishRequests` | rust/sideswap_client/src/worker.rs:3753-3773 | its later stages: reviews, prompts, then queued notifications until none is left |
| `ClientWorker.Client.ReviewLink` | rust/sideswap_client/src/worker.rs:2319-2404 | a link learns its asset and is shown, or is dropped |
| `ClientWorker.Client.ShowLinks` | rust/sideswap_client/src/worker.rs:3732-3761 | all submissions and links are taken and their reviews shown |
| `ClientWorker.Client.Download` | rust/sideswap_client/src/worker.rs:3745-3761 | every link in turn |
| `ClientWorker.Client.OnOrderCreated` | rust/sideswap_client/src/worker.rs:3256-3266 | an own order that is not known is recorded, with automatic signing only for two-step orders |
| `ClientWorker.Client.DrainSigns` | rust/sideswap_client/src/worker.rs:3765-3773 | the queued notifications, first in first out, until none is left |
| `ClientWorker.Client.PlaceOrder` | rust/sideswap_client/src/worker.rs:2528-2737 | a record is made iff the amounts verify and wallet and server let the order through; the review is gone either way |
| `ClientWorker.Client.SubmitDecision` | rust/sideswap_client/src/worker.rs:2739-2782 | a user decision is one operation and keeps the invariant |
| `ClientWorker.Client.EndReview` | rust/sideswap_client/src/worker.rs:2756-2781 | closes the review and shows the next prompt |
| `ClientWorker.Client.EditOrderPrice` | rust/sideswap_client/src/worker.rs:3018-3043 | a confirmed price edit stores any price and recomputes the record; a positive one keeps the invariant |
| `ClientWorker.Client.OnComplete` | rust/sideswap_client/src/worker.rs:3207-3253 | a completion stores the txid, or drops the record and closes its review; the invariant stays |
| `ClientWorker.Client.OnPush` | rust/sideswap_client/src/worker.rs:3590-3616 | a push first remembers the order, then pumps |
| `ClientWorker.Client.OnLogout` | rust/sideswap_client/src/worker.rs:2041-2042 | a logout clears reviews and the active prompt, not the processed orders |
| `UiMirror.OrderList.Sync` | rust/sideswap_client/src/worker.rs:4095-4128 | afterwards replaying all messages ever sent gives the current orders; only changed orders were sent, each once and with the right content and novelty flag |
| `UiMirror.NeededSuffices` | rust/sideswap_client/src/worker.rs:4095-4128 | messages about changes only, covering every change, turn the shown orders into the current ones |
| `UiMirror.ChangesMustBeSent` | rust/sideswap_client/src/worker.rs:4095-4128 | and no change can be left out by any list of messages that reaches the current orders |
| `UiMirror.ReplayAt` | rust/sideswap_client/src/worker.rs:4095-4128 | each needed message brings its order up to date and leaves the others alone |
| `UiMirror.NeededExactly` | rust/sideswap_client/src/worker.rs:4101-4127 | which messages are sent, in terms of what is shown and what is current |
| `UiMirror.InsertedAt` | rust/sideswap_client/src/worker.rs:2163-2168 | of several orders with one id the last one counts, the others stay |
| `UiMirror.OrderList.SendRemoved` | rust/sideswap_client/src/worker.rs:4101-4114 | removals are sent for exactly the orders that are gone |
| `UiMirror.OrderList.SendCreated` | rust/sideswap_client/src/worker.rs:4115-4127 | creations are sent for exactly the orders that are new or differ |
| `UiMirror.OrderList.AddOrders` | rust/sideswap_client/src/worker.rs:2163-2168 | added orders are shown |
| `UiMirror.OrderList.RemoveOrder` | rust/sideswap_client/src/worker.rs:3309-3312 | a removed order is no longer shown |
| `UiMirror.OrderList.Disconnected` | rust/sideswap_client/src/worker.rs:1042-1047 | after a disconnect nothing is shown |
| `UiMirror.OrderList.Unsubscribed` | rust/sideswap_client/src/worker.rs:2170-2180 | own orders and other markets stay |
| `UiMirror.OrderList.EditAutoSign` | rust/sideswap_client/src/worker.rs:3048-3064 | the flag changes iff the order has a submit record and is in the list; otherwise an error and no change |
| `TxMirror.AlwaysMirrored` | rust/sideswap_client/src/worker.rs:584-643 | after every refresh of a login confirmed and unconfirmed ids are disjoint and the interface shows exactly their union, confirmed ones as final |
| `TxMirror.FinalIsForever` | rust/sideswap_client/src/worker.rs:735-758 | a confirmed transaction stays confirmed through all later refreshes, no message mentions it again, and its item stays as shown |
| `TxMirror.RefreshMirrors` | rust/sideswap_client/src/worker.rs:735-758 | one refresh keeps the mirror and only adds to the confirmed set |
| `TxMirror.UpdatesCover` | rust/sideswap_client/src/worker.rs:590-643 | every listed transaction that is not final is sent, as it was listed last |
| `TxMirror.ConfsMeanUnconfirmed` | rust/sideswap_client/src/worker.rs:321-344 | a count is shown iff the transaction is not confirmed, and it is short of the total |
| `TxMirror.ConfsExactly` | rust/sideswap_client/src/worker.rs:321-344 | the confirmations in numbers: final from the second block on, one of two in the top block, else none |
| `TxMirror.FinalStaysFinal` | rust/sideswap_client/src/worker.rs:321-344 | a confirmed transaction is confirmed at every later top block |
| `TxMirror.TxList.SendNewTransactions` | rust/sideswap_client/src/worker.rs:584-643 | the handler is one refresh; it keeps the mirror and never forgets a confirmed transaction |
| `TxMirror.TxList.Classify` | rust/sideswap_client/src/worker.rs:738-745 | the loop sorts the updates into confirmed and unconfirmed |
| `Rebalance.SettlesExactlyBelow` | rust/sideswap_dealer_bitfinex/src/balancing.rs:102-175 | two applications settle all positive balances iff the price is below 2e11 USDT per bitcoin, for every real price |
| `Rebalance.SettledAfterTwo` | rust/sideswap_dealer_bitfinex/src/balancing.rs:102-175 | the smaller asset, then the bigger one, then nothing, as long as half a satoshi is worth less than the smallest transfer |
| `Rebalance.FirstTransfer` | rust/sideswap_dealer_bitfinex/src/balancing.rs:102-175 | after one transfer the smaller asset is in order |
| `Rebalance.SecondTransfer` | rust/sideswap_dealer_bitfinex/src/balancing.rs:102-175 | once it is, one more transfer settles everything |
| `Rebalance.NeverSettles` | rust/sideswap_dealer_bitfinex/src/balancing.rs:102-175 | from 2e11 on a concrete family of balances is advised forever: the rest rounds to nothing or is sent back and forth |
| `Rebalance.AdviceIsCovered` | rust/sideswap_dealer_bitfinex/src/balancing.rs:102-175 | a recommended transfer is positive and never exceeds the balance it is drawn from, neither as recommended nor rounded |
| `Rebalance.BitcoinSmallerAdvice` | rust/sideswap_dealer_bitfinex/src/balancing.rs:102-175 | the advice in numbers when bitcoin is worth less: direction, amount and when there is none |
| `Rebalance.UsdtSmallerAdvice` | rust/sideswap_dealer_bitfinex/src/balancing.rs:102-175 | the same when USDT is worth no more |
| `Rebalance.NoAdvice` | rust/sideswap_dealer_bitfinex/src/balancing.rs:102-120 | no advice without a price or with an empty balance |
| `Rebalance.SmallerInIntegers` | rust/sideswap_dealer_bitfinex/src/balancing.rs:59-82 | the smaller asset moves iff less than a quarter or more than three quarters are in the wallet, by the amount that halves it |
| `Rebalance.SmallerMoves` | rust/sideswap_dealer_bitfinex/src/balancing.rs:59-82 | that move is covered, lands in range and is the last one |
| `Rebalance.BiggerMoves` | rust/sideswap_dealer_bitfinex/src/balancing.rs:84-100 | the bigger asset's move is covered and leaves at most half a satoshi |
| `TransferMachine.EpisodesFollowTheirPlan` | rust/sideswap_dealer_bitfinex/src/balancing.rs:177-546 | over any run from a well-formed storage: no panic, and every episode has done a prefix of the plan of its direction for its amount |
| `TransferMachine.PlanIsOnce` | rust/sideswap_dealer_bitfinex/src/balancing.rs:177-546 | such a prefix holds at most one on-chain send, one exchange transfer and one withdrawal, all for the episode's amount |
| `TransferMachine.HandleKeepsInv` | rust/sideswap_dealer_bitfinex/src/storage.rs:5-39 | every event keeps the invariant (confirming states hold the txid or positive withdraw id they read, past episodes are finished) and a live transfer only advances in rank |
| `TransferMachine.TimerKeepsInv` | rust/sideswap_dealer_bitfinex/src/balancing.rs:177-409 | the timer step keeps it |
| `TransferMachine.WithdrawKeepsInv` | rust/sideswap_dealer_bitfinex/src/balancing.rs:411-452 | the withdraw reply keeps it |
| `TransferMachine.MovementsKeepInv` | rust/sideswap_dealer_bitfinex/src/balancing.rs:454-530 | the movements reply keeps it and never meets a missing txid |
| `TransferMachine.FailedBlocks` | rust/sideswap_dealer_bitfinex/src/main.rs:1489-1526 | a failed episode stays: no event changes it, starts another one or moves money |
| `TransferMachine.FailsExactly` | rust/sideswap_dealer_bitfinex/src/balancing.rs:411-546 | a live transfer fails iff a failed exchange transfer is reported, a withdraw id arrives that nothing waits for or that is not positive, or the wallet call of a send fails |
| `TransferMachine.CompletesExactly` | rust/sideswap_dealer_bitfinex/src/balancing.rs:454-530 | a live transfer becomes complete iff a successful report repeats the stored one and lists a movement marked completed with its txid or withdraw id, or a timer finds no L-BTC while waiting for the exchange |
| `TransferMachine.SendsExactly` | rust/sideswap_dealer_bitfinex/src/balancing.rs:177-300 | when a send goes on, with which action and to which state, in terms of the balances |
| `TransferMachine.ReceivesExactly` | rust/sideswap_dealer_bitfinex/src/balancing.rs:230-409 | when a receive goes on, likewise |
| `TransferMachine.RepliesExactly` | rust/sideswap_dealer_bitfinex/src/balancing.rs:411-470 | which withdraw ids are taken and which reports are stored |
| `TransferMachine.StartsExactly` | rust/sideswap_dealer_bitfinex/src/main.rs:1489-1526 | what a command starts, and when |
| `TransferMachine.AskedExactly` | rust/sideswap_dealer_bitfinex/src/balancing.rs:177-409 | from the state alone: whether the episode has asked for an exchange transfer or for a withdrawal, so that such a reply can be its own |
| `TransferMachine.ForeignReplyFails` | rust/sideswap_dealer_bitfinex/src/balancing.rs:532-546 | a late transfer report or withdraw id fails a new episode that has asked for nothing |
| `TransferMachine.Storage.UpdateState` | rust/sideswap_dealer_bitfinex/src/balancing.rs:38-57 | changes the state of the transfer only |
| `TransferMachine.Storage.ProcessBalancing` | rust/sideswap_dealer_bitfinex/src/balancing.rs:177-409 | the timer handler is the timer step; episodes stay on plan and the transfer only advances |
| `TransferMachine.Storage.ProcessWithdraw` | rust/sideswap_dealer_bitfinex/src/balancing.rs:411-452 | the handler is the withdraw step; episodes stay on plan and the transfer only advances |
| `TransferMachine.Storage.ProcessMovements` | rust/sideswap_dealer_bitfinex/src/balancing.rs:454-530 | the handler is the movements step, a report counts only when it repeats the last one; episodes stay on plan and the txid is always there |
| `TransferMachine.Storage.ProcessTransfer` | rust/sideswap_dealer_bitfinex/src/balancing.rs:532-546 | a failed exchange transfer fails the episode; episodes stay on plan |
| `TransferMachine.Storage.StartEpisode` | rust/sideswap_dealer_bitfinex/src/main.rs:1489-1526 | starts an episode iff none is stored; episodes stay on plan |
| `TransferMachine.FindTx` | rust/sideswap_dealer_bitfinex/src/balancing.rs:454-530 | finds a completed movement of the transaction iff there is one |
| `TransferMachine.FindId` | rust/sideswap_dealer_bitfinex/src/balancing.rs:454-530 | finds a completed movement of the withdrawal iff there is one |
| `Payjoin.PayjoinBalances` | rust/sideswap_payjoin/src/lib.rs:243-297 | a constructed payjoin balances inputs and outputs of every asset iff the coins selected from the server's offer are of one asset |
| `Payjoin.UnbalancedPayjoin` | rust/sideswap_payjoin/src/lib.rs:97-142 | an offer with coins of two assets passes all checks and gives a payjoin that does not balance |
| `Payjoin.OutlayIsBounded` | rust/sideswap_payjoin/src/lib.rs:97-142 | the recipient gets the send amount; the client's outlay is that plus the actual fee, at most the amount when the fee is subtracted and at most amount plus quoted fee otherwise |
| `Payjoin.ChecksSuffice` | rust/sideswap_payjoin/src/lib.rs:224-302 | once the checks pass no subtraction underflows: construction fails iff the recomputed asset fee is zero |
| `Payjoin.FeesWithinQuote` | rust/sideswap_payjoin/src/lib.rs:262-271 | the fees recomputed for the inputs used never exceed the quoted ones |
| `Payjoin.OutputsExactly` | rust/sideswap_payjoin/src/lib.rs:224-302 | of every payjoin: the network fee output is the least that pays a tenth of a satoshi per virtual byte for its inputs and four outputs, the server fee output is the fixed fee plus the price times that, to the nearest unit (just the fixed fee for a negative price), the recipient gets the amount less a subtracted reported fee, and the reported fee is the same for all coins offered |
| `Payjoin.NetworkFeeIsLeast` | rust/sideswap_payjoin/src/network_fee.rs:10-22 | the network fee in numbers |
| `Payjoin.AssetFeeIsNear` | rust/sideswap_payjoin/src/lib.rs:88-95 | the fee in the asset in numbers |
| `Payjoin.CreatesExactly` | rust/sideswap_payjoin/src/lib.rs:36-142 | when a payjoin is made, in terms of all coins of both sides |
| `Payjoin.NetworkFeeMonotone` | rust/sideswap_payjoin/src/network_fee.rs:10-22 | fewer inputs never cost more, through both ceilings |
| `Payjoin.AssetFeeMonotone` | rust/sideswap_payjoin/src/lib.rs:88-95 | nor in the asset, through the rounding and the saturating cast, whatever the sign of the price |
| `Payjoin.PrefixReaches` | rust/sideswap_payjoin/src/lib.rs:108-124 | a selected prefix reaches its target iff all coins do, and does not without its last coin |
| `Payjoin.SelectPrefix` | rust/sideswap_payjoin/src/lib.rs:108-124 | the accumulating loop with early break computes the prefix and its total |
| `Payjoin.Create` | rust/sideswap_payjoin/src/lib.rs:36-142 | `create_payjoin` up to the signatures |
| `PsetAssembly.ArrangedPayjoin` | rust/sideswap_payjoin/src/lib.rs:243-299 | the transaction as sent: its inputs are the selected coins, each with its own secret, its last output is the network fee for just that many inputs, and the secrets and the outputs are worth the same in every asset iff the server's selected coins are of one asset |
| `PsetAssembly.AddInputs` | rust/sideswap_payjoin/src/lib.rs:243-260 | the input loop lists every selected coin with its secret, in order |
| `PsetAssembly.ArrangedKeepsEverything` | rust/sideswap_payjoin/src/pset.rs:202-244 | for any outputs with one unblinded fee: same inputs with their secrets, same outputs, the fee last |
| `PsetAssembly.RandomizePset` | rust/sideswap_payjoin/src/pset.rs:202-244 | the in-place shuffles and the swap compute that arrangement; unequal lengths are an error |
| `PsetAssembly.RandomizeOutputs` | rust/sideswap_payjoin/src/pset.rs:219-226 | the outputs are shuffled and the fee is swapped to the end; no fee output is an error |
| `PsetAssembly.CopySignatures` | rust/sideswap_payjoin/src/pset.rs:187-200 | fails iff the shapes differ, otherwise merges input by input |
| `PsetAssembly.MergedSignatures` | rust/sideswap_payjoin/src/lib.rs:170-177 | an input is signed in the end iff one side signed it; outpoints are untouched |
| `PsetAssembly.MergeCommutes` | rust/sideswap_payjoin/src/pset.rs:187-200 | when no input is signed twice the direction of the merge does not matter, and merging again changes nothing |
| `DealerQuote.AlwaysAcceptedExactlyWhen` | rust/sideswap_dealer/src/dealer.rs:171-234 | on unchanged prices, own orders of the full size are accepted at signing for all balances iff they sell bitcoin, or the interest net of two fees covers the signing interest and the size is at least 17167 satoshi |
| `DealerQuote.OwnOrderIsAccepted` | rust/sideswap_dealer/src/dealer.rs:374-475 | the accepting half for given balances, with the reserve condition 1.03 * (1 - x) >= 1 |
| `DealerQuote.TightRefused` | rust/sideswap_dealer/src/dealer.rs:386-422 | if the reserve does not cover the fee, the smallest holding with which the order is submitted no longer fits at signing |
| `DealerQuote.OwnPriceAcceptable` | rust/sideswap_dealer/src/dealer.rs:171-234 | the price check passes iff the order sells bitcoin or interest_submit * (1 - x^2) >= interest_sign |
| `DealerQuote.SendSidePrice` | rust/sideswap_dealer/src/dealer.rs:458-464 | selling bitcoin the fee cancels out: the actual price is the ask with the submit interest |
| `DealerQuote.RecvSidePrice` | rust/sideswap_dealer/src/dealer.rs:458-464 | buying bitcoin the fee counts twice: the actual price is the bid over the net interest |
| `DealerQuote.SizeStillFits` | rust/sideswap_dealer/src/dealer.rs:386-422 | at the actual price the size check allows at least what was submitted |
| `DealerQuote.ReserveThreshold` | rust/sideswap_dealer/src/dealer.rs:386-422 | the reserve covers the fee iff the size is at least 17167 satoshi |
| `DealerQuote.ExpectedFeeIsServerFee` | rust/sideswap_dealer/src/dealer.rs:454-457 | the fee the dealer expects is the fee the server takes |
| `DealerQuote.KeptOrderIsCurrent` | rust/sideswap_dealer/src/dealer.rs:477-580 | an order left in the book after an update quotes the current price and is no larger than the balances allow |
| `DealerQuote.SizeExactly` | rust/sideswap_dealer/src/dealer.rs:386-422 | a size is allowed iff, to half a satoshi, the wallet covers it (bitcoin with a thousandth for the fee, or the asset at the price) and every limit does |
| `DealerQuote.PriceExactly` | rust/sideswap_dealer/src/dealer.rs:193-222 | the price check in numbers, fee included |
| `DealerQuote.TakesExactly` | rust/sideswap_dealer/src/dealer.rs:184-234 | a trade is taken iff its size is in the range and allowed at its actual price and its price is acceptable |
| `DealerQuote.ReactsExactly` | rust/sideswap_dealer/src/dealer.rs:438-580 | when an order is submitted, cancelled or edited, in numbers |
| `DealerQuote.SalesAreCoveredExactly` | rust/sideswap_dealer/src/dealer.rs:386-422 | selling from the wallet alone: all allowed sizes are covered, fee included, iff it holds at least 500000 satoshi and their number is not 500 modulo 1001 |
| `DealerQuote.TakenSaleIsCovered` | rust/sideswap_dealer/src/dealer.rs:184-234 | with any limits, from such a wallet every sale that is taken is covered |
| `DealerQuote.OwnSlot.Update` | rust/sideswap_dealer/src/dealer.rs:438-580 | the own-order slot and the requests sent after `update_price`, for every answer of the server |

## Left out

- Integer overflow: totals are unbounded integers, so i64/u64 wrap-around (for instance of a negative receive amount in `try_sign`) is not modelled, nor are rounding errors of f64.
- Market and precision: `try_process_sign` does not compare the market of a notification with the record; the record theorems assume that the market of an order and the precision of an asset do not change.
- Headless server: the API call that lists orders (it never replies), error texts, prices and times to live of orders, and the websocket transport are not modelled; pending requests are visited in any order on a disconnect.
- Headless server: reservations need wallet lists without duplicates; the claims on failed orders and unique keys need fresh order ids from the server, both stated as assumptions of the lemmas.
- HeadlessWorker.Worker.SubmitInputs: coins are shuffled after they have been paired with their amounts, not before; the two steps commute.
- ClientWorker.Client.PendingRequests: nothing is claimed about when the AMP connection comes up.
- ClientWorker.Client.PlaceOrder: the choice and reservation of coins, the transaction outputs kept in a record and the inputs of two-step orders are not modelled; that they fail counts as an order that was not placed.
- ClientTerms.EverySignatureIsPriced: assumes that prices the server confirms in an edit are positive; the handler itself stores any price.
- UiMirror.OrderList.AddOrders: fields of an order that the worker does not inspect are one opaque value, and the conversion of server orders is not modelled.
- TxMirror.AlwaysMirrored: speaks of one account during one login; a logout starts a new object.
- Jade port: the initial discard loop and the writing side.
- JadeFraming.DecodeItem: does not model the recursion limit of the decoder library; the port itself is proved for any stable decoder.
- Money.PegOutRequote: a peg-out rate of zero or below (a fee of 100 percent or more) is not covered.
- Rebalancing: crash recovery (a payment is issued before the state is saved), timestamps and notifications; the theorems speak of uninterrupted runs from a well-formed storage.
- TransferMachine.Storage.ProcessBalancing: the answer of the wallet call is a parameter.
- Payjoin: addresses, blinding, proofs, the exchange with the server and saturation of u64 at its upper end.
- DealerQuote.AlwaysAcceptedExactlyWhen: asset amounts are not rounded to their precision, and balances and limits stay the same between submission and signing.
- DealerQuote.OwnSlot.Update: the choice of coins for the order is not modelled; its failure counts as an order that was not placed.
- The wallet library behind foreign calls, cryptography, user-interface runners, the exchange's proxy, health and notification services.
