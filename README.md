# Provider of the Fuel Rust SDK, modelled in Dafny

This project models the `Provider` of the Fuel Rust SDK (`fuels-signers`). The Provider is a
stateless wrapper around the GraphQL client of a Fuel node. The model covers four of its operations:

- **the coin listing (`get_coins`)**: a loop that walks the node's cursor-based pagination and
  collects every page of an address's coins;
- **`send_transaction`**: submit a transaction, then fetch its receipts;
- **`get_balances`**: one request for the balance list;
- **`build_transfer_tx`**: a builder for transfer transactions.

The node is modelled by its answers. `GqlClient.Client` holds one total function per endpoint
(coins, balances, submit, receipts), mapping a request to the node's answer: a page, an
identifier, receipts, or an `IoError`. An operation does not change that value. Besides its
result, each operation returns the trace of requests it sent, in order. This lets the contracts
state the shape of every request, the order of the requests, and where an error stops the
sequence.

Files:

- `fuel_types.dfy` (`FuelTypes`): 64-bit words, 32-byte identifiers, `Coin`, `Balance`, cursors,
  pagination requests and results.
- `transaction.dfy` (`FuelTx`): the `Transaction` datatype (`Script` and `Create`), `TxParameters`,
  and the transfer shape `IsTransferTx`.
- `client.dfy` (`GqlClient`): the request datatype and the node's endpoints.
- `provider.dfy` (`Provider`): `ProviderError`, the `Provider` datatype and its operations, the
  description of a complete coin listing (`CoinsRun`, `Collected`, `CoinsOutcome`), and the lemmas
  about it.

`get_coins` is a method with a `while` loop. Its accumulator is `coins` and its cursor is `cursor`;
the loop invariants tie them to the trace so far. The Rust loop ends only if the node eventually
answers with an empty page or an error. The model makes that a precondition,
`Drains(client, from, None, bound)`, where `bound` is a ghost limit on the number of requests; that
limit also serves as the loop's termination measure. `RunDrains` shows the precondition is no
stronger than "the listing ends".

A returned cursor of `None` reads naturally as "no further pages", but the model follows what the
code does with it. The loop ignores that cursor: it stops
only on an empty page, and a non-empty page that carries `None` makes it ask for the first page
again. `EndlessWhenFirstCursorIsNone` proves the consequence: if the first page has coins and no
cursor, the listing never ends.

## Model

| member | source | states |
|---|---|---|
| Provider.Provider.GetCoins | packages/fuels-signers/src/provider.rs:63-90 | The trace is a complete coin listing (`CoinsRun`): every request is for the address, has no asset filter, page size 100 and direction Forward; the first has cursor None and each later one has exactly the cursor the previous page returned; every page except the last has coins; the last page is an error or empty, whatever its cursor. The result is `CoinsOutcome` of that trace: all coins in order, or the error. Only the last request can fail, and its failure is returned as `ClientRequestError` with no coins. An empty first page gives exactly one request and `Ok([])`. At most `bound` requests are sent. |
| Provider.Provider.SendTransaction | packages/fuels-signers/src/provider.rs:42-46 | Submits first. If submit fails, that is the only request and its error is returned unchanged. Otherwise exactly one more request follows: receipts for the identifier submit returned, and that answer is the result. Receipts are only ever requested for the identifier submit returned. |
| Provider.Provider.BuildTransferTx | packages/fuels-signers/src/provider.rs:112-134 | The result is a transfer-shaped `Script` transaction: script RET(REG_ONE), empty script data and witnesses, default receipts root, no metadata. Its inputs and outputs equal the arguments, and its gas price, gas limit, byte price and maturity are the parameters. |
| Provider.Provider.GetBalances | packages/fuels-signers/src/provider.rs:151-163 | Exactly one request: the balance list for the address with cursor None, page size 9999 and direction Forward. The node's answer, including any cursor to further pages, is returned as is; no second page is requested. |
| Provider.RunIsUnique | packages/fuels-signers/src/provider.rs:64-89 | Two complete coin listings against the same node are equal. So the requests and the outcome of `get_coins` are fixed by the node's answers and do not depend on the bound. |
| Provider.RunDrains | packages/fuels-signers/src/provider.rs:68-87 | A complete listing of n requests meets the termination precondition of `GetCoins` with bound n. The precondition therefore asks only that the loop ends. |
| Provider.EndlessWhenFirstCursorIsNone | packages/fuels-signers/src/provider.rs:82-86 | The loop stops only on an empty page. If the first page has coins and returns cursor None, the next request repeats the first one forever, so no bound satisfies the precondition. |
| Provider.CollectedAt | packages/fuels-signers/src/provider.rs:85 | Nothing is dropped and order is kept: the j-th coin of the i-th page is at position (coins of pages before i) + j of the collected list. |
| Provider.CollectedOrigin | packages/fuels-signers/src/provider.rs:85 | Nothing is added: every coin of the collected list is the j-th coin of some page i, at the position `CollectedAt` gives. |
| Provider.CollectedSize | packages/fuels-signers/src/provider.rs:85 | Nothing is duplicated: the collected list is exactly as long as all pages' coins together. |
| Provider.ListingOutcome | packages/fuels-signers/src/provider.rs:80-89 | For a complete listing, the outcome is an error exactly when the last request failed. Every earlier request succeeded. A successful outcome is the concatenation of all pages' coins. |
| Provider.TransferTxRoundTrip | packages/fuels-signers/src/provider.rs:117-133 | Every transfer-shaped transaction is what the builder makes of its own inputs, outputs and parameters, whichever Provider builds it. Together with the builder's contract, equal arguments give equal transactions and equal transactions come from equal arguments. |

## Left out

- `launch` and `connect` (node bootstrap and socket wiring): no local logic beyond building a client handle.
- `get_spendable_coins` and `get_asset_balance`: each is a single pass-through call. Their results are whatever the node's selection and summing policy produces, which is not part of this model.
- `get_transaction_by_id`: it unwraps twice, so a failed or empty lookup panics; there is no contract to state.
- The test in provider.rs: it needs a running node.
- The test helpers in packages/fuels-test-helpers/src/signers.rs (`Launcher`, `setup_test_provider`): they generate random keys, depend on coin setup code that is not part of this model, and launch a node asynchronously.
- The network transport, GraphQL serialization and async/await: the node is represented only by its answers, and a call is one round-trip.
- Server-side state changes: each endpoint's answers are fixed during one operation. The model does not capture a ledger that changes between the pages of one listing, or between submit and receipts.
- String encodings of `Address`, `AssetId` and the transaction id (`to_string`) are left out: the request carries the value itself.
- The byte encoding of `Opcode::RET(REG_ONE)` is the uninterpreted constant `RetRegOneScript`.
- `Input`, `Output`, `Witness`, `Metadata` and `Receipt` are opaque byte records, and the `Create` variant of `Transaction` carries only a few of its fields: the Provider copies these values and never inspects them.
- Provider.Provider.GetCoins: termination is a precondition (a ghost bound on the number of requests), because the Rust loop ends only if the node eventually answers with an empty page or an error.
