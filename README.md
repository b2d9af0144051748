# Bitcoin fee arithmetic of timechain-backend, in Dafny

timechain-backend is a small HTTP service over one Bitcoin full node reached by
JSON-RPC. It has two endpoints. `/fee-estimate` asks the node for a smart-fee
estimate and re-expresses it in satoshis per vbyte. `/get-tx-fees/{txid}`
computes the fee a transaction pays: it sums the outputs its inputs spend, then
subtracts the sum of its own outputs.

This project models that arithmetic and the RPC reply handling underneath it.
There are two modules, one per source file:

- `Client` (`client.dfy`, app/clients/client.py) covers several things:
  - the JSON-RPC 1.0 request envelope;
  - the decision `call_rpc` takes on a reply: a truthy `error` field fails the call whatever the HTTP status, and otherwise `result` is returned;
  - fetching a transaction;
  - resolving one input to the output it spends;
  - the two loops `get_output_total` and `get_input_total`. These are methods with loop invariants, proved equal to the recursive specification functions `Total` and `InputTotal`.
- `Bitcoin` (`bitcoin.dfy`, app/routers/bitcoin.py) covers `fee_estimate` and `get_tx_fees`, as functions returning a `Result`. It also holds `RoundHalfEven`, Python's `round` on an exact quotient.

Modelling decisions:

- **The node** is a total function `Upstream = Request -> Option<Envelope>`. `None` is a reply that never arrives or is not JSON. An `Envelope` carries the HTTP status, the `error` field and the `result` field. Every RPC the model makes goes through `MakeRequest` and `Unwrap`, as every call in the source goes through `call_rpc`.
- **Amounts** are integer satoshis and feerates integer satoshis per kilo-vbyte. These replace the source's BTC floats. The node reports both with eight decimals, so nothing is lost.
- **Failures** are the datatype `Error`. `StatusCode` gives the HTTP status each one reaches the caller with:
  - 502 for the two deliberate `HTTPException(502)` cases: a target above 1008, and a populated `error` field in the reply to `fee_estimate`'s call (`get_tx_fees` catches that exception; see Findings);
  - 404 for a null feerate;
  - 500 for everything else: transport failures and null or wrongly shaped results, which the source raises as unhandled exceptions, and inputs the model cannot resolve, where the source's own loop goes on or raises (see Findings).
- **Input resolution is all or nothing.** If any input's prior transaction cannot be fetched, or the input names an output index past the end of that transaction, the whole input total fails. The failure names that input (`UnresolvedInput`, `NoSuchOutput`). The source does something else (see Findings). The corrected behaviour is what `GetInputTotal` and `GetTxFees` use. The source's behaviour is kept beside it as `InputTotalAsWritten`.
- **Statuses and signs follow the code:** a target above 1008 gets 502; a transport failure surfaces as 500; the fee is not checked for sign, so a negative difference passes through.
- **Failed fetches in `get_tx_fees`:** when fetching the transaction itself fails, the source logs the exception and then raises `UnboundLocalError` (status 500). `GetTxFees` passes on the typed failure of the fetch instead, so a node error keeps its 502. The source's behaviour is kept beside it as `GetTxFeesAsWritten` (see Findings).
- **Specification functions:** `GetTxFees` is a function, so it uses the specification functions `InputTotal` and `Total` rather than calling the methods. The methods are proved to compute exactly these.

## Model

| member | source | states |
|---|---|---|
| `Client.MakeRequest` | app/clients/client.py:12-17 | the request carries `jsonrpc = "1.0"`, `id = "timechain"`, and the caller's method and parameters unchanged |
| `Client.Unwrap` | app/clients/client.py:20-24 | no reply is a transport failure; a truthy `error` field fails with that error (502); otherwise `result` is returned unchanged |
| `Client.UnwrapIgnoresHttpStatus` | app/clients/client.py:19-22 | the decision is the same for every HTTP status; it fails exactly when the `error` field is truthy |
| `Client.CallRpc` | app/clients/client.py:11-24 | the call succeeds exactly when the node replies with a falsy `error` field, and then it returns the reply's `result` |
| `Client.StatusCode` | app/routers/bitcoin.py:28-36 | 404 exactly for a missing estimate; 502 exactly for an upstream error or a target above 1008; every other failure is 500 |
| `Client.FetchTx` | app/clients/client.py:36-40 | fetching a transaction succeeds exactly when the call succeeds with a transaction as its result, and it returns that transaction |
| `Client.GetOutputTotal` | app/clients/client.py:48-56 | the loop returns the sum of the outputs' values (`Total`), and 0 for no outputs |
| `Client.TotalAppend` | app/clients/client.py:51-54 | one more output raises the total by exactly that output's value |
| `Client.TotalConcat` | app/clients/client.py:51-54 | the total of two lists joined is the sum of their totals |
| `Client.TotalPermutation` | app/clients/client.py:51-54 | any reordering of the outputs has the same total |
| `Client.TotalBounds` | app/clients/client.py:49-54 | with non-negative values, the total is non-negative and at least each single value |
| `Client.Lookup` | app/clients/client.py:32-41 | an input resolves exactly when its prior transaction is fetched and has an output at the input's index, and then to that output; otherwise the failure names the input |
| `Client.Spent` | app/clients/client.py:31-43 | resolving a list of inputs succeeds exactly when every input resolves; the result holds, position by position, the output each input spends |
| `Client.InputTotalAllOrNothing` | app/clients/client.py:35-43 | the input total fails exactly when some input fails to resolve, with the failure of the first such input, so an unresolved input never counts as zero |
| `Client.GetInputTotal` | app/clients/client.py:28-46 | the loop returns `InputTotal` (the sum of the spent outputs, or the first input's failure); it posts one verbose `getrawtransaction` per input, in order, and none for an empty list; on failure the last request is the one that failed |
| `Client.InputTotalBounds` | app/clients/client.py:29-43 | with non-negative spent values, the input total is non-negative and at least each input's contribution |
| `Client.SpentWithout` | app/clients/client.py:31-43 | leaving one input out leaves out exactly the output it spends, and the other inputs still resolve, to the same outputs in the same order |
| `Client.SpentPermutation` | app/clients/client.py:31-43 | resolving the inputs in another order succeeds just as often and spends the same multiset of outputs |
| `Client.InputTotalPermutation` | app/clients/client.py:31-46 | the input total does not depend on the order of the inputs |
| `Client.InputTotalAsWritten` | app/clients/client.py:28-46 | the source's input loop: a failed fetch keeps the previous `result` binding, and with no binding the loop fails with `UnboundLocalError`; a null result fails with `AttributeError`, a non-transaction result with `TypeError`, an index past the end with `IndexError`. Every failure is such an exception, so status 500 |
| `Client.AsWrittenAgreesWhenAllResolve` | app/clients/client.py:28-46 | when every input resolves, the source's loop returns the running total plus the sum of the spent outputs, the same as the all-or-nothing total |
| `Client.AsWrittenReusesPreviousTx` | app/clients/client.py:35-40 | as written, a failed fetch for the second input reuses the first input's transaction: the total comes out as 10, where the all-or-nothing total fails and names the second input |
| `Bitcoin.RoundHalfEven` | app/routers/bitcoin.py:44 | the result is within half a unit of n/d; a tie goes to the even neighbour; an exact quotient is returned unrounded |
| `Bitcoin.RoundHalfEvenUnique` | app/routers/bitcoin.py:44 | any integer within half a unit, with ties going to the even one, equals `RoundHalfEven`, so it is exactly Python's `round` |
| `Bitcoin.SatsPerVByte` | app/routers/bitcoin.py:38-44 | sat/vB is within half a unit of sat/kvB ÷ 1000, and exact for multiples of 1000 |
| `Bitcoin.FeeEstimate` | app/routers/bitcoin.py:22-45 | a target above 1008 fails (502); a call failure propagates; a null feerate is "not found" (404); success happens exactly when the node gives a feerate. Then the node's feerate and its own target are echoed, and sat/vB is within half a unit of feerate ÷ 1000 |
| `Bitcoin.FeeEstimateRejectsBeforeCalling` | app/routers/bitcoin.py:28-31 | a target above 1008 fails with 502 whatever the node would answer, so no request is needed; 1008 itself is not rejected |
| `Bitcoin.FeeEstimateAsksOnce` | app/routers/bitcoin.py:31 | the outcome depends only on the node's reply to the single request `estimatesmartfee [target]` |
| `Bitcoin.FeeEstimateDefaultTarget` | app/routers/bitcoin.py:23 | without a `blocks` argument the target is 1 |
| `Bitcoin.FeeEstimateConverts` | app/routers/bitcoin.py:32-44 | with a feerate, the sat/vB figure is exactly Python's rounding of feerate ÷ 1000; with a null feerate the status is 404 |
| `Bitcoin.FeeEstimateExample` | app/routers/bitcoin.py:39-44 | 0.00001 BTC/kvB converts to 1 sat/vB, and the node's target is echoed instead of the requested one |
| `Bitcoin.GetTxFees` | app/routers/bitcoin.py:48-74 | a failed fetch or input total fails the call with that failure; on success the txid is echoed, and the input and output totals are the ones the fee is computed from, fee = inputs − outputs |
| `Bitcoin.GetTxFeesAsWritten` | app/routers/bitcoin.py:54-67 | the source's endpoint: any failure of the transaction fetch ends in `UnboundLocalError`, and every failure is an unhandled exception with status 500 |
| `Bitcoin.GetTxFeesAsWrittenAgrees` | app/routers/bitcoin.py:54-73 | wherever `GetTxFees` succeeds, the source's endpoint returns the same response |
| `Bitcoin.AsWrittenHidesUpstreamError` | app/routers/bitcoin.py:54-59 | for a node that reports an error for the transaction, the source answers 500 (`UnboundLocalError`) and `GetTxFees` answers 502 with the node's error |
| `Bitcoin.GetTxFeesAllOrNothing` | app/routers/bitcoin.py:62 | one unresolvable input fails the whole call with status 500 |
| `Bitcoin.GetTxFeesWithoutInputs` | app/routers/bitcoin.py:65-67 | the fee is not checked for sign: with no inputs it is minus the output total |
| `Bitcoin.GetTxFeesExample` | app/routers/bitcoin.py:62-73 | inputs of 10.0001 BTC and outputs of 10 BTC give a fee of 10000 satoshis |

## Left out

- HTTP transport (`httpx.AsyncClient`, the POST, `resp.json()`): the node is the function `Upstream`. The upstream URL and its environment configuration (app/config/settings.py) are not part of this model.
- async/await and any concurrent fan-out of the input lookups. The source awaits them one after another, and the model resolves them in order.
- Floating-point BTC arithmetic. Amounts are integer satoshis, so `int((inputs − outputs) × 100 000 000)` is exact subtraction. In binary doubles, 10.0001 − 10.0 is 9.999999999976694e-05, so the source's `int(...)` truncates the fee in that example to 9999.
- Bitcoin.SatsPerVByte: models `round` on the exact quotient. The source rounds the float product `feerate × 100 000`, which can land just off a tie.
- Output indices are natural numbers. Python's negative indexing on a negative `vout` is not modelled.
- Coinbase inputs (no `txid`/`vout`) are not modelled: every input is an `Outpoint`.
- Missing fields of well-shaped results are not modelled: a `getrawtransaction` result without `vin`, or an estimate without `blocks`. A `null` and an absent `result` are treated alike.
- FastAPI routing, the pydantic response models and the `HTTPException` plumbing: only the status is kept (`StatusCode`). The `detail` text is kept as the fields of `Error`.
- Logging (`logger.exception`) and the "Hello World" route of app/main.py.

## Findings

| source | as written | input that shows it | evidently intended | confidence | as-written member | corrected member |
|---|---|---|---|---|---|---|
| app/clients/client.py:35-40 | an exception from `call_rpc` is logged and the loop goes on with the previously bound `result`: the prior transaction of an earlier input, or `UnboundLocalError` on the first input | inputs a:0 and b:0 where "a" has one output of 5 satoshis and the fetch of "b" fails: the total is 10, with a:0 counted twice | a failed lookup fails the whole input total and names the input | not executed; high (follows from Python's scoping of `result`) | `Client.AsWrittenReusesPreviousTx` | `Client.GetInputTotal` |
| app/routers/bitcoin.py:54-59 | an exception from fetching the transaction is logged and swallowed, and line 59 then reads the unbound `result`, raising `UnboundLocalError` | a node that answers the transaction's `getrawtransaction` with a populated `error` field: the caller gets 500 and the node's error is lost | the node's error reaches the caller as 502, as in `fee_estimate` | not executed; high (follows from Python's scoping of `result`) | `Bitcoin.AsWrittenHidesUpstreamError` | `Bitcoin.GetTxFees` |
