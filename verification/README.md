# Ethereum block caching service: a Dafny model of its block client

The service is an HTTP proxy in front of an Ethereum JSON-RPC node. `GET
/block/{id}` returns a block with its transactions reduced to their hashes, and
`GET /block/{idB}/txs/{idT}` returns one transaction of a block. Behind the
handlers sits a block client. It builds the `eth_getBlockByNumber` request,
decides on the node's response envelope and searches a block's transactions.
The caching version also tracks the last block number it has seen and keeps a
cache of blocks.

This project models:

- both versions of the client: the stateless `jrClient` of
  `client/jsonrpcClient.go` (module `StatelessClient`) and the caching
  `JRClient` of `client/jsonrpc_client.go` (module `CachingClient`, a class
  whose fields `cache` and `lastBlockNumber` its methods update);
- the identifier handling of `server/handlers.go` (module `Handlers`);
- the shapes and the showcase projection of `model/response.go` (module `Response`);
- the error messages of `model/error.go` (module `Errors`).

Shared pieces are defined once:

- `Rpc`: the request body template, the envelope decision and the fetch outcome, which both clients share;
- `Lookup`: the specification of the two transaction searches;
- `Numerals`: Go's `%d` and `%x`;
- `BigLiteral`: the literal syntax of Go's `big.Int.SetString(s, 0)`.

The node is an object of class `CachingClient.Node`. It answers the k-th
request body posted to it as its `reply` function says, and it records every
body it receives in `sent`. So "no upstream call" is stated as "`sent` did not
change". JSON decoding is the `unmarshal` function value held by the client.
In the stateless module, the node and the decoder are function parameters.

The goroutines at `client/jsonrpc_client.go:80-83` and `:95` are applied in
sequence, right after the fetch. `Scenarios` states, over a stub node, the outcome of the handler tests'
cached-block case: once for the code as written and once for the intended gate.

Behaviour of the code that the model keeps as it is:

- `validateParam` (server/handlers.go:34-41) accepts decimal `uint64` only. A
  hex identifier such as "0xff" is a bad request at the HTTP routes, although
  both clients document an identifier as "a hex number in string format"
  (client/jsonrpc_client.go:54, client/jsonrpcClient.go:29).
- The caching client forwards to the node an identifier that does not parse
  (client/jsonrpc_client.go:56-59 fall through to :90). The stateless client
  rejects it before any request (client/jsonrpcClient.go:33-34).
- A failed bootstrap fetch in `NewJRClient` returns the fetch's own error
  (client/jsonrpc_client.go:39-42). Only a bootstrap block number that does
  not parse gets an error of its own, with the fixed text "impossible to get
  latest block number" (:43-45).
- Every fetch that does not take the cache branch overwrites the tracker with
  the fetched block's number (client/jsonrpc_client.go:95, :104). Fetching an
  old block lowers it.
- `client/jsonrpcClient.go:34` returns `InvalidBlockIdentifierError`, which
  `model/error.go` does not declare. The model keeps the error and gives it no
  message.
- An older block is served from the cache only in the handler tests'
  expectation (server/handler_block_test.go:163-171); the code as written
  never reaches its cache branch (see "## Findings").

## Model

| member | source | states |
|---|---|---|
| Numerals.HexLowerRoundTrip | server/handlers.go:36 | `%x` prints lowercase hex digits with no leading zero; read back in base 16 they give the number printed |
| Numerals.DecimalRoundTrip | client/jsonrpc_client.go:214 | `%d` prints decimal digits with no leading zero; read back in base 10 they give the number printed |
| Numerals.HexLowerInjective | server/handlers.go:36 | distinct numbers are rewritten to distinct hex strings |
| BigLiteral.SetString | client/jsonrpcClient.go:33 | `SetString(s, 0)` rejects the empty string; a negative value needs a leading '-' |
| BigLiteral.ScanMatchesGrammar | client/jsonrpcClient.go:33 | Go's character-by-character scan of a base-0 literal (prefix choice, `_` separators flagged unless they follow a digit, a trailing `_`, the lone "0" prefix, unread input) accepts exactly the literals the grammar accepts, with the same value, for every text |
| BigLiteral.ScanReadsAll | client/jsonrpcClient.go:33 | the digit loop reads the whole text exactly when it holds only digits of the base and separators |
| BigLiteral.ScanReadsValue | client/jsonrpcClient.go:33 | on digits and separators the loop counts the digits and reads them as one number, the separators ignored |
| BigLiteral.ScanFlagsSeparators | client/jsonrpcClient.go:33 | on digits and separators the loop ends with a separator error exactly when a separator does not follow a digit or ends the text |
| BigLiteral.ZeroSeparatorRejected | client/jsonrpcClient.go:33-35 | "0_" is not an integer literal, so the stateless client rejects it without a request |
| BigLiteral.TrailingSeparatorRejected | client/jsonrpc_client.go:43-45 | no text ending in '_' is accepted, signed or not, with or without a prefix |
| BigLiteral.SetStringCanonicalHex | client/jsonrpc_client.go:58 | "0x" followed by `%x` digits is accepted and read as the number printed |
| BigLiteral.SetStringDecimal | client/jsonrpc_client.go:58 | a `%d` string is accepted and read as the number printed |
| BigLiteral.BareHexRejected | client/jsonrpcClient.go:33-35 | "ff" is not an integer literal |
| BigLiteral.NegativeAccepted | client/jsonrpcClient.go:33 | "-1" is accepted as -1: the client's own validation lets a negative block number through |
| BigLiteral.HexAndDecimalAgree | client/jsonrpcClient.go:33 | "0xff" and "255" are both accepted and denote 255 |
| Response.Hashes | model/response.go:33-38 | the list of hashes has the transactions' length and holds, at each position, that transaction's hash: order is kept, nothing is sorted |
| Response.HashesIgnoresBlockHash | model/response.go:33 | the block-hash argument does not affect the result |
| Response.ToShowcase | model/response.go:27-31 | the header is copied unchanged and the transactions are replaced by their hashes, position by position |
| Response.ShowcaseOnlySeesHashes | model/response.go:29-30 | two blocks with the same header and the same hash sequence have the same showcase |
| Errors.Message | model/error.go:11-42 | each of the four `Error()` methods gives its fixed template with the fields in order: ID then block hash, hash then block hash, the identifier between quotes, the node message after the fixed prefix |
| Errors.InvalidIdentifierMessageInjective | model/error.go:31-33 | the `InvalidIdentifierError` message determines the identifier |
| Errors.ResponseContentMessageInjective | model/error.go:40-42 | the `ResponseContentError` message determines the node's message |
| Errors.NotFoundIDMessageInjective | model/error.go:11-13 | for a given block hash, the `NotFoundIDTransactionError` message determines the ID |
| Errors.NotFoundHashMessageInjective | model/error.go:22-24 | for a given block hash, the `NotFoundHashTransactionError` message determines the hash |
| Errors.NegativeIdentifierMessage | server/handler_block_test.go:97-100 | the message for "-1" is exactly the body the test expects |
| Rpc.RequestBodyRoundTrip | client/jsonrpcClient.go:25 | the request body holds the identifier exactly once, as `params[0]`, and the identifier can be read back out of it |
| Rpc.Decide | client/jsonrpc_client.go:117-127 | an error member wins, even beside a result; otherwise a null result is the "unknown reason" error; a block is returned exactly when there is no error and a result |
| Rpc.FetchOutcome | client/jsonrpcClient.go:38-53 | transport and decoding errors are returned unchanged before the envelope is looked at; every failure has a message |
| Lookup.FirstMatch | client/jsonrpc_client.go:179-188 | the position found holds the key and no earlier position does; the end of the list means no match |
| Lookup.FirstMatchFound | client/jsonrpcClient.go:80-86 | the search finds something exactly when some transaction carries the key |
| StatelessClient.GetBlockBy | client/jsonrpcClient.go:30-54 | an identifier other than "latest" that `SetString` rejects gives `InvalidBlockIdentifierError`; any other identifier is sent to the node once, and the result is that fetch's outcome |
| StatelessClient.RejectedBeforeRequest | client/jsonrpcClient.go:32-36 | a rejected identifier gives the same failure whatever the node or decoder would answer: no request is made |
| StatelessClient.OnlyTheOwnRequest | client/jsonrpcClient.go:38 | the result depends on the node's answer to this identifier's request body only |
| StatelessClient.LatestSkipsValidation | client/jsonrpcClient.go:32 | "latest" is not an integer literal, yet it is forwarded unchanged |
| StatelessClient.Int64Of | client/jsonrpcClient.go:95 | `int64(index)` keeps an index below 2^63 and makes any larger index negative |
| StatelessClient.GuardAfterCast | client/jsonrpcClient.go:93-95 | below 2^63 the guard is `len <= index`; from 2^63 on it only rejects an empty block |
| StatelessClient.GetTransactionByHash | client/jsonrpcClient.go:78-87 | the first transaction in stored order with the hash, otherwise `NotFoundHashTransactionError{block.Hash, hash}` |
| StatelessClient.GetTransactionByIndex | client/jsonrpcClient.go:90-105 | past the cast guard, the first transaction whose index field is "0x" plus `%x` of the index; otherwise not-found with ID "0x" plus `%d` of the index |
| CachingClient.Node.Post | client/jsonrpc_client.go:130-157 | one POST: the body is recorded and the node's answer for it returned |
| CachingClient.JRClient.constructor | client/jsonrpc_client.go:32-38 | a new client holds the node, the decoder and the given cache; its tracker is 0 |
| CachingClient.JRClient.NewJRClient | client/jsonrpc_client.go:31-51 | exactly one "latest" fetch; its error is returned as it is, an unparseable number fails, otherwise a fresh client whose tracker is the bootstrap block's number |
| CachingClient.JRClient.GetBlockBy | client/jsonrpc_client.go:55-98 | as written: every identifier is fetched upstream exactly once, the cache is never changed, a failure leaves the tracker alone, and a success overwrites it with the fetched number, even when that number is lower |
| CachingClient.JRClient.GetBlockByIntended | client/jsonrpc_client.go:65-86 | intended gate `last - n > 20`: a hit returns the cached block with no upstream call; a miss fetches once and stores the block under the identical string; neither touches the tracker; other identifiers behave as in GetBlockBy |
| CachingClient.JRClient.UpdateLastNumber | client/jsonrpc_client.go:100-105 | the tracker becomes the parsed number, unconditionally (not a maximum) |
| CachingClient.JRClient.ReceiveBlockStruct | client/jsonrpc_client.go:107-128 | one request to the node for this identifier, and the fetch outcome of its answer |
| CachingClient.JRClient.GetTransactionByHash | client/jsonrpc_client.go:173-195 | the first transaction in stored order with the hash, otherwise `NotFoundHashTransactionError{block.Hash, hash}` |
| CachingClient.JRClient.GetTransactionByIndex | client/jsonrpc_client.go:198-227 | an index at or past the end (any index of an empty block) is not found; otherwise the first transaction whose index field is "0x" plus `%x` of the index; a miss gives ID "0x" plus `%d` of the index |
| Handlers.ParseUint10 | server/handlers.go:35 | accepted exactly when the text is non-empty ASCII decimal digits of value at most 2^64-1, with that value |
| Handlers.ValidateParam | server/handlers.go:34-41 | accepted exactly as ParseUint10 accepts; the result is "0x" plus `%x` of the value; a rejection carries the original text |
| Handlers.ValidatedIsCanonical | server/handlers.go:35-36 | the rewritten identifier, read as hex, gives back the decimal value, has no leading zero, and the client's `SetString` reads it as the same number |
| Handlers.ValidateParamOfDecimal | server/handlers.go:35-36 | every `uint64` in decimal is accepted and rewritten to its `%x` form |
| Handlers.ValidateParamExamples | server/handlers.go:37-38 | "-1", "ff", "0xff" and "" are rejected with their own text; "0", "1", "255" become "0x0", "0x1", "0xff" |
| Handlers.NormalizeBlockId | server/handlers.go:15-20 | "latest" passes unchanged; anything else is validated, and what passes is read by the client as the requested number |
| Handlers.ClassifyTx | server/handlers.go:55-66 | a string starting with "0x", "0x" itself included, is a hash; anything else must be a decimal `uint64` index or is rejected with its own text |
| Handlers.PlanTransactionRequest | server/handlers.go:48-66 | the block identifier is checked first, then the transaction identifier; the plan exists exactly when both pass |
| Handlers.PlanExamples | server/handler_tx_test.go:13-16 | the bad-request cases of the transaction tests report the offending identifier |
| Handlers.Found | server/handlers.go:73-78 | what the lookup yields is a transaction of the block; by hash, something is found exactly when some transaction has the hash |
| Handlers.RequestBlock | server/handlers.go:13-32 | an invalid identifier is a bad request and the client and node are untouched; otherwise exactly one fetch, and the showcase block or a server error with the error's message |
| Handlers.RequestBlockAndFindTransaction | server/handlers.go:44-86 | all validation precedes the single fetch; a fetch error is a server error; a missing transaction is a success with `null` |
| Scenarios.BlockOneTwiceAsWritten | server/handler_block_test.go:145-171 | as written, two requests for /block/1 both reach the node, nothing is cached under "0x1", and the tracker falls from 100 to 1 |
| Scenarios.BlockOneTwiceIntended | server/handler_block_test.go:163-171 | with the intended gate, block 1 is cached under "0x1" and the second request makes no upstream call |
| Scenarios.IndexGuardsDiverge | client/jsonrpcClient.go:93-95 | at index 2^63 the stateless client finds a transaction whose index field matches, and the caching client rejects the index |

## Findings

| source | as written | input that shows it | evidently intended | confidence | as-written member | corrected member |
|---|---|---|---|---|---|---|
| client/jsonrpc_client.go:62-66 | `numID.Set(c.lastBlockNumber)` overwrites the parsed number and returns that same object as `ln`, so the age at :65 is always 0 and the cache branch never runs | `GET /block/1` twice while the node's head is 100: both requests reach the node and nothing is cached under "0x1" (server/handler_block_test.go:163-171 expects it cached) | a numeric identifier more than 20 behind the tracked head is served from the cache, or fetched and stored there | high (not executed) | Scenarios.BlockOneTwiceAsWritten | CachingClient.JRClient.GetBlockByIntended |

`CachingClient.JRClient.GetBlockBy` holds the dead branch as `assert false`. The
handlers are modelled over this as-written method, because it is what the
repository does. `Scenarios.BlockOneTwiceIntended` proves that the corrected method
gives the outcome the cached-block test expects.

## Left out

- The HTTP exchange (`getBlockBytes`, the URL, the `application/json` content
  type) and `json.Unmarshal`/`json.Marshal` are not modelled. They are network
  I/O and a library. The node is the `Node` oracle, and the decoder is a
  function value.
- The `json.Marshal` failure branches of the handlers (server/handlers.go:27-30,
  :81-84) are not modelled, because the JSON library is not modelled.
- Goroutines and the `sync.RWMutex` are sequentialised. Interleavings of
  concurrent requests are not modelled.
- The ccache collaborator is a plain map with no capacity, no eviction and no
  TTL.
- Logging (`log.Printf`, logger/logger.go), routing (server/router.go) and
  main.go are left out. They are output and wiring.
- Nil pointers are not modelled: a nil block, a nil transaction in the list,
  and the difference between a nil and an empty slice (JSON `null` versus `[]`).
- Go's math/big (natconv.go, intconv.go) is not part of this model. The
  literal syntax and `BigLiteral.ScanMagnitude` follow its base-0 scan as
  documented for `SetString`; bases other than 0 and fractions (`fracOk`)
  are never used by the clients and are left out.
- `model.Transaction` is not part of this model. A transaction keeps `hash`,
  `transactionIndex` and its other fields as opaque name/value pairs.
- CachingClient.JRClient.UpdateLastNumber: says nothing about the tracker when
  the number does not parse, because `big.Int` leaves its value undefined after
  a failed `SetString` (the model assigns an arbitrary value).
- Errors.Message: gives no message for `InvalidBlockIdentifierError`, because
  model/error.go does not declare that type.
