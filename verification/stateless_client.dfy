/**
 * The earlier, stateless block client (client/jsonrpcClient.go). It holds only
 * the node's URL and the request template; every call validates the
 * identifier, makes one HTTP exchange and decides on the response. The node
 * is modelled by `post`, the answer to a request body, and the JSON decoder by
 * `unmarshal`.
 */
module StatelessClient {
  import opened Wrappers
  import opened Numerals
  import opened BigLiteral
  import opened Response
  import opened Errors
  import opened Rpc
  import opened Lookup

  /** The validation step: "latest", or anything `big.Int.SetString(s, 0)` accepts. */
  predicate Forwardable(identifier: string)
  {
    identifier == "latest" || Accepts(identifier)
  }

  /** `GetBlockBy`: validate, then one exchange with the node, then the envelope decision. */
  function GetBlockBy(identifier: string, post: string -> Posted, unmarshal: Bytes -> Decoded): (r: Result<Block, Error>)
    ensures !Forwardable(identifier) ==> r == Failure(InvalidBlockIdentifier(identifier))
    ensures Forwardable(identifier) ==> r == FetchOutcome(post(RequestBody(identifier)), unmarshal)
  {
    if identifier != "latest" && !Accepts(identifier) then Failure(InvalidBlockIdentifier(identifier))
    else FetchOutcome(post(RequestBody(identifier)), unmarshal)
  }

  /**
   * A rejected identifier never reaches the node: the result is the same
   * whatever the node and the decoder would have answered.
   */
  lemma RejectedBeforeRequest(identifier: string, post1: string -> Posted, post2: string -> Posted,
                              unmarshal1: Bytes -> Decoded, unmarshal2: Bytes -> Decoded)
    requires identifier != "latest" && !Accepts(identifier)
    ensures GetBlockBy(identifier, post1, unmarshal1) == GetBlockBy(identifier, post2, unmarshal2)
    ensures GetBlockBy(identifier, post1, unmarshal1).Failure?
  {
  }

  /**
   * The only request a call makes carries the identifier itself, unchanged:
   * two nodes that answer that one body alike give the same result.
   */
  lemma OnlyTheOwnRequest(identifier: string, post1: string -> Posted, post2: string -> Posted, unmarshal: Bytes -> Decoded)
    requires post1(RequestBody(identifier)) == post2(RequestBody(identifier))
    ensures GetBlockBy(identifier, post1, unmarshal) == GetBlockBy(identifier, post2, unmarshal)
  {
  }

  /**
   * "latest" is not an integer literal, so validation would reject it: it is
   * forwarded only because it skips validation.
   */
  lemma LatestSkipsValidation(post: string -> Posted, unmarshal: Bytes -> Decoded)
    ensures !Accepts("latest")
    ensures GetBlockBy("latest", post, unmarshal) == FetchOutcome(post(RequestBody("latest")), unmarshal)
  {
    assert !IsDigitOf("latest"[0], 10);
  }

  /** `int64(x)` of a `uint64`: two's-complement reinterpretation. */
  function Int64Of(x: Uint64): (r: int)
    ensures x < 0x8000_0000_0000_0000 ==> r == x
    ensures x >= 0x8000_0000_0000_0000 ==> r < 0
  {
    if x < 0x8000_0000_0000_0000 then x else x - 0x1_0000_0000_0000_0000
  }

  /** The guard of `GetTransactionByIndex`, with both sides cast to `int64`. */
  predicate IndexOutOfRange(txs: seq<Transaction>, index: Uint64)
  {
    |txs| == 0 || |txs| <= Int64Of(index)
  }

  /**
   * The cast lets an index of 2^63 or more through the guard whenever the
   * block has transactions; below 2^63 the guard is the plain bounds check.
   */
  lemma GuardAfterCast(txs: seq<Transaction>, index: Uint64)
    ensures index >= 0x8000_0000_0000_0000 ==> (IndexOutOfRange(txs, index) <==> |txs| == 0)
    ensures index < 0x8000_0000_0000_0000 ==> (IndexOutOfRange(txs, index) <==> |txs| <= index)
  {
  }

  /**
   * `GetTransactionByHash`: the first transaction, in stored order, with the
   * requested hash; otherwise the not-found error naming the block and the hash.
   */
  method GetTransactionByHash(block: Block, hash: string) returns (r: Result<Transaction, Error>)
    ensures var txs := block.transactions; var k := FirstMatch(txs, HashField, hash);
      r == if k < |txs| then Success(txs[k]) else Failure(NotFoundHashTransaction(block.header.hash, hash))
  {
    var txs := block.transactions;
    var i := 0;
    while i < |txs|
      invariant i <= |txs|
      invariant forall j :: 0 <= j < i ==> KeyOf(txs[j], HashField) != hash
    {
      if txs[i].hash == hash {
        FirstMatchAt(txs, HashField, hash, i);
        return Success(txs[i]);
      }
      i := i + 1;
    }
    FirstMatchAt(txs, HashField, hash, i);
    return Failure(NotFoundHashTransaction(block.header.hash, hash));
  }

  /**
   * `GetTransactionByIndex`: past the guard, the first transaction whose index
   * field is "0x" and the `%x` digits of `index`; on a miss, the error's ID is
   * "0x" followed by the DECIMAL digits of `index`.
   */
  method GetTransactionByIndex(block: Block, index: Uint64) returns (r: Result<Transaction, Error>)
    ensures var txs := block.transactions; var k := FirstMatch(txs, IndexField, "0x" + HexLower(index));
      var notFound := Failure(NotFoundIDTransaction(block.header.hash, "0x" + Decimal(index)));
      r == if IndexOutOfRange(txs, index) || k == |txs| then notFound else Success(txs[k])
  {
    var txs := block.transactions;
    var indexHex := "0x" + HexLower(index);
    if |txs| == 0 || |txs| <= Int64Of(index) {
      return Failure(NotFoundIDTransaction(block.header.hash, "0x" + Decimal(index)));
    }
    var i := 0;
    while i < |txs|
      invariant i <= |txs|
      invariant forall j :: 0 <= j < i ==> KeyOf(txs[j], IndexField) != indexHex
    {
      if txs[i].transactionIndex == indexHex {
        FirstMatchAt(txs, IndexField, indexHex, i);
        return Success(txs[i]);
      }
      i := i + 1;
    }
    FirstMatchAt(txs, IndexField, indexHex, i);
    return Failure(NotFoundIDTransaction(block.header.hash, "0x" + Decimal(index)));
  }
}
