/**
 * The caching block client (client/jsonrpc_client.go). Its state is the
 * last block number it has seen and a cache of blocks keyed by identifier
 * string, with no expiry. The node behind the URL is an object of class
 * `Node`; the post-fetch updates that the source runs as goroutines are
 * applied in sequence, right after the fetch.
 */
module CachingClient {
  import opened Wrappers
  import opened Numerals
  import opened BigLiteral
  import opened Response
  import opened Errors
  import opened Rpc
  import opened Lookup

  /** Blocks at least this far behind the tracked head are meant to be cached. */
  const FreshnessThreshold := 20

  /** The rule the cache gate is meant to apply: `last - n > 20`, strictly. */
  predicate Eligible(last: int, n: int)
  {
    last - n > FreshnessThreshold
  }

  /**
   * The upstream node: it answers the k-th request posted to it as `reply`
   * says, and records every request body it receives.
   */
  class Node {
    const reply: (nat, string) -> Posted
    var sent: seq<string>

    constructor (reply: (nat, string) -> Posted)
      ensures this.reply == reply && sent == []
    {
      this.reply := reply;
      sent := [];
    }

    /** One HTTP POST of a request body and the read of the answer. */
    method Post(body: string) returns (p: Posted)
      modifies this
      ensures sent == old(sent) + [body]
      ensures p == reply(|old(sent)|, body)
    {
      p := reply(|sent|, body);
      sent := sent + [body];
    }
  }

  class JRClient {
    const node: Node
    const unmarshal: Bytes -> Decoded
    var cache: map<string, Block>
    var lastBlockNumber: int

    /** The client as built before its bootstrap fetch; `new(big.Int)` is 0. */
    constructor (node: Node, unmarshal: Bytes -> Decoded, cache: map<string, Block>)
      ensures this.node == node && this.unmarshal == unmarshal
      ensures this.cache == cache && lastBlockNumber == 0
    {
      this.node := node;
      this.unmarshal := unmarshal;
      this.cache := cache;
      lastBlockNumber := 0;
    }

    /** The outcome the next upstream fetch of `identifier` will have. */
    ghost function NextOutcome(identifier: string): Result<Block, Error>
      reads this, node
    {
      FetchOutcome(node.reply(|node.sent|, RequestBody(identifier)), unmarshal)
    }

    /** Whether the intended gate sends `identifier` to the cache. */
    ghost predicate CacheEligible(identifier: string)
      reads this
    {
      identifier != "latest" && Accepts(identifier) && Eligible(lastBlockNumber, SetString(identifier).value)
    }

    /**
     * `NewJRClient`: build the client and fetch "latest" once to seed the
     * tracker. A failed fetch is returned as it is; a block number that does
     * not parse is an error of its own.
     */
    static method NewJRClient(node: Node, unmarshal: Bytes -> Decoded, cache: map<string, Block>)
      returns (r: Result<JRClient, Error>)
      modifies node
      ensures node.sent == old(node.sent) + [RequestBody("latest")]
      ensures var f := FetchOutcome(node.reply(|old(node.sent)|, RequestBody("latest")), unmarshal);
        && (f.Failure? ==> r == Failure(f.error))
        && (f.Success? && !Accepts(f.value.header.number) ==> r == Failure(BootstrapNumber))
        && (f.Success? && Accepts(f.value.header.number) ==>
              && r.Success? && fresh(r.value)
              && r.value.node == node && r.value.unmarshal == unmarshal && r.value.cache == cache
              && r.value.lastBlockNumber == SetString(f.value.header.number).value)
    {
      var c := new JRClient(node, unmarshal, cache);
      var b := c.GetBlockBy("latest");
      if b.Failure? {
        return Failure(b.error);
      }
      var n := SetString(b.value.header.number);
      if n.None? {
        return Failure(BootstrapNumber);
      }
      c.lastBlockNumber := n.value;
      return Success(c);
    }

    /**
     * `GetBlockBy` as written. `numID.Set(c.lastBlockNumber)` (client/jsonrpc_client.go:62)
     * sets the freshly parsed number to the tracked one and returns that same
     * number, so the age computed at client/jsonrpc_client.go:65
     * is always 0 and the cache branch is never taken: every identifier,
     * parseable or not, is fetched upstream once and then moves the tracker.
     */
    method GetBlockBy(identifier: string) returns (r: Result<Block, Error>)
      modifies this, node
      ensures node.sent == old(node.sent) + [RequestBody(identifier)]
      ensures r == old(NextOutcome(identifier))
      ensures cache == old(cache)
      ensures r.Failure? ==> lastBlockNumber == old(lastBlockNumber)
      ensures r.Success? && Accepts(r.value.header.number) ==>
        lastBlockNumber == SetString(r.value.header.number).value
    {
      if identifier != "latest" {
        var parsed := SetString(identifier);
        if parsed.Some? {
          var numID := parsed.value;
          // `numID.Set(c.lastBlockNumber)` overwrites the parsed number, and
          // the `ln` it returns is `numID` itself.
          numID := lastBlockNumber;
          var ln := numID;
          if Eligible(ln, numID) {
            assert false;
          }
        }
      }
      r := ReceiveBlockStruct(identifier);
      if r.Failure? {
        return;
      }
      UpdateLastNumber(r.value.header.number);
    }

    /**
     * `GetBlockBy` with the gate it is meant to have: a numeric identifier more
     * than 20 behind the tracked head is served from the cache when present,
     * and otherwise fetched and stored under the identical string; that path
     * leaves the tracker alone. Every other identifier takes the direct path.
     */
    method GetBlockByIntended(identifier: string) returns (r: Result<Block, Error>)
      modifies this, node
      ensures !old(CacheEligible(identifier)) ==>
        && node.sent == old(node.sent) + [RequestBody(identifier)]
        && r == old(NextOutcome(identifier))
        && cache == old(cache)
        && (r.Failure? ==> lastBlockNumber == old(lastBlockNumber))
        && (r.Success? && Accepts(r.value.header.number) ==>
              lastBlockNumber == SetString(r.value.header.number).value)
      ensures old(CacheEligible(identifier)) && identifier in old(cache) ==>
        && r == Success(old(cache)[identifier])
        && node.sent == old(node.sent)
        && cache == old(cache)
        && lastBlockNumber == old(lastBlockNumber)
      ensures old(CacheEligible(identifier)) && identifier !in old(cache) ==>
        && node.sent == old(node.sent) + [RequestBody(identifier)]
        && r == old(NextOutcome(identifier))
        && cache == (if r.Success? then old(cache)[identifier := r.value] else old(cache))
        && lastBlockNumber == old(lastBlockNumber)
    {
      if identifier != "latest" {
        var parsed := SetString(identifier);
        if parsed.Some? && Eligible(lastBlockNumber, parsed.value) {
          if identifier in cache {
            return Success(cache[identifier]);
          }
          r := ReceiveBlockStruct(identifier);
          if r.Failure? {
            return;
          }
          cache := cache[identifier := r.value];
          return;
        }
      }
      r := ReceiveBlockStruct(identifier);
      if r.Failure? {
        return;
      }
      UpdateLastNumber(r.value.header.number);
    }

    /**
     * `updateLastNumber`: overwrite the tracker with the parsed number, even
     * when it is smaller; a number that does not parse leaves the tracker
     * undefined, as `big.Int` does.
     */
    method UpdateLastNumber(number: string)
      modifies this`lastBlockNumber
      ensures Accepts(number) ==> lastBlockNumber == SetString(number).value
    {
      var parsed := SetString(number);
      if parsed.Some? {
        lastBlockNumber := parsed.value;
      } else {
        lastBlockNumber := *;
      }
    }

    /** `receiveBlockStruct`: one request to the node, then the decoding and the envelope decision. */
    method ReceiveBlockStruct(identifier: string) returns (r: Result<Block, Error>)
      modifies node
      ensures node.sent == old(node.sent) + [RequestBody(identifier)]
      ensures r == old(NextOutcome(identifier))
    {
      var posted := node.Post(RequestBody(identifier));
      if posted.PostFailed? {
        return Failure(Transport(posted.reason));
      }
      var decoded := unmarshal(posted.bytes);
      if decoded.DecodeFailed? {
        return Failure(Decode(decoded.reason));
      }
      var resp := decoded.resp;
      if resp.error.Some? {
        return Failure(ResponseContent(resp.error.value.message));
      }
      if resp.result.None? {
        return Failure(ResponseContent(UnknownReason));
      }
      return Success(resp.result.value);
    }

    /**
     * `GetTransactionByHash`: the first transaction, in stored order, with the
     * requested hash; otherwise the not-found error naming the block and the hash.
     */
    method GetTransactionByHash(block: Block, hash: string) returns (r: Result<Transaction, Error>)
      ensures var txs := block.transactions; var k := FirstMatch(txs, HashField, hash);
        r == if k < |txs| then Success(txs[k]) else Failure(NotFoundHashTransaction(block.header.hash, hash))
    {
      var txs := block.transactions;
      var i := 0;
      while i < |txs|
        invariant i <= |txs|
        invariant forall j :: 0 <= j < i ==> KeyOf(txs[j], HashField) != hash
      {
        if txs[i].hash == hash {
          FirstMatchAt(txs, HashField, hash, i);
          return Success(txs[i]);
        }
        i := i + 1;
      }
      FirstMatchAt(txs, HashField, hash, i);
      return Failure(NotFoundHashTransaction(block.header.hash, hash));
    }

    /**
     * `GetTransactionByIndex`: an index at or past the end (so any index of an
     * empty block) is not found; otherwise the first transaction whose index
     * field is "0x" and the `%x` digits of `index`. The error's ID is "0x"
     * followed by the DECIMAL digits of `index`.
     */
    method GetTransactionByIndex(block: Block, index: Uint64) returns (r: Result<Transaction, Error>)
      ensures var txs := block.transactions; var k := FirstMatch(txs, IndexField, "0x" + HexLower(index));
        var notFound := Failure(NotFoundIDTransaction(block.header.hash, "0x" + Decimal(index)));
        r == if index >= |txs| || k == |txs| then notFound else Success(txs[k])
    {
      var txs := block.transactions;
      var indexHex := "0x" + HexLower(index);
      if |txs| == 0 || |txs| <= index {
        return Failure(NotFoundIDTransaction(block.header.hash, "0x" + Decimal(index)));
      }
      var i := 0;
      while i < |txs|
        invariant i <= |txs|
        invariant forall j :: 0 <= j < i ==> KeyOf(txs[j], IndexField) != indexHex
      {
        if txs[i].transactionIndex == indexHex {
          FirstMatchAt(txs, IndexField, indexHex, i);
          return Success(txs[i]);
        }
        i := i + 1;
      }
      FirstMatchAt(txs, IndexField, indexHex, i);
      return Failure(NotFoundIDTransaction(block.header.hash, "0x" + Decimal(index)));
    }
  }
}
