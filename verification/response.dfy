/**
 * The decoded JSON shapes of model/response.go: the JSON-RPC response
 * envelope, a block with its transactions, and the "showcase" block the HTTP
 * API returns, whose transactions are reduced to their hashes.
 */
module Response {
  import opened Wrappers

  /**
   * A transaction of a block. Only `hash` and `transactionIndex` matter to the
   * service; the other JSON fields are carried as opaque name/value pairs.
   */
  datatype Transaction = Transaction(hash: string, transactionIndex: string, otherFields: map<string, string>)

  /** `NoTransactionBlock`: the header fields, all opaque strings, and the uncle hashes in order. */
  datatype Header = Header(
    difficulty: string, extraData: string, gasLimit: string, gasUsed: string,
    hash: string, logsBloom: string, miner: string, mixHash: string, nonce: string,
    number: string, parentHash: string, receiptsRoot: string, sha3Uncles: string,
    size: string, stateRoot: string, timestamp: string, totalDifficulty: string,
    transactionsRoot: string, uncles: seq<string>)

  /** `Block`: the header and the full transaction objects, in the node's order. */
  datatype Block = Block(header: Header, transactions: seq<Transaction>)

  /** `ShowcaseBlock`: the header and the transactions' hashes. */
  datatype ShowcaseBlock = ShowcaseBlock(header: Header, transactions: seq<string>)

  /** `EthError`: the error member of a JSON-RPC response. */
  datatype EthError = EthError(code: int, message: string)

  /** `RespJSON`: a decoded response; an absent or null member is None. */
  datatype RespJSON = RespJSON(jsonrpc: string, result: Option<Block>, id: int, error: Option<EthError>)

  /**
   * `hashes`: the hash of every transaction, position by position. The block
   * hash argument is accepted and never used.
   */
  function Hashes(txs: seq<Transaction>, blockHash: string): (r: seq<string>)
    ensures |r| == |txs|
    ensures forall i :: 0 <= i < |txs| ==> r[i] == txs[i].hash
  {
    seq(|txs|, i requires 0 <= i < |txs| => txs[i].hash)
  }

  /** The result of `hashes` does not depend on the block hash passed to it. */
  lemma HashesIgnoresBlockHash(txs: seq<Transaction>, h1: string, h2: string)
    ensures Hashes(txs, h1) == Hashes(txs, h2)
  {
  }

  /**
   * `ToShowcase`: the same header, and the transaction list replaced by the
   * list of hashes in the block's own order; nothing is sorted.
   */
  function ToShowcase(b: Block): (s: ShowcaseBlock)
    ensures s.header == b.header
    ensures |s.transactions| == |b.transactions|
    ensures forall i :: 0 <= i < |b.transactions| ==> s.transactions[i] == b.transactions[i].hash
  {
    ShowcaseBlock(b.header, Hashes(b.transactions, b.header.hash))
  }

  /**
   * Two blocks with the same header and the same transaction hashes in the
   * same order have the same showcase, whatever their other transaction fields.
   */
  lemma ShowcaseOnlySeesHashes(b1: Block, b2: Block)
    requires b1.header == b2.header && |b1.transactions| == |b2.transactions|
    requires forall i :: 0 <= i < |b1.transactions| ==> b1.transactions[i].hash == b2.transactions[i].hash
    ensures ToShowcase(b1) == ToShowcase(b2)
  {
    assert ToShowcase(b1).transactions == ToShowcase(b2).transactions;
  }
}
