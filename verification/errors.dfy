/**
 * The error values the service produces, and the messages that the four
 * error types of model/error.go format. The HTTP handlers send a message
 * as the plain-text body of a failed response.
 */
module Errors {

  datatype Error =
      /** `NotFoundIDTransactionError`: no transaction at the requested index. */
    | NotFoundIDTransaction(blockHash: string, id: string)
      /** `NotFoundHashTransactionError`: no transaction with the requested hash. */
    | NotFoundHashTransaction(blockHash: string, hash: string)
      /** `InvalidIdentifierError`: a path parameter the handlers reject. */
    | InvalidIdentifier(identifier: string)
      /** `ResponseContentError`: the node reported an error, or returned no block. */
    | ResponseContent(message: string)
      /**
       * `InvalidBlockIdentifierError`, which client/jsonrpcClient.go returns but
       * model/error.go does not declare; it has no known message.
       */
    | InvalidBlockIdentifier(identifier: string)
      /** An error of the HTTP exchange (`http.Post`, reading the body), with its text. */
    | Transport(reason: string)
      /** An error of `json.Unmarshal`, with its text. */
    | Decode(reason: string)
      /** The bootstrap block's number did not parse. */
    | BootstrapNumber

  const NotFoundIDPrefix := "the transaction with ID="
  const NotFoundHashPrefix := "the transaction with Hash="
  const NotFoundMiddle := " not found in a requested block (blockHash="
  const NotFoundSuffix := ")"
  const InvalidIdentifierPrefix := "an identifier: '"
  const InvalidIdentifierSuffix := "' is invalid"
  const ResponseContentPrefix := "Ethereum node has returned an error with message: "
  const BootstrapNumberText := "impossible to get latest block number"

  /** Whether an error has a message the model knows. */
  predicate HasMessage(e: Error) { !e.InvalidBlockIdentifier? }

  /** `Error()`: the message text of an error. */
  function Message(e: Error): (m: string)
    requires HasMessage(e)
    ensures e.InvalidIdentifier? ==>
      m == InvalidIdentifierPrefix + e.identifier + InvalidIdentifierSuffix
    ensures e.ResponseContent? ==> m == ResponseContentPrefix + e.message
    ensures e.NotFoundIDTransaction? ==>
      m == NotFoundIDPrefix + e.id + NotFoundMiddle + e.blockHash + NotFoundSuffix
    ensures e.NotFoundHashTransaction? ==>
      m == NotFoundHashPrefix + e.hash + NotFoundMiddle + e.blockHash + NotFoundSuffix
    ensures (e.Transport? || e.Decode?) ==> m == e.reason
  {
    match e
    case NotFoundIDTransaction(blockHash, id) =>
      NotFoundIDPrefix + id + NotFoundMiddle + blockHash + NotFoundSuffix
    case NotFoundHashTransaction(blockHash, hash) =>
      NotFoundHashPrefix + hash + NotFoundMiddle + blockHash + NotFoundSuffix
    case InvalidIdentifier(identifier) =>
      InvalidIdentifierPrefix + identifier + InvalidIdentifierSuffix
    case ResponseContent(message) =>
      ResponseContentPrefix + message
    case Transport(reason) => reason
    case Decode(reason) => reason
    case BootstrapNumber => BootstrapNumberText
  }

  /** A fixed prefix and suffix around a part determine the part. */
  lemma {:induction false} FramedInjective(p: string, a: string, b: string, s: string)
    requires p + a + s == p + b + s
    ensures a == b
  {
    var m := p + a + s;
    assert |a| == |b|;
    assert a == m[|p|..|p| + |a|];
    assert b == (p + b + s)[|p|..|p| + |b|];
  }

  /**
   * The `InvalidIdentifierError` message determines the identifier: two
   * different identifiers never read the same to a client.
   */
  lemma InvalidIdentifierMessageInjective(a: string, b: string)
    requires Message(InvalidIdentifier(a)) == Message(InvalidIdentifier(b))
    ensures a == b
  {
    FramedInjective(InvalidIdentifierPrefix, a, b, InvalidIdentifierSuffix);
  }

  /** The `ResponseContentError` message determines the node's message. */
  lemma ResponseContentMessageInjective(a: string, b: string)
    requires Message(ResponseContent(a)) == Message(ResponseContent(b))
    ensures a == b
  {
    FramedInjective(ResponseContentPrefix, a, b, "");
  }

  /**
   * For a given block, the `NotFoundIDTransactionError` message determines the
   * ID: the ID comes first, the block hash second.
   */
  lemma NotFoundIDMessageInjective(blockHash: string, a: string, b: string)
    requires Message(NotFoundIDTransaction(blockHash, a)) == Message(NotFoundIDTransaction(blockHash, b))
    ensures a == b
  {
    var tail := NotFoundMiddle + blockHash + NotFoundSuffix;
    assert Message(NotFoundIDTransaction(blockHash, a)) == NotFoundIDPrefix + a + tail;
    assert Message(NotFoundIDTransaction(blockHash, b)) == NotFoundIDPrefix + b + tail;
    FramedInjective(NotFoundIDPrefix, a, b, tail);
  }

  /** For a given block, the `NotFoundHashTransactionError` message determines the hash. */
  lemma NotFoundHashMessageInjective(blockHash: string, a: string, b: string)
    requires Message(NotFoundHashTransaction(blockHash, a)) == Message(NotFoundHashTransaction(blockHash, b))
    ensures a == b
  {
    var tail := NotFoundMiddle + blockHash + NotFoundSuffix;
    assert Message(NotFoundHashTransaction(blockHash, a)) == NotFoundHashPrefix + a + tail;
    assert Message(NotFoundHashTransaction(blockHash, b)) == NotFoundHashPrefix + b + tail;
    FramedInjective(NotFoundHashPrefix, a, b, tail);
  }

  /** The exact body the handler tests expect for the block identifier "-1". */
  lemma NegativeIdentifierMessage()
    ensures Message(InvalidIdentifier("-1")) == "an identifier: '-1' is invalid"
  {
  }
}
