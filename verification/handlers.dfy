/**
 * The identifier handling of the two HTTP handlers (server/handlers.go):
 * `validateParam`, the classification of a transaction identifier, the
 * order in which the checks run before the one call to the client, and the
 * reply each outcome becomes. Routing and the fasthttp context are left out;
 * a reply is modelled by its status and content.
 */
module Handlers {
  import opened Wrappers
  import opened Numerals
  import opened BigLiteral
  import opened Response
  import opened Errors
  import opened Rpc
  import opened Lookup
  import opened CachingClient

  /** `strconv.ParseUint(s, 10, 64)`: ASCII decimal digits only, no sign, no separators, at most 2^64-1. */
  function ParseUint10(s: string): (r: Option<Uint64>)
    ensures r.Some? <==> |s| > 0 && (forall i :: 0 <= i < |s| ==> IsDecimalDigit(s[i])) && Value(s, 10) <= MaxUint64
    ensures r.Some? ==> r.value == Value(s, 10)
  {
    if |s| > 0 && (forall i :: 0 <= i < |s| ==> IsDecimalDigit(s[i])) && Value(s, 10) <= MaxUint64
    then Some(Value(s, 10))
    else None
  }

  /**
   * `validateParam`: a decimal `uint64` is rewritten as "0x" and its lowercase
   * hex digits with no leading zeros; anything else is rejected with the
   * original text.
   */
  function ValidateParam(identifier: string): (r: Result<string, Error>)
    ensures r.Success? <==> ParseUint10(identifier).Some?
    ensures r.Failure? ==> r.error == InvalidIdentifier(identifier)
    ensures r.Success? ==> r.value == "0x" + HexLower(Value(identifier, 10))
  {
    match ParseUint10(identifier)
    case Some(num) => Success("0x" + HexLower(num))
    case None => Failure(InvalidIdentifier(identifier))
  }

  /**
   * The rewritten identifier read as hex gives back the decimal value that was
   * parsed, and the client's own parser reads it as that same number.
   */
  lemma ValidatedIsCanonical(identifier: string)
    requires ValidateParam(identifier).Success?
    ensures var out := ValidateParam(identifier).value; var n := Value(identifier, 10);
      && |out| >= 3 && out[..2] == "0x"
      && (forall i :: 2 <= i < |out| ==> IsLowerHexDigit(out[i]))
      && (|out| > 3 ==> out[2] != '0')
      && Value(out[2..], 16) == n
      && SetString(out) == Some(n)
  {
    var n := Value(identifier, 10);
    var out := ValidateParam(identifier).value;
    HexLowerRoundTrip(n);
    SetStringCanonicalHex(n);
    assert out[2..] == HexLower(n);
  }

  /** Every `uint64` written in decimal is accepted and rewritten as its `%x` form. */
  lemma ValidateParamOfDecimal(n: Uint64)
    ensures ValidateParam(Decimal(n)) == Success("0x" + HexLower(n))
  {
    DecimalRoundTrip(n);
  }

  /** The rejections and rewrites the handler tests rely on. */
  lemma ValidateParamExamples()
    ensures ValidateParam("-1") == Failure(InvalidIdentifier("-1"))
    ensures ValidateParam("ff") == Failure(InvalidIdentifier("ff"))
    ensures ValidateParam("0xff") == Failure(InvalidIdentifier("0xff"))
    ensures ValidateParam("") == Failure(InvalidIdentifier(""))
    ensures ValidateParam("0") == Success("0x0")
    ensures ValidateParam("1") == Success("0x1")
    ensures ValidateParam("255") == Success("0xff")
  {
    assert !IsDecimalDigit("-1"[0]);
    assert !IsDecimalDigit("ff"[0]);
    assert !IsDecimalDigit("0xff"[1]);
    assert Decimal(0) == "0" && Decimal(1) == "1";
    assert HexLower(0) == "0" && HexLower(1) == "1";
    assert "0x" + "0" == "0x0" && "0x" + "1" == "0x1";
    ValidateParamOfDecimal(0);
    ValidateParamOfDecimal(1);
    assert Decimal(255) == "255" by { assert Decimal(25) == "25"; }
    assert HexLower(255) == "ff" by { assert HexLower(15) == "f"; }
    ValidateParamOfDecimal(255);
    assert "0x" + "ff" == "0xff";
  }

  /** The block identifier check of both routes: "latest" passes unchanged, anything else is validated. */
  function NormalizeBlockId(identifier: string): (r: Result<string, Error>)
    ensures identifier == "latest" ==> r == Success("latest")
    ensures identifier != "latest" ==> r == ValidateParam(identifier)
    ensures r.Success? ==> r.value == "latest" || SetString(r.value) == Some(Value(identifier, 10))
  {
    if identifier == "latest" then Success(identifier)
    else
      var v := ValidateParam(identifier);
      if v.Success? then ValidatedIsCanonical(identifier); v else v
  }

  /** How the transaction route looks a transaction up. */
  datatype TxKey = ByHash(hash: string) | ByIndex(index: Uint64)

  predicate HasHexPrefix(s: string) { |s| >= 2 && s[..2] == "0x" }

  /**
   * The transaction identifier: anything starting with "0x" (so "0x" itself)
   * is a hash, taken as it is; anything else must be a decimal `uint64` index.
   */
  function ClassifyTx(idT: string): (r: Result<TxKey, Error>)
    ensures HasHexPrefix(idT) ==> r == Success(ByHash(idT))
    ensures !HasHexPrefix(idT) ==> (r.Success? <==> ParseUint10(idT).Some?)
    ensures !HasHexPrefix(idT) && r.Success? ==> r.value == ByIndex(Value(idT, 10))
    ensures r.Failure? ==> r.error == InvalidIdentifier(idT)
  {
    if !HasHexPrefix(idT) then
      match ParseUint10(idT)
      case None => Failure(InvalidIdentifier(idT))
      case Some(num) => Success(ByIndex(num))
    else Success(ByHash(idT))
  }

  datatype TxPlan = TxPlan(blockId: string, key: TxKey)

  /**
   * Every check of the transaction route, block identifier first, runs before
   * the block is asked for; the first failing check decides the error.
   */
  function PlanTransactionRequest(idB: string, idT: string): (r: Result<TxPlan, Error>)
    ensures NormalizeBlockId(idB).Failure? ==> r == Failure(InvalidIdentifier(idB))
    ensures NormalizeBlockId(idB).Success? && ClassifyTx(idT).Failure? ==> r == Failure(InvalidIdentifier(idT))
    ensures r.Success? <==> NormalizeBlockId(idB).Success? && ClassifyTx(idT).Success?
    ensures r.Success? ==> r.value == TxPlan(NormalizeBlockId(idB).value, ClassifyTx(idT).value)
  {
    match NormalizeBlockId(idB)
    case Failure(e) => Failure(e)
    case Success(blockId) =>
      match ClassifyTx(idT)
      case Failure(e) => Failure(e)
      case Success(key) => Success(TxPlan(blockId, key))
  }

  /**
   * The bad-request cases of the transaction-route tests: a bad block
   * identifier is reported whatever the transaction identifier, and with a
   * good one, "-1" and "ff" are reported as the transaction identifier.
   */
  lemma PlanExamples(idB: string, idT: string)
    requires NormalizeBlockId(idB).Success?
    ensures PlanTransactionRequest("-1", idT) == Failure(InvalidIdentifier("-1"))
    ensures PlanTransactionRequest("ff", idT) == Failure(InvalidIdentifier("ff"))
    ensures PlanTransactionRequest(idB, "-1") == Failure(InvalidIdentifier("-1"))
    ensures PlanTransactionRequest(idB, "ff") == Failure(InvalidIdentifier("ff"))
    ensures PlanTransactionRequest("latest", "0x") == Success(TxPlan("latest", ByHash("0x")))
  {
    ValidateParamExamples();
    assert !HasHexPrefix("-1") && !HasHexPrefix("ff");
    assert !IsDecimalDigit("-1"[0]) && !IsDecimalDigit("ff"[0]);
    assert "0x"[..2] == "0x";
  }

  /** What the client's lookup finds for a key: the first match, or nothing. */
  function Found(block: Block, key: TxKey): (t: Option<Transaction>)
    ensures t.Some? ==> t.value in block.transactions
    ensures key.ByHash? ==> (t.Some? <==> exists i :: 0 <= i < |block.transactions| && block.transactions[i].hash == key.hash)
  {
    var txs := block.transactions;
    match key
    case ByHash(h) =>
      var k := FirstMatch(txs, HashField, h);
      FirstMatchFound(txs, HashField, h);
      if k < |txs| then Some(txs[k]) else None
    case ByIndex(n) =>
      var k := FirstMatch(txs, IndexField, "0x" + HexLower(n));
      if n >= |txs| || k == |txs| then None else Some(txs[k])
  }

  /** An HTTP reply: its status and content. */
  datatype Reply =
    | BadRequest(text: string)
    | InternalError(text: string)
    | BlockReply(block: ShowcaseBlock)
      /** A success whose body is the transaction, or `null` when there is none. */
    | TransactionReply(tx: Option<Transaction>)

  /**
   * `requestBlock`: an invalid identifier is a bad request and the client is
   * not called; otherwise one call to the client, whose block is shown with
   * its transactions reduced to hashes, or whose error is a server error.
   */
  method RequestBlock(client: JRClient, identifier: string) returns (reply: Reply)
    modifies client, client.node
    ensures NormalizeBlockId(identifier).Failure? ==>
      && reply == BadRequest(Message(InvalidIdentifier(identifier)))
      && client.node.sent == old(client.node.sent)
      && client.cache == old(client.cache) && client.lastBlockNumber == old(client.lastBlockNumber)
    ensures NormalizeBlockId(identifier).Success? ==>
      var id := NormalizeBlockId(identifier).value;
      var f := old(client.NextOutcome(id));
      && client.node.sent == old(client.node.sent) + [RequestBody(id)]
      && reply == (if f.Success? then BlockReply(ToShowcase(f.value)) else InternalError(Message(f.error)))
      && client.cache == old(client.cache)
      && (f.Failure? ==> client.lastBlockNumber == old(client.lastBlockNumber))
      && (f.Success? && Accepts(f.value.header.number) ==>
            client.lastBlockNumber == SetString(f.value.header.number).value)
  {
    var id := NormalizeBlockId(identifier);
    if id.Failure? {
      return BadRequest(Message(id.error));
    }
    var block := client.GetBlockBy(id.value);
    if block.Failure? {
      return InternalError(Message(block.error));
    }
    return BlockReply(ToShowcase(block.value));
  }

  /**
   * `requestBlockAndFindTransaction`: both identifiers are checked before the
   * one call to the client. A transaction that is not found is not an error:
   * the lookup error is overwritten, and the reply is a success carrying `null`.
   */
  method RequestBlockAndFindTransaction(client: JRClient, idB: string, idT: string) returns (reply: Reply)
    modifies client, client.node
    ensures var plan := PlanTransactionRequest(idB, idT);
      plan.Failure? ==>
        && reply == BadRequest(Message(plan.error))
        && client.node.sent == old(client.node.sent)
        && client.cache == old(client.cache) && client.lastBlockNumber == old(client.lastBlockNumber)
    ensures var plan := PlanTransactionRequest(idB, idT);
      plan.Success? ==>
        var f := old(client.NextOutcome(plan.value.blockId));
        && client.node.sent == old(client.node.sent) + [RequestBody(plan.value.blockId)]
        && reply == (if f.Success? then TransactionReply(Found(f.value, plan.value.key)) else InternalError(Message(f.error)))
        && client.cache == old(client.cache)
        && (f.Failure? ==> client.lastBlockNumber == old(client.lastBlockNumber))
        && (f.Success? && Accepts(f.value.header.number) ==>
              client.lastBlockNumber == SetString(f.value.header.number).value)
  {
    var plan := PlanTransactionRequest(idB, idT);
    if plan.Failure? {
      return BadRequest(Message(plan.error));
    }
    var block := client.GetBlockBy(plan.value.blockId);
    if block.Failure? {
      return InternalError(Message(block.error));
    }
    var t: Result<Transaction, Error>;
    match plan.value.key {
      case ByHash(h) =>
        t := client.GetTransactionByHash(block.value, h);
      case ByIndex(n) =>
        t := client.GetTransactionByIndex(block.value, n);
    }
    reply := TransactionReply(if t.Success? then Some(t.value) else None);
  }
}
