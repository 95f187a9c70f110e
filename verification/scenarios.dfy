/**
 * End-to-end cases over a small stub node, following the handler tests: the
 * node's head is block 100 and it answers any other request with block 1.
 */
module Scenarios {
  import opened Wrappers
  import opened Numerals
  import opened BigLiteral
  import opened Response
  import opened Errors
  import opened Rpc
  import opened CachingClient
  import opened Handlers
  import StatelessClient

  function EmptyHeader(number: string, hash: string): Header
  {
    Header("", "", "", "", hash, "", "", "", "", number, "", "", "", "", "", "", "", "", [])
  }

  function BlockNumbered(number: string): Block
  {
    Block(EmptyHeader(number, "hash-" + number), [])
  }

  /** The stub node's answer: the bytes [0] for "latest", [1] for anything else. */
  function StubReply(k: nat, body: string): Posted
  {
    Delivered(if body == RequestBody("latest") then [0] else [1])
  }

  /** The stub decoder: [0] is block 0x64 (100), anything else block 0x1. */
  function StubUnmarshal(bytes: Bytes): Decoded
  {
    Unmarshalled(RespJSON("2.0", Some(BlockNumbered(if bytes == [0] then "0x64" else "0x1")), 1, None))
  }

  lemma OneIsCanonical()
    ensures NormalizeBlockId("1") == Success("0x1")
    ensures SetString("0x1") == Some(1)
  {
    ValidateParamExamples();
    SetStringCanonicalHex(1);
    assert HexLower(1) == "1" && "0x" + "1" == "0x1";
  }

  method NewStubClient() returns (c: JRClient)
    ensures fresh(c) && fresh(c.node)
    ensures c.node.sent == [RequestBody("latest")]
    ensures c.cache == map[] && c.lastBlockNumber == 100
    ensures c.unmarshal == StubUnmarshal
    ensures c.node.reply == StubReply
  {
    var node := new Node(StubReply);
    assert HexLower(100) == "64" by { assert HexLower(6) == "6"; }
    SetStringCanonicalHex(100);
    assert "0x" + "64" == "0x64";
    var r := JRClient.NewJRClient(node, StubUnmarshal, map[]);
    assert r.Success?;
    c := r.value;
  }

  /**
   * The cached-block test as the code is written: two requests for /block/1
   * both reach the node, nothing is cached under "0x1", and the tracker has
   * moved back from the head (100) to 1.
   */
  method BlockOneTwiceAsWritten() returns (requests: nat, cachedOne: bool, last: int, same: bool)
    ensures requests == 3 && !cachedOne && last == 1 && same
  {
    var c := NewStubClient();
    OneIsCanonical();
    var one := BlockNumbered("0x1");
    assert StubUnmarshal(StubReply(1, RequestBody("0x1")).bytes) == Unmarshalled(RespJSON("2.0", Some(one), 1, None));
    var first := RequestBlock(c, "1");
    assert first == BlockReply(ToShowcase(one));
    assert c.lastBlockNumber == 1 && c.cache == map[];
    var second := RequestBlock(c, "1");
    requests := |c.node.sent|;
    cachedOne := "0x1" in c.cache;
    last := c.lastBlockNumber;
    same := first == second == BlockReply(ToShowcase(BlockNumbered("0x1")));
  }

  /**
   * The same two requests with the intended gate: block 1 is 99 behind the
   * head, so the first request is fetched and stored under "0x1" and the
   * second is answered from the cache without a request to the node; the
   * tracker stays at the head.
   */
  method BlockOneTwiceIntended() returns (requests: nat, cachedNumber: Option<string>, last: int, same: bool)
    ensures requests == 2 && cachedNumber == Some("0x1") && last == 100 && same
  {
    var c := NewStubClient();
    OneIsCanonical();
    var first := c.GetBlockByIntended("0x1");
    var second := c.GetBlockByIntended("0x1");
    requests := |c.node.sent|;
    cachedNumber := if "0x1" in c.cache then Some(c.cache["0x1"].header.number) else None;
    last := c.lastBlockNumber;
    same := first == second == Success(BlockNumbered("0x1"));
  }

  /**
   * The two clients' index guards part ways at 2^63: for a block holding one
   * transaction whose index field is "0x8000000000000000", the stateless
   * client returns it for index 2^63 and the caching client does not.
   */
  method IndexGuardsDiverge() returns (stateless: Result<Transaction, Error>, caching: Result<Transaction, Error>)
    ensures stateless.Success? && caching.Failure?
  {
    var index: Uint64 := 0x8000_0000_0000_0000;
    var tx := Transaction("0xabc", "0x" + HexLower(index), map[]);
    var block := Block(EmptyHeader("0x1", "0xb"), [tx]);
    stateless := StatelessClient.GetTransactionByIndex(block, index);
    var c := NewStubClient();
    caching := c.GetTransactionByIndex(block, index);
  }
}
