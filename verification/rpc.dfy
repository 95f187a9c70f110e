/**
 * The JSON-RPC exchange both block clients make: the request body, what the
 * HTTP exchange and the JSON decoder may hand back, and the decision on the
 * decoded response (client/jsonrpcClient.go:38-53, client/jsonrpc_client.go:107-128).
 * The request is a JSON-RPC 2.0 request object (section 4 of the JSON-RPC 2.0
 * Specification) and the response is read by the rules of its section 5.
 */
module Rpc {
  import opened Wrappers
  import opened Response
  import opened Errors

  /** The part of the preformatted body before the `%s` verb. */
  const BodyPrefix := "{\"jsonrpc\":\"2.0\",\"method\":\"eth_getBlockByNumber\",\"params\":[\""
  /** The part after it: full transaction objects are asked for, and the request id is 1. */
  const BodySuffix := "\", true],\"id\":1}"

  /** `fmt.Sprintf(preformattedBody, identifier)`: the identifier substituted once as `params[0]`. */
  function RequestBody(identifier: string): string
  {
    BodyPrefix + identifier + BodySuffix
  }

  /** What the node reads back out of a request body: `params[0]`, if the body has the template's shape. */
  function ParamOf(body: string): (p: Option<string>)
    ensures p.Some? ==> |p.value| + |BodyPrefix| + |BodySuffix| == |body|
  {
    if |body| >= |BodyPrefix| + |BodySuffix|
       && body[..|BodyPrefix|] == BodyPrefix
       && body[|body| - |BodySuffix|..] == BodySuffix
    then Some(body[|BodyPrefix|..|body| - |BodySuffix|])
    else None
  }

  /**
   * Every request body carries exactly the identifier it was built from, so
   * distinct identifiers give distinct requests.
   */
  lemma RequestBodyRoundTrip(identifier: string)
    ensures ParamOf(RequestBody(identifier)) == Some(identifier)
  {
    var b := RequestBody(identifier);
    assert b[..|BodyPrefix|] == BodyPrefix;
    assert b[|b| - |BodySuffix|..] == BodySuffix;
    assert b[|BodyPrefix|..|b| - |BodySuffix|] == identifier;
  }

  type Bytes = seq<bv8>

  /** The outcome of `getBlockBytes`: the HTTP POST and the read of the body. */
  datatype Posted = PostFailed(reason: string) | Delivered(bytes: Bytes)

  /** The outcome of `json.Unmarshal` into a `RespJSON`. */
  datatype Decoded = DecodeFailed(reason: string) | Unmarshalled(resp: RespJSON)

  /** The fixed message for a response with neither an error nor a block. */
  const UnknownReason := "a resulting block in a response is empty because of unknown reason"

  /**
   * The decision on a decoded response: an error member wins, even beside a
   * result; otherwise a null or absent result is an error of its own; only
   * then is the block returned.
   */
  function Decide(resp: RespJSON): (r: Result<Block, Error>)
    ensures resp.error.Some? ==> r == Failure(ResponseContent(resp.error.value.message))
    ensures resp.error.None? && resp.result.None? ==> r == Failure(ResponseContent(UnknownReason))
    ensures r.Success? <==> resp.error.None? && resp.result.Some?
    ensures r.Success? ==> r.value == resp.result.value
  {
    if resp.error.Some? then Failure(ResponseContent(resp.error.value.message))
    else if resp.result.None? then Failure(ResponseContent(UnknownReason))
    else Success(resp.result.value)
  }

  /**
   * One upstream fetch: a transport or decoding error is returned unchanged,
   * before the envelope is looked at; otherwise the envelope is decided.
   */
  function FetchOutcome(posted: Posted, unmarshal: Bytes -> Decoded): (r: Result<Block, Error>)
    ensures posted.PostFailed? ==> r == Failure(Transport(posted.reason))
    ensures posted.Delivered? && unmarshal(posted.bytes).DecodeFailed? ==>
      r == Failure(Decode(unmarshal(posted.bytes).reason))
    ensures posted.Delivered? && unmarshal(posted.bytes).Unmarshalled? ==>
      r == Decide(unmarshal(posted.bytes).resp)
    ensures r.Failure? ==> HasMessage(r.error) && (r.error.Transport? || r.error.Decode? || r.error.ResponseContent?)
  {
    match posted
    case PostFailed(reason) => Failure(Transport(reason))
    case Delivered(bytes) =>
      match unmarshal(bytes)
      case DecodeFailed(reason) => Failure(Decode(reason))
      case Unmarshalled(resp) => Decide(resp)
  }
}
