/**
 * The Slack Web API as the listener sees it: one `conversations.history`
 * call per request, whose answer arrives already fetched and decoded.
 * The HTTP transport and the JSON parser are not part of this model; a
 * `WebApi` object stands in for them and replays a fixed list of replies.
 */
module Slack {

  /** A scalar JSON value as PHP's json_decode hands it over. A property
      that is absent from the decoded object reads as `JNull`. */
  datatype JsonScalar = JNull | JBool(b: bool) | JInt(i: int) | JFloat(x: real)

  /** PHP's `(int)` cast of a scalar: null is 0, booleans are 0 or 1,
      floats are truncated toward zero. */
  function ToInt(v: JsonScalar): int {
    match v
    case JNull => 0
    case JBool(b) => if b then 1 else 0
    case JInt(i) => i
    case JFloat(x) => if x >= 0.0 then x.Floor else -((-x).Floor)
  }

  /** Exactly these `has_more` values make `(int) $data->has_more === 1`. */
  lemma ToIntIsOne(v: JsonScalar)
    ensures ToInt(v) == 1 <==>
      v == JBool(true) || v == JInt(1) || (v.JFloat? && 1.0 <= v.x < 2.0)
  {
    if v.JFloat? && v.x < 0.0 {
      assert (-v.x).Floor >= 0;
    }
  }

  /** One message of the channel history: `ts` already read as a number,
      `body` the message object encoded back to JSON text. */
  datatype Message = Message(ts: real, body: string)

  /** What one `conversations.history` call yields. */
  datatype Reply =
      /** the request failed (`file_get_contents` returned false) */
    | TransportFailed
      /** the body is not JSON, or decodes to a value that is not an object */
    | Undecodable
      /** the body decoded to an object with these `messages` and `has_more` */
    | Decoded(messages: seq<Message>, hasMore: JsonScalar)

  /** The query of one request: channel, page size and lower time bound. */
  datatype Request = Request(channel: string, limit: nat, oldest: real)

  /** The reply the next call receives from a list of pending replies;
      once the list is used up every call fails. */
  function NextReply(pending: seq<Reply>): Reply {
    if pending == [] then TransportFailed else pending[0]
  }

  /** The replies still pending after one call. */
  function Rest(pending: seq<Reply>): seq<Reply> {
    if pending == [] then [] else pending[1..]
  }

  /** The replies still pending after `n` calls. */
  function Drop(pending: seq<Reply>, n: nat): seq<Reply> {
    if n <= |pending| then pending[n..] else []
  }

  /** The replies after `n + 1` calls are those after `n` calls on the
      list without its head. */
  lemma DropTail(pending: seq<Reply>, n: nat)
    requires pending != []
    ensures Drop(pending, n + 1) == Drop(pending[1..], n)
  {
    if n + 1 <= |pending| {
      assert pending[n + 1..] == pending[1..][n..];
    }
  }

  /** One more call uses up one more reply, if any is left. */
  lemma DropRest(pending: seq<Reply>, n: nat)
    ensures Rest(Drop(pending, n)) == Drop(pending, n + 1)
  {
    if n < |pending| {
      assert pending[n..][1..] == pending[n + 1..];
    }
  }

  /** Stand-in for the Slack endpoint: the replies it will give, in order,
      and every request it has received. */
  class WebApi {
    var pending: seq<Reply>
    var received: seq<Request>

    constructor (replies: seq<Reply>)
      ensures pending == replies && received == []
    {
      pending := replies;
      received := [];
    }

    /** One `conversations.history` call. */
    method History(request: Request) returns (r: Reply)
      modifies this
      ensures received == old(received) + [request]
      ensures r == NextReply(old(pending)) && pending == Rest(old(pending))
    {
      r := NextReply(pending);
      pending := Rest(pending);
      received := received + [request];
    }
  }
}
