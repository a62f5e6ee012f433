/** Fetching an object from its origin, in the sequential form of proxy/httpCachingTimedProxy.go,
    and plain forwarding. */
module Fetch {
  import opened Basics
  import opened Objects

  /** How the origin side of one exchange goes: whether dialling and writing the request fail, and
      the response, whose body may break off. */
  datatype Reply = Reply(status: int, statusLine: string, headers: Headers, body: Result<Bytes>)

  datatype Network = Network(dial: Option<string>, write: Option<string>, reply: Result<Reply>)

  /** What the client receives: all of a response, or one whose body broke off. */
  datatype Delivery = Full(response: Response) | CutShort

  const UNAVAILABLE := Response(503, map[], [])

  function AsText(b: Bytes): string {
    seq(|b|, i requires 0 <= i < |b| => b[i] as char)
  }

  // ----- the sequential form, and forwarding -----

  function FetchedObject(key: string, net: Network): Fetched {
    if net.dial.Some? then Err("failed to connect to target: " + net.dial.value)
    else if net.write.Some? then Err("failed to send request to target: " + net.write.value)
    else
      match net.reply
      case Err(e) => Err("failed to read response from target: " + e)
      case Ok(reply) =>
        if reply.status != STATUS_OK then
          match reply.body
          case Err(_) => Err("could not read non-OK response body")
          case Ok(b) => Err("received non-OK HTTP status: " + reply.statusLine + " : " + AsText(b))
        else
          match reply.body
          case Err(e) => Err(e)
          case Ok(b) => Ok(Object(key, Some(b), reply.headers))
  }

  method RetrieveTimed(key: string, net: Network) returns (r: Fetched)
    ensures r == FetchedObject(key, net)
  {
    if net.dial.Some? { return Err("failed to connect to target: " + net.dial.value); }
    if net.write.Some? { return Err("failed to send request to target: " + net.write.value); }
    if net.reply.Err? { return Err("failed to read response from target: " + net.reply.error); }
    var reply := net.reply.value;
    if reply.status != STATUS_OK {
      if reply.body.Err? { return Err("could not read non-OK response body"); }
      return Err("received non-OK HTTP status: " + reply.statusLine + " : " + AsText(reply.body.value));
    }
    if reply.body.Err? { return Err(reply.body.error); }
    return Ok(Object(key, Some(reply.body.value), reply.headers));
  }

  /** forward does not look at the result of writing the request. */
  function Forward(net: Network): Delivery {
    if net.dial.Some? || net.reply.Err? then Full(UNAVAILABLE)
    else
      var reply := net.reply.value;
      match reply.body
      case Err(_) => CutShort
      case Ok(b) => Full(Response(reply.status, reply.headers, b))
  }

  /** What a client of plain forwarding receives when the server sends this reply: its own status,
      headers and body, whatever the status; a body that breaks off is cut short. */
  function Relayed(reply: Reply): Delivery {
    if reply.body.Err? then CutShort else Full(Response(reply.status, reply.headers, reply.body.value))
  }

  /** What plain forwarding promises over a network: the reply relayed, or a bare 503. */
  function Plainly(net: Network): Delivery {
    if net.dial.None? && net.reply.Ok? then Relayed(net.reply.value) else Full(Response(503, map[], []))
  }

  /** The code keeps that promise, whether or not the request was written. */
  lemma ForwardRelays(net: Network)
    ensures Forward(net) == Plainly(net)
  {
  }

  /** A fetch succeeds exactly when forwarding over the same network would deliver a complete 200
      response and the request was written, and then it holds that response. */
  lemma FetchMeetsForward(key: string, net: Network)
    ensures FetchedObject(key, net).Ok?
            <==> net.write.None? && Forward(net).Full? && Forward(net).response.status == STATUS_OK
    ensures FetchedObject(key, net).Ok? ==>
              var o := FetchedObject(key, net).value;
              o.key == key && o.data.Some? && Forward(net) == Full(Response(STATUS_OK, o.headers, o.data.value))
  {
  }

  // ----- the result as the caller of the two-goroutine form sees it -----

  const PREFIX := "failed to retrieve object from remote: "

  function Prefixed(r: Fetched): Fetched {
    match r
    case Err(e) => Err(PREFIX + e)
    case Ok(o) => Ok(o)
  }
}
