/**
 One request through the proxy (server/src/proxy.rs, `dispatch_request`), from its header to
 its answer. Between its awaits other tasks change the cache; what they make of it is given.
 */
module DispatchRequest {
  import opened Wrappers
  import opened Dispatcher
  import opened UpstreamCache
  import opened Bearer

  /** The database and the other tasks during `sender_for`. */
  datatype Lookups = Lookups(
    closed: set<nat>, rowExists: Result<bool, ()>, cache: Cache, created: nat, closedThen: set<nat>)

  /** What comes out of the reply channel: a response, an error, or nothing when it was dropped. */
  datatype Reply<+R> = Sent(result: Result<R, ProxyError>) | Dropped

  /**
   `dispatch_request`. `sentTo` is the channel the request was accepted by, if any. The send is
   refused exactly by a channel that has closed meanwhile (`closedAtSend`); the cache is then
   cleared of it, unless another channel has taken its place.
   */
  method DispatchRequest<R>(upstreams: UpstreamConnectionCache, header: Header, given: Lookups,
                            closedAtSend: set<nat>, reply: Reply<R>)
    returns (r: Result<R, ProxyError>, sentTo: Option<nat>)
    modifies upstreams
    // Without a token nothing is looked up.
    ensures header == Absent ==> r == Err(MissingAuthorizationHeader)
    ensures ExtractBearerToken(header).Err? ==>
              r == Err(ExtractBearerToken(header).error) && sentTo == None && upstreams.connections == old(upstreams.connections)
    // A token without a row is refused, unless a live sender is cached for it.
    ensures forall token | ExtractBearerToken(header) == Ok(token) ::
              var live := token in old(upstreams.connections) && old(upstreams.connections)[token] !in given.closed;
              && (!live && given.rowExists == Ok(false) ==> r == Err(ApplicationNotFound) && sentTo == None)
              && (!live && given.rowExists.Err? ==> r == Err(ProxyError.Database) && sentTo == None)
              && (!live && given.rowExists != Ok(true) ==> upstreams.connections == given.cache)
    // Otherwise the request goes to the live sender or to the one the second section finds or makes.
    ensures forall token, c | ExtractBearerToken(header) == Ok(token) && sentTo == Some(c) ::
              && c !in closedAtSend && token in upstreams.connections && upstreams.connections[token] == c
              && r == if reply.Sent? then reply.result else Err(Internal)
    ensures forall token | ExtractBearerToken(header) == Ok(token) && r == Err(Internal) && sentTo == None ::
              token !in upstreams.connections
    ensures ExtractBearerToken(header).Ok? && sentTo == None ==>
              r == Err(ApplicationNotFound) || r == Err(ProxyError.Database) || r == Err(Internal)
  {
    sentTo := None;
    var token := ExtractBearerToken(header);
    if token.Err? {
      return Err(token.error), sentTo;
    }
    var sender := upstreams.SenderFor(
      token.value, given.closed, given.rowExists, given.cache, given.created, given.closedThen);
    if sender.Err? {
      return Err(sender.error), sentTo;
    }
    if sender.value in closedAtSend {
      upstreams.RemoveClosed(token.value, closedAtSend);
      return Err(Internal), sentTo;
    }
    sentTo := Some(sender.value);
    match reply
    case Sent(result) => r := result;
    case Dropped => r := Err(Internal);
  }
}
