/**
 The process-wide cache of dispatchers (server/src/proxy.rs, `UpstreamConnectionCache`).
 Channels are numbered in the order they are created. `closed` are the channels whose
 receiver is gone. Every function is one section under the mutex.
 */
module UpstreamCache {
  import opened Wrappers
  import opened Dispatcher

  type Cache = map<Token, nat>

  /** The sender a lookup hands out: the cached one, unless its channel is closed. */
  function LiveSender(cache: Cache, token: Token, closed: set<nat>): Option<nat> {
    if token in cache && cache[token] !in closed then Some(cache[token]) else None
  }

  /** The second section of `sender_for`: `next` is the channel it creates if it has to. */
  function AfterInsert(cache: Cache, token: Token, closed: set<nat>, next: nat): Cache {
    if LiveSender(cache, token, closed).Some? then cache else cache[token := next]
  }

  function AfterRemoveClosed(cache: Cache, token: Token, closed: set<nat>): Cache {
    if token in cache && cache[token] in closed then cache - {token} else cache
  }

  function AfterInvalidate(cache: Cache, token: Token): Cache {
    cache - {token}
  }

  class UpstreamConnectionCache {
    var connections: Cache
    var spawned: nat  // the channels created so far, each with its dispatcher task

    constructor ()
      ensures connections == map[] && spawned == 0
    {
      connections, spawned := map[], 0;
    }

    /** The first section of `sender_for`. */
    method Lookup(token: Token, closed: set<nat>) returns (sender: Option<nat>)
      ensures sender == LiveSender(connections, token, closed)
    {
      if token in connections {
        var cached := connections[token];
        if cached !in closed {
          return Some(cached);
        }
      }
      return None;
    }

    /** The second section of `sender_for`. */
    method LookupOrCreate(token: Token, closed: set<nat>) returns (sender: nat)
      modifies this
      ensures connections == AfterInsert(old(connections), token, closed, old(spawned))
      ensures token in connections && sender == connections[token]
      ensures spawned == old(spawned) + if LiveSender(old(connections), token, closed).Some? then 0 else 1
    {
      if token in connections {
        var cached := connections[token];
        if cached !in closed {
          return cached;
        }
      }
      sender := spawned;
      connections := connections[token := sender];
      spawned := spawned + 1;
    }

    /** What other tasks make of the cache while this one waits for the database. */
    method OtherTasks(cache: Cache, created: nat)
      modifies this
      ensures connections == cache && spawned == created
    {
      connections, spawned := cache, created;
    }

    /**
     `sender_for`. The lock is not held during the lookup, so the second section finds the
     cache that other tasks have left (`cache`, `created`) and channels may have closed since
     (`closedThen`). `rowExists` is what the database answers: a row, no row, or a failure.
     */
    method SenderFor(token: Token, closed: set<nat>, rowExists: Result<bool, ()>,
                     cache: Cache, created: nat, closedThen: set<nat>)
      returns (sender: Result<nat, ProxyError>)
      modifies this
      ensures var live := LiveSender(old(connections), token, closed);
              if live.Some? then
                sender == Ok(live.value) && connections == old(connections) && spawned == old(spawned)
              else if rowExists != Ok(true) then
                && sender == Err(if rowExists.Err? then Database else ApplicationNotFound)
                && connections == cache && spawned == created
              else
                && connections == AfterInsert(cache, token, closedThen, created)
                && token in connections && sender == Ok(connections[token])
                && spawned == created + if LiveSender(cache, token, closedThen).Some? then 0 else 1
    {
      var cached := Lookup(token, closed);
      if cached.Some? {
        return Ok(cached.value);
      }
      OtherTasks(cache, created);
      match rowExists
      case Err(_) => return Err(Database);
      case Ok(found) =>
        if !found {
          return Err(ApplicationNotFound);
        }
      var handedOut := LookupOrCreate(token, closedThen);
      return Ok(handedOut);
    }

    method RemoveClosed(token: Token, closed: set<nat>)
      modifies this
      ensures connections == AfterRemoveClosed(old(connections), token, closed) && spawned == old(spawned)
    {
      if token in connections && connections[token] in closed {
        connections := connections - {token};
      }
    }

    method Invalidate(token: Token)
      modifies this
      ensures connections == AfterInvalidate(old(connections), token) && spawned == old(spawned)
    {
      connections := connections - {token};
    }
  }
}
