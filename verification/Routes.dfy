/**
 The handlers that create and end applications, as they run when nothing else does
 (server/src/routes.rs). `Proxy` and `Lifecycle` interleave their parts: each method also
 reports the steps of the one or the other that it takes, from any state with the same table
 and cache.
 */
module Routes {
  import opened Wrappers
  import opened Application
  import opened Dispatcher
  import opened UpstreamCache
  import opened Database
  import opened Paths
  import L = Lifecycle
  import P = Proxy

  datatype Status = OK | NotFound | InternalServerError

  /** `create_app` without the watcher it leaves behind; `id` is the key the database assigns. */
  method CreateApp(db: Connection, id: int, now: int, username: string, name: Option<string>, token: Token,
                   insertOk: bool, launchOk: bool, updateOk: bool, ghost life: L.System)
    returns (r: Result<Row, Status>, watched: bool, ghost steps: seq<L.Action>, ghost last: L.System)
    requires id !in db.rows && Keyed(db.rows)
    requires life.rows == db.rows && L.Enabled(life, L.Create(id, now, username, name, token))
    modifies db
    ensures Keyed(db.rows)
    ensures forall other | other in old(db.rows) :: other in db.rows && db.rows[other] == old(db.rows)[other]
    ensures db.rows.Keys == old(db.rows).Keys + if insertOk then {id} else {}
    ensures r.Ok? <==> insertOk && launchOk
    ensures r.Ok? ==> watched && r.value == db.rows[id] && db.rows[id].state == LAUNCHING && db.rows[id].token == token
    ensures r.Err? ==> !watched && r.error == InternalServerError
    ensures insertOk ==>
              db.rows[id] == Row(id, now, username, name, if launchOk || !updateOk then LAUNCHING else FAILED, token, None, None)
    ensures L.Leads(life, steps, last) && last.rows == db.rows
    ensures insertOk ==> id in last.sessions && last.sessions[id].watching == watched
  {
    watched, steps, last := false, [], life;
    if !insertOk {
      return Err(InternalServerError), watched, steps, last;
    }
    steps, last := LaunchSteps(life, L.Create(id, now, username, name, token), launchOk, updateOk);
    var inserted := Insert(id, now, username, name, token);
    var _ := db.Execute(inserted);
    if !launchOk {
      if updateOk {
        var _ := db.Execute(LaunchFailed(id));
      }
      return Err(InternalServerError), watched, steps, last;
    }
    return Ok(NewRow(inserted)), true, steps, last;
  }

  /** The row is inserted, the launch returns, and a failure is recorded unless that fails too. */
  lemma {:induction false} LaunchSteps(life: L.System, create: L.Action, launchOk: bool, updateOk: bool)
    returns (steps: seq<L.Action>, last: L.System)
    requires create.Create? && L.Enabled(life, create)
    ensures L.Leads(life, steps, last)
    ensures var rows := Apply(Insert(create.id, create.createdAt, create.username, create.name, create.token), life.rows);
            last.rows == if launchOk || !updateOk then rows else Apply(LaunchFailed(create.id), rows)
    ensures create.id in last.sessions && last.sessions[create.id].watching == launchOk
  {
    steps, last := L.LeadsOneMore(life, [], life, create);
    steps, last := L.LeadsOneMore(life, steps, last, L.On(create.id, L.LaunchReturns(launchOk)));
    if !launchOk && updateOk {
      steps, last := L.LeadsOneMore(life, steps, last, L.On(create.id, L.RecordRefusal));
    }
  }

  /** The task `create_app` leaves behind, once the launch has ended or timed out: a row still LAUNCHING becomes FAILED. */
  method WatchLaunch(db: Connection, id: int, updateOk: bool, ghost life: L.System)
    returns (ghost steps: seq<L.Action>, ghost last: L.System)
    requires Keyed(db.rows) && life.rows == db.rows && id in life.sessions && life.sessions[id].watching
    modifies db
    ensures db.rows.Keys == old(db.rows).Keys
    ensures forall other | other in db.rows ::
              db.rows[other] == if updateOk && other == id && old(db.rows)[id].state == LAUNCHING
                                then old(db.rows)[id].(state := FAILED)
                                else old(db.rows)[other]
    ensures L.Leads(life, steps, last) && last.rows == db.rows
  {
    steps, last := [], life;
    if updateOk {
      var _ := db.Execute(WatcherTimeout(id));
      steps, last := L.LeadsOneMore(life, steps, last, L.On(id, L.WatcherFires));
    }
  }

  lemma {:induction false} ProxyStep(proxy: P.System, steps: seq<P.Action>, now: P.System, a: P.Action)
    returns (more: seq<P.Action>, next: P.System)
    requires P.Leads(proxy, steps, now) && P.Enabled(now, a)
    ensures P.Leads(proxy, more, next) && more == steps + [a] && next == P.Next(now, a)
  {
    PathExtend(P.TryNext, proxy, steps, now, a);
    more, next := steps + [a], P.Next(now, a);
  }

  /**
   `delete_app`. Once the row is written FINISHED the cache is invalidated, even when the
   stop message to the driver fails; `stopped` is where that message went.
   */
  method DeleteApp(db: Connection, upstreams: UpstreamConnectionCache, id: int, username: string,
                   findOk: bool, updateOk: bool, stopOk: bool, ghost proxy: P.System)
    returns (status: Status, stopped: Option<(Address, Token)>, ghost steps: seq<P.Action>, ghost last: P.System)
    requires Keyed(db.rows)
    requires proxy.rows == db.rows && proxy.cache == upstreams.connections
    modifies db, upstreams
    ensures var found := id in old(db.rows) && old(db.rows)[id].username == username;
            if findOk && found && updateOk then
              var row := old(db.rows)[id];
              && db.rows == old(db.rows)[id := row.(state := FINISHED, address := None)]
              && upstreams.connections == old(upstreams.connections) - {row.token}
              && stopped == (if row.address.Some? then Some((row.address.value, row.token)) else None)
              && status == if stopped.Some? && !stopOk then InternalServerError else OK
            else
              && db.rows == old(db.rows) && upstreams.connections == old(upstreams.connections)
              && stopped == None
              && status == if findOk && !found then NotFound else InternalServerError
    ensures upstreams.spawned == old(upstreams.spawned)
    ensures P.Leads(proxy, steps, last) && last.rows == db.rows && last.cache == upstreams.connections
  {
    stopped, steps, last := None, [], proxy;
    if !findOk {
      return InternalServerError, stopped, steps, last;
    }
    if id !in db.rows || db.rows[id].username != username {
      return NotFound, stopped, steps, last;
    }
    ghost var h := |proxy.handlers|;
    steps, last := ProxyStep(proxy, steps, last, P.BeginDelete(id, username));
    var address, token := db.rows[id].address, db.rows[id].token;
    if !updateOk {
      return InternalServerError, stopped, steps, last;
    }
    DeleteOne(db.rows, id, username);
    var _ := db.Execute(Delete(id, username));
    steps, last := ProxyStep(proxy, steps, last, P.Finish(h));

    var stopResult := true;
    if address.Some? {
      stopped := Some((address.value, token));
      stopResult := stopOk;
    }
    upstreams.Invalidate(token);
    steps, last := ProxyStep(proxy, steps, last, P.Invalidate(h));
    status := if stopResult then OK else InternalServerError;
  }

  /** `app_callback`: stores the address in the rows of the token, and reports when there are none. */
  method AppCallback(db: Connection, token: Token, address: Address, applicationId: string, updateOk: bool,
                     ghost proxy: P.System)
    returns (status: Status, ghost steps: seq<P.Action>, ghost last: P.System)
    requires proxy.rows == db.rows
    modifies db
    ensures db.rows.Keys == old(db.rows).Keys
    ensures forall id | id in db.rows ::
              db.rows[id] == if updateOk && old(db.rows)[id].token == token
                             then old(db.rows)[id].(state := RUNNING, address := Some(address), applicationId := Some(applicationId))
                             else old(db.rows)[id]
    ensures status == OK <==> updateOk && exists id :: id in old(db.rows) && old(db.rows)[id].token == token
    ensures status == InternalServerError <==> !updateOk
    ensures P.Leads(proxy, steps, last) && last.rows == db.rows && last.cache == proxy.cache
  {
    steps, last := [], proxy;
    if !updateOk {
      return InternalServerError, steps, last;
    }
    var affected := db.Execute(Callback(token, address, applicationId));
    steps, last := ProxyStep(proxy, steps, last, P.Execute(Callback(token, address, applicationId)));
    AffectedIsFound(Callback(token, address, applicationId), old(db.rows));
    status := if affected == 0 then NotFound else OK;
  }

  /** `app_callback_delete`: invalidates the token only if it has a row. */
  method AppCallbackDelete(db: Connection, upstreams: UpstreamConnectionCache, token: Token, updateOk: bool,
                           ghost proxy: P.System)
    returns (status: Status, ghost steps: seq<P.Action>, ghost last: P.System)
    requires proxy.rows == db.rows && proxy.cache == upstreams.connections
    modifies db, upstreams
    ensures db.rows.Keys == old(db.rows).Keys
    ensures forall id | id in db.rows ::
              db.rows[id] == if updateOk && old(db.rows)[id].token == token
                             then old(db.rows)[id].(state := FINISHED, address := None)
                             else old(db.rows)[id]
    ensures upstreams.connections == if status == OK then old(upstreams.connections) - {token} else old(upstreams.connections)
    ensures status == OK <==> updateOk && exists id :: id in old(db.rows) && old(db.rows)[id].token == token
    ensures status == InternalServerError <==> !updateOk
    ensures P.Leads(proxy, steps, last) && last.rows == db.rows && last.cache == upstreams.connections
  {
    if !updateOk {
      steps, last := ProxyStep(proxy, [], proxy, P.BeginCallbackDelete(token));
      return InternalServerError, steps, last;
    }
    steps, last := EndSteps(proxy, token);
    var affected := db.Execute(CallbackDelete(token));
    AffectedIsFound(CallbackDelete(token), old(db.rows));
    if affected == 0 {
      status := NotFound;
    } else {
      upstreams.Invalidate(token);
      status := OK;
    }
  }

  /** The callback is read, FINISHED is written, and the token invalidated if it has a row. */
  lemma {:induction false} EndSteps(proxy: P.System, token: Token) returns (steps: seq<P.Action>, last: P.System)
    ensures P.Leads(proxy, steps, last)
    ensures last.rows == Apply(CallbackDelete(token), proxy.rows)
    ensures last.cache == if exists id :: id in proxy.rows && Selects(CallbackDelete(token), proxy.rows[id])
                          then proxy.cache - {token} else proxy.cache
  {
    var h := |proxy.handlers|;
    steps, last := ProxyStep(proxy, [], proxy, P.BeginCallbackDelete(token));
    steps, last := ProxyStep(proxy, steps, last, P.Finish(h));
    if last.handlers[h].phase == P.Written {
      steps, last := ProxyStep(proxy, steps, last, P.Invalidate(h));
    }
  }

  lemma {:induction false} AffectedIsFound(w: Write, rows: Table)
    ensures |Selected(w, rows)| == 0 <==> forall id | id in rows :: !Selects(w, rows[id])
  {
    var selected := Selected(w, rows);
    if |selected| == 0 {
      forall id | id in rows
        ensures !Selects(w, rows[id])
      {
        assert id !in selected;
      }
    } else {
      var id := SomeMember(selected);
      assert id in rows && Selects(w, rows[id]);
    }
  }

  /** Keys are ids, so the statement of `delete_app` is about one row. */
  lemma {:induction false} DeleteOne(rows: Table, id: int, username: string)
    requires Keyed(rows) && id in rows && rows[id].username == username
    ensures Apply(Delete(id, username), rows) == rows[id := rows[id].(state := FINISHED, address := None)]
  {
    forall other | other in rows
      ensures Selects(Delete(id, username), rows[other]) <==> other == id
    {
      assert rows[other].id == other;
    }
  }
}
