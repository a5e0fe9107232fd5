/**
 What the handlers, the watcher and the driver of an application are for: the ways through
 `Lifecycle` they can take, from any state the invariant allows, and where these lead.
 */
module DriverPaths {
  import opened Wrappers
  import opened Application
  import opened Lifecycle

  /** The row and the session of the application. */
  predicate At(s: System, id: int, row: Row, session: Session) {
    id in s.rows && id in s.sessions && s.rows[id] == row && s.sessions[id] == session
  }

  function RowAfter(id: int, row: Row, session: Session, step: Step): Row {
    var w := Statement(id, session, step);
    if w.Some? then Update(w.value, row) else row
  }

  /** The next step of the application. */
  lemma {:induction false} Go(s: System, actions: seq<Action>, now: System, id: int, row: Row, session: Session, step: Step)
    returns (more: seq<Action>, next: System, row': Row, session': Session)
    requires Leads(s, actions, now) && At(now, id, row, session) && CanMove(session, Some(row), step)
    ensures Leads(s, more, next) && more == actions + [On(id, step)] && At(next, id, row', session')
    ensures row' == RowAfter(id, row, session, step) && session' == Move(session, Some(row), step)
  {
    more, next := LeadsOneMore(s, actions, now, On(id, step));
    row', session' := RowAfter(id, row, session, step), Move(session, Some(row), step);
  }

  lemma {:induction false} LeadsKeepsInv(s: System, actions: seq<Action>, last: System)
    requires Inv(s) && Leads(s, actions, last)
    ensures Inv(last)
    decreases |actions|
  {
    if actions != [] {
      NextKeepsInv(s, actions[0]);
      LeadsKeepsInv(Next(s, actions[0]), actions[1..], last);
    }
  }

  /** The row is that of the application, and a driver that has begun was spawned. */
  lemma {:induction false} Known(s: System, id: int)
    requires Inv(s) && id in s.rows
    ensures id in s.sessions
    ensures var row, session := s.rows[id], s.sessions[id];
            && row.id == id && row.token == session.token && row.username == session.username
            && (session.driver.listener != Booting ==> session.launch == Spawned)
            && (session.driver.listener == Waiting ==> !session.driver.attempted)
            && (row.address.Some? <==> row.state == RUNNING)
  {
    assert SessionInv(id, RowAt(s.rows, id), s.sessions[id]);
  }

  /** A stopped driver that was not told to stop from outside handles the end of its service by reporting it. */
  lemma {:induction false} ReportsEnd(s: System, before: seq<Action>, now: System, id: int, row: Row, session: Session)
    returns (actions: seq<Action>, last: System)
    requires Leads(s, before, now) && At(now, id, row, session) && row.token == session.token
    requires session.driver.listener == Waiting && session.driver.stopped && !session.driver.external
    ensures Leads(s, actions, last) && actions == before + [On(id, HandleEnd), On(id, ServeDelete), On(id, DeleteReturns)]
    ensures At(last, id, row.(state := FINISHED, address := None),
               session.(driver := session.driver.(listener := Over, attempted := true, delivered := true)))
  {
    var row', session';
    actions, last, row', session' := Go(s, before, now, id, row, session, HandleEnd);
    actions, last, row', session' := Go(s, actions, last, id, row', session', ServeDelete);
    actions, last, row', session' := Go(s, actions, last, id, row', session', DeleteReturns);
  }

  // ----- Start -----

  /**
   A launch that succeeds: the driver starts its service and posts, the server stores address
   and application id in the row, and the driver waits for events, watched to the end.
   */
  lemma {:induction false} StartUp(s: System, create: Action, address: string, applicationId: string)
    returns (actions: seq<Action>, last: System)
    requires Inv(s) && create.Create? && Enabled(s, create)
    ensures var id := create.id;
            && Leads(s, actions, last)
            && actions == [create, On(id, LaunchReturns(true)), On(id, ServiceStarts),
                           On(id, ServePost(address, applicationId)), On(id, PostReturns(true))]
            && Inv(last) && id in last.rows && id in last.sessions
            && last.rows[id] == Row(id, create.createdAt, create.username, create.name, RUNNING, create.token,
                                    Some(address), Some(applicationId))
            && last.sessions[id].watching && last.sessions[id].driver.listener == Waiting
            && !last.sessions[id].driver.stopped
  {
    var id := create.id;
    actions, last := LeadsOneMore(s, [], s, create);
    var row, session := last.rows[id], last.sessions[id];
    actions, last, row, session := Go(s, actions, last, id, row, session, LaunchReturns(true));
    actions, last, row, session := Go(s, actions, last, id, row, session, ServiceStarts);
    actions, last, row, session := Go(s, actions, last, id, row, session, ServePost(address, applicationId));
    actions, last, row, session := Go(s, actions, last, id, row, session, PostReturns(true));
    LeadsKeepsInv(s, actions, last);
  }

  /** A launch that fails is recorded: the row is FAILED, and there is neither a watcher nor a driver. */
  lemma {:induction false} LaunchRefused(s: System, create: Action) returns (actions: seq<Action>, last: System)
    requires Inv(s) && create.Create? && Enabled(s, create)
    ensures var id := create.id;
            && Leads(s, actions, last) && actions == [create, On(id, LaunchReturns(false)), On(id, RecordRefusal)]
            && Inv(last) && id in last.rows && id in last.sessions
            && last.rows[id] == Row(id, create.createdAt, create.username, create.name, FAILED, create.token, None, None)
            && !last.sessions[id].watching && last.sessions[id].driver == IDLE_DRIVER
  {
    var id := create.id;
    actions, last := LeadsOneMore(s, [], s, create);
    var row, session := last.rows[id], last.sessions[id];
    actions, last, row, session := Go(s, actions, last, id, row, session, LaunchReturns(false));
    actions, last, row, session := Go(s, actions, last, id, row, session, RecordRefusal);
    LeadsKeepsInv(s, actions, last);
  }

  /** The watcher of a row that is still LAUNCHING makes it FAILED; of any other row it changes nothing. */
  lemma {:induction false} WatcherDecides(s: System, id: int) returns (actions: seq<Action>, last: System)
    requires Inv(s) && id in s.rows && s.sessions[id].watching
    ensures Leads(s, actions, last)
    ensures actions == [On(id, WatcherFires)] && Inv(last) && id in last.rows && id in last.sessions
    ensures last.rows[id] == if s.rows[id].state == LAUNCHING then s.rows[id].(state := FAILED) else s.rows[id]
    ensures !last.sessions[id].watching
  {
    Known(s, id);
    var row, session := s.rows[id], s.sessions[id];
    actions, last, row, session := Go(s, [], s, id, row, session, WatcherFires);
    LeadsKeepsInv(s, actions, last);
  }

  /** A driver whose POST fails is stopped, and reports its end. */
  lemma {:induction false} FailedPostEnds(s: System, id: int) returns (actions: seq<Action>, last: System)
    requires Inv(s) && id in s.rows && s.sessions[id].driver.listener == Posting && !s.sessions[id].driver.external
    ensures Leads(s, actions, last)
    ensures actions == [On(id, PostReturns(false)), On(id, HandleEnd), On(id, ServeDelete), On(id, DeleteReturns)]
    ensures Inv(last) && id in last.rows && id in last.sessions
    ensures last.rows[id] == s.rows[id].(state := FINISHED, address := None)
    ensures last.sessions[id].driver.listener == Over && last.sessions[id].driver.attempted
  {
    Known(s, id);
    var row, session := s.rows[id], s.sessions[id];
    actions, last, row, session := Go(s, [], s, id, row, session, PostReturns(false));
    actions, last := ReportsEnd(s, actions, last, id, row, session);
    LeadsKeepsInv(s, actions, last);
  }

  // ----- End -----

  /** An idle driver stops its service, and reports its end unless it was told to stop. */
  lemma {:induction false} IdleEnds(s: System, id: int) returns (actions: seq<Action>, last: System)
    requires Inv(s) && id in s.rows && s.sessions[id].driver.listener == Waiting && !s.sessions[id].driver.external
    ensures Leads(s, actions, last)
    ensures actions == [On(id, IdleStop), On(id, HandleEnd), On(id, ServeDelete), On(id, DeleteReturns)]
    ensures Inv(last) && id in last.rows && id in last.sessions
    ensures last.rows[id] == s.rows[id].(state := FINISHED, address := None)
    ensures last.sessions[id].driver.listener == Over && last.sessions[id].driver.delivered
  {
    Known(s, id);
    var row, session := s.rows[id], s.sessions[id];
    actions, last, row, session := Go(s, [], s, id, row, session, IdleStop);
    actions, last := ReportsEnd(s, actions, last, id, row, session);
    LeadsKeepsInv(s, actions, last);
  }

  /**
   `delete_app` on a RUNNING application: the row is FINISHED without its address, the handler
   still has the address it read, and the driver can be told to stop.
   */
  lemma {:induction false} DeleteReachesDriver(s: System, id: int) returns (actions: seq<Action>, last: System)
    requires Inv(s) && id in s.rows && s.rows[id].state == RUNNING
    ensures id in s.sessions
    ensures var d := |s.sessions[id].deleters|;
            && Leads(s, actions, last) && actions == [On(id, FindForDelete), On(id, MarkFinished(d))]
            && Inv(last) && id in last.rows && id in last.sessions
            && last.rows[id] == s.rows[id].(state := FINISHED, address := None)
            && last.sessions[id].driver == s.sessions[id].driver
            && last.sessions[id].deleters == s.sessions[id].deleters + [Marked(s.rows[id].address)]
            && s.rows[id].address.Some?
            && Enabled(last, On(id, ReceiveStop(d)))
  {
    Known(s, id);
    var row, session, d := s.rows[id], s.sessions[id], |s.sessions[id].deleters|;
    actions, last, row, session := Go(s, [], s, id, row, session, FindForDelete);
    actions, last, row, session := Go(s, actions, last, id, row, session, MarkFinished(d));
    LeadsKeepsInv(s, actions, last);
  }

  /** A driver that is told to stop ends without a DELETE callback: its row is FINISHED already. */
  lemma {:induction false} StoppedEnds(s: System, id: int, d: nat) returns (actions: seq<Action>, last: System)
    requires Inv(s) && id in s.rows && Enabled(s, On(id, ReceiveStop(d)))
    requires s.sessions[id].driver.listener == Waiting
    ensures Leads(s, actions, last)
    ensures actions == [On(id, ReceiveStop(d)), On(id, StopOnMessage), On(id, HandleEnd)]
    ensures Inv(last) && id in last.rows && id in last.sessions && last.rows[id] == s.rows[id]
    ensures var driver := last.sessions[id].driver;
            driver.external && driver.stopped && driver.listener == Over && !driver.attempted
  {
    Known(s, id);
    var row, session := s.rows[id], s.sessions[id];
    actions, last, row, session := Go(s, [], s, id, row, session, ReceiveStop(d));
    actions, last, row, session := Go(s, actions, last, id, row, session, StopOnMessage);
    actions, last, row, session := Go(s, actions, last, id, row, session, HandleEnd);
    LeadsKeepsInv(s, actions, last);
  }

  // ----- The address a handler sends the stop to -----

  /** At step `k` the handler with this index read the row, which had this address. */
  ghost predicate ReadAt(states: seq<System>, actions: seq<Action>, k: nat, id: int, d: nat, address: Option<string>)
    requires k < |actions| && |states| == |actions| + 1
  {
    && actions[k] == On(id, FindForDelete)
    && id in states[k].sessions && |states[k].sessions[id].deleters| == d
    && id in states[k].rows && states[k].rows[id].address == address
  }

  lemma {:induction false} DeletersGrow(session: Session, row: Option<Row>, step: Step, d: nat)
    requires CanMove(session, row, step) && d < |Move(session, row, step).deleters|
    ensures if d < |session.deleters| then Move(session, row, step).deleters[d].address == session.deleters[d].address
            else step == FindForDelete && d == |session.deleters| && Move(session, row, step).deleters[d].address == row.value.address
  {
  }

  /** The address a deleting handler holds is the one the row had when the handler read it. */
  lemma {:induction false} StopGoesToAddressRead(states: seq<System>, actions: seq<Action>, i: nat, id: int, d: nat)
    requires Run(states, actions) && i < |states| && id in states[i].sessions && d < |states[i].sessions[id].deleters|
    ensures exists k: nat :: k < i && ReadAt(states, actions, k, id, d, states[i].sessions[id].deleters[d].address)
  {
    var s, a := states[i - 1], actions[i - 1];
    assert StepAt(states, actions, i - 1);
    if a.On? && a.id == id {
      DeletersGrow(s.sessions[id], RowAt(s.rows, id), a.step, d);
      if d < |s.sessions[id].deleters| {
        StopGoesToAddressRead(states, actions, i - 1, id, d);
      } else {
        assert ReadAt(states, actions, i - 1, id, d, states[i].sessions[id].deleters[d].address);
      }
    } else {
      StopGoesToAddressRead(states, actions, i - 1, id, d);
    }
  }
}
