/**
 The graceful shutdown of the server (server/src/lib.rs, `run` and `serve_connection`).
 The server waits on the number of receivers of its close channel: it holds one itself
 until it leaves the accept loop, and every connection task holds a clone until it ends.
 */
module Shutdown {
  import opened Wrappers
  import opened Paths

  datatype Phase = Serving | Draining | ReturnedOk | ReturnedErr

  /** A connection task; `told` counts its calls of `graceful_shutdown`, `fused` its signal future. */
  datatype Connection = Connection(live: bool, told: nat, fused: bool)

  datatype Server = Server(phase: Phase, tls: bool, signalled: bool, receivers: int, connections: seq<Connection>)

  datatype Action =
    | Signal
    | Accept
    | HandshakeFails
    | LeaveLoop
    | Tell(connection: nat)
    | Finish(connection: nat)
    | Return

  predicate Initial(s: Server) {
    s.phase == Serving && !s.signalled && s.receivers == 1 && s.connections == []
  }

  /** The accept loop may still accept after the signal: `select!` picks either ready branch. */
  predicate Enabled(s: Server, a: Action) {
    match a
    case Signal => !s.signalled
    case Accept => s.phase == Serving
    case HandshakeFails => s.phase == Serving && s.tls
    case LeaveLoop => s.phase == Serving && s.signalled
    case Tell(c) => c < |s.connections| && s.connections[c].live && s.signalled && !s.connections[c].fused
    case Finish(c) => c < |s.connections| && s.connections[c].live
    case Return => s.phase == Draining && s.receivers == 0
  }

  function Next(s: Server, a: Action): Server
    requires Enabled(s, a)
  {
    match a
    case Signal => s.(signalled := true)
    case Accept => s.(connections := s.connections + [Connection(true, 0, false)], receivers := s.receivers + 1)
    case HandshakeFails => s.(phase := ReturnedErr, receivers := s.receivers - 1)
    case LeaveLoop => s.(phase := Draining, receivers := s.receivers - 1)
    case Tell(c) =>
      s.(connections := s.connections[c := s.connections[c].(told := s.connections[c].told + 1, fused := true)])
    case Finish(c) => s.(connections := s.connections[c := s.connections[c].(live := false)], receivers := s.receivers - 1)
    case Return => s.(phase := ReturnedOk)
  }

  ghost predicate StepAt(states: seq<Server>, actions: seq<Action>, i: nat)
    requires |states| == |actions| + 1 && i < |actions|
  {
    Enabled(states[i], actions[i]) && states[i + 1] == Next(states[i], actions[i])
  }

  ghost predicate Run(states: seq<Server>, actions: seq<Action>) {
    && |states| == |actions| + 1
    && Initial(states[0])
    && forall i | 0 <= i < |actions| :: StepAt(states, actions, i)
  }

  // ----- Counting the live connections -----

  function Live(connections: seq<Connection>): nat {
    if connections == [] then 0
    else Live(connections[..|connections| - 1]) + if connections[|connections| - 1].live then 1 else 0
  }

  function One(live: bool): int {
    if live then 1 else 0
  }

  lemma {:induction false} LiveUpdate(connections: seq<Connection>, c: nat, next: Connection)
    requires c < |connections|
    ensures Live(connections[c := next]) == Live(connections) - One(connections[c].live) + One(next.live)
  {
    var last := |connections| - 1;
    if c < last {
      LiveUpdate(connections[..last], c, next);
      assert connections[c := next][..last] == connections[..last][c := next];
    } else {
      assert connections[c := next][..last] == connections[..last];
    }
  }

  lemma {:induction false} LiveAppend(connections: seq<Connection>, next: Connection)
    ensures Live(connections + [next]) == Live(connections) + One(next.live)
  {
    assert (connections + [next])[..|connections|] == connections;
  }

  lemma {:induction false} NoneLive(connections: seq<Connection>)
    ensures Live(connections) == 0 <==> forall c | c in connections :: !c.live
  {
    if connections != [] {
      var last := |connections| - 1;
      NoneLive(connections[..last]);
      assert connections == connections[..last] + [connections[last]];
    }
  }

  // ----- Invariant -----

  predicate Told(s: Server, c: Connection) {
    c.told == One(c.fused) && (c.fused ==> s.signalled)
  }

  predicate Inv(s: Server) {
    && s.receivers == Live(s.connections) + One(s.phase == Serving)
    && (forall c | 0 <= c < |s.connections| :: Told(s, s.connections[c]))
    && (s.phase in {Draining, ReturnedOk} ==> s.signalled)
    && (s.phase == ReturnedOk ==> Live(s.connections) == 0)
  }

  lemma {:induction false} NextKeepsInv(s: Server, a: Action)
    requires Inv(s) && Enabled(s, a)
    ensures Inv(Next(s, a))
  {
    match a
    case Accept => AcceptKeepsInv(s);
    case Tell(c) => ReplaceKeepsInv(s, a, c);
    case Finish(c) => ReplaceKeepsInv(s, a, c);
    case _ =>
  }

  lemma {:induction false} AcceptKeepsInv(s: Server)
    requires Inv(s) && Enabled(s, Accept)
    ensures Inv(Next(s, Accept))
  {
    var next, s' := Connection(true, 0, false), Next(s, Accept);
    LiveAppend(s.connections, next);
    forall c | 0 <= c < |s'.connections|
      ensures Told(s', s'.connections[c])
    {
      assert c < |s.connections| ==> Told(s, s.connections[c]);
    }
  }

  lemma {:induction false} ReplaceKeepsInv(s: Server, a: Action, c: nat)
    requires Inv(s) && Enabled(s, a) && (a == Tell(c) || a == Finish(c))
    ensures Inv(Next(s, a))
  {
    var next := Next(s, a).connections[c];
    LiveUpdate(s.connections, c, next);
    assert Told(s, s.connections[c]);
    assert Next(s, a).connections == s.connections[c := next];
    assert s.phase == ReturnedOk ==> Live(s.connections[c := next]) == 0;
  }

  lemma {:induction false} InvOverRuns(states: seq<Server>, actions: seq<Action>, i: nat)
    requires Run(states, actions) && i < |states|
    ensures Inv(states[i])
  {
    if i > 0 {
      InvOverRuns(states, actions, i - 1);
      assert StepAt(states, actions, i - 1);
      NextKeepsInv(states[i - 1], actions[i - 1]);
    }
  }

  // ----- Main results -----

  /** The receivers are the live connections, and the server's own while it still accepts. */
  lemma {:induction false} ReceiversAreConnections(states: seq<Server>, actions: seq<Action>, i: nat)
    requires Run(states, actions) && i < |states|
    ensures states[i].receivers == Live(states[i].connections) + if states[i].phase == Serving then 1 else 0
  {
    InvOverRuns(states, actions, i);
  }

  /** A draining server can return exactly when the last connection has finished; no connection is cut off. */
  lemma {:induction false} ReturnsAfterLastConnection(states: seq<Server>, actions: seq<Action>, i: nat)
    requires Run(states, actions) && i < |states|
    ensures Enabled(states[i], Return) <==>
            states[i].phase == Draining && forall c | c in states[i].connections :: !c.live
    ensures states[i].phase == ReturnedOk ==> states[i].signalled && forall c | c in states[i].connections :: !c.live
  {
    InvOverRuns(states, actions, i);
    NoneLive(states[i].connections);
  }

  /** What `.fuse()` is for: each connection starts its graceful shutdown at most once, and only after the signal. */
  lemma {:induction false} ToldAtMostOnce(states: seq<Server>, actions: seq<Action>, i: nat, c: nat)
    requires Run(states, actions) && i < |states| && c < |states[i].connections|
    ensures states[i].connections[c].told <= 1
    ensures states[i].connections[c].told == 1 ==> states[i].signalled
  {
    InvOverRuns(states, actions, i);
    assert Told(states[i], states[i].connections[c]);
  }

  /** Nothing is accepted once the accept loop is left, and the server never accepts again. */
  lemma {:induction false} NothingAcceptedAfterLoop(states: seq<Server>, actions: seq<Action>, i: nat, j: nat)
    requires Run(states, actions) && i <= j < |states| && states[i].phase != Serving
    ensures states[j].phase != Serving && |states[j].connections| == |states[i].connections|
  {
    if i < j {
      NothingAcceptedAfterLoop(states, actions, i, j - 1);
      assert StepAt(states, actions, j - 1);
    }
  }

  /** A TLS handshake that fails ends `run` with its error: the server accepts no more, and does not drain. */
  lemma {:induction false} FailedHandshakeEnds(states: seq<Server>, actions: seq<Action>, i: nat, j: nat)
    requires Run(states, actions) && i < j < |states| && actions[i] == HandshakeFails
    ensures states[j].phase == ReturnedErr && |states[j].connections| == |states[i].connections|
  {
    assert StepAt(states, actions, j - 1);
    if i < j - 1 {
      FailedHandshakeEnds(states, actions, i, j - 1);
    }
  }

  // ----- The shutdown can always be completed -----

  function TryNext(s: Server, a: Action): Option<Server> {
    if Enabled(s, a) then Some(Next(s, a)) else None
  }

  ghost predicate Leads(s: Server, actions: seq<Action>, last: Server) {
    Path(TryNext, s, actions, last)
  }

  lemma {:induction false} LeadsOneMore(s: Server, actions: seq<Action>, now: Server, a: Action)
    returns (more: seq<Action>, next: Server)
    requires Leads(s, actions, now) && Enabled(now, a) && Inv(now)
    ensures Leads(s, more, next) && next == Next(now, a) && Inv(next)
  {
    PathExtend(TryNext, s, actions, now, a);
    more, next := actions + [a], Next(now, a);
    NextKeepsInv(now, a);
  }

  /** Every connection was told, unless it had ended already in `before`. */
  predicate AllTold(before: seq<Connection>, after: seq<Connection>) {
    |after| == |before| && forall c | 0 <= c < |after| :: !after[c].live && (before[c].live ==> after[c].told == 1)
  }

  /** What is open is told and ends, one connection after the other. */
  lemma {:induction false} EndConnections(s: Server, actions: seq<Action>, now: Server, start: seq<Connection>)
    returns (more: seq<Action>, last: Server)
    requires Leads(s, actions, now) && Inv(now) && now.phase == Draining && |start| == |now.connections|
    requires forall c | 0 <= c < |start| :: now.connections[c].live || (start[c].live ==> now.connections[c].told == 1)
    ensures Leads(s, more, last) && Inv(last) && last.phase == Draining && AllTold(start, last.connections)
    decreases Live(now.connections)
  {
    more, last := actions, now;
    NoneLive(now.connections);
    if c: nat :| c < |now.connections| && now.connections[c].live {
      assert Told(now, now.connections[c]);
      if !now.connections[c].fused {
        more, last := LeadsOneMore(s, more, last, Tell(c));
        LiveUpdate(now.connections, c, last.connections[c]);
      }
      var told := last;
      more, last := LeadsOneMore(s, more, last, Finish(c));
      LiveUpdate(told.connections, c, last.connections[c]);
      more, last := EndConnections(s, more, last, start);
    } else {
      forall c | 0 <= c < |now.connections|
        ensures !now.connections[c].live
      {
        assert now.connections[c] in now.connections;
      }
    }
  }

  /**
   From any state of a server that is still serving, the signal leads to a return of Ok in
   which every connection open at the signal was told to shut down, and has ended.
   */
  lemma {:induction false} ShutdownCompletes(s: Server) returns (actions: seq<Action>, last: Server)
    requires Inv(s) && s.phase == Serving && !s.signalled
    ensures Leads(s, actions, last) && last.phase == ReturnedOk && AllTold(s.connections, last.connections)
  {
    actions, last := LeadsOneMore(s, [], s, Signal);
    actions, last := LeadsOneMore(s, actions, last, LeaveLoop);
    actions, last := EndConnections(s, actions, last, s.connections);
    NoneLive(last.connections);
    actions, last := LeadsOneMore(s, actions, last, Return);
  }
}
