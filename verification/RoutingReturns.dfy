/**
 Whether an ended application can be routed to again, in the joint system: a converse of
 `Joint.EndedIsNeverRouted`, so that the condition there is exact.
 */
module RoutingReturns {
  import opened Wrappers
  import opened Application
  import opened Paths
  import D = Dispatcher
  import L = Lifecycle
  import P = Proxy
  import UpstreamCache
  import LateCallback
  import ProxyInvariants
  import ProxyTheorems
  import StaleRouting
  import opened Joint

  // ----- Continuations -----

  ghost function TryNext(s: System, a: Action): Option<System> {
    if Enabled(s, a) then Some(Next(s, a)) else None
  }

  ghost predicate Leads(s: System, actions: seq<Action>, last: System) {
    Path(TryNext, s, actions, last)
  }

  /** In `last` a request for the token that had no sender in `s` has been forwarded. */
  predicate ForwardsLate(s: P.System, last: P.System, token: D.Token, c: nat, o: nat) {
    && c < |last.channels| && o < |last.channels[c].log| && last.channels[c].log[o].Forwarded?
    && var r := last.channels[c].log[o].request;
       r < |last.requests| && last.requests[r].bearer == Ok(token) && StaleRouting.Late(s.requests, r)
  }

  ghost predicate CanRoute(s: System, token: D.Token) {
    exists actions, last, c: nat, o: nat :: Leads(s, actions, last) && ForwardsLate(s.proxy, last.proxy, token, c, o)
  }

  // ----- If no callback can come -----

  ghost predicate Behind(s: System, id: int, token: D.Token, n: nat, before: seq<P.Request>) {
    JointInv(s) && ProxyInvariants.Inv(s.proxy) && Past(s, id, token) && StaleRouting.Fenced(s.proxy, token, n, before)
  }

  lemma {:induction false} StaysBehind(s: System, a: Action, id: int, token: D.Token, n: nat, before: seq<P.Request>)
    requires Behind(s, id, token, n, before) && Enabled(s, a)
    ensures Behind(Next(s, a), id, token, n, before)
  {
    StaysPast(s, a, id, token);
    NextKeepsJointInv(s, a);
    ProxyInvariants.NextKeepsInv(s.proxy, a.proxy);
    StaleRouting.NextKeepsFence(s.proxy, a.proxy, token, n, before);
  }

  lemma {:induction false} LeadsBehind(s: System, actions: seq<Action>, last: System, id: int, token: D.Token, n: nat, before: seq<P.Request>)
    requires Behind(s, id, token, n, before) && Leads(s, actions, last)
    ensures Behind(last, id, token, n, before)
    decreases |actions|
  {
    if actions != [] {
      StaysBehind(s, actions[0], id, token, n, before);
      LeadsBehind(Next(s, actions[0]), actions[1..], last, id, token, n, before);
    }
  }

  /** Behind a fence only requests that had a sender before it are forwarded. */
  lemma {:induction false} FenceHolds(s: P.System, token: D.Token, n: nat, before: seq<P.Request>, c: nat, o: nat)
    requires ProxyInvariants.Inv(s) && StaleRouting.Fenced(s, token, n, before)
    requires c < |s.channels| && o < |s.channels[c].log|
    requires var r := s.channels[c].log[o].request;
             StaleRouting.Late(before, r) && r < |s.requests| && s.requests[r].bearer == Ok(token)
    ensures s.channels[c].log[o].Rejected?
  {
    var r := s.channels[c].log[o].request;
    assert ProxyInvariants.ChannelOk(s.channels[c], c, s.requests);
    ProxyTheorems.LoggedWasSent(s.channels[c], o);
    ProxyTheorems.SentIsRecorded(s, c, r);
    assert StaleRouting.Behind(before, r, s.requests[r], token, n);
  }

  // ----- If a callback can come -----

  /** The parts of the proxy that no statement touches. */
  predicate SameProxy(s: P.System, t: P.System) {
    s.cache == t.cache && s.channels == t.channels && s.requests == t.requests
  }

  /** Whatever the applications can do, they can do jointly. */
  lemma {:induction false} LifeLeadsJointly(s: System, lifeActions: seq<L.Action>, lastLife: L.System)
    returns (actions: seq<Action>, last: System)
    requires JointInv(s) && L.Leads(s.life, lifeActions, lastLife)
    ensures Leads(s, actions, last) && last.life == lastLife && JointInv(last) && SameProxy(s.proxy, last.proxy)
    decreases |lifeActions|
  {
    if lifeActions == [] {
      actions, last := [], s;
    } else {
      var a := Both(lifeActions[0], Companion(s.life, lifeActions[0]));
      CompanionEnabled(s, lifeActions[0]);
      NextKeepsJointInv(s, a);
      actions, last := LifeLeadsJointly(Next(s, a), lifeActions[1..], lastLife);
      assert ([a] + actions)[1..] == actions;
      actions := [a] + actions;
    }
  }

  /** The action is no statement on the table. */
  predicate Silent(a: P.Action) {
    !a.Execute? && !a.Finish? && (a.OnChannel? ==> !a.ev.MarkedFailed?)
  }

  lemma {:induction false} SilentStep(s: System, actions: seq<Action>, now: System, a: P.Action)
    returns (more: seq<Action>, next: System)
    requires Leads(s, actions, now) && P.Enabled(now.proxy, a) && Silent(a)
    ensures Leads(s, more, next) && next.proxy == P.Next(now.proxy, a)
  {
    PathExtend(TryNext, s, actions, now, Both(L.Stutter, a));
    more, next := actions + [Both(L.Stutter, a)], Next(now, Both(L.Stutter, a));
  }

  /** A new request finds no cached dispatcher, and the row of its token. */
  lemma {:induction false} NewRequest(s: System, actions: seq<Action>, now: System, row: Row)
    returns (more: seq<Action>, next: System)
    requires Leads(s, actions, now) && P.IsRowOf(now.proxy.rows, row.token, Some(row)) && row.token !in now.proxy.cache
    ensures Leads(s, more, next)
    ensures next.proxy == now.proxy.(requests := now.proxy.requests + [P.Request(Ok(row.token), P.Found)])
  {
    var r := |now.proxy.requests|;
    more, next := SilentStep(s, actions, now, P.Arrive(Ok(row.token)));
    more, next := SilentStep(s, more, next, P.FirstLook(r));
    more, next := SilentStep(s, more, next, P.CheckRow(r, Some(row)));
  }

  /** A new request without a cached dispatcher to go to gets one of its own. */
  lemma {:induction false} NewDispatcher(s: System, actions: seq<Action>, now: System, row: Row)
    returns (more: seq<Action>, next: System)
    requires Leads(s, actions, now) && P.IsRowOf(now.proxy.rows, row.token, Some(row)) && row.token !in now.proxy.cache
    ensures Leads(s, more, next) && next.proxy.rows == now.proxy.rows
    ensures next.proxy.requests == now.proxy.requests + [P.Request(Ok(row.token), P.Holding(|now.proxy.channels|))]
    ensures next.proxy.channels == now.proxy.channels + [D.NewChannel(row.token)]
    ensures next.proxy.cache == now.proxy.cache[row.token := |now.proxy.channels|]
  {
    more, next := NewRequest(s, actions, now, row);
    more, next := SilentStep(s, more, next, P.SecondLook(|now.proxy.requests|));
  }

  /** Dispatcher `d` of the token is the cached one. */
  predicate Serves(s: P.System, d: nat, ch: D.Channel) {
    d < |s.channels| && s.channels[d] == ch && ch.token in s.cache && s.cache[ch.token] == d
  }

  lemma {:induction false} ChannelStep(s: System, actions: seq<Action>, now: System, d: nat, ch: D.Channel, ev: D.Event)
    returns (more: seq<Action>, next: System)
    requires Leads(s, actions, now) && Serves(now.proxy, d, ch) && D.Enabled(ch, ev, true)
    requires !ev.MarkedFailed? && !ev.Accept?
    requires ev.Receive? ==> ch.queue[0] < |now.proxy.requests| && now.proxy.requests[ch.queue[0]].bearer == ev.bearer
    requires ev.FindRow? ==> P.IsRowOf(now.proxy.rows, ch.token, ev.row)
    ensures Leads(s, more, next) && Serves(next.proxy, d, D.Next(ch, ev, true))
    ensures next.proxy.rows == now.proxy.rows && next.proxy.requests == now.proxy.requests
  {
    assert P.InCache(now.proxy.cache, now.proxy.channels, d);
    more, next := SilentStep(s, actions, now, P.OnChannel(d, ev));
  }

  /** A dispatcher that reads a RUNNING row connects and forwards the request in hand. */
  lemma {:induction false} ReadAndForward(s: System, actions: seq<Action>, now: System, d: nat, ch: D.Channel, row: Row)
    returns (more: seq<Action>, last: System)
    requires Leads(s, actions, now) && Serves(now.proxy, d, ch) && ch.phase.Querying? && ch.token == row.token
    requires P.IsRowOf(now.proxy.rows, row.token, Some(row)) && row.state == RUNNING && row.address.Some?
    ensures Leads(s, more, last) && last.proxy.requests == now.proxy.requests && d < |last.proxy.channels|
    ensures last.proxy.channels[d].log == ch.log + [D.Forwarded(ch.phase.request, row.address.value)]
  {
    more, last := ChannelStep(s, actions, now, d, ch, D.FindRow(Some(row)));
    var connecting := D.Next(ch, D.FindRow(Some(row)), true);
    more, last := ChannelStep(s, more, last, d, connecting, D.ConnectOk);
    var ready := D.Next(connecting, D.ConnectOk, true);
    more, last := ChannelStep(s, more, last, d, ready, D.Event.Forward);
  }

  lemma {:induction false} Sends(s: System, actions: seq<Action>, now: System, r: nat, d: nat, token: D.Token)
    returns (more: seq<Action>, next: System)
    requires Leads(s, actions, now) && Serves(now.proxy, d, D.NewChannel(token))
    requires r < |now.proxy.requests| && now.proxy.requests[r] == P.Request(Ok(token), P.Holding(d))
    ensures Leads(s, more, next) && Serves(next.proxy, d, D.NewChannel(token).(queue := [r], sent := [r]))
    ensures next.proxy.rows == now.proxy.rows
    ensures r < |next.proxy.requests| == |now.proxy.requests| && next.proxy.requests[r].bearer == Ok(token)
  {
    more, next := SilentStep(s, actions, now, P.Send(r));
    assert [] + [r] == [r];
  }

  /** With the row RUNNING a new request finds the address, and is forwarded. */
  lemma {:induction false} NewRequestForwarded(s: System, actions: seq<Action>, now: System, row: Row)
    returns (more: seq<Action>, last: System)
    requires Leads(s, actions, now) && P.IsRowOf(now.proxy.rows, row.token, Some(row)) && row.token !in now.proxy.cache
    requires row.state == RUNNING && row.address.Some? && |now.proxy.requests| >= |s.proxy.requests|
    ensures Leads(s, more, last) && ForwardsLate(s.proxy, last.proxy, row.token, |now.proxy.channels|, 0)
  {
    var r, d, token := |now.proxy.requests|, |now.proxy.channels|, row.token;
    var ch;
    more, last := NewDispatcher(s, actions, now, row);
    more, last := Sends(s, more, last, r, d, token);
    more, last, ch := Receives(s, more, last, d, D.NewChannel(token).(queue := [r], sent := [r]), r);
    more, last := ReadAndForward(s, more, last, d, ch, row);
  }

  lemma {:induction false} Receives(s: System, actions: seq<Action>, now: System, d: nat, ch: D.Channel, r: nat)
    returns (more: seq<Action>, next: System, querying: D.Channel)
    requires Leads(s, actions, now) && Serves(now.proxy, d, ch)
    requires ch == D.NewChannel(ch.token).(queue := [r], sent := [r])
    requires r < |now.proxy.requests| && now.proxy.requests[r].bearer == Ok(ch.token)
    ensures querying == ch.(queue := [], phase := D.Querying(r))
    ensures Leads(s, more, next) && Serves(next.proxy, d, querying)
    ensures next.proxy.rows == now.proxy.rows && next.proxy.requests == now.proxy.requests
  {
    more, next := ChannelStep(s, actions, now, d, ch, D.Receive(Ok(ch.token)));
    var checking := D.Next(ch, D.Receive(Ok(ch.token)), true);
    more, next := ChannelStep(s, more, next, d, checking, D.SeeOpen);
    querying := D.Next(checking, D.SeeOpen, true);
  }

  // ----- Exactly -----

  /**
   Handler `h` invalidates the token of an application that is not RUNNING. A request without
   a sender at that moment can ever be forwarded, in some continuation, if and only if the
   driver of the application can still make its first callback.
   */
  lemma {:induction false} RoutingReturnsExactly(
    states: seq<System>, actions: seq<Action>, h: nat, v: nat, id: int, token: D.Token)
    requires Run(states, actions) && v < |actions| && actions[v].proxy == P.Invalidate(h)
    requires h < |states[v].proxy.handlers| && states[v].proxy.handlers[h].token == token
    requires id in states[v].proxy.rows && states[v].proxy.rows[id].token == token
    requires states[v].proxy.rows[id].state != RUNNING
    ensures id in states[v + 1].life.sessions
    ensures CanRoute(states[v + 1], token) <==> LateCallback.CallbackPossible(states[v + 1].life.sessions[id])
  {
    var s := states[v + 1];
    FenceUp(states, actions, h, v, id, token);
    if LateCallback.CallbackPossible(s.life.sessions[id]) {
      CallbackRoutes(s, id, token);
    } else {
      forall more, last, c: nat, o: nat | Leads(s, more, last)
        ensures !ForwardsLate(s.proxy, last.proxy, token, c, o)
      {
        LeadsBehind(s, more, last, id, token, |s.proxy.channels|, s.proxy.requests);
        if ForwardsLate(s.proxy, last.proxy, token, c, o) {
          FenceHolds(last.proxy, token, |s.proxy.channels|, s.proxy.requests, c, o);
        }
      }
    }
  }

  lemma {:induction false} FenceUp(states: seq<System>, actions: seq<Action>, h: nat, v: nat, id: int, token: D.Token)
    requires Run(states, actions) && v < |actions| && actions[v].proxy == P.Invalidate(h)
    requires h < |states[v].proxy.handlers| && states[v].proxy.handlers[h].token == token
    requires id in states[v].proxy.rows && states[v].proxy.rows[id].token == token
    requires states[v].proxy.rows[id].state != RUNNING
    ensures var s := states[v + 1];
            && JointInv(s) && ProxyInvariants.Inv(s.proxy) && token !in s.proxy.cache
            && StaleRouting.Fenced(s.proxy, token, |s.proxy.channels|, s.proxy.requests)
            && id in s.life.sessions && s.life.sessions[id].token == token
            && id in s.proxy.rows && s.proxy.rows[id] == states[v].proxy.rows[id]
  {
    OneTable(states, actions, v);
    OneTable(states, actions, v + 1);
    assert StepAt(states, actions, v);
    RunProjects(states, actions);
    ProxyInvariants.InvOverRuns(Proxies(states), ProxyActions(actions), v);
    ProxyInvariants.InvOverRuns(Proxies(states), ProxyActions(actions), v + 1);
    var rows := states[v].proxy.rows;
    forall other | other in rows && rows[other].token == token
      ensures rows[other].state != RUNNING
    {
      assert ProxyInvariants.RowOk(other, rows[other], states[v].proxy.issued, states[v].proxy.registered);
      assert ProxyInvariants.RowOk(id, rows[id], states[v].proxy.issued, states[v].proxy.registered);
    }
    StaleRouting.FenceGoesUp(states[v].proxy, h);
    assert L.SessionInv(id, L.RowAt(states[v + 1].life.rows, id), states[v + 1].life.sessions[id]);
  }

  lemma {:induction false} CallbackRoutes(s: System, id: int, token: D.Token)
    requires JointInv(s) && id in s.proxy.rows && s.proxy.rows[id].token == token && token !in s.proxy.cache
    requires LateCallback.CallbackPossible(s.life.sessions[id])
    ensures CanRoute(s, token)
  {
    var lifeActions, running := LateCallback.DriverCanStart(s.life, id);
    var actions, now := LifeLeadsJointly(s, lifeActions, running);
    assert L.SessionInv(id, L.RowAt(now.life.rows, id), now.life.sessions[id]);
    TokenStays(s, actions, now, id);
    var row := now.proxy.rows[id];
    var more, last := NewRequestForwarded(s, actions, now, row);
  }

  lemma {:induction false} TokenStays(s: System, actions: seq<Action>, last: System, id: int)
    requires JointInv(s) && Leads(s, actions, last) && id in s.life.sessions
    ensures id in last.life.sessions && last.life.sessions[id].token == s.life.sessions[id].token
    decreases |actions|
  {
    if actions != [] {
      LifeTokens(s.life, actions[0].life);
      NextKeepsJointInv(s, actions[0]);
      TokenStays(Next(s, actions[0]), actions[1..], last, id);
    }
  }
}
