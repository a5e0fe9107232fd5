/**
 The applications of `Lifecycle` and the proxy of `Proxy` over the same table. A joint step
 is a step of each, or of one while the other stutters, and what one executes on the table
 the other executes too: a callback the proxy sees is one that a driver has made.
 */
module Joint {
  import opened Wrappers
  import opened Application
  import D = Dispatcher
  import L = Lifecycle
  import P = Proxy
  import LateCallback
  import StaleRouting

  datatype System = System(life: L.System, proxy: P.System)

  datatype Action = Both(life: L.Action, proxy: P.Action)

  /** What the step of an application, or of the actors around it, executes. */
  function LifeStatement(life: L.System, a: L.Action): Option<Write>
    requires a.On? ==> a.id in life.sessions
  {
    match a
    case Create(id, createdAt, username, name, token) => Some(Insert(id, createdAt, username, name, token))
    case On(id, step) => L.Statement(id, life.sessions[id], step)
    case External(w) => Some(w)
    case Stutter => None
  }

  /** What the step of the proxy, or of the handlers around it, executes. */
  function ProxyStatement(proxy: P.System, a: P.Action): Option<Write>
    requires a.Finish? ==> a.handler < |proxy.handlers|
    requires a.OnChannel? ==> a.channel < |proxy.channels|
  {
    match a
    case Execute(w) => Some(w)
    case Finish(h) => Some(proxy.handlers[h].write)
    case OnChannel(c, ev) => if ev.MarkedFailed? then Some(MarkFailed(proxy.channels[c].token)) else None
    case _ => None
  }

  ghost predicate Enabled(s: System, a: Action) {
    && L.Enabled(s.life, a.life) && P.Enabled(s.proxy, a.proxy)
    && LifeStatement(s.life, a.life) == ProxyStatement(s.proxy, a.proxy)
  }

  ghost function Next(s: System, a: Action): System
    requires Enabled(s, a)
  {
    System(L.Next(s.life, a.life), P.Next(s.proxy, a.proxy))
  }

  ghost predicate StepAt(states: seq<System>, actions: seq<Action>, i: nat)
    requires |states| == |actions| + 1 && i < |actions|
  {
    Enabled(states[i], actions[i]) && states[i + 1] == Next(states[i], actions[i])
  }

  ghost predicate Run(states: seq<System>, actions: seq<Action>) {
    && |states| == |actions| + 1
    && L.Initial(states[0].life) && P.Initial(states[0].proxy)
    && forall i | 0 <= i < |actions| :: StepAt(states, actions, i)
  }

  // ----- Projections -----

  function Lives(states: seq<System>): seq<L.System> {
    seq(|states|, i requires 0 <= i < |states| => states[i].life)
  }

  function Proxies(states: seq<System>): seq<P.System> {
    seq(|states|, i requires 0 <= i < |states| => states[i].proxy)
  }

  function LifeActions(actions: seq<Action>): seq<L.Action> {
    seq(|actions|, i requires 0 <= i < |actions| => actions[i].life)
  }

  function ProxyActions(actions: seq<Action>): seq<P.Action> {
    seq(|actions|, i requires 0 <= i < |actions| => actions[i].proxy)
  }

  /** Both halves of a joint run are runs, so what is proved of either holds of it. */
  lemma {:induction false} RunProjects(states: seq<System>, actions: seq<Action>)
    requires Run(states, actions)
    ensures L.Run(Lives(states), LifeActions(actions))
    ensures P.Run(Proxies(states), ProxyActions(actions))
  {
    forall i | 0 <= i < |actions|
      ensures L.StepAt(Lives(states), LifeActions(actions), i) && P.StepAt(Proxies(states), ProxyActions(actions), i)
    {
      assert StepAt(states, actions, i);
    }
  }

  // ----- One table -----

  /** The tokens the proxy knows as issued are those of the applications. */
  predicate Linked(sessions: map<int, L.Session>, issued: map<D.Token, int>) {
    && (forall id | id in sessions :: sessions[id].token in issued && issued[sessions[id].token] == id)
    && (forall token | token in issued :: issued[token] in sessions && sessions[issued[token]].token == token)
  }

  lemma {:induction false} LifeWrites(life: L.System, a: L.Action)
    requires L.Enabled(life, a)
    ensures L.Next(life, a).rows == L.Execute(LifeStatement(life, a), life.rows)
  {
  }

  lemma {:induction false} ProxyWrites(proxy: P.System, a: P.Action)
    requires P.Enabled(proxy, a)
    ensures P.Next(proxy, a).rows == L.Execute(ProxyStatement(proxy, a), proxy.rows)
  {
    match a
    case Execute(w) =>
    case Finish(h) =>
    case OnChannel(c, ev) => StepWrites(proxy, c, ev);
    case _ => StaleRouting.RowWriters(proxy, a);
  }

  lemma {:induction false} StepWrites(proxy: P.System, c: nat, ev: D.Event)
    requires P.CanStep(proxy, c, ev)
    ensures P.DoStep(proxy, c, ev).rows ==
            if ev.MarkedFailed? then Apply(MarkFailed(proxy.channels[c].token), proxy.rows) else proxy.rows
  {
  }

  lemma {:induction false} ProxyIssues(proxy: P.System, a: P.Action)
    requires P.Enabled(proxy, a)
    ensures P.Next(proxy, a).issued == if a.Execute? then P.Issue(a.w, proxy.issued) else proxy.issued
  {
    match a
    case OnChannel(c, ev) => assert P.DoStep(proxy, c, ev).issued == proxy.issued;
    case Send(r) => assert P.DoSend(proxy, r).issued == proxy.issued;
    case SecondLook(r) => assert P.DoSecondLook(proxy, r).issued == proxy.issued;
    case _ =>
  }

  lemma {:induction false} InsertIsExecuted(s: System, a: Action)
    requires Enabled(s, a) && s.life.rows == s.proxy.rows && Handlers(s.proxy)
    ensures a.life.Create? <==> a.proxy.Execute? && a.proxy.w.Insert?
    ensures a.life.Create? ==> a.proxy.w.id == a.life.id && a.proxy.w.token == a.life.token
  {
    if a.proxy.Finish? {
      assert !s.proxy.handlers[a.proxy.handler].write.Insert?;
    }
  }

  /** The handlers only end applications. */
  predicate Handlers(proxy: P.System) {
    forall h | 0 <= h < |proxy.handlers| :: proxy.handlers[h].write.Delete? || proxy.handlers[h].write.CallbackDelete?
  }

  lemma {:induction false} HandlersStay(proxy: P.System, a: P.Action)
    requires Handlers(proxy) && P.Enabled(proxy, a)
    ensures Handlers(P.Next(proxy, a))
  {
  }

  /** Applications come by `Create` and keep their tokens. */
  predicate SameTokens(sessions: map<int, L.Session>, later: map<int, L.Session>) {
    sessions.Keys == later.Keys && forall id | id in sessions :: later[id].token == sessions[id].token
  }

  function NewSession(a: L.Action): L.Session
    requires a.Create?
  {
    L.Session(a.token, a.username, L.Inserted, false, L.IDLE_DRIVER, [])
  }

  lemma {:induction false} LifeTokens(life: L.System, a: L.Action)
    requires L.Enabled(life, a)
    ensures a.Create? ==> L.Next(life, a).sessions == life.sessions[a.id := NewSession(a)]
    ensures !a.Create? ==> SameTokens(life.sessions, L.Next(life, a).sessions)
  {
    if a.On? {
      assert L.Move(life.sessions[a.id], L.RowAt(life.rows, a.id), a.step).token == life.sessions[a.id].token;
    }
  }

  lemma {:induction false} CreateLinks(sessions: map<int, L.Session>, issued: map<D.Token, int>, id: int, session: L.Session)
    requires Linked(sessions, issued) && id !in sessions && forall other | other in sessions :: sessions[other].token != session.token
    ensures Linked(sessions[id := session], issued[session.token := id])
  {
  }

  lemma {:induction false} LinkKept(s: System, a: Action)
    requires Enabled(s, a) && s.life.rows == s.proxy.rows && Handlers(s.proxy)
    requires Linked(s.life.sessions, s.proxy.issued)
    ensures Linked(L.Next(s.life, a.life).sessions, P.Next(s.proxy, a.proxy).issued)
  {
    ProxyIssues(s.proxy, a.proxy);
    InsertIsExecuted(s, a);
    LifeTokens(s.life, a.life);
    if a.life.Create? {
      CreateLinks(s.life.sessions, s.proxy.issued, a.life.id, NewSession(a.life));
    }
  }

  ghost predicate JointInv(s: System) {
    && s.life.rows == s.proxy.rows && Handlers(s.proxy)
    && Linked(s.life.sessions, s.proxy.issued)
    && L.Inv(s.life)
  }

  lemma {:induction false} NextKeepsJointInv(s: System, a: Action)
    requires JointInv(s) && Enabled(s, a)
    ensures JointInv(Next(s, a))
  {
    LifeWrites(s.life, a.life);
    ProxyWrites(s.proxy, a.proxy);
    HandlersStay(s.proxy, a.proxy);
    LinkKept(s, a);
    L.NextKeepsInv(s.life, a.life);
  }

  /** In every state of a joint run both halves see the same rows. */
  lemma {:induction false} OneTable(states: seq<System>, actions: seq<Action>, i: nat)
    requires Run(states, actions) && i < |states|
    ensures JointInv(states[i])
  {
    if i > 0 {
      OneTable(states, actions, i - 1);
      assert StepAt(states, actions, i - 1);
      NextKeepsJointInv(states[i - 1], actions[i - 1]);
    }
  }

  // ----- Nothing is excluded -----

  /** The step of the proxy that goes with a step of the applications. */
  function Companion(life: L.System, a: L.Action): P.Action
    requires a.On? ==> a.id in life.sessions
  {
    match LifeStatement(life, a)
    case Some(w) => P.Execute(w)
    case None => P.Stutter
  }

  lemma {:induction false} CompanionEnabled(s: System, a: L.Action)
    requires JointInv(s) && L.Enabled(s.life, a)
    ensures Enabled(s, Both(a, Companion(s.life, a)))
  {
    if a.Create? {
      forall token | token in s.proxy.issued
        ensures token != a.token && s.proxy.issued[token] != a.id
      {
        var id := s.proxy.issued[token];
        assert id in s.life.sessions && s.life.sessions[id].token == token;
      }
    }
  }

  /** Every run of the applications is half of a joint run: the coupling forbids none. */
  lemma {:induction false} EveryLifeIsJoint(lives: seq<L.System>, lifeActions: seq<L.Action>)
    returns (states: seq<System>, actions: seq<Action>)
    requires L.Run(lives, lifeActions)
    ensures Run(states, actions) && Lives(states) == lives && LifeActions(actions) == lifeActions
    decreases |lifeActions|
  {
    if lifeActions == [] {
      states, actions := [System(lives[0], P.System(map[], map[], [], [], [], map[], {}, multiset{}))], [];
    } else {
      var n := |lifeActions| - 1;
      LifePrefix(lives, lifeActions, n);
      states, actions := EveryLifeIsJoint(lives[..n + 1], lifeActions[..n]);
      OneTable(states, actions, n);
      assert Lives(states)[n] == lives[n];
      assert L.StepAt(lives, lifeActions, n);
      var a := Both(lifeActions[n], Companion(lives[n], lifeActions[n]));
      CompanionEnabled(states[n], lifeActions[n]);
      ExtendRun(states, actions, a);
      assert lives == lives[..n + 1] + [lives[n + 1]] && lifeActions == lifeActions[..n] + [lifeActions[n]];
      assert Lives(states + [Next(states[n], a)]) == Lives(states) + [lives[n + 1]];
      assert LifeActions(actions + [a]) == LifeActions(actions) + [lifeActions[n]];
      states, actions := states + [Next(states[n], a)], actions + [a];
    }
  }

  lemma {:induction false} LifePrefix(lives: seq<L.System>, lifeActions: seq<L.Action>, n: nat)
    requires L.Run(lives, lifeActions) && n < |lifeActions|
    ensures L.Run(lives[..n + 1], lifeActions[..n])
  {
    var first, firstActions := lives[..n + 1], lifeActions[..n];
    forall i | 0 <= i < n
      ensures L.StepAt(first, firstActions, i)
    {
      assert L.StepAt(lives, lifeActions, i);
    }
  }

  lemma {:induction false} ExtendRun(states: seq<System>, actions: seq<Action>, a: Action)
    requires Run(states, actions) && Enabled(states[|actions|], a)
    ensures Run(states + [Next(states[|actions|], a)], actions + [a])
  {
    var more := states + [Next(states[|actions|], a)];
    forall i | 0 <= i < |actions + [a]|
      ensures StepAt(more, actions + [a], i)
    {
      assert i < |actions| ==> StepAt(states, actions, i);
    }
  }

  /** `delete_app` runs jointly: it reads the row, writes FINISHED and invalidates the token of the application. */
  lemma {:induction false} DeleteRunsJointly(s: System, id: int) returns (found: System, marked: System)
    requires JointInv(s) && id in s.proxy.rows
    ensures id in s.life.sessions
    ensures var session, h := s.life.sessions[id], |s.proxy.handlers|;
            var find := Both(L.On(id, L.FindForDelete), P.BeginDelete(id, session.username));
            var mark := Both(L.On(id, L.MarkFinished(|session.deleters|)), P.Finish(h));
            && Enabled(s, find) && found == Next(s, find)
            && Enabled(found, mark) && marked == Next(found, mark)
            && Enabled(marked, Both(L.Stutter, P.Invalidate(h)))
            && marked.proxy.handlers[h].token == session.token
  {
    var session, h := s.life.sessions[id], |s.proxy.handlers|;
    assert L.SessionInv(id, L.RowAt(s.life.rows, id), session);
    var find := Both(L.On(id, L.FindForDelete), P.BeginDelete(id, session.username));
    found := Next(s, find);
    assert found.proxy.handlers[h] == P.Handler(session.token, Delete(id, session.username), P.Pending);
    marked := MarkRunsJointly(found, id, |session.deleters|, h);
  }

  lemma {:induction false} MarkRunsJointly(found: System, id: int, d: nat, h: nat) returns (marked: System)
    requires id in found.life.sessions && d < |found.life.sessions[id].deleters| && found.life.sessions[id].deleters[d].Found?
    requires h < |found.proxy.handlers| && found.proxy.handlers[h].phase == P.Pending
    requires found.proxy.handlers[h].write == Delete(id, found.life.sessions[id].username)
    ensures var mark := Both(L.On(id, L.MarkFinished(d)), P.Finish(h));
            && Enabled(found, mark) && marked == Next(found, mark)
            && Enabled(marked, Both(L.Stutter, P.Invalidate(h)))
            && marked.proxy.handlers[h].token == found.proxy.handlers[h].token
  {
    marked := Next(found, Both(L.On(id, L.MarkFinished(d)), P.Finish(h)));
  }

  // ----- Callbacks -----

  /** A callback the proxy sees is the callback of the driver of that token, and possible only before its first. */
  lemma {:induction false} CallbackOfDriver(s: System, a: Action, token: D.Token)
    requires JointInv(s) && Enabled(s, a) && StaleRouting.IsCallback(a.proxy, token)
    ensures a.life.On? && a.life.step.ServePost? && s.life.sessions[a.life.id].token == token
    ensures LateCallback.CallbackPossible(s.life.sessions[a.life.id])
  {
    var id := a.life.id;
    assert L.SessionInv(id, L.RowAt(s.life.rows, id), s.life.sessions[id]);
  }

  /** The application has the token, and its driver can make no callback any more. */
  predicate Past(s: System, id: int, token: D.Token) {
    id in s.life.sessions && s.life.sessions[id].token == token && !LateCallback.CallbackPossible(s.life.sessions[id])
  }

  lemma {:induction false} StaysPast(s: System, a: Action, id: int, token: D.Token)
    requires JointInv(s) && Enabled(s, a) && Past(s, id, token)
    ensures Past(Next(s, a), id, token) && !StaleRouting.IsCallback(a.proxy, token)
  {
    LifeTokens(s.life, a.life);
    if a.life.On? && a.life.id == id {
      var row := L.RowAt(s.life.rows, id);
      assert L.SessionInv(id, row, s.life.sessions[id]);
      LateCallback.MoveStaysImpossible(s.life.sessions[id], row, a.life.step);
    }
    if StaleRouting.IsCallback(a.proxy, token) {
      CallbackOfDriver(s, a, token);
    }
  }

  lemma {:induction false} PastOneMore(states: seq<System>, actions: seq<Action>, j: nat, id: int, token: D.Token)
    requires Run(states, actions) && j < |actions| && Past(states[j], id, token)
    ensures Past(states[j + 1], id, token) && !StaleRouting.IsCallback(actions[j].proxy, token)
  {
    OneTable(states, actions, j);
    assert StepAt(states, actions, j);
    StaysPast(states[j], actions[j], id, token);
  }

  lemma {:induction false} PastOverRuns(states: seq<System>, actions: seq<Action>, i: nat, j: nat, id: int, token: D.Token)
    requires Run(states, actions) && i <= j < |states| && Past(states[i], id, token)
    ensures Past(states[j], id, token)
  {
    if i < j {
      PastOverRuns(states, actions, i, j - 1, id, token);
      PastOneMore(states, actions, j - 1, id, token);
    }
  }

  lemma {:induction false} CallbackMakesPast(s: System, a: Action, token: D.Token)
    requires JointInv(s) && Enabled(s, a) && StaleRouting.IsCallback(a.proxy, token)
    ensures a.life.On? && Past(Next(s, a), a.life.id, token)
  {
    CallbackOfDriver(s, a, token);
  }

  lemma {:induction false} NoSecondCallback(states: seq<System>, actions: seq<Action>, i: nat, j: nat, token: D.Token)
    requires Run(states, actions) && i < j < |actions| && StaleRouting.IsCallback(actions[i].proxy, token)
    ensures !StaleRouting.IsCallback(actions[j].proxy, token)
  {
    OneTable(states, actions, i);
    assert StepAt(states, actions, i);
    CallbackMakesPast(states[i], actions[i], token);
    PastOverRuns(states, actions, i + 1, j, actions[i].life.id, token);
    PastOneMore(states, actions, j, actions[i].life.id, token);
  }

  /** After a callback its driver makes none: the assumption of `StaleRouting.NoRoutingEverAfter` holds of every joint run. */
  lemma {:induction false} DriversCallBackOnce(states: seq<System>, actions: seq<Action>, token: D.Token)
    requires Run(states, actions)
    ensures StaleRouting.CallsBackOnce(ProxyActions(actions), token)
  {
    forall i, j | 0 <= i < j < |actions| && StaleRouting.IsCallback(actions[i].proxy, token)
      ensures !StaleRouting.IsCallback(actions[j].proxy, token)
    {
      NoSecondCallback(states, actions, i, j, token);
    }
  }

  // ----- From the driver to the routing -----

  /**
   End to end. An application is ended by handler `h`, FINISHED at step `w` and invalidated
   at step `v`, when its driver can make no callback any more. Then at no later time has any
   request for its token that had no sender at the invalidation been forwarded, and the
   cached dispatcher has neither an address nor a connection.
   */
  lemma {:induction false} EndedIsNeverRouted(
    states: seq<System>, actions: seq<Action>, h: nat, w: nat, v: nat, k: nat, id: int, token: D.Token, r: D.RequestId)
    requires Run(states, actions) && w < v < k <= |actions|
    requires actions[w].proxy == P.Finish(h) && actions[v].proxy == P.Invalidate(h)
    requires h < |states[w].proxy.handlers| && token == states[w].proxy.handlers[h].token
    requires Past(states[w], id, token)
    requires r < |states[k].proxy.requests| && states[k].proxy.requests[r].bearer == Ok(token)
    requires StaleRouting.Late(states[v + 1].proxy.requests, r)
    ensures forall c, o | 0 <= c < |states[k].proxy.channels| && 0 <= o < |states[k].proxy.channels[c].log| ::
              states[k].proxy.channels[c].log[o].request == r ==> states[k].proxy.channels[c].log[o].Rejected?
    ensures var s := states[k].proxy;
            token in s.cache ==> s.cache[token] < |s.channels| && StaleRouting.Untouched(s.channels[s.cache[token]])
  {
    RunProjects(states, actions);
    var proxies, proxyActions := Proxies(states), ProxyActions(actions);
    forall j | w + 1 <= j < k && j < |proxyActions|
      ensures !StaleRouting.IsCallback(proxyActions[j], token)
    {
      PastOverRuns(states, actions, w, j, id, token);
      PastOneMore(states, actions, j, id, token);
    }
    StaleRouting.NoStaleRouting(proxies, proxyActions, h, w, v, k, token, r);
  }

  /** The same from the row: it is enough that the row FINISHED is written to has an application id. */
  lemma {:induction false} RegisteredThenEnded(
    states: seq<System>, actions: seq<Action>, h: nat, w: nat, v: nat, k: nat, id: int, token: D.Token, r: D.RequestId)
    requires Run(states, actions) && w < v < k <= |actions|
    requires actions[w].proxy == P.Finish(h) && actions[v].proxy == P.Invalidate(h)
    requires h < |states[w].proxy.handlers| && token == states[w].proxy.handlers[h].token
    requires id in states[w].proxy.rows && states[w].proxy.rows[id].token == token
    requires states[w].proxy.rows[id].applicationId.Some?
    requires r < |states[k].proxy.requests| && states[k].proxy.requests[r].bearer == Ok(token)
    requires StaleRouting.Late(states[v + 1].proxy.requests, r)
    ensures forall c, o | 0 <= c < |states[k].proxy.channels| && 0 <= o < |states[k].proxy.channels[c].log| ::
              states[k].proxy.channels[c].log[o].request == r ==> states[k].proxy.channels[c].log[o].Rejected?
  {
    OneTable(states, actions, w);
    LateCallback.RegisteredIsPast(states[w].life, id);
    assert L.SessionInv(id, L.RowAt(states[w].life.rows, id), states[w].life.sessions[id]);
    EndedIsNeverRouted(states, actions, h, w, v, k, id, token, r);
  }
}
