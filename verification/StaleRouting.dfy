/**
 Ending an application fences its token: `delete_app` and `app_callback_delete` write
 FINISHED first and invalidate the cache afterwards, and that order is enough, whatever
 lookups and resolutions are under way at the time.
 */
module StaleRouting {
  import opened Wrappers
  import opened Application
  import opened Dispatcher
  import opened UpstreamCache
  import opened Proxy
  import opened ProxyInvariants
  import opened ProxyTheorems

  // ----- The row stays down -----

  /** No row of the token is RUNNING. */
  ghost predicate Down(rows: Table, token: Token) {
    forall id | id in rows && rows[id].token == token :: rows[id].state != RUNNING
  }

  predicate IsCallback(a: Action, token: Token) {
    a.Execute? && a.w.Callback? && a.w.token == token
  }

  lemma {:induction false} ApplyKeepsDown(rows: Table, w: Write, token: Token)
    requires Down(rows, token) && !(w.Callback? && w.token == token)
    ensures Down(Apply(w, rows), token)
  {
  }

  /** A handler that ends an application writes FINISHED. */
  lemma {:induction false} FinishKeepsDown(s: System, h: nat, token: Token)
    requires h < |s.handlers| && HandlerOk(s.handlers[h], s.rows, s.issued) && Down(s.rows, token)
    ensures Down(DoFinish(s, h).rows, token)
  {
    ApplyKeepsDown(s.rows, s.handlers[h].write, token);
  }

  lemma {:induction false} StepKeepsDown(s: System, c: nat, ev: Event, token: Token)
    requires CanStep(s, c, ev) && Down(s.rows, token)
    ensures Down(DoStep(s, c, ev).rows, token)
  {
    ApplyKeepsDown(s.rows, MarkFailed(s.channels[c].token), token);
  }

  lemma {:induction false} RowWriters(s: System, a: Action)
    requires Proxy.Enabled(s, a) && !a.Execute? && !a.Finish? && !a.OnChannel?
    ensures Proxy.Next(s, a).rows == s.rows
  {
    match a
    case Send(r) => assert DoSend(s, r).rows == s.rows;
    case SecondLook(r) => assert DoSecondLook(s, r).rows == s.rows;
    case _ =>
  }

  lemma {:induction false} DownUntilCallback(s: System, a: Action, token: Token)
    requires HandlersOk(s.handlers, s.rows, s.issued)
    requires Proxy.Enabled(s, a) && Down(s.rows, token) && !IsCallback(a, token)
    ensures Down(Proxy.Next(s, a).rows, token)
  {
    match a
    case Execute(w) => ApplyKeepsDown(s.rows, w, token);
    case Finish(h) => FinishKeepsDown(s, h, token);
    case OnChannel(c, ev) => StepKeepsDown(s, c, ev, token);
    case _ => RowWriters(s, a);
  }

  /** The statement of the handler finds every row of its token. */
  lemma {:induction false} FinishBringsDown(s: System, h: nat)
    requires Inv(s) && Proxy.Enabled(s, Finish(h))
    ensures Down(Proxy.Next(s, Finish(h)).rows, s.handlers[h].token)
  {
    var handler := s.handlers[h];
    assert HandlerOk(handler, s.rows, s.issued);
    forall id | id in s.rows && s.rows[id].token == handler.token
      ensures Selects(handler.write, s.rows[id])
    {
      assert RowOk(id, s.rows[id], s.issued, s.registered);
    }
  }

  // ----- The fence -----

  /** The task has never had an address: it holds no connection and has forwarded nothing. */
  predicate Untouched(ch: Channel) {
    && ch.upstream.None?
    && (ch.phase.Receiving? || ch.phase.Checking? || ch.phase.Querying? || ch.phase.Exited? || ch.phase.Crashed?)
    && forall i | 0 <= i < |ch.log| :: ch.log[i].Rejected?
  }

  /** The request had no channel when the fence went up, or has come since. */
  predicate Late(before: seq<Request>, r: nat) {
    r >= |before| || Via(before[r].phase) == None
  }

  predicate Behind(before: seq<Request>, r: nat, req: Request, token: Token, n: nat) {
    Late(before, r) && req.bearer == Ok(token) ==> Via(req.phase) == None || Via(req.phase).value >= n
  }

  /**
   `n` channels and the requests `before` existed when the token was invalidated. Since then
   whatever is cached for the token is newer than that, and newer dispatchers are untouched.
   */
  ghost predicate Fenced(s: System, token: Token, n: nat, before: seq<Request>) {
    && Down(s.rows, token)
    && n <= |s.channels| && |before| <= |s.requests|
    && (token in s.cache ==> s.cache[token] >= n)
    && (forall c | n <= c < |s.channels| :: s.channels[c].token == token ==> Untouched(s.channels[c]))
    && (forall r | 0 <= r < |s.requests| :: Behind(before, r, s.requests[r], token, n))
  }

  lemma {:induction false} FenceGoesUp(s: System, h: nat)
    requires Proxy.Enabled(s, Proxy.Invalidate(h)) && Down(s.rows, s.handlers[h].token)
    ensures var s' := Proxy.Next(s, Proxy.Invalidate(h)); Fenced(s', s.handlers[h].token, |s'.channels|, s'.requests)
  {
  }

  /** With no RUNNING row to find, a dispatcher has no way to an address. */
  lemma {:induction false} StaysUntouched(ch: Channel, ev: Event, open: bool)
    requires Dispatcher.Enabled(ch, ev, open) && Untouched(ch)
    requires ev.FindRow? && ev.row.Some? ==> ev.row.value.state != RUNNING
    ensures Untouched(Dispatcher.Next(ch, ev, open))
  {
  }

  lemma {:induction false} StepKeepsUntouched(s: System, c: nat, ev: Event, token: Token)
    requires CanStep(s, c, ev) && Down(s.rows, token) && s.channels[c].token == token && Untouched(s.channels[c])
    ensures Untouched(DoStep(s, c, ev).channels[c])
  {
    StaysUntouched(s.channels[c], ev, Open(s, c));
  }

  lemma {:induction false} StepKeepsFence(s: System, c: nat, ev: Event, token: Token, n: nat, before: seq<Request>)
    requires Inv(s) && CanStep(s, c, ev) && Fenced(s, token, n, before)
    ensures Fenced(DoStep(s, c, ev), token, n, before)
  {
    StepKeepsDown(s, c, ev, token);
    EventKeepsIdentity(s.channels[c], ev, Open(s, c));
    if c >= n && s.channels[c].token == token {
      StepKeepsUntouched(s, c, ev, token);
    }
  }

  /** A request that takes a sender takes it from the cache, which is behind the fence. */
  lemma {:induction false} PhaseKeepsFence(s: System, r: nat, phase: RequestPhase, token: Token, n: nat, before: seq<Request>)
    requires Fenced(s, token, n, before) && r < |s.requests|
    requires Behind(before, r, s.requests[r].(phase := phase), token, n)
    ensures Fenced(SetPhase(s, r, phase), token, n, before)
  {
    var s' := SetPhase(s, r, phase);
    forall k | 0 <= k < |s'.requests|
      ensures Behind(before, k, s'.requests[k], token, n)
    {
      assert Behind(before, k, s.requests[k], token, n);
    }
  }

  lemma {:induction false} CreateKeepsFence(s: System, created: Token, token: Token, n: nat, before: seq<Request>)
    requires Fenced(s, token, n, before)
    requires LiveSender(s.cache, created, Closed(s.channels)).None?
    ensures Fenced(Create(s, created), token, n, before)
  {
  }

  lemma {:induction false} SecondLookKeepsFence(s: System, r: nat, token: Token, n: nat, before: seq<Request>)
    requires AtPhase(s, r, Found) && Fenced(s, token, n, before)
    ensures Fenced(DoSecondLook(s, r), token, n, before)
  {
    var own := s.requests[r].bearer.value;
    if LiveSender(s.cache, own, Closed(s.channels)).Some? {
      PhaseKeepsFence(s, r, Holding(s.cache[own]), token, n, before);
    } else {
      CreateKeepsFence(s, own, token, n, before);
      PhaseKeepsFence(Create(s, own), r, Holding(|s.channels|), token, n, before);
    }
  }

  lemma {:induction false} FirstLookKeepsFence(s: System, r: nat, token: Token, n: nat, before: seq<Request>)
    requires AtPhase(s, r, Arrived) && Fenced(s, token, n, before)
    ensures Fenced(DoFirstLook(s, r), token, n, before)
  {
    var own := s.requests[r].bearer.value;
    match LiveSender(s.cache, own, Closed(s.channels))
    case Some(c) => PhaseKeepsFence(s, r, Holding(c), token, n, before);
    case None => PhaseKeepsFence(s, r, Looking, token, n, before);
  }

  lemma {:induction false} SendKeepsFence(s: System, r: nat, token: Token, n: nat, before: seq<Request>)
    requires Inv(s) && Proxy.Enabled(s, Send(r)) && Fenced(s, token, n, before)
    ensures Fenced(DoSend(s, r), token, n, before)
  {
    var c := s.requests[r].phase.channel;
    assert Behind(before, r, s.requests[r], token, n);
    if Running(s.channels[c].phase) {
      var next := Dispatcher.Next(s.channels[c], Accept(r), true);
      var s1 := s.(channels := s.channels[c := next]);
      assert Fenced(s1, token, n, before);
      PhaseKeepsFence(s1, r, Awaiting(c), token, n, before);
    } else {
      PhaseKeepsFence(s, r, SendFailed(c), token, n, before);
    }
  }

  lemma {:induction false} ArriveKeepsFence(s: System, bearer: Extracted, token: Token, n: nat, before: seq<Request>)
    requires Fenced(s, token, n, before)
    ensures Fenced(Proxy.Next(s, Arrive(bearer)), token, n, before)
  {
    var s' := Proxy.Next(s, Arrive(bearer));
    forall k | 0 <= k < |s'.requests|
      ensures Behind(before, k, s'.requests[k], token, n)
    {
      assert k < |s.requests| ==> Behind(before, k, s.requests[k], token, n);
    }
  }

  lemma {:induction false} EndKeepsFence(s: System, r: nat, phase: RequestPhase, token: Token, n: nat, before: seq<Request>)
    requires r < |s.requests| && Fenced(s, token, n, before)
    requires Via(phase) == None || Via(phase) == Via(s.requests[r].phase)
    ensures Fenced(SetPhase(s, r, phase), token, n, before)
  {
    assert Behind(before, r, s.requests[r], token, n);
    PhaseKeepsFence(s, r, phase, token, n, before);
  }

  lemma {:induction false} CleanUpKeepsFence(s: System, r: nat, token: Token, n: nat, before: seq<Request>)
    requires Proxy.Enabled(s, CleanUp(r)) && Fenced(s, token, n, before)
    ensures Fenced(DoCleanUp(s, r), token, n, before)
  {
    var own := s.requests[r].bearer.value;
    var removed := s.(cache := AfterRemoveClosed(s.cache, own, Closed(s.channels)), losses := DoCleanUp(s, r).losses);
    EndKeepsFence(removed, r, Proxy.RequestPhase.Finished(None), token, n, before);
  }

  lemma {:induction false} ExecuteKeepsFence(s: System, w: Write, token: Token, n: nat, before: seq<Request>)
    requires Fenced(s, token, n, before) && !(w.Callback? && w.token == token)
    ensures Fenced(DoExecute(s, w), token, n, before)
  {
    ApplyKeepsDown(s.rows, w, token);
  }

  lemma {:induction false} FinishKeepsFence(s: System, h: nat, token: Token, n: nat, before: seq<Request>)
    requires h < |s.handlers| && HandlerOk(s.handlers[h], s.rows, s.issued) && Fenced(s, token, n, before)
    ensures Fenced(DoFinish(s, h), token, n, before)
  {
    FinishKeepsDown(s, h, token);
  }

  lemma {:induction false} InvalidateKeepsFence(s: System, h: nat, token: Token, n: nat, before: seq<Request>)
    requires h < |s.handlers| && Fenced(s, token, n, before)
    ensures Fenced(DoInvalidate(s, h), token, n, before)
  {
  }

  lemma {:induction false} HandlersKeepFence(s: System, handlers: seq<Handler>, token: Token, n: nat, before: seq<Request>)
    requires Fenced(s, token, n, before)
    ensures Fenced(s.(handlers := handlers), token, n, before)
  {
  }

  lemma {:induction false} NextKeepsFence(s: System, a: Action, token: Token, n: nat, before: seq<Request>)
    requires Inv(s) && Proxy.Enabled(s, a) && Fenced(s, token, n, before) && !IsCallback(a, token)
    ensures Fenced(Proxy.Next(s, a), token, n, before)
  {
    match a
    case BeginDelete(_, _) => HandlersKeepFence(s, Proxy.Next(s, a).handlers, token, n, before);
    case BeginCallbackDelete(_) => HandlersKeepFence(s, Proxy.Next(s, a).handlers, token, n, before);
    case Execute(w) => ExecuteKeepsFence(s, w, token, n, before);
    case Finish(h) => FinishKeepsFence(s, h, token, n, before);
    case Invalidate(h) => InvalidateKeepsFence(s, h, token, n, before);
    case Arrive(bearer) => ArriveKeepsFence(s, bearer, token, n, before);
    case FirstLook(r) => FirstLookKeepsFence(s, r, token, n, before);
    case CheckRow(r, row) => EndKeepsFence(s, r, if row.Some? then Found else Proxy.RequestPhase.Finished(None), token, n, before);
    case CheckFails(r) => EndKeepsFence(s, r, Proxy.RequestPhase.Finished(None), token, n, before);
    case SecondLook(r) => SecondLookKeepsFence(s, r, token, n, before);
    case Send(r) => SendKeepsFence(s, r, token, n, before);
    case CleanUp(r) => CleanUpKeepsFence(s, r, token, n, before);
    case Return(r) => EndKeepsFence(s, r, End(s.requests[r].phase), token, n, before);
    case Cancel(r) => EndKeepsFence(s, r, End(s.requests[r].phase), token, n, before);
    case OnChannel(c, ev) => StepKeepsFence(s, c, ev, token, n, before);
    case Stutter =>
  }

  // ----- Runs -----

  /** Between two steps of a run there is no callback for the token. */
  predicate NoCallback(actions: seq<Action>, i: nat, j: nat, token: Token) {
    forall k | i <= k < j && k < |actions| :: !IsCallback(actions[k], token)
  }

  lemma {:induction false} DownOverRuns(states: seq<System>, actions: seq<Action>, i: nat, j: nat, token: Token)
    requires Run(states, actions) && i <= j < |states|
    requires Down(states[i].rows, token) && NoCallback(actions, i, j, token)
    ensures Down(states[j].rows, token)
  {
    if i < j {
      DownOverRuns(states, actions, i, j - 1, token);
      InvOverRuns(states, actions, j - 1);
      assert StepAt(states, actions, j - 1);
      DownUntilCallback(states[j - 1], actions[j - 1], token);
    }
  }

  lemma {:induction false} FencedOverRuns(
    states: seq<System>, actions: seq<Action>, i: nat, j: nat, token: Token, n: nat, before: seq<Request>)
    requires Run(states, actions) && i <= j < |states|
    requires Fenced(states[i], token, n, before) && NoCallback(actions, i, j, token)
    ensures Fenced(states[j], token, n, before)
  {
    if i < j {
      FencedOverRuns(states, actions, i, j - 1, token, n, before);
      InvOverRuns(states, actions, j - 1);
      assert StepAt(states, actions, j - 1);
      NextKeepsFence(states[j - 1], actions[j - 1], token, n, before);
    }
  }

  lemma {:induction false} HandlerTokenFixed(states: seq<System>, actions: seq<Action>, i: nat, j: nat, h: nat)
    requires Run(states, actions) && i <= j < |states| && h < |states[i].handlers|
    ensures h < |states[j].handlers| && states[j].handlers[h].token == states[i].handlers[h].token
  {
    if i < j {
      HandlerTokenFixed(states, actions, i, j - 1, h);
      assert StepAt(states, actions, j - 1);
      HandlerTokenKept(states[j - 1], actions[j - 1], h);
    }
  }

  lemma {:induction false} HandlerTokenKept(s: System, a: Action, h: nat)
    requires Proxy.Enabled(s, a) && h < |s.handlers|
    ensures var s' := Proxy.Next(s, a); h < |s'.handlers| && s'.handlers[h].token == s.handlers[h].token
  {
  }

  /** The handler wrote FINISHED at step `w` and invalidated at step `v`, and no callback has come up to `k`. */
  ghost predicate Ended(actions: seq<Action>, h: nat, w: nat, v: nat, k: nat, token: Token) {
    && w < v < k <= |actions|
    && actions[w] == Finish(h) && actions[v] == Proxy.Invalidate(h)
    && NoCallback(actions, w + 1, k, token)
  }

  lemma {:induction false} FencedAfterEnd(states: seq<System>, actions: seq<Action>, h: nat, w: nat, v: nat, k: nat, token: Token)
    requires Run(states, actions) && Ended(actions, h, w, v, k, token)
    requires h < |states[w].handlers| && token == states[w].handlers[h].token
    ensures Fenced(states[k], token, |states[v + 1].channels|, states[v + 1].requests)
  {
    InvOverRuns(states, actions, w);
    assert StepAt(states, actions, w) && StepAt(states, actions, v);
    FinishBringsDown(states[w], h);
    assert NoCallback(actions, w + 1, v, token);
    DownOverRuns(states, actions, w + 1, v, token);
    HandlerTokenFixed(states, actions, w, v, h);
    FenceGoesUp(states[v], h);
    assert NoCallback(actions, v + 1, k, token);
    FencedOverRuns(states, actions, v + 1, k, token, |states[v + 1].channels|, states[v + 1].requests);
  }

  /**
   No stale routing. After an application was ended and invalidated, and until a later
   callback, the cached dispatcher of its token has neither an address nor a connection and
   has forwarded nothing; and every request for the token that had no sender yet at the
   invalidation, even one between the two sections of `sender_for`, has only ever been
   rejected.
   */
  lemma {:induction false} NoStaleRouting(
    states: seq<System>, actions: seq<Action>, h: nat, w: nat, v: nat, k: nat, token: Token, r: RequestId)
    requires Run(states, actions) && Ended(actions, h, w, v, k, token)
    requires h < |states[w].handlers| && token == states[w].handlers[h].token
    requires r < |states[k].requests| && states[k].requests[r].bearer == Ok(token)
    requires Late(states[v + 1].requests, r)
    ensures token in states[k].cache ==>
              states[k].cache[token] < |states[k].channels| && Untouched(states[k].channels[states[k].cache[token]])
    ensures forall c, o | 0 <= c < |states[k].channels| && 0 <= o < |states[k].channels[c].log| ::
              states[k].channels[c].log[o].request == r ==> states[k].channels[c].log[o].Rejected?
  {
    FencedAfterEnd(states, actions, h, w, v, k, token);
    InvOverRuns(states, actions, k);
    var s, n := states[k], |states[v + 1].channels|;
    forall c, o | 0 <= c < |s.channels| && 0 <= o < |s.channels[c].log|
      ensures s.channels[c].log[o].request == r ==> s.channels[c].log[o].Rejected?
    {
      assert ChannelOk(s.channels[c], c, s.requests);
      LoggedWasSent(s.channels[c], o);
      SentIsRecorded(s, c, s.channels[c].log[o].request);
      assert Behind(states[v + 1].requests, r, s.requests[r], token, n);
    }
  }

  /** The driver of the token registers at most once in the run, as `Lifecycle.OneCallback` says it does. */
  predicate CallsBackOnce(actions: seq<Action>, token: Token) {
    forall i, j | 0 <= i < j < |actions| :: !(IsCallback(actions[i], token) && IsCallback(actions[j], token))
  }

  /** An application that was ended after its callback is fenced for good: the conclusion holds for all `k` to come. */
  lemma {:induction false} NoRoutingEverAfter(
    states: seq<System>, actions: seq<Action>, h: nat, w: nat, v: nat, k: nat, token: Token, r: RequestId, b: nat)
    requires Run(states, actions) && w < v < k <= |actions|
    requires actions[w] == Finish(h) && actions[v] == Proxy.Invalidate(h)
    requires h < |states[w].handlers| && token == states[w].handlers[h].token
    requires CallsBackOnce(actions, token) && b < w && IsCallback(actions[b], token)
    requires r < |states[k].requests| && states[k].requests[r].bearer == Ok(token)
    requires Late(states[v + 1].requests, r)
    ensures forall c, o | 0 <= c < |states[k].channels| && 0 <= o < |states[k].channels[c].log| ::
              states[k].channels[c].log[o].request == r ==> states[k].channels[c].log[o].Rejected?
  {
    assert NoCallback(actions, w + 1, k, token);
    NoStaleRouting(states, actions, h, w, v, k, token, r);
  }

  /** The cache part alone needs no request. */
  lemma {:induction false} CachedDispatcherIsClean(
    states: seq<System>, actions: seq<Action>, h: nat, w: nat, v: nat, k: nat, token: Token)
    requires Run(states, actions) && Ended(actions, h, w, v, k, token)
    requires h < |states[w].handlers| && token == states[w].handlers[h].token && token in states[k].cache
    ensures states[k].cache[token] < |states[k].channels| && Untouched(states[k].channels[states[k].cache[token]])
    ensures states[k].cache[token] >= |states[v + 1].channels|
  {
    FencedAfterEnd(states, actions, h, w, v, k, token);
    InvOverRuns(states, actions, k);
  }
}
