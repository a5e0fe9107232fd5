/** The main results on the proxy: statements on every run, of any length and interleaving. */
module ProxyTheorems {
  import opened Wrappers
  import opened Application
  import opened Dispatcher
  import opened UpstreamCache
  import opened Proxy
  import opened ProxyInvariants

  // ----- Conservation of dispatchers -----

  /**
   Of the dispatchers created for a token, each but the cached one was given up once, by
   `invalidate`, by `remove_closed` or by being replaced. Only tokens of rows are cached.
   */
  lemma {:induction false} DispatchersConserved(states: seq<System>, actions: seq<Action>, i: nat, token: Token)
    requires Run(states, actions) && i < |states|
    ensures var s := states[i];
            Created(s.channels, token) ==
            s.losses[Invalidated(token)] + s.losses[RemovedClosed(token)] + s.losses[Replaced(token)]
            + if token in s.cache then 1 else 0
    ensures token in states[i].cache ==> token in states[i].issued
  {
    InvOverRuns(states, actions, i);
    assert CountsOf(states[i].cache, states[i].channels, states[i].losses, token);
  }

  /** Only the lock sections of `invalidate`, `remove_closed` and `sender_for` write the cache. */
  lemma {:induction false} CacheWriters(s: System, a: Action)
    requires Proxy.Enabled(s, a) && !a.Invalidate? && !a.CleanUp? && !a.SecondLook?
    ensures Proxy.Next(s, a).cache == s.cache && Proxy.Next(s, a).losses == s.losses
  {
  }

  /** The cached dispatcher of the token stays, and no loss is counted for it. */
  ghost predicate Kept(s: System, s': System, token: Token) {
    token in s.cache && token in s'.cache && s'.cache[token] == s.cache[token] && Lost(s'.losses, token) == Lost(s.losses, token)
  }

  lemma {:induction false} InvalidateLoses(s: System, h: nat, token: Token)
    requires Proxy.Enabled(s, Proxy.Invalidate(h)) && token in s.cache
    ensures var s' := Proxy.Next(s, Proxy.Invalidate(h));
            if s.handlers[h].token == token
            then token !in s'.cache && Lost(s'.losses, token) == Lost(s.losses, token) + 1
            else Kept(s, s', token)
  {
  }

  lemma {:induction false} CleanUpLoses(s: System, r: nat, token: Token)
    requires Proxy.Enabled(s, CleanUp(r)) && token in s.cache
    ensures var s' := Proxy.Next(s, CleanUp(r));
            if s.requests[r].bearer == Ok(token) && s.cache[token] in Closed(s.channels)
            then Lost(s'.losses, token) == Lost(s.losses, token) + 1
            else Kept(s, s', token)
  {
  }

  lemma {:induction false} SecondLookLoses(s: System, r: nat, token: Token)
    requires Proxy.Enabled(s, SecondLook(r)) && token in s.cache
    ensures var s' := Proxy.Next(s, SecondLook(r));
            if s.requests[r].bearer == Ok(token) && s.cache[token] in Closed(s.channels)
            then Lost(s'.losses, token) == Lost(s.losses, token) + 1
            else Kept(s, s', token)
  {
  }

  /** A dispatcher leaves the cache only by a loss that is counted, and a live one only by `invalidate`. */
  lemma {:induction false} CachedUnlessLost(s: System, a: Action, token: Token)
    requires Proxy.Enabled(s, a) && token in s.cache && s.cache[token] < |s.channels|
    ensures var s' := Proxy.Next(s, a);
            || Kept(s, s', token)
            || (&& Lost(s'.losses, token) == Lost(s.losses, token) + 1
                && (Running(s.channels[s.cache[token]].phase) ==>
                      a.Invalidate? && s.handlers[a.handler].token == token && token !in s'.cache))
  {
    match a
    case Invalidate(h) => InvalidateLoses(s, h, token);
    case CleanUp(r) => CleanUpLoses(s, r, token);
    case SecondLook(r) => SecondLookLoses(s, r, token);
    case _ => CacheWriters(s, a);
  }

  lemma {:induction false} LossesGrow(s: System, a: Action, token: Token)
    requires Proxy.Enabled(s, a)
    ensures Lost(s.losses, token) <= Lost(Proxy.Next(s, a).losses, token)
  {
    if !a.Invalidate? && !a.CleanUp? && !a.SecondLook? {
      CacheWriters(s, a);
    }
  }

  lemma {:induction false} LossesGrowOverRuns(states: seq<System>, actions: seq<Action>, i: nat, j: nat, token: Token)
    requires Run(states, actions) && i <= j < |states|
    ensures Lost(states[i].losses, token) <= Lost(states[j].losses, token)
  {
    if i < j {
      LossesGrowOverRuns(states, actions, i, j - 1, token);
      assert StepAt(states, actions, j - 1);
      LossesGrow(states[j - 1], actions[j - 1], token);
    }
  }

  lemma {:induction false} SameDispatcherKept(s: System, a: Action, token: Token)
    requires Proxy.Enabled(s, a) && token in s.cache && s.cache[token] < |s.channels|
    requires Lost(Proxy.Next(s, a).losses, token) == Lost(s.losses, token)
    ensures var cache := Proxy.Next(s, a).cache; token in cache && cache[token] == s.cache[token]
  {
    CachedUnlessLost(s, a, token);
  }

  lemma {:induction false} CachedIsChannel(states: seq<System>, actions: seq<Action>, k: nat, token: Token)
    requires Run(states, actions) && k < |states| && token in states[k].cache
    ensures states[k].cache[token] < |states[k].channels|
  {
    InvOverRuns(states, actions, k);
  }

  /** `c` is the cached dispatcher of the token. */
  predicate Caches(s: System, token: Token, c: nat) {
    token in s.cache && s.cache[token] == c
  }

  lemma {:induction false} CachesOneMore(states: seq<System>, actions: seq<Action>, k: nat, token: Token, c: nat)
    requires Run(states, actions) && k < |actions| && Caches(states[k], token, c)
    requires Lost(states[k + 1].losses, token) == Lost(states[k].losses, token)
    ensures Caches(states[k + 1], token, c)
  {
    CachedIsChannel(states, actions, k, token);
    assert StepAt(states, actions, k);
    SameDispatcherKept(states[k], actions[k], token);
  }

  /** As long as no dispatcher of the token is lost, the same one stays in the cache. */
  lemma {:induction false} SameDispatcherBetweenLosses(
    states: seq<System>, actions: seq<Action>, i: nat, j: nat, token: Token, c: nat)
    requires Run(states, actions) && i <= j < |states| && Caches(states[i], token, c)
    requires Lost(states[i].losses, token) == Lost(states[j].losses, token)
    ensures Caches(states[j], token, c)
  {
    if i < j {
      LossesGrowOverRuns(states, actions, i, j - 1, token);
      LossesGrowOverRuns(states, actions, j - 1, j, token);
      SameDispatcherBetweenLosses(states, actions, i, j - 1, token, c);
      CachesOneMore(states, actions, j - 1, token, c);
    }
  }

  /** The step ends a `sender_for` of the request with that sender. */
  ghost predicate HandsOut(s: System, a: Action, token: Token, c: nat) {
    && Proxy.Enabled(s, a) && (a.FirstLook? || a.SecondLook?)
    && s.requests[a.request].bearer == Ok(token)
    && Proxy.Next(s, a).requests[a.request].phase == Holding(c)
  }

  /** So every `sender_for` that ends between two losses hands out the same channel. */
  lemma {:induction false} SameSenderBetweenLosses(
    states: seq<System>, actions: seq<Action>, i: nat, j: nat, token: Token, c: nat, d: nat)
    requires Run(states, actions) && i <= j < |actions|
    requires HandsOut(states[i], actions[i], token, c) && HandsOut(states[j], actions[j], token, d)
    requires Lost(states[i + 1].losses, token) == Lost(states[j + 1].losses, token)
    ensures c == d
  {
    assert StepAt(states, actions, i) && StepAt(states, actions, j);
    HandedOutIsCached(states[i], actions[i], token, c);
    HandedOutIsCached(states[j], actions[j], token, d);
    SameDispatcherBetweenLosses(states, actions, i + 1, j + 1, token, c);
  }

  lemma {:induction false} HandedOutIsCached(s: System, a: Action, token: Token, c: nat)
    requires HandsOut(s, a, token, c)
    ensures Caches(Proxy.Next(s, a), token, c)
  {
  }

  /** And the sender handed out belongs to the token, and to a dispatcher that is running at that moment. */
  lemma {:induction false} HandedOutIsAlive(states: seq<System>, actions: seq<Action>, i: nat, token: Token, c: nat)
    requires Run(states, actions) && i < |actions| && HandsOut(states[i], actions[i], token, c)
    ensures c < |states[i + 1].channels| && states[i + 1].channels[c].token == token
    ensures Running(states[i + 1].channels[c].phase)
  {
    assert StepAt(states, actions, i);
    InvOverRuns(states, actions, i + 1);
    HandedOutIsCached(states[i], actions[i], token, c);
    HandedOutRuns(states[i], actions[i], token, c);
  }

  lemma {:induction false} HandedOutRuns(s: System, a: Action, token: Token, c: nat)
    requires HandsOut(s, a, token, c)
    ensures c < |Proxy.Next(s, a).channels| ==> Running(Proxy.Next(s, a).channels[c].phase)
  {
    var live := LiveSender(s.cache, token, Closed(s.channels));
    if live.None? {
      assert a.SecondLook? && c == |s.channels|;
    }
  }

  // ----- A sender that has closed -----

  /**
   A send to a dispatcher that is gone fails, and the request then clears the cache of any closed
   sender of its token before it ends; a live one that has taken its place stays.
   */
  lemma {:induction false} FailedSendCleansUp(s: System, r: nat, token: Token)
    requires Inv(s) && Proxy.Enabled(s, Send(r)) && s.requests[r].bearer == Ok(token)
    requires !Running(s.channels[s.requests[r].phase.channel].phase)
    ensures Proxy.Enabled(Proxy.Next(s, Send(r)), CleanUp(r))
    ensures var last := Proxy.Next(Proxy.Next(s, Send(r)), CleanUp(r));
            && last.requests[r].phase == Proxy.RequestPhase.Finished(None)
            && last.channels == s.channels
            && (token in last.cache ==> token in s.cache && last.cache[token] == s.cache[token]
                                        && Running(s.channels[s.cache[token]].phase))
            && (token in s.cache && s.cache[token] < |s.channels| && Running(s.channels[s.cache[token]].phase) ==> token in last.cache)
  {
  }

  /** Once its dispatcher has put the response into its reply channel, a request returns to the client. */
  lemma {:induction false} ForwardedIsAnswered(s: System, r: nat, c: nat)
    requires Inv(s) && c < |s.channels| && r < |s.requests| && s.requests[r].phase == Awaiting(c) && r in s.channels[c].inflight
    ensures Proxy.Enabled(s, OnChannel(c, Respond(r)))
    ensures var replied := Proxy.Next(s, OnChannel(c, Respond(r)));
            && Proxy.Enabled(replied, Return(r))
            && Proxy.Next(replied, Return(r)).requests[r].phase == Proxy.RequestPhase.Finished(Some(c))
  {
  }

  /** A request the dispatcher rejects is answered as well. */
  lemma {:induction false} RejectedIsAnswered(s: System, r: nat, c: nat)
    requires Inv(s) && c < |s.channels| && r < |s.requests| && s.requests[r].phase == Awaiting(c)
    requires exists o | 0 <= o < |s.channels[c].log| :: s.channels[c].log[o].Rejected? && s.channels[c].log[o].request == r
    ensures r in s.channels[c].inflight || Proxy.Enabled(s, Return(r))
  {
    var ch := s.channels[c];
    assert ChannelOk(ch, c, s.requests);
    var o :| 0 <= o < |ch.log| && ch.log[o].Rejected? && ch.log[o].request == r;
    assert Requests(ch.log)[o] == r;
    assert r in multiset(Requests(ch.log));
  }

  // ----- Without crashes a cached sender is never closed -----

  predicate IsCrash(a: Action) {
    a.OnChannel? && a.ev == Crash
  }

  predicate NeverCrashed(s: System) {
    forall c | 0 <= c < |s.channels| :: s.channels[c].phase != Crashed
  }

  lemma {:induction false} EventWithoutCrash(ch: Channel, ev: Event, open: bool)
    requires Dispatcher.Enabled(ch, ev, open) && ev != Crash && ch.phase != Crashed
    ensures Dispatcher.Next(ch, ev, open).phase != Crashed
  {
  }

  lemma {:induction false} ChannelWithoutCrash(s: System, c: nat, ev: Event)
    requires CanStep(s, c, ev) && NeverCrashed(s) && ev != Crash
    ensures NeverCrashed(DoStep(s, c, ev))
  {
    EventWithoutCrash(s.channels[c], ev, Open(s, c));
  }

  lemma {:induction false} SendWithoutCrash(s: System, r: nat)
    requires Proxy.Enabled(s, Send(r)) && NeverCrashed(s)
    ensures NeverCrashed(DoSend(s, r))
  {
  }

  lemma {:induction false} SecondLookWithoutCrash(s: System, r: nat)
    requires AtPhase(s, r, Found) && NeverCrashed(s)
    ensures NeverCrashed(DoSecondLook(s, r))
  {
  }

  lemma {:induction false} StepWithoutCrash(s: System, a: Action)
    requires Proxy.Enabled(s, a) && NeverCrashed(s) && !IsCrash(a)
    ensures NeverCrashed(Proxy.Next(s, a))
  {
    match a
    case OnChannel(c, ev) => ChannelWithoutCrash(s, c, ev);
    case Send(r) => SendWithoutCrash(s, r);
    case SecondLook(r) => SecondLookWithoutCrash(s, r);
    case _ => ChannelWriters(s, a);
  }

  lemma {:induction false} ChannelWriters(s: System, a: Action)
    requires Proxy.Enabled(s, a) && !a.OnChannel? && !a.Send? && !a.SecondLook?
    ensures Proxy.Next(s, a).channels == s.channels
  {
  }

  /** A dispatcher that has not crashed runs as long as anyone can send to it. */
  lemma {:induction false} OpenIsRunning(s: System, c: nat)
    requires Inv(s) && NeverCrashed(s) && c < |s.channels| && Open(s, c)
    ensures Running(s.channels[c].phase)
  {
    assert ExitOk(s, c);
  }

  /**
   In a run in which no dispatcher crashes, every send succeeds, the cached dispatcher of a
   token is alive, and `invalidate` is the only way to lose one.
   */
  lemma {:induction false} NoCrashNoClosedSender(states: seq<System>, actions: seq<Action>, i: nat, token: Token)
    requires Run(states, actions) && i < |states|
    requires forall k | 0 <= k < i :: !IsCrash(actions[k])
    ensures NeverCrashed(states[i])
    ensures token in states[i].cache ==>
              states[i].cache[token] < |states[i].channels| && Running(states[i].channels[states[i].cache[token]].phase)
    ensures NoneFailed(states[i].requests)
    ensures OnlyInvalidated(states[i].losses, token)
  {
    InvOverRuns(states, actions, i);
    if i > 0 {
      NoCrashNoClosedSender(states, actions, i - 1, token);
      InvOverRuns(states, actions, i - 1);
      assert StepAt(states, actions, i - 1);
      StepWithoutCrash(states[i - 1], actions[i - 1]);
      if actions[i - 1].Send? {
        SendSucceeds(states[i - 1], actions[i - 1].request);
      } else {
        OthersDoNotFail(states[i - 1], actions[i - 1]);
      }
      StillOnlyInvalidated(states[i - 1], actions[i - 1], token);
    }
    if token in states[i].cache {
      OpenIsRunning(states[i], states[i].cache[token]);
    }
  }

  predicate NoneFailed(requests: seq<Request>) {
    forall r | 0 <= r < |requests| :: !requests[r].phase.SendFailed?
  }

  lemma {:induction false} SendSucceeds(s: System, r: nat)
    requires Inv(s) && NeverCrashed(s) && Proxy.Enabled(s, Send(r)) && NoneFailed(s.requests)
    ensures NoneFailed(DoSend(s, r).requests)
  {
    var c := s.requests[r].phase.channel;
    assert Held(s.requests[r].phase) == Some(c);
    OpenIsRunning(s, c);
  }

  lemma {:induction false} PhaseNotFailed(s: System, r: nat, phase: RequestPhase)
    requires r < |s.requests| && NoneFailed(s.requests) && !phase.SendFailed?
    ensures NoneFailed(SetPhase(s, r, phase).requests)
  {
  }

  lemma {:induction false} SecondLookNotFailed(s: System, r: nat)
    requires AtPhase(s, r, Found) && NoneFailed(s.requests)
    ensures NoneFailed(DoSecondLook(s, r).requests)
  {
  }

  lemma {:induction false} FirstLookNotFailed(s: System, r: nat)
    requires AtPhase(s, r, Arrived) && NoneFailed(s.requests)
    ensures NoneFailed(DoFirstLook(s, r).requests)
  {
  }

  /** Only a send can fail. */
  lemma {:induction false} OthersDoNotFail(s: System, a: Action)
    requires Proxy.Enabled(s, a) && !a.Send? && NoneFailed(s.requests)
    ensures NoneFailed(Proxy.Next(s, a).requests)
  {
    match a
    case FirstLook(r) => FirstLookNotFailed(s, r);
    case SecondLook(r) => SecondLookNotFailed(s, r);
    case CheckRow(r, row) => PhaseNotFailed(s, r, if row.Some? then Found else Proxy.RequestPhase.Finished(None));
    case CheckFails(r) => PhaseNotFailed(s, r, Proxy.RequestPhase.Finished(None));
    case CleanUp(_) =>
    case Return(r) => PhaseNotFailed(s, r, End(s.requests[r].phase));
    case Cancel(r) => PhaseNotFailed(s, r, End(s.requests[r].phase));
    case Arrive(_) =>
    case _ => RequestsUnchanged(s, a);
  }

  lemma {:induction false} RequestsUnchanged(s: System, a: Action)
    requires Proxy.Enabled(s, a)
    requires a.Execute? || a.BeginDelete? || a.BeginCallbackDelete? || a.Finish? || a.Invalidate? || a.OnChannel? || a.Stutter?
    ensures Proxy.Next(s, a).requests == s.requests
  {
  }

  /** All the dispatchers of the token that were lost have been invalidated. */
  predicate OnlyInvalidated(losses: multiset<Loss>, token: Token) {
    Lost(losses, token) == losses[Invalidated(token)]
  }

  lemma {:induction false} CachedRuns(s: System, token: Token)
    requires Inv(s) && NeverCrashed(s) && token in s.cache
    ensures s.cache[token] !in Closed(s.channels)
  {
    OpenIsRunning(s, s.cache[token]);
  }

  lemma {:induction false} SecondLookReplacesNone(s: System, r: nat, token: Token)
    requires AtPhase(s, r, Found) && OnlyInvalidated(s.losses, token)
    requires token in s.cache ==> s.cache[token] !in Closed(s.channels)
    ensures OnlyInvalidated(DoSecondLook(s, r).losses, token)
  {
  }

  lemma {:induction false} InvalidateOnly(s: System, h: nat, token: Token)
    requires h < |s.handlers| && OnlyInvalidated(s.losses, token)
    ensures OnlyInvalidated(DoInvalidate(s, h).losses, token)
  {
  }

  lemma {:induction false} StillOnlyInvalidated(s: System, a: Action, token: Token)
    requires Inv(s) && NeverCrashed(s) && Proxy.Enabled(s, a) && NoneFailed(s.requests)
    requires OnlyInvalidated(s.losses, token)
    ensures OnlyInvalidated(Proxy.Next(s, a).losses, token)
  {
    match a
    case Invalidate(h) => InvalidateOnly(s, h, token);
    case SecondLook(r) =>
      if token in s.cache {
        CachedRuns(s, token);
      }
      SecondLookReplacesNone(s, r, token);
    case CleanUp(_) =>
    case _ => CacheWriters(s, a);
  }

  // ----- Exactly one reply -----

  /**
   At every moment the requests accepted by a channel are those queued, in hand, awaited
   upstream, replied to or lost in a crash; none is counted twice, and none is with two
   channels. They were taken in the order they were sent.
   */
  lemma {:induction false} ExactlyOneReply(states: seq<System>, actions: seq<Action>, i: nat, c: nat, request: RequestId)
    requires Run(states, actions) && i < |states| && c < |states[i].channels|
    ensures var ch := states[i].channels[c];
            && ch.sent == Requests(ch.log) + Hand(ch.phase) + ch.queue + ch.lost
            && multiset(ch.sent)[request] ==
               multiset(ch.queue)[request] + multiset(Hand(ch.phase))[request] + ch.inflight[request]
               + ch.replies[request] + multiset(ch.lost)[request] <= 1
    ensures forall d | 0 <= d < |states[i].channels| && d != c ::
              request in states[i].channels[c].sent ==> request !in states[i].channels[d].sent
  {
    InvOverRuns(states, actions, i);
    var s := states[i];
    assert ChannelOk(s.channels[c], c, s.requests);
    RequestsConserved(s.channels[c]);
    AtMostOnce(s.channels[c].sent, request);
    SentIsRecorded(s, c, request);
    forall d | 0 <= d < |s.channels| && d != c
      ensures request in s.channels[c].sent ==> request !in s.channels[d].sent
    {
      SentIsRecorded(s, d, request);
    }
  }

  /** A request knows the one channel it was sent to. */
  lemma {:induction false} SentIsRecorded(s: System, c: nat, request: RequestId)
    requires Inv(s) && c < |s.channels|
    ensures request in s.channels[c].sent ==>
              request < |s.requests| && SentTo(s.requests[request].phase) == Some(c)
              && s.requests[request].bearer == Ok(s.channels[c].token)
  {
    var ch := s.channels[c];
    assert ChannelOk(ch, c, s.requests);
    if request in ch.sent {
      var i :| 0 <= i < |ch.sent| && ch.sent[i] == request;
      assert SentOk(ch.sent[i], ch.token, c, s.requests);
    }
  }

  lemma {:induction false} AtMostOnce(xs: seq<RequestId>, x: RequestId)
    requires forall i, j | 0 <= i < j < |xs| :: xs[i] != xs[j]
    ensures multiset(xs)[x] <= 1
  {
    if xs != [] {
      var last := |xs| - 1;
      assert xs == xs[..last] + [xs[last]];
      AtMostOnce(xs[..last], x);
    }
  }

  /** The token check of the loop never fails: what is sent to a dispatcher carries its token. */
  lemma {:induction false} TokensAlwaysMatch(states: seq<System>, actions: seq<Action>, i: nat)
    requires Run(states, actions) && i < |actions|
    requires actions[i].OnChannel? && actions[i].ev.Receive?
    ensures actions[i].channel < |states[i].channels|
    ensures actions[i].ev.bearer == Ok(states[i].channels[actions[i].channel].token)
  {
    InvOverRuns(states, actions, i);
    assert StepAt(states, actions, i);
    var s, c := states[i], actions[i].channel;
    var ch := s.channels[c];
    assert ChannelOk(ch, c, s.requests);
    assert ch.sent[|Requests(ch.log)|] == ch.queue[0];
    assert SentOk(ch.sent[|Requests(ch.log)|], ch.token, c, s.requests);
  }

  // ----- Connections -----

  /** The number of outcomes that are the error of a connection found broken. */
  function BrokenReplies(log: seq<Outcome>): nat {
    |set o: nat | o < |log| && log[o].Rejected? && log[o].error == UpstreamRequest|
  }

  lemma {:induction false} BrokenAreCounted(log: seq<Outcome>)
    ensures Broken(log) == BrokenReplies(log)
  {
    var broken := set o: nat | o < |log| && log[o].Rejected? && log[o].error == UpstreamRequest;
    if log == [] {
      assert broken == {};
    } else {
      var last := |log| - 1;
      var front := log[..last];
      BrokenAreCounted(front);
      var before := set o: nat | o < |front| && front[o].Rejected? && front[o].error == UpstreamRequest;
      if log[last].Rejected? && log[last].error == UpstreamRequest {
        assert broken == before + {last};
      } else {
        assert broken == before;
      }
    }
  }

  /**
   Connections made are those reported broken to a request, one each, and the one held if any;
   a request past the resolution finds one, so `unwrap` is safe. Between two messages the last
   outcome tells which is held: after a broken one none, so the next request resolves anew.
   */
  lemma {:induction false} ConnectionsAccounted(states: seq<System>, actions: seq<Action>, i: nat, c: nat)
    requires Run(states, actions) && i < |states| && c < |states[i].channels|
    ensures var ch := states[i].channels[c];
            && (Running(ch.phase) ==> ch.connects == BrokenReplies(ch.log) + if ch.upstream.Some? then 1 else 0)
            && BrokenReplies(ch.log) <= ch.connects
            && (ch.phase.Ready? ==> ch.upstream.Some?)
            && (ch.phase.Connecting? ==> ch.upstream.None? && ch.phase.attempt <= 3)
    ensures var ch := states[i].channels[c];
            ch.phase == Receiving && ch.log != [] ==>
              match ch.log[|ch.log| - 1]
              case Forwarded(_, address) => ch.upstream == Some(address)
              case Rejected(_, UpstreamRequest) => ch.upstream == None
              case Rejected(_, InvalidUpstreamUri) => ch.upstream.Some?
              case _ => true
  {
    InvOverRuns(states, actions, i);
    assert ChannelOk(states[i].channels[c], c, states[i].requests);
    BrokenAreCounted(states[i].channels[c].log);
  }

  // ----- The failure mark -----

  /** When a dispatcher has failed to connect and marks its application, exactly the rows of its token become FAILED. */
  lemma {:induction false} MarkedFailedWrites(s: System, c: nat)
    requires CanStep(s, c, MarkedFailed)
    ensures var token, rows := s.channels[c].token, DoStep(s, c, MarkedFailed).rows;
            && rows.Keys == s.rows.Keys
            && forall id | id in rows ::
                 rows[id] == if s.rows[id].token == token then s.rows[id].(state := FAILED, address := None) else s.rows[id]
  {
  }

  /** And the request in hand is refused with the error of the last attempt. */
  lemma {:induction false} MarkedFailedReplies(states: seq<System>, actions: seq<Action>, i: nat)
    requires Run(states, actions) && i < |actions| && actions[i].OnChannel? && actions[i].ev == MarkedFailed
    ensures var c := actions[i].channel;
            && c < |states[i].channels| && states[i].channels[c].phase.Failing? && |states[i + 1].channels| == |states[i].channels|
            && var before, after := states[i].channels[c], states[i + 1].channels[c];
               && before.phase.error in {UpstreamConnect, UpstreamHandshake}
               && after.log == before.log + [Rejected(before.phase.request, before.phase.error)]
               && after.phase == Receiving && after.upstream == None
  {
    InvOverRuns(states, actions, i);
    assert StepAt(states, actions, i);
    assert ChannelOk(states[i].channels[actions[i].channel], actions[i].channel, states[i].requests);
  }

  // ----- Lookups -----

  /** A request is refused for want of a row only if at that moment no row has its token. */
  lemma {:induction false} NotFoundMeansNoRow(states: seq<System>, actions: seq<Action>, i: nat, token: Token)
    requires Run(states, actions) && i < |actions|
    requires (actions[i].CheckRow? && actions[i].row == None && actions[i].request < |states[i].requests|
              && states[i].requests[actions[i].request].bearer == Ok(token))
             || (actions[i].OnChannel? && actions[i].ev == FindRow(None) && actions[i].channel < |states[i].channels|
                 && states[i].channels[actions[i].channel].token == token)
    ensures forall id | id in states[i].rows :: states[i].rows[id].token != token
  {
    assert StepAt(states, actions, i);
  }

  /** A lookup decides at once: with a row the request goes on to the second section, else it ends without a channel. */
  lemma {:induction false} LookupDecides(states: seq<System>, actions: seq<Action>, i: nat)
    requires Run(states, actions) && i < |actions| && (actions[i].CheckRow? || actions[i].CheckFails?)
    ensures actions[i].request < |states[i + 1].requests|
    ensures states[i + 1].requests[actions[i].request].phase ==
            if actions[i].CheckRow? && actions[i].row.Some? then Found else Proxy.RequestPhase.Finished(None)
    ensures states[i + 1].cache == states[i].cache && states[i + 1].channels == states[i].channels
  {
    assert StepAt(states, actions, i);
  }

  /** And what a dispatcher resolves is the one row of its token. */
  lemma {:induction false} ResolvesTheRow(states: seq<System>, actions: seq<Action>, i: nat, id: int)
    requires Run(states, actions) && i < |actions| && actions[i].OnChannel? && actions[i].ev.FindRow?
    requires actions[i].channel < |states[i].channels|
    requires id in states[i].rows && states[i].rows[id].token == states[i].channels[actions[i].channel].token
    ensures actions[i].ev.row == Some(states[i].rows[id])
  {
    assert StepAt(states, actions, i);
    InvOverRuns(states, actions, i);
    var row := actions[i].ev.row;
    assert RowOk(id, states[i].rows[id], states[i].issued, states[i].registered);
    if row.Some? {
      assert RowOk(row.value.id, states[i].rows[row.value.id], states[i].issued, states[i].registered);
    }
  }

  // ----- Provenance of addresses -----

  /** Step `k` is a callback that stores the address in the row of the token. */
  ghost predicate RegistersAt(states: seq<System>, actions: seq<Action>, k: nat, token: Token, address: Address)
    requires k < |actions| && |states| == |actions| + 1
  {
    && actions[k].Execute? && actions[k].w.Callback?
    && actions[k].w.token == token && actions[k].w.address == address
    && exists id :: id in states[k].rows && states[k].rows[id].token == token
  }

  lemma {:induction false} RegisteredByCallback(states: seq<System>, actions: seq<Action>, i: nat, token: Token, address: Address)
    requires Run(states, actions) && i < |states| && (token, address) in states[i].registered
    ensures exists k: nat :: k < i && RegistersAt(states, actions, k, token, address)
  {
    if i > 0 {
      assert StepAt(states, actions, i - 1);
      if (token, address) in states[i - 1].registered {
        RegisteredByCallback(states, actions, i - 1, token, address);
      } else {
        OnlyCallbacksRegister(states[i - 1], actions[i - 1], token, address);
        assert RegistersAt(states, actions, i - 1, token, address);
      }
    }
  }

  lemma {:induction false} OnlyCallbacksRegister(s: System, a: Action, token: Token, address: Address)
    requires Proxy.Enabled(s, a)
    requires (token, address) !in s.registered && (token, address) in Proxy.Next(s, a).registered
    ensures a.Execute? && a.w.Callback? && a.w.token == token && a.w.address == address
    ensures exists id :: id in s.rows && s.rows[id].token == token
  {
  }

  /**
   Whatever a dispatcher forwards carries its token, and goes to an address that a callback
   had stored for that token before.
   */
  lemma {:induction false} ForwardedToRegistered(states: seq<System>, actions: seq<Action>, i: nat, c: nat, o: nat)
    requires Run(states, actions) && i < |states| && c < |states[i].channels|
    requires o < |states[i].channels[c].log| && states[i].channels[c].log[o].Forwarded?
    ensures var s := states[i];
            var token, outcome := s.channels[c].token, s.channels[c].log[o];
            && outcome.request < |s.requests| && s.requests[outcome.request].bearer == Ok(token)
            && exists k: nat :: k < i && RegistersAt(states, actions, k, token, outcome.address)
  {
    InvOverRuns(states, actions, i);
    var s := states[i];
    var ch := s.channels[c];
    assert ChannelOk(ch, c, s.requests) && AddressesKnown(ch, s.registered);
    LoggedWasSent(ch, o);
    assert SentOk(ch.sent[o], ch.token, c, s.requests);
    assert OutcomeKnown(ch.token, ch.log[o], s.registered);
    RegisteredByCallback(states, actions, i, ch.token, ch.log[o].address);
  }

  lemma {:induction false} LoggedWasSent(ch: Channel, o: nat)
    requires ChannelInv(ch) && o < |ch.log|
    ensures o < |ch.sent| && ch.sent[o] == ch.log[o].request
  {
    assert Requests(ch.log)[o] == ch.log[o].request;
  }
}
