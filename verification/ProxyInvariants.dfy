/** What every step of the proxy keeps. */
module ProxyInvariants {
  import opened Wrappers
  import opened Application
  import opened Dispatcher
  import opened UpstreamCache
  import opened Proxy

  // ----- Tokens and rows -----

  predicate RowOk(id: int, row: Row, issued: map<Token, int>, registered: set<(Token, Address)>) {
    && row.id == id
    && row.token in issued && issued[row.token] == id
    && (row.address.Some? ==> (row.token, row.address.value) in registered)
  }

  predicate TableOk(rows: Table, issued: map<Token, int>, registered: set<(Token, Address)>) {
    && (forall id | id in rows :: RowOk(id, rows[id], issued, registered))
    && (forall t, u | t in issued && u in issued && issued[t] == issued[u] :: t == u)
  }

  predicate HandlerOk(h: Handler, rows: Table, issued: map<Token, int>) {
    match h.write
    case Delete(id, username) =>
      h.token in issued && issued[h.token] == id && (id in rows ==> rows[id].username == username)
    case CallbackDelete(token) => token == h.token
    case _ => false
  }

  predicate HandlersOk(handlers: seq<Handler>, rows: Table, issued: map<Token, int>) {
    forall h | 0 <= h < |handlers| :: HandlerOk(handlers[h], rows, issued)
  }

  // ----- Cache, requests and channels -----

  /** The channel the request has anything to do with, and the one it was sent to. */
  function Via(phase: RequestPhase): Option<nat> {
    match phase
    case Finished(via) => via
    case _ => Held(phase)
  }

  function SentTo(phase: RequestPhase): Option<nat> {
    match phase
    case Awaiting(c) => Some(c)
    case Finished(via) => via
    case _ => None
  }

  predicate RequestOk(req: Request, channels: seq<Channel>, issued: map<Token, int>) {
    && (req.phase.Arrived? || req.phase.Looking? || req.phase.Found? ==> req.bearer.Ok?)
    && (req.phase.Found? ==> req.bearer.value in issued)
    && (Via(req.phase).Some? ==>
          Via(req.phase).value < |channels| && req.bearer == Ok(channels[Via(req.phase).value].token))
  }

  predicate SentOk(r: RequestId, token: Token, c: nat, requests: seq<Request>) {
    r < |requests| && requests[r].bearer == Ok(token) && SentTo(requests[r].phase) == Some(c)
  }

  predicate ChannelOk(ch: Channel, c: nat, requests: seq<Request>) {
    && ChannelInv(ch)
    && (forall i | 0 <= i < |ch.sent| :: SentOk(ch.sent[i], ch.token, c, requests))
    && (forall i, j | 0 <= i < j < |ch.sent| :: ch.sent[i] != ch.sent[j])
  }

  predicate CacheOk(cache: Cache, channels: seq<Channel>, issued: map<Token, int>) {
    forall t | t in cache :: cache[t] < |channels| && channels[cache[t]].token == t && t in issued
  }

  predicate Wired(cache: Cache, channels: seq<Channel>, requests: seq<Request>, issued: map<Token, int>) {
    && CacheOk(cache, channels, issued)
    && (forall r | 0 <= r < |requests| :: RequestOk(requests[r], channels, issued))
    && (forall c | 0 <= c < |channels| :: ChannelOk(channels[c], c, requests))
  }

  // ----- Provenance of addresses -----

  predicate OutcomeKnown(token: Token, outcome: Outcome, registered: set<(Token, Address)>) {
    outcome.Forwarded? ==> (token, outcome.address) in registered
  }

  /** The task only deals with addresses that were registered for its own token. */
  predicate AddressesKnown(ch: Channel, registered: set<(Token, Address)>) {
    && (ch.phase.Connecting? ==> (ch.token, ch.phase.address) in registered)
    && (ch.upstream.Some? ==> (ch.token, ch.upstream.value) in registered)
    && (forall i | 0 <= i < |ch.log| :: OutcomeKnown(ch.token, ch.log[i], registered))
  }

  // ----- Conservation of dispatchers -----

  function TokensOf(channels: seq<Channel>): seq<Token> {
    seq(|channels|, c requires 0 <= c < |channels| => channels[c].token)
  }

  /** The number of dispatchers ever created for the token. */
  function Created(channels: seq<Channel>, token: Token): nat {
    multiset(TokensOf(channels))[token]
  }

  function Lost(losses: multiset<Loss>, token: Token): nat {
    losses[Invalidated(token)] + losses[RemovedClosed(token)] + losses[Replaced(token)]
  }

  predicate CountsOf(cache: Cache, channels: seq<Channel>, losses: multiset<Loss>, token: Token) {
    Created(channels, token) == Lost(losses, token) + if token in cache then 1 else 0
  }

  ghost predicate Counted(cache: Cache, channels: seq<Channel>, losses: multiset<Loss>) {
    forall token :: CountsOf(cache, channels, losses, token)
  }

  // ----- Exits -----

  ghost predicate ExitOk(s: System, c: nat)
    requires c < |s.channels|
  {
    s.channels[c].phase == Exited ==> !Open(s, c)
  }

  // ----- The invariant -----

  ghost predicate Inv(s: System) {
    && TableOk(s.rows, s.issued, s.registered)
    && HandlersOk(s.handlers, s.rows, s.issued)
    && Wired(s.cache, s.channels, s.requests, s.issued)
    && (forall c | 0 <= c < |s.channels| :: AddressesKnown(s.channels[c], s.registered))
    && Counted(s.cache, s.channels, s.losses)
    && (forall c | 0 <= c < |s.channels| :: ExitOk(s, c))
  }

  // ----- Table steps -----

  lemma {:induction false} ExecuteKeepsRow(w: Write, rows: Table, issued: map<Token, int>, registered: set<(Token, Address)>, id: int)
    requires TableOk(rows, issued, registered) && !w.Insert? && id in Apply(w, rows)
    ensures id in rows
    ensures RowOk(id, Apply(w, rows)[id], issued, Register(w, rows, registered))
    ensures Apply(w, rows)[id].username == rows[id].username && Apply(w, rows)[id].token == rows[id].token
  {
    assert RowOk(id, rows[id], issued, registered);
  }

  lemma {:induction false} ExecuteKeepsTable(s: System, w: Write)
    requires TableOk(s.rows, s.issued, s.registered) && CanExecute(s, w)
    ensures var s' := DoExecute(s, w); TableOk(s'.rows, s'.issued, s'.registered)
  {
    var s' := DoExecute(s, w);
    forall id | id in s'.rows
      ensures RowOk(id, s'.rows[id], s'.issued, s'.registered)
    {
      if w.Insert? {
        assert id != w.id ==> RowOk(id, s.rows[id], s.issued, s.registered);
      } else {
        ExecuteKeepsRow(w, s.rows, s.issued, s.registered, id);
      }
    }
  }

  lemma {:induction false} ExecuteKeepsHandlers(s: System, w: Write)
    requires TableOk(s.rows, s.issued, s.registered) && HandlersOk(s.handlers, s.rows, s.issued) && CanExecute(s, w)
    ensures var s' := DoExecute(s, w); HandlersOk(s'.handlers, s'.rows, s'.issued)
  {
    var s' := DoExecute(s, w);
    forall h | 0 <= h < |s'.handlers|
      ensures HandlerOk(s'.handlers[h], s'.rows, s'.issued)
    {
      var handler := s.handlers[h];
      assert HandlerOk(handler, s.rows, s.issued);
      if handler.write.Delete? && handler.write.id in s'.rows {
        if w.Insert? {
          assert s.issued[handler.token] == handler.write.id != w.id;
        } else {
          ExecuteKeepsRow(w, s.rows, s.issued, s.registered, handler.write.id);
        }
      }
    }
  }

  /** Statements that add no row leave the wiring alone; an insert only issues a token. */
  lemma {:induction false} IssueKeepsWiring(cache: Cache, channels: seq<Channel>, requests: seq<Request>, issued: map<Token, int>, w: Write)
    requires Wired(cache, channels, requests, issued)
    ensures Wired(cache, channels, requests, Issue(w, issued))
  {
    forall r | 0 <= r < |requests|
      ensures RequestOk(requests[r], channels, Issue(w, issued))
    {
      assert RequestOk(requests[r], channels, issued);
    }
  }

  lemma {:induction false} RegisterKeepsAddresses(ch: Channel, registered: set<(Token, Address)>, more: set<(Token, Address)>)
    requires AddressesKnown(ch, registered) && registered <= more
    ensures AddressesKnown(ch, more)
  {
    forall i | 0 <= i < |ch.log|
      ensures OutcomeKnown(ch.token, ch.log[i], more)
    {
      assert OutcomeKnown(ch.token, ch.log[i], registered);
    }
  }

  lemma {:induction false} ExecuteKeepsInv(s: System, w: Write)
    requires Inv(s) && CanExecute(s, w)
    ensures Inv(DoExecute(s, w))
  {
    var s' := DoExecute(s, w);
    ExecuteKeepsTable(s, w);
    ExecuteKeepsHandlers(s, w);
    IssueKeepsWiring(s.cache, s.channels, s.requests, s.issued, w);
    forall c | 0 <= c < |s'.channels|
      ensures AddressesKnown(s'.channels[c], s'.registered) && ExitOk(s', c)
    {
      RegisterKeepsAddresses(s.channels[c], s.registered, s'.registered);
      assert ExitOk(s, c);
    }
  }

  // ----- Handlers -----

  lemma {:induction false} HandlerAppend(s: System, handler: Handler)
    requires Inv(s) && HandlerOk(handler, s.rows, s.issued)
    ensures Inv(s.(handlers := s.handlers + [handler]))
  {
    var s' := s.(handlers := s.handlers + [handler]);
    forall h | 0 <= h < |s'.handlers|
      ensures HandlerOk(s'.handlers[h], s.rows, s.issued)
    {
      assert h < |s.handlers| ==> HandlerOk(s.handlers[h], s.rows, s.issued);
    }
    ExitsUnchanged(s, s');
  }

  lemma {:induction false} HandlerReplace(s: System, h: nat, phase: HandlerPhase)
    requires Inv(s) && h < |s.handlers|
    ensures Inv(s.(handlers := s.handlers[h := s.handlers[h].(phase := phase)]))
  {
    var s' := s.(handlers := s.handlers[h := s.handlers[h].(phase := phase)]);
    forall k | 0 <= k < |s'.handlers|
      ensures HandlerOk(s'.handlers[k], s.rows, s.issued)
    {
      assert HandlerOk(s.handlers[k], s.rows, s.issued);
    }
    ExitsUnchanged(s, s');
  }

  lemma {:induction false} ExitsUnchanged(s: System, s': System)
    requires forall c | 0 <= c < |s.channels| :: ExitOk(s, c)
    requires s'.cache == s.cache && s'.channels == s.channels && s'.requests == s.requests
    ensures forall c | 0 <= c < |s'.channels| :: ExitOk(s', c)
  {
    forall c | 0 <= c < |s'.channels|
      ensures ExitOk(s', c)
    {
      assert ExitOk(s, c);
    }
  }

  lemma {:induction false} FinishKeepsInv(s: System, h: nat)
    requires Inv(s) && Proxy.Enabled(s, Finish(h))
    ensures Inv(DoFinish(s, h))
  {
    var handler := s.handlers[h];
    assert HandlerOk(handler, s.rows, s.issued);
    ExecuteKeepsInv(s, handler.write);
    HandlerReplace(DoExecute(s, handler.write), h, DoFinish(s, h).handlers[h].phase);
  }

  lemma {:induction false} ShrinkKeepsWiring(s: System, cache: Cache)
    requires Wired(s.cache, s.channels, s.requests, s.issued)
    requires forall t | t in cache :: t in s.cache && cache[t] == s.cache[t]
    ensures Wired(cache, s.channels, s.requests, s.issued)
  {
  }

  lemma {:induction false} ShrinkKeepsExits(s: System, s': System)
    requires forall c | 0 <= c < |s.channels| :: ExitOk(s, c)
    requires s'.channels == s.channels && s'.requests == s.requests
    requires forall t | t in s'.cache :: t in s.cache && s'.cache[t] == s.cache[t]
    ensures forall c | 0 <= c < |s'.channels| :: ExitOk(s', c)
  {
    forall c | 0 <= c < |s'.channels|
      ensures ExitOk(s', c)
    {
      assert ExitOk(s, c);
      assert Open(s', c) ==> Open(s, c);
    }
  }

  /** Giving up the cached dispatcher of a token is a loss of that token. */
  lemma {:induction false} RemovalCounted(s: System, token: Token, loss: Loss)
    requires Counted(s.cache, s.channels, s.losses) && token in s.cache
    requires loss == Invalidated(token) || loss == RemovedClosed(token)
    ensures Counted(s.cache - {token}, s.channels, s.losses + multiset{loss})
  {
    forall t
      ensures CountsOf(s.cache - {token}, s.channels, s.losses + multiset{loss}, t)
    {
      assert CountsOf(s.cache, s.channels, s.losses, t);
    }
  }

  lemma {:induction false} RemoveKeepsInv(s: System, token: Token, loss: Loss)
    requires Inv(s) && token in s.cache
    requires loss == Invalidated(token) || loss == RemovedClosed(token)
    ensures Inv(s.(cache := s.cache - {token}, losses := s.losses + multiset{loss}))
  {
    var s' := s.(cache := s.cache - {token}, losses := s.losses + multiset{loss});
    ShrinkKeepsWiring(s, s'.cache);
    ShrinkKeepsExits(s, s');
    RemovalCounted(s, token, loss);
  }

  lemma {:induction false} InvalidateKeepsInv(s: System, h: nat)
    requires Inv(s) && Proxy.Enabled(s, Proxy.Invalidate(h))
    ensures Inv(DoInvalidate(s, h))
  {
    var token := s.handlers[h].token;
    if token in s.cache {
      RemoveKeepsInv(s, token, Invalidated(token));
      HandlerReplace(s.(cache := s.cache - {token}, losses := s.losses + multiset{Invalidated(token)}), h, Done);
    } else {
      assert s.cache - {token} == s.cache;
      HandlerReplace(s, h, Done);
    }
  }

  // ----- Requests -----

  lemma {:induction false} ArriveKeepsInv(s: System, bearer: Extracted)
    requires Inv(s)
    ensures Inv(Proxy.Next(s, Arrive(bearer)))
  {
    var s' := Proxy.Next(s, Arrive(bearer));
    forall r | 0 <= r < |s'.requests|
      ensures RequestOk(s'.requests[r], s'.channels, s'.issued)
    {
      assert r < |s.requests| ==> RequestOk(s.requests[r], s.channels, s.issued);
    }
    forall c | 0 <= c < |s'.channels|
      ensures ChannelOk(s'.channels[c], c, s'.requests) && ExitOk(s', c)
    {
      assert ChannelOk(s.channels[c], c, s.requests);
      forall i | 0 <= i < |s.channels[c].sent|
        ensures SentOk(s.channels[c].sent[i], s.channels[c].token, c, s'.requests)
      {
        assert SentOk(s.channels[c].sent[i], s.channels[c].token, c, s.requests);
      }
      assert ExitOk(s, c);
      assert InRequest(s'.requests, c) ==> InRequest(s.requests, c);
    }
  }

  /** A request may move on as long as it keeps the channel it was sent to. */
  lemma {:induction false} PhaseKeepsWiring(s: System, r: nat, phase: RequestPhase)
    requires Wired(s.cache, s.channels, s.requests, s.issued) && r < |s.requests|
    requires SentTo(phase) == SentTo(s.requests[r].phase)
    requires RequestOk(s.requests[r].(phase := phase), s.channels, s.issued)
    ensures Wired(s.cache, s.channels, SetPhase(s, r, phase).requests, s.issued)
  {
    var requests := SetPhase(s, r, phase).requests;
    forall c | 0 <= c < |s.channels|
      ensures ChannelOk(s.channels[c], c, requests)
    {
      var ch := s.channels[c];
      assert ChannelOk(ch, c, s.requests);
      forall i | 0 <= i < |ch.sent|
        ensures SentOk(ch.sent[i], ch.token, c, requests)
      {
        assert SentOk(ch.sent[i], ch.token, c, s.requests);
      }
    }
    forall k | 0 <= k < |requests|
      ensures RequestOk(requests[k], s.channels, s.issued)
    {
      assert RequestOk(s.requests[k], s.channels, s.issued);
    }
  }

  /** No new sender of a channel can appear where none is left. */
  lemma {:induction false} PhaseKeepsExits(s: System, r: nat, phase: RequestPhase)
    requires forall c | 0 <= c < |s.channels| :: ExitOk(s, c)
    requires r < |s.requests|
    requires Held(phase).Some? && Held(phase).value < |s.channels| ==> Open(s, Held(phase).value)
    ensures var s' := SetPhase(s, r, phase);
            forall c | 0 <= c < |s.channels| :: (Open(s', c) ==> Open(s, c)) && ExitOk(s', c)
  {
    var s' := SetPhase(s, r, phase);
    forall c | 0 <= c < |s.channels|
      ensures (Open(s', c) ==> Open(s, c)) && ExitOk(s', c)
    {
      assert ExitOk(s, c);
      if InRequest(s'.requests, c) {
        var k :| 0 <= k < |s'.requests| && Held(s'.requests[k].phase) == Some(c);
        assert k != r ==> s.requests[k] == s'.requests[k];
      }
    }
  }

  lemma {:induction false} PhaseKeepsInv(s: System, r: nat, phase: RequestPhase)
    requires Inv(s) && r < |s.requests|
    requires SentTo(phase) == SentTo(s.requests[r].phase)
    requires RequestOk(s.requests[r].(phase := phase), s.channels, s.issued)
    requires Held(phase).Some? && Held(phase).value < |s.channels| ==> Open(s, Held(phase).value)
    ensures Inv(SetPhase(s, r, phase))
  {
    PhaseKeepsWiring(s, r, phase);
    PhaseKeepsExits(s, r, phase);
  }

  /** A cached sender is wired to the token, so a request may hold it. */
  lemma {:induction false} HoldKeepsInv(s: System, r: nat)
    requires Inv(s) && r < |s.requests| && s.requests[r].bearer.Ok?
    requires LiveSender(s.cache, s.requests[r].bearer.value, Closed(s.channels)).Some?
    requires SentTo(s.requests[r].phase) == None
    ensures Inv(SetPhase(s, r, Holding(s.cache[s.requests[r].bearer.value])))
  {
    PhaseKeepsInv(s, r, Holding(s.cache[s.requests[r].bearer.value]));
  }

  lemma {:induction false} FirstLookKeepsInv(s: System, r: nat)
    requires Inv(s) && AtPhase(s, r, Arrived)
    ensures Inv(DoFirstLook(s, r))
  {
    if LiveSender(s.cache, s.requests[r].bearer.value, Closed(s.channels)).Some? {
      HoldKeepsInv(s, r);
    } else {
      PhaseKeepsInv(s, r, Looking);
    }
  }

  lemma {:induction false} CheckRowKeepsInv(s: System, r: nat, row: Option<Row>)
    requires Inv(s) && Proxy.Enabled(s, CheckRow(r, row))
    ensures Inv(Proxy.Next(s, CheckRow(r, row)))
  {
    if row.Some? {
      assert RowOk(row.value.id, s.rows[row.value.id], s.issued, s.registered);
      PhaseKeepsInv(s, r, Found);
    } else {
      FailKeepsInv(s, r);
    }
  }

  lemma {:induction false} EndKeepsInv(s: System, r: nat)
    requires Inv(s) && r < |s.requests| && !s.requests[r].phase.Finished?
    ensures Inv(SetPhase(s, r, End(s.requests[r].phase)))
  {
    assert RequestOk(s.requests[r], s.channels, s.issued);
    PhaseKeepsInv(s, r, End(s.requests[r].phase));
  }

  /** A request that was never sent may be answered with an error. */
  lemma {:induction false} FailKeepsInv(s: System, r: nat)
    requires Inv(s) && r < |s.requests| && SentTo(s.requests[r].phase) == None
    ensures Inv(SetPhase(s, r, Finished(None)))
  {
    PhaseKeepsInv(s, r, Finished(None));
  }

  lemma {:induction false} CleanUpKeepsInv(s: System, r: nat)
    requires Inv(s) && Proxy.Enabled(s, CleanUp(r))
    ensures Inv(DoCleanUp(s, r))
  {
    var token := s.requests[r].bearer.value;
    if token in s.cache && s.cache[token] in Closed(s.channels) {
      RemoveKeepsInv(s, token, RemovedClosed(token));
      FailKeepsInv(s.(cache := s.cache - {token}, losses := s.losses + multiset{RemovedClosed(token)}), r);
    } else {
      FailKeepsInv(s, r);
    }
  }

  // ----- Creation of a dispatcher -----

  lemma {:induction false} AppendKeepsRequests(requests: seq<Request>, channels: seq<Channel>, next: Channel, issued: map<Token, int>)
    requires forall r | 0 <= r < |requests| :: RequestOk(requests[r], channels, issued)
    ensures forall r | 0 <= r < |requests| :: RequestOk(requests[r], channels + [next], issued)
  {
    forall r | 0 <= r < |requests|
      ensures RequestOk(requests[r], channels + [next], issued)
    {
      assert RequestOk(requests[r], channels, issued);
    }
  }

  lemma {:induction false} AppendKeepsChannels(requests: seq<Request>, channels: seq<Channel>, token: Token)
    requires forall c | 0 <= c < |channels| :: ChannelOk(channels[c], c, requests)
    ensures var more := channels + [NewChannel(token)]; forall c | 0 <= c < |more| :: ChannelOk(more[c], c, requests)
  {
    var more := channels + [NewChannel(token)];
    NewChannelInv(token);
    forall c | 0 <= c < |more|
      ensures ChannelOk(more[c], c, requests)
    {
      assert c < |channels| ==> ChannelOk(channels[c], c, requests);
    }
  }

  lemma {:induction false} CreateKeepsWiring(cache: Cache, channels: seq<Channel>, requests: seq<Request>, issued: map<Token, int>, token: Token)
    requires Wired(cache, channels, requests, issued) && token in issued
    ensures Wired(cache[token := |channels|], channels + [NewChannel(token)], requests, issued)
  {
    AppendKeepsRequests(requests, channels, NewChannel(token), issued);
    AppendKeepsChannels(requests, channels, token);
  }

  lemma {:induction false} NewChannelInv(token: Token)
    ensures ChannelInv(NewChannel(token))
  {
    assert Requests([]) == [];
  }

  /** A closed dispatcher that is replaced is a loss; the new one is the one in the cache. */
  lemma {:induction false} CreateCounted(cache: Cache, channels: seq<Channel>, losses: multiset<Loss>, token: Token)
    requires Counted(cache, channels, losses)
    ensures Counted(cache[token := |channels|], channels + [NewChannel(token)],
                    if token in cache then losses + multiset{Replaced(token)} else losses)
  {
    var more := channels + [NewChannel(token)];
    assert TokensOf(more) == TokensOf(channels) + [token];
    var lost := if token in cache then losses + multiset{Replaced(token)} else losses;
    var cache' := cache[token := |channels|];
    forall t
      ensures CountsOf(cache', more, lost, t)
    {
      assert CountsOf(cache, channels, losses, t);
      assert Created(more, t) == Created(channels, t) + if t == token then 1 else 0;
    }
  }

  lemma {:induction false} CreateKeepsExits(s: System, token: Token)
    requires Inv(s) && LiveSender(s.cache, token, Closed(s.channels)).None?
    ensures var s' := Create(s, token); forall c | 0 <= c < |s'.channels| :: ExitOk(s', c)
  {
    var s' := Create(s, token);
    forall c | 0 <= c < |s'.channels|
      ensures ExitOk(s', c)
    {
      if c < |s.channels| {
        assert ExitOk(s, c);
        assert Open(s', c) ==> Open(s, c);
      }
    }
  }

  lemma {:induction false} CreateKeepsInv(s: System, token: Token)
    requires Inv(s) && token in s.issued && LiveSender(s.cache, token, Closed(s.channels)).None?
    ensures Inv(Create(s, token))
  {
    CreateKeepsWiring(s.cache, s.channels, s.requests, s.issued, token);
    CreateCounted(s.cache, s.channels, s.losses, token);
    CreateKeepsExits(s, token);
    var s' := Create(s, token);
    forall c | 0 <= c < |s'.channels|
      ensures AddressesKnown(s'.channels[c], s'.registered)
    {
      assert c < |s.channels| ==> AddressesKnown(s.channels[c], s.registered);
    }
  }

  lemma {:induction false} SecondLookKeepsInv(s: System, r: nat)
    requires Inv(s) && AtPhase(s, r, Found)
    ensures Inv(DoSecondLook(s, r))
  {
    var token := s.requests[r].bearer.value;
    assert RequestOk(s.requests[r], s.channels, s.issued);
    if LiveSender(s.cache, token, Closed(s.channels)).Some? {
      HoldKeepsInv(s, r);
    } else {
      CreateKeepsInv(s, token);
      PhaseKeepsInv(Create(s, token), r, Holding(|s.channels|));
    }
  }

  // ----- Steps of a channel -----

  lemma {:induction false} EventKeepsIdentity(ch: Channel, ev: Event, open: bool)
    requires Dispatcher.Enabled(ch, ev, open)
    ensures Dispatcher.Next(ch, ev, open).token == ch.token
    ensures !ev.Accept? ==> Dispatcher.Next(ch, ev, open).sent == ch.sent
    ensures Dispatcher.Next(ch, ev, open).phase == Exited ==> ch.phase == Exited || (ev == Exit && !open)
  {
  }

  lemma {:induction false} ReplaceKeepsCounts(s: System, c: nat, ch: Channel)
    requires Counted(s.cache, s.channels, s.losses) && c < |s.channels| && ch.token == s.channels[c].token
    ensures Counted(s.cache, s.channels[c := ch], s.losses)
  {
    var channels := s.channels[c := ch];
    assert TokensOf(channels) == TokensOf(s.channels);
    forall t
      ensures CountsOf(s.cache, channels, s.losses, t)
    {
      assert CountsOf(s.cache, s.channels, s.losses, t);
    }
  }

  lemma {:induction false} ReplaceKeepsRequests(s: System, c: nat, ch: Channel)
    requires Wired(s.cache, s.channels, s.requests, s.issued) && c < |s.channels| && ch.token == s.channels[c].token
    ensures CacheOk(s.cache, s.channels[c := ch], s.issued)
    ensures forall r | 0 <= r < |s.requests| :: RequestOk(s.requests[r], s.channels[c := ch], s.issued)
  {
    forall r | 0 <= r < |s.requests|
      ensures RequestOk(s.requests[r], s.channels[c := ch], s.issued)
    {
      assert RequestOk(s.requests[r], s.channels, s.issued);
    }
  }

  lemma {:induction false} ReplaceKeepsWiring(s: System, c: nat, ch: Channel)
    requires Wired(s.cache, s.channels, s.requests, s.issued) && c < |s.channels|
    requires ch.token == s.channels[c].token && ch.sent == s.channels[c].sent && ChannelInv(ch)
    ensures Wired(s.cache, s.channels[c := ch], s.requests, s.issued)
  {
    ReplaceKeepsRequests(s, c, ch);
    assert ChannelOk(s.channels[c], c, s.requests);
    var channels := s.channels[c := ch];
    forall k | 0 <= k < |channels|
      ensures ChannelOk(channels[k], k, s.requests)
    {
      assert ChannelOk(s.channels[k], k, s.requests);
    }
  }

  /** Exiting is the only way to become `Exited`, and it needs that no sender is left. */
  lemma {:induction false} ReplaceKeepsExits(s: System, c: nat, ch: Channel, rows: Table)
    requires (forall k | 0 <= k < |s.channels| :: ExitOk(s, k)) && c < |s.channels|
    requires ch.token == s.channels[c].token
    requires ch.phase == Exited ==> s.channels[c].phase == Exited || !Open(s, c)
    ensures var s' := s.(channels := s.channels[c := ch], rows := rows);
            forall k | 0 <= k < |s'.channels| :: ExitOk(s', k)
  {
    var s' := s.(channels := s.channels[c := ch], rows := rows);
    forall k | 0 <= k < |s'.channels|
      ensures ExitOk(s', k)
    {
      assert ExitOk(s, k);
      assert Open(s', k) <==> Open(s, k);
    }
  }

  predicate RowKnown(token: Token, row: Row, registered: set<(Token, Address)>) {
    row.address.Some? ==> (token, row.address.value) in registered
  }

  /** A resolver takes the address from the row, and a connection is made to the address resolved. */
  lemma {:induction false} EventKeepsUpstream(ch: Channel, ev: Event, open: bool, registered: set<(Token, Address)>)
    requires AddressesKnown(ch, registered) && Dispatcher.Enabled(ch, ev, open)
    requires ev.FindRow? && ev.row.Some? ==> RowKnown(ch.token, ev.row.value, registered)
    ensures var next := Dispatcher.Next(ch, ev, open);
            && (next.phase.Connecting? ==> (next.token, next.phase.address) in registered)
            && (next.upstream.Some? ==> (next.token, next.upstream.value) in registered)
  {
  }

  lemma {:induction false} EventKeepsLog(ch: Channel, ev: Event, open: bool, registered: set<(Token, Address)>)
    requires AddressesKnown(ch, registered) && Dispatcher.Enabled(ch, ev, open)
    ensures var next := Dispatcher.Next(ch, ev, open);
            forall i | 0 <= i < |next.log| :: OutcomeKnown(ch.token, next.log[i], registered)
  {
    var next := Dispatcher.Next(ch, ev, open);
    LogGrows(ch, ev, open);
    forall i | 0 <= i < |next.log|
      ensures OutcomeKnown(ch.token, next.log[i], registered)
    {
      if i < |ch.log| {
        assert next.log[..|ch.log|][i] == ch.log[i];
        assert OutcomeKnown(ch.token, ch.log[i], registered);
      }
    }
  }

  lemma {:induction false} StepKeepsAddresses(s: System, c: nat, ev: Event)
    requires Inv(s) && CanStep(s, c, ev)
    ensures AddressesKnown(Dispatcher.Next(s.channels[c], ev, Open(s, c)), s.registered)
  {
    var ch := s.channels[c];
    assert AddressesKnown(ch, s.registered);
    if ev.FindRow? && ev.row.Some? {
      assert RowOk(ev.row.value.id, s.rows[ev.row.value.id], s.issued, s.registered);
    }
    EventKeepsUpstream(ch, ev, Open(s, c), s.registered);
    EventKeepsLog(ch, ev, Open(s, c), s.registered);
    EventKeepsIdentity(ch, ev, Open(s, c));
  }

  /** A step adds at most one outcome, and a forwarded one carries the address held. */
  lemma {:induction false} LogGrows(ch: Channel, ev: Event, open: bool)
    requires Dispatcher.Enabled(ch, ev, open)
    ensures var log := Dispatcher.Next(ch, ev, open).log;
            || log == ch.log
            || (&& |log| == |ch.log| + 1 && log[..|ch.log|] == ch.log
                && (log[|ch.log|].Forwarded? ==>
                      && ev == Event.Forward && ch.upstream == Some(log[|ch.log|].address)
                      && log[|ch.log|].request == ch.phase.request))
  {
  }

  lemma {:induction false} StepKeepsInv(s: System, c: nat, ev: Event)
    requires Inv(s) && CanStep(s, c, ev)
    ensures Inv(DoStep(s, c, ev))
  {
    var ch := s.channels[c];
    var next := Dispatcher.Next(ch, ev, Open(s, c));
    assert ChannelOk(ch, c, s.requests);
    NextKeepsChannelInv(ch, ev, Open(s, c));
    EventKeepsIdentity(ch, ev, Open(s, c));
    ReplaceKeepsWiring(s, c, next);
    ReplaceKeepsCounts(s, c, next);
    var s' := DoStep(s, c, ev);
    ReplaceKeepsExits(s, c, next, s'.rows);
    StepKeepsAddresses(s, c, ev);
    forall k | 0 <= k < |s'.channels|
      ensures AddressesKnown(s'.channels[k], s'.registered)
    {
      assert AddressesKnown(s.channels[k], s.registered);
    }
    if ev.MarkedFailed? {
      ExecuteKeepsTable(s, MarkFailed(ch.token));
      ExecuteKeepsHandlers(s, MarkFailed(ch.token));
    }
  }

  // ----- Send -----

  lemma {:induction false} SendKeepsChannel(s: System, r: nat)
    requires Inv(s) && Proxy.Enabled(s, Send(r)) && Running(s.channels[s.requests[r].phase.channel].phase)
    ensures var c := s.requests[r].phase.channel;
            ChannelOk(DoSend(s, r).channels[c], c, DoSend(s, r).requests)
  {
    var c, s' := s.requests[r].phase.channel, DoSend(s, r);
    var ch, next := s.channels[c], s'.channels[c];
    assert ChannelOk(ch, c, s.requests);
    assert RequestOk(s.requests[r], s.channels, s.issued);
    NextKeepsChannelInv(ch, Accept(r), true);
    forall i | 0 <= i < |next.sent|
      ensures SentOk(next.sent[i], next.token, c, s'.requests)
    {
      assert i < |ch.sent| ==> SentOk(ch.sent[i], ch.token, c, s.requests);
    }
    forall i, j | 0 <= i < j < |next.sent|
      ensures next.sent[i] != next.sent[j]
    {
      assert SentOk(ch.sent[i], ch.token, c, s.requests);
    }
  }

  lemma {:induction false} SendKeepsWiring(s: System, r: nat)
    requires Inv(s) && Proxy.Enabled(s, Send(r)) && Running(s.channels[s.requests[r].phase.channel].phase)
    ensures var s' := DoSend(s, r); Wired(s'.cache, s'.channels, s'.requests, s'.issued)
  {
    var c, s' := s.requests[r].phase.channel, DoSend(s, r);
    assert RequestOk(s.requests[r], s.channels, s.issued);
    ReplaceKeepsRequests(s, c, s'.channels[c]);
    forall k | 0 <= k < |s'.requests|
      ensures RequestOk(s'.requests[k], s'.channels, s'.issued)
    {
      assert RequestOk(s.requests[k], s'.channels, s.issued);
    }
    forall k | 0 <= k < |s'.channels|
      ensures ChannelOk(s'.channels[k], k, s'.requests)
    {
      if k == c {
        SendKeepsChannel(s, r);
      } else {
        OtherChannelKept(s, r, k);
      }
    }
  }

  /** A request that is being sent is in no channel yet. */
  lemma {:induction false} OtherChannelKept(s: System, r: nat, k: nat)
    requires Inv(s) && Proxy.Enabled(s, Send(r)) && Running(s.channels[s.requests[r].phase.channel].phase)
    requires k < |s.channels| && k != s.requests[r].phase.channel
    ensures ChannelOk(DoSend(s, r).channels[k], k, DoSend(s, r).requests)
  {
    var ch := s.channels[k];
    assert ChannelOk(ch, k, s.requests);
    forall i | 0 <= i < |ch.sent|
      ensures SentOk(ch.sent[i], ch.token, k, DoSend(s, r).requests)
    {
      assert SentOk(ch.sent[i], ch.token, k, s.requests);
    }
  }

  lemma {:induction false} SendKeepsRest(s: System, r: nat)
    requires Inv(s) && Proxy.Enabled(s, Send(r)) && Running(s.channels[s.requests[r].phase.channel].phase)
    ensures var s' := DoSend(s, r);
            && Counted(s'.cache, s'.channels, s'.losses)
            && (forall c | 0 <= c < |s'.channels| :: AddressesKnown(s'.channels[c], s'.registered))
            && (forall c | 0 <= c < |s'.channels| :: ExitOk(s', c))
  {
    var c, s' := s.requests[r].phase.channel, DoSend(s, r);
    assert InRequest(s.requests, c) by { assert Held(s.requests[r].phase) == Some(c); }
    ReplaceKeepsCounts(s, c, s'.channels[c]);
    forall k | 0 <= k < |s'.channels|
      ensures AddressesKnown(s'.channels[k], s'.registered)
    {
      assert AddressesKnown(s.channels[k], s.registered);
    }
    PhaseKeepsExits(s, r, Awaiting(c));
    ReplaceKeepsExits(SetPhase(s, r, Awaiting(c)), c, s'.channels[c], s.rows);
  }

  lemma {:induction false} SendKeepsInv(s: System, r: nat)
    requires Inv(s) && Proxy.Enabled(s, Send(r))
    ensures Inv(DoSend(s, r))
  {
    var c := s.requests[r].phase.channel;
    if Running(s.channels[c].phase) {
      SendKeepsWiring(s, r);
      SendKeepsRest(s, r);
    } else {
      assert InRequest(s.requests, c) by { assert Held(s.requests[r].phase) == Some(c); }
      assert RequestOk(s.requests[r], s.channels, s.issued);
      PhaseKeepsInv(s, r, SendFailed(c));
    }
  }

  // ----- All steps -----

  lemma {:induction false} NextKeepsInv(s: System, a: Action)
    requires Inv(s) && Proxy.Enabled(s, a)
    ensures Inv(Proxy.Next(s, a))
  {
    match a
    case Execute(w) => ExecuteKeepsInv(s, w);
    case BeginDelete(id, username) =>
      assert RowOk(id, s.rows[id], s.issued, s.registered);
      HandlerAppend(s, Handler(s.rows[id].token, Delete(id, username), Pending));
    case BeginCallbackDelete(token) => HandlerAppend(s, Handler(token, CallbackDelete(token), Pending));
    case Finish(h) => FinishKeepsInv(s, h);
    case Invalidate(h) => InvalidateKeepsInv(s, h);
    case Arrive(bearer) => ArriveKeepsInv(s, bearer);
    case FirstLook(r) => FirstLookKeepsInv(s, r);
    case CheckRow(r, row) => CheckRowKeepsInv(s, r, row);
    case CheckFails(r) => FailKeepsInv(s, r);
    case SecondLook(r) => SecondLookKeepsInv(s, r);
    case Send(r) => SendKeepsInv(s, r);
    case CleanUp(r) => CleanUpKeepsInv(s, r);
    case Return(r) => EndKeepsInv(s, r);
    case Cancel(r) => EndKeepsInv(s, r);
    case OnChannel(c, ev) => StepKeepsInv(s, c, ev);
    case Stutter =>
  }

  lemma {:induction false} InitialInv(s: System)
    requires Initial(s)
    ensures Inv(s)
  {
    assert TokensOf([]) == [];
  }

  lemma {:induction false} InvOverRuns(states: seq<System>, actions: seq<Action>, i: nat)
    requires Run(states, actions) && i < |states|
    ensures Inv(states[i])
  {
    if i == 0 {
      InitialInv(states[0]);
    } else {
      InvOverRuns(states, actions, i - 1);
      assert StepAt(states, actions, i - 1);
      NextKeepsInv(states[i - 1], actions[i - 1]);
    }
  }
}
