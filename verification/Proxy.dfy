/**
 The proxy as a whole: the application table, the cache, the dispatchers, the requests and
 the handlers that end applications (server/src/proxy.rs, server/src/routes.rs). A step is
 what happens between two awaits or under one lock, so a run is any interleaving of them.

 Other servers, drivers and commands act on the table only, through `Execute`.
 */
module Proxy {
  import opened Wrappers
  import opened Application
  import opened Dispatcher
  import opened UpstreamCache
  import opened Paths

  /** Where `dispatch_request` stands. A finished request remembers the channel it was sent to. */
  datatype RequestPhase =
    | Arrived                      // before the first section of sender_for
    | Looking                      // before the database lookup
    | Found                        // before the second section
    | Holding(channel: nat)        // has a sender, before send
    | SendFailed(channel: nat)     // before remove_closed
    | Awaiting(channel: nat)       // waiting on the reply channel
    | Finished(via: Option<nat>)   // returned to the client, or cancelled

  /** `bearer` is what `extract_bearer_token` gives for its headers. */
  datatype Request = Request(bearer: Extracted, phase: RequestPhase)

  datatype HandlerPhase = Pending | Written | Done

  /** A `delete_app` or `app_callback_delete` call; `write` is the statement that ends the application. */
  datatype Handler = Handler(token: Token, write: Write, phase: HandlerPhase)

  /** The ways a cached dispatcher is given up. */
  datatype Loss = Invalidated(token: Token) | RemovedClosed(token: Token) | Replaced(token: Token)

  /**
   History: `issued` maps every token ever stored to its row id, `registered` holds the
   addresses callbacks have stored for a token, `losses` the dispatchers given up.
   */
  datatype System = System(
    rows: Table,
    cache: Cache,
    channels: seq<Channel>,
    requests: seq<Request>,
    handlers: seq<Handler>,
    issued: map<Token, int>,
    registered: set<(Token, Address)>,
    losses: multiset<Loss>
  )

  datatype Action =
    | Execute(w: Write)                       // any statement of the table
    | BeginDelete(id: int, username: string)  // delete_app has read the row
    | BeginCallbackDelete(token: Token)
    | Finish(handler: nat)                    // writes FINISHED
    | Invalidate(handler: nat)
    | Arrive(bearer: Extracted)
    | FirstLook(request: nat)
    | CheckRow(request: nat, row: Option<Row>)
    | CheckFails(request: nat)
    | SecondLook(request: nat)
    | Send(request: nat)
    | CleanUp(request: nat)
    | Return(request: nat)
    | Cancel(request: nat)
    | OnChannel(channel: nat, ev: Event)
    | Stutter                                 // something happens elsewhere; see `Joint`

  predicate Initial(s: System) {
    s == System(map[], map[], [], [], [], map[], {}, multiset{})
  }

  // ----- Senders -----

  function Held(phase: RequestPhase): Option<nat> {
    match phase
    case Holding(c) => Some(c)
    case SendFailed(c) => Some(c)
    case Awaiting(c) => Some(c)
    case _ => None
  }

  predicate InCache(cache: Cache, channels: seq<Channel>, c: nat)
    requires c < |channels|
  {
    channels[c].token in cache && cache[channels[c].token] == c
  }

  ghost predicate InRequest(requests: seq<Request>, c: nat) {
    exists r :: 0 <= r < |requests| && Held(requests[r].phase) == Some(c)
  }

  /** Some sender of the channel is left, in the cache or with a request. */
  ghost predicate Open(s: System, c: nat)
    requires c < |s.channels|
  {
    InCache(s.cache, s.channels, c) || InRequest(s.requests, c)
  }

  function Closed(channels: seq<Channel>): set<nat> {
    set c: nat | c < |channels| && !Running(channels[c].phase)
  }

  // ----- Steps -----

  /** The answer of the lookup by token: a row with the token, or none when there is none. */
  predicate IsRowOf(rows: Table, token: Token, row: Option<Row>) {
    match row
    case Some(app) => app.token == token && app.id in rows && rows[app.id] == app
    case None => forall id | id in rows :: rows[id].token != token
  }

  predicate AtPhase(s: System, request: nat, phase: RequestPhase) {
    request < |s.requests| && s.requests[request].phase == phase && s.requests[request].bearer.Ok?
  }

  ghost predicate CanExecute(s: System, w: Write) {
    w.Insert? ==> w.token !in s.issued && forall token | token in s.issued :: s.issued[token] != w.id
  }

  ghost predicate CanStep(s: System, c: nat, ev: Event) {
    && c < |s.channels|
    && Dispatcher.Enabled(s.channels[c], ev, Open(s, c))
    && match ev
       case Accept(_) => false  // only by Send
       case Receive(bearer) =>
         var head := s.channels[c].queue[0];
         head < |s.requests| && s.requests[head].bearer == bearer
       case FindRow(row) => IsRowOf(s.rows, s.channels[c].token, row)
       case _ => true
  }

  /** The reply channel of the request has been used, or dropped by a crash. */
  predicate HasReply(s: System, request: nat) {
    && request < |s.requests|
    && s.requests[request].phase.Awaiting?
    && var c := s.requests[request].phase.channel;
       c < |s.channels| && (request in s.channels[c].replies || request in s.channels[c].lost)
  }

  ghost predicate Enabled(s: System, a: Action) {
    match a
    case Execute(w) => CanExecute(s, w)
    case BeginDelete(id, username) => id in s.rows && s.rows[id].username == username
    case BeginCallbackDelete(_) => true
    case Finish(h) => h < |s.handlers| && s.handlers[h].phase == Pending
    case Invalidate(h) => h < |s.handlers| && s.handlers[h].phase == Written
    case Arrive(_) => true
    case FirstLook(r) => AtPhase(s, r, Arrived)
    case CheckRow(r, row) => AtPhase(s, r, Looking) && IsRowOf(s.rows, s.requests[r].bearer.value, row)
    case CheckFails(r) => AtPhase(s, r, Looking)
    case SecondLook(r) => AtPhase(s, r, Found)
    case Send(r) =>
      && r < |s.requests| && s.requests[r].phase.Holding?
      && s.requests[r].phase.channel < |s.channels|
    case CleanUp(r) => r < |s.requests| && s.requests[r].phase.SendFailed? && s.requests[r].bearer.Ok?
    case Return(r) => HasReply(s, r)
    case Cancel(r) => r < |s.requests| && !s.requests[r].phase.Finished?
    case OnChannel(c, ev) => CanStep(s, c, ev)
    case Stutter => true
  }

  function SetPhase(s: System, r: nat, phase: RequestPhase): System
    requires r < |s.requests|
  {
    s.(requests := s.requests[r := s.requests[r].(phase := phase)])
  }

  function Issue(w: Write, issued: map<Token, int>): map<Token, int> {
    if w.Insert? then issued[w.token := w.id] else issued
  }

  /** A callback that finds its row registers its address. */
  function Register(w: Write, rows: Table, registered: set<(Token, Address)>): set<(Token, Address)> {
    if w.Callback? && exists id :: id in rows && rows[id].token == w.token
    then registered + {(w.token, w.address)}
    else registered
  }

  function DoExecute(s: System, w: Write): System {
    s.(rows := Apply(w, s.rows), issued := Issue(w, s.issued), registered := Register(w, s.rows, s.registered))
  }

  /** `app_callback_delete` goes on to invalidate only when it has found a row. */
  function DoFinish(s: System, h: nat): System
    requires h < |s.handlers|
  {
    var handler := s.handlers[h];
    var found := handler.write.Delete? || exists id :: id in s.rows && Selects(handler.write, s.rows[id]);
    s.(rows := Apply(handler.write, s.rows),
       handlers := s.handlers[h := handler.(phase := if found then Written else Done)])
  }

  function DoInvalidate(s: System, h: nat): System
    requires h < |s.handlers|
  {
    var token := s.handlers[h].token;
    s.(cache := AfterInvalidate(s.cache, token),
       handlers := s.handlers[h := s.handlers[h].(phase := Done)],
       losses := if token in s.cache then s.losses + multiset{Invalidated(token)} else s.losses)
  }

  function DoFirstLook(s: System, r: nat): System
    requires AtPhase(s, r, Arrived)
  {
    match LiveSender(s.cache, s.requests[r].bearer.value, Closed(s.channels))
    case Some(c) => SetPhase(s, r, Holding(c))
    case None => SetPhase(s, r, Looking)
  }

  function DoSecondLook(s: System, r: nat): System
    requires AtPhase(s, r, Found)
  {
    var token := s.requests[r].bearer.value;
    match LiveSender(s.cache, token, Closed(s.channels))
    case Some(c) => SetPhase(s, r, Holding(c))
    case None => SetPhase(Create(s, token), r, Holding(|s.channels|))
  }

  /** A new dispatcher for the token, in place of a closed one if there is one. */
  function Create(s: System, token: Token): System {
    s.(cache := AfterInsert(s.cache, token, Closed(s.channels), |s.channels|),
       channels := s.channels + [NewChannel(token)],
       losses := if token in s.cache then s.losses + multiset{Replaced(token)} else s.losses)
  }

  ghost function DoSend(s: System, r: nat): System
    requires Enabled(s, Send(r))
  {
    var c := s.requests[r].phase.channel;
    assert Open(s, c) by { assert Held(s.requests[r].phase) == Some(c); }
    if Running(s.channels[c].phase)
    then SetPhase(s.(channels := s.channels[c := Dispatcher.Next(s.channels[c], Accept(r), true)]), r, Awaiting(c))
    else SetPhase(s, r, SendFailed(c))
  }

  function DoCleanUp(s: System, r: nat): System
    requires r < |s.requests| && s.requests[r].bearer.Ok?
  {
    var token := s.requests[r].bearer.value;
    var removed := AfterRemoveClosed(s.cache, token, Closed(s.channels));
    SetPhase(s.(cache := removed,
                losses := if token in s.cache && token !in removed then s.losses + multiset{RemovedClosed(token)} else s.losses),
             r, Finished(None))
  }

  /** A request that was sent keeps its channel on record, however it ends. */
  function End(phase: RequestPhase): RequestPhase {
    Finished(if phase.Awaiting? then Some(phase.channel) else None)
  }

  /** The step of a dispatcher; marking the application failed also writes the table. */
  ghost function DoStep(s: System, c: nat, ev: Event): System
    requires CanStep(s, c, ev)
  {
    s.(channels := s.channels[c := Dispatcher.Next(s.channels[c], ev, Open(s, c))],
       rows := if ev.MarkedFailed? then Apply(MarkFailed(s.channels[c].token), s.rows) else s.rows)
  }

  ghost function Next(s: System, a: Action): System
    requires Enabled(s, a)
  {
    match a
    case Execute(w) => DoExecute(s, w)
    case BeginDelete(id, username) =>
      s.(handlers := s.handlers + [Handler(s.rows[id].token, Delete(id, username), Pending)])
    case BeginCallbackDelete(token) => s.(handlers := s.handlers + [Handler(token, CallbackDelete(token), Pending)])
    case Finish(h) => DoFinish(s, h)
    case Invalidate(h) => DoInvalidate(s, h)
    case Arrive(bearer) =>
      s.(requests := s.requests + [Request(bearer, if bearer.Ok? then Arrived else Finished(None))])
    case FirstLook(r) => DoFirstLook(s, r)
    case CheckRow(r, row) => SetPhase(s, r, if row.Some? then Found else Finished(None))
    case CheckFails(r) => SetPhase(s, r, Finished(None))
    case SecondLook(r) => DoSecondLook(s, r)
    case Send(r) => DoSend(s, r)
    case CleanUp(r) => DoCleanUp(s, r)
    case Return(r) => SetPhase(s, r, End(s.requests[r].phase))
    case Cancel(r) => SetPhase(s, r, End(s.requests[r].phase))
    case OnChannel(c, ev) => DoStep(s, c, ev)
    case Stutter => s
  }

  // ----- Runs -----

  ghost predicate StepAt(states: seq<System>, actions: seq<Action>, i: nat)
    requires |states| == |actions| + 1 && i < |actions|
  {
    Enabled(states[i], actions[i]) && states[i + 1] == Next(states[i], actions[i])
  }

  ghost predicate Run(states: seq<System>, actions: seq<Action>) {
    && |states| == |actions| + 1
    && Initial(states[0])
    && forall i | 0 <= i < |actions| :: StepAt(states, actions, i)
  }

  /** The actions lead the proxy from one state to the other. */
  ghost predicate Leads(s: System, actions: seq<Action>, last: System) {
    Path(TryNext, s, actions, last)
  }

  ghost function TryNext(s: System, a: Action): Option<System> {
    if Enabled(s, a) then Some(Next(s, a)) else None
  }
}
