/**
 One channel of the proxy and the task `upstream_connection` that serves it
 (server/src/proxy.rs). Each `await` of the task starts a new step. The channel also
 keeps the history needed to state what happens to its requests.
 */
module Dispatcher {
  import opened Wrappers
  import opened Application

  type Token = string
  type Address = string
  type RequestId = nat

  datatype ProxyError =
    | MissingAuthorizationHeader
    | InvalidAuthorizationHeader
    | InvalidAuthorizationScheme
    | InvalidAuthorizationToken
    | ApplicationNotFound
    | MissingApplicationAddress
    | InvalidApplicationState(state: State)
    | Database
    | UpstreamConnect
    | UpstreamHandshake
    | InvalidUpstreamUri
    | UpstreamRequest
    | Internal

  /** What is wrong with the authorization header of a request. */
  predicate HeaderError(error: ProxyError) {
    error in {MissingAuthorizationHeader, InvalidAuthorizationHeader, InvalidAuthorizationScheme}
  }

  /** The bearer token of the headers of a request; see `Bearer`. */
  type Extracted = r: Result<Token, ProxyError> | r.Err? ==> HeaderError(r.error) witness Ok("")

  /** The index of the last of the attempts `0..=MAX_UPSTREAM_CONNECT_RETRIES`. */
  const MAX_UPSTREAM_CONNECT_RETRIES: nat := 3

  /** Where the task stands, with the request it has taken from the queue. */
  datatype Phase =
    | Receiving                                                   // at rx.recv()
    | Checking(request: RequestId)                                // at the top of the polling loop
    | Querying(request: RequestId)                                // waiting for the row
    | Connecting(request: RequestId, address: Address, attempt: nat)
    | Failing(request: RequestId, error: ProxyError)              // in mark_application_failed
    | Ready(request: RequestId)                                   // past the resolution, upstream is set
    | Exited                                                      // recv() returned None
    | Crashed                                                     // the task panicked or was aborted

  /** What the loop did with a request it took. */
  datatype Outcome =
    | Forwarded(request: RequestId, address: Address)
    | Rejected(request: RequestId, error: ProxyError)

  /**
   `upstream` is the variable of the loop: the address of the connection it holds.
   `inflight` are the requests whose upstream response is awaited by a task of their own.
   History: `sent` what senders put in, `log` the outcomes, `replies` the uses of reply
   channels, `lost` what a crash dropped, and the number of connections made.
   */
  datatype Channel = Channel(
    token: Token,
    queue: seq<RequestId>,
    phase: Phase,
    upstream: Option<Address>,
    inflight: multiset<RequestId>,
    sent: seq<RequestId>,
    log: seq<Outcome>,
    replies: multiset<RequestId>,
    lost: seq<RequestId>,
    connects: nat
  )

  datatype Event =
    | Accept(request: RequestId)                      // sender.send, not a step of the task
    | Receive(bearer: Extracted)      // with the bearer token of the request received
    | SeeClosed
    | SeeOpen
    | FindRow(row: Option<Row>)
    | QueryFails
    | ConnectOk
    | ConnectFails(error: ProxyError)
    | MarkedFailed
    | MarkFails
    | UriInvalid
    | NotReady
    | Forward
    | Respond(request: RequestId)                     // the response task of a forwarded request ends
    | Exit
    | Crash

  function NewChannel(token: Token): Channel {
    Channel(token, [], Receiving, None, multiset{}, [], [], multiset{}, [], 0)
  }

  predicate Running(phase: Phase) {
    phase != Exited && phase != Crashed
  }

  /** `open` tells whether some sender of the channel is left. */
  predicate Enabled(ch: Channel, ev: Event, open: bool) {
    match ev
    case Accept(_) => open && Running(ch.phase)
    case Receive(_) => ch.phase == Receiving && ch.queue != []
    case SeeClosed => ch.phase.Checking? && !open
    case SeeOpen => ch.phase.Checking? && open
    case FindRow(_) => ch.phase.Querying?
    case QueryFails => ch.phase.Querying?
    case ConnectOk => ch.phase.Connecting?
    case ConnectFails(error) => ch.phase.Connecting? && error in {UpstreamConnect, UpstreamHandshake}
    case MarkedFailed => ch.phase.Failing?
    case MarkFails => ch.phase.Failing?
    case UriInvalid => ch.phase.Ready? && ch.upstream.Some?
    case NotReady => ch.phase.Ready? && ch.upstream.Some?
    case Forward => ch.phase.Ready? && ch.upstream.Some?
    case Respond(request) => request in ch.inflight
    case Exit => ch.phase == Receiving && ch.queue == [] && !open
    case Crash => Running(ch.phase)
  }

  /** `tx.send(Err(error))` and `continue`. */
  function Reject(ch: Channel, request: RequestId, error: ProxyError): Channel {
    ch.(phase := Receiving, log := ch.log + [Rejected(request, error)], replies := ch.replies + multiset{request})
  }

  /** What the polling loop does with the row it has read. */
  function Resolve(ch: Channel, request: RequestId, row: Option<Row>): Channel {
    match row
    case None => Reject(ch, request, ApplicationNotFound)
    case Some(app) =>
      match app.state
      case RUNNING =>
        (match app.address
         case Some(address) => ch.(phase := Connecting(request, address, 0))
         case None => Reject(ch, request, MissingApplicationAddress))
      case LAUNCHING => ch.(phase := Checking(request))
      case state => Reject(ch, request, InvalidApplicationState(state))
  }

  /** The request taken has to carry the token of the channel. */
  function Take(ch: Channel, bearer: Extracted): Channel
    requires ch.queue != []
  {
    var request, taken := ch.queue[0], ch.(queue := ch.queue[1..]);
    match bearer
    case Err(error) => Reject(taken, request, error)
    case Ok(token) =>
      if token != ch.token then Reject(taken, request, InvalidAuthorizationToken)
      else if ch.upstream.None? then taken.(phase := Checking(request))
      else taken.(phase := Ready(request))
  }

  function Next(ch: Channel, ev: Event, open: bool): Channel
    requires Enabled(ch, ev, open)
  {
    match ev
    case Accept(request) => ch.(queue := ch.queue + [request], sent := ch.sent + [request])
    case Receive(bearer) => Take(ch, bearer)
    case SeeClosed => Reject(ch, ch.phase.request, ApplicationNotFound)
    case SeeOpen => ch.(phase := Querying(ch.phase.request))
    case FindRow(row) => Resolve(ch, ch.phase.request, row)
    case QueryFails => Reject(ch, ch.phase.request, Database)
    case ConnectOk =>
      ch.(phase := Ready(ch.phase.request), upstream := Some(ch.phase.address), connects := ch.connects + 1)
    case ConnectFails(error) =>
      if ch.phase.attempt < MAX_UPSTREAM_CONNECT_RETRIES
      then ch.(phase := Connecting(ch.phase.request, ch.phase.address, ch.phase.attempt + 1))
      else ch.(phase := Failing(ch.phase.request, error))
    case MarkedFailed => Reject(ch, ch.phase.request, ch.phase.error)
    case MarkFails => Reject(ch, ch.phase.request, Database)
    case UriInvalid => Reject(ch, ch.phase.request, InvalidUpstreamUri)
    case NotReady => Reject(ch.(upstream := None), ch.phase.request, UpstreamRequest)
    case Forward =>
      ch.(phase := Receiving,
          log := ch.log + [Forwarded(ch.phase.request, ch.upstream.value)],
          inflight := ch.inflight + multiset{ch.phase.request})
    case Respond(request) =>
      ch.(inflight := ch.inflight - multiset{request}, replies := ch.replies + multiset{request})
    case Exit => ch.(phase := Exited)
    case Crash => ch.(phase := Crashed, queue := [], lost := Hand(ch.phase) + ch.queue)
  }

  // ----- Invariant of one channel -----

  /** The request the task has taken and not dealt with yet. */
  function Hand(phase: Phase): seq<RequestId> {
    if phase.Receiving? || phase.Exited? || phase.Crashed? then [] else [phase.request]
  }

  function Requests(log: seq<Outcome>): seq<RequestId> {
    seq(|log|, i requires 0 <= i < |log| => log[i].request)
  }

  /** Requests leave in the order they were sent, each with one outcome. */
  predicate Fifo(ch: Channel) {
    ch.sent == Requests(ch.log) + Hand(ch.phase) + ch.queue + ch.lost
  }

  /** What the loop has dealt with is awaited upstream or replied, one for one. */
  predicate Balanced(ch: Channel) {
    multiset(Requests(ch.log)) == ch.inflight + ch.replies
  }

  /** The outcomes that report a connection that was no longer ready. */
  function Broken(log: seq<Outcome>): nat {
    if log == [] then 0
    else
      var last := log[|log| - 1];
      Broken(log[..|log| - 1]) + if last.Rejected? && last.error == UpstreamRequest then 1 else 0
  }

  /** Every connection made is held, or was reported broken to one request. */
  predicate Accounted(ch: Channel) {
    && (Running(ch.phase) ==> ch.connects == Broken(ch.log) + if ch.upstream.Some? then 1 else 0)
    && Broken(ch.log) <= ch.connects
  }

  /** What each phase says of the connection and of the queues. */
  predicate PhaseOk(ch: Channel) {
    && (ch.phase.Ready? ==> ch.upstream.Some?)
    && (ch.phase.Checking? || ch.phase.Querying? || ch.phase.Connecting? || ch.phase.Failing? ==> ch.upstream.None?)
    && (ch.phase.Connecting? ==> ch.phase.attempt <= MAX_UPSTREAM_CONNECT_RETRIES)
    && (ch.phase.Failing? ==> ch.phase.error in {UpstreamConnect, UpstreamHandshake})
    && (ch.phase != Crashed ==> ch.lost == [])
    && (!Running(ch.phase) ==> ch.queue == [])
  }

  /**
   What an outcome tells of the connection held afterwards: the one forwarded to is kept, as is
   one whose request had no valid URI; every error of the upstream or its resolution leaves
   none; an error of the request's own token leaves things as they were.
   */
  predicate Tells(outcome: Outcome, upstream: Option<Address>) {
    match outcome
    case Forwarded(_, address) => upstream == Some(address)
    case Rejected(_, error) =>
      HeaderError(error) || error == InvalidAuthorizationToken || (upstream.Some? <==> error == InvalidUpstreamUri)
  }

  predicate Told(ch: Channel) {
    ch.phase == Receiving && ch.log != [] ==> Tells(ch.log[|ch.log| - 1], ch.upstream)
  }

  predicate ChannelInv(ch: Channel) {
    Fifo(ch) && Balanced(ch) && PhaseOk(ch) && Accounted(ch) && Told(ch)
  }

  lemma {:induction false} LogAppend(log: seq<Outcome>, outcome: Outcome)
    ensures Requests(log + [outcome]) == Requests(log) + [outcome.request]
  {
  }

  lemma {:induction false} MoveOut(done: seq<RequestId>, request: RequestId, queue: seq<RequestId>, lost: seq<RequestId>)
    ensures done + [request] + queue + lost == (done + [request]) + [] + queue + lost
  {
  }

  lemma {:induction false} MoveIn(done: seq<RequestId>, queue: seq<RequestId>, lost: seq<RequestId>)
    requires queue != []
    ensures done + [] + queue + lost == done + [queue[0]] + queue[1..] + lost
  {
    assert queue == [queue[0]] + queue[1..];
  }

  lemma {:induction false} MoveLost(done: seq<RequestId>, hand: seq<RequestId>, queue: seq<RequestId>)
    ensures done + hand + queue + [] == done + [] + [] + (hand + queue)
  {
  }

  /** Dealing with the request in hand, whichever way, keeps the order. */
  lemma {:induction false} OutcomeKeepsFifo(ch: Channel, outcome: Outcome, next: Channel)
    requires Fifo(ch) && Hand(ch.phase) == [outcome.request]
    requires next.sent == ch.sent && next.queue == ch.queue && next.lost == ch.lost
    requires next.phase == Receiving && next.log == ch.log + [outcome]
    ensures Fifo(next)
  {
    LogAppend(ch.log, outcome);
    MoveOut(Requests(ch.log), outcome.request, ch.queue, ch.lost);
  }

  lemma {:induction false} RejectKeepsOrder(ch: Channel, request: RequestId, error: ProxyError)
    requires Fifo(ch) && Balanced(ch) && Hand(ch.phase) == [request]
    ensures Fifo(Reject(ch, request, error)) && Balanced(Reject(ch, request, error))
  {
    var next := Reject(ch, request, error);
    OutcomeKeepsFifo(ch, Rejected(request, error), next);
    LogAppend(ch.log, Rejected(request, error));
    assert multiset(Requests(ch.log) + [request]) == multiset(Requests(ch.log)) + multiset{request};
  }

  lemma {:induction false} ForwardKeepsOrder(ch: Channel, open: bool)
    requires Fifo(ch) && Balanced(ch) && Enabled(ch, Forward, open)
    ensures Fifo(Next(ch, Forward, open)) && Balanced(Next(ch, Forward, open))
  {
    var request := ch.phase.request;
    var outcome := Forwarded(request, ch.upstream.value);
    OutcomeKeepsFifo(ch, outcome, Next(ch, Forward, open));
    LogAppend(ch.log, outcome);
    assert multiset(Requests(ch.log) + [request]) == multiset(Requests(ch.log)) + multiset{request};
  }

  lemma {:induction false} TakeKeepsOrder(ch: Channel, bearer: Extracted)
    requires Fifo(ch) && Balanced(ch) && ch.phase == Receiving && ch.queue != []
    ensures Fifo(Take(ch, bearer)) && Balanced(Take(ch, bearer))
  {
    var request := ch.queue[0];
    var held := ch.(queue := ch.queue[1..], phase := Checking(request));
    MoveIn(Requests(ch.log), ch.queue, ch.lost);
    assert Fifo(held) && Balanced(held);
    match bearer
    case Err(error) =>
      RejectKeepsOrder(held, request, error);
      assert Take(ch, bearer) == Reject(held, request, error);
    case Ok(token) =>
      if token != ch.token {
        RejectKeepsOrder(held, request, InvalidAuthorizationToken);
        assert Take(ch, bearer) == Reject(held, request, InvalidAuthorizationToken);
      }
  }

  lemma {:induction false} ResolveKeepsOrder(ch: Channel, row: Option<Row>)
    requires Fifo(ch) && Balanced(ch) && ch.phase.Querying?
    ensures Fifo(Resolve(ch, ch.phase.request, row)) && Balanced(Resolve(ch, ch.phase.request, row))
  {
    var request := ch.phase.request;
    if row.None? {
      RejectKeepsOrder(ch, request, ApplicationNotFound);
    } else if row.value.state == RUNNING {
      RejectKeepsOrder(ch, request, MissingApplicationAddress);
    } else if row.value.state != LAUNCHING {
      RejectKeepsOrder(ch, request, InvalidApplicationState(row.value.state));
    }
  }

  lemma {:induction false} NextKeepsOrder(ch: Channel, ev: Event, open: bool)
    requires Fifo(ch) && Balanced(ch) && PhaseOk(ch) && Enabled(ch, ev, open)
    ensures Fifo(Next(ch, ev, open)) && Balanced(Next(ch, ev, open))
  {
    match ev
    case Accept(request) => AcceptKeepsOrder(ch, request, open);
    case Receive(bearer) => TakeKeepsOrder(ch, bearer);
    case SeeClosed => RejectKeepsOrder(ch, ch.phase.request, ApplicationNotFound);
    case FindRow(row) => ResolveKeepsOrder(ch, row);
    case QueryFails => RejectKeepsOrder(ch, ch.phase.request, Database);
    case MarkedFailed => RejectKeepsOrder(ch, ch.phase.request, ch.phase.error);
    case MarkFails => RejectKeepsOrder(ch, ch.phase.request, Database);
    case UriInvalid => RejectKeepsOrder(ch, ch.phase.request, InvalidUpstreamUri);
    case NotReady => NotReadyKeepsOrder(ch, open);
    case Forward => ForwardKeepsOrder(ch, open);
    case Respond(request) => RespondKeepsOrder(ch, request, open);
    case Crash => MoveLost(Requests(ch.log), Hand(ch.phase), ch.queue);
    case _ =>
  }

  lemma {:induction false} NotReadyKeepsOrder(ch: Channel, open: bool)
    requires Fifo(ch) && Balanced(ch) && Enabled(ch, NotReady, open)
    ensures Fifo(Next(ch, NotReady, open)) && Balanced(Next(ch, NotReady, open))
  {
    var closed := ch.(upstream := None);
    RejectKeepsOrder(closed, ch.phase.request, UpstreamRequest);
  }

  lemma {:induction false} RespondKeepsOrder(ch: Channel, request: RequestId, open: bool)
    requires Fifo(ch) && Balanced(ch) && Enabled(ch, Respond(request), open)
    ensures Fifo(Next(ch, Respond(request), open)) && Balanced(Next(ch, Respond(request), open))
  {
    assert ch.inflight == (ch.inflight - multiset{request}) + multiset{request};
  }

  lemma {:induction false} AcceptKeepsOrder(ch: Channel, request: RequestId, open: bool)
    requires Fifo(ch) && Balanced(ch) && PhaseOk(ch) && Enabled(ch, Accept(request), open)
    ensures Fifo(Next(ch, Accept(request), open)) && Balanced(Next(ch, Accept(request), open))
  {
    assert ch.lost == [];
  }

  lemma {:induction false} NextKeepsPhase(ch: Channel, ev: Event, open: bool)
    requires PhaseOk(ch) && Enabled(ch, ev, open)
    ensures PhaseOk(Next(ch, ev, open))
  {
  }

  lemma {:induction false} BrokenOneMore(log: seq<Outcome>, outcome: Outcome)
    ensures Broken(log + [outcome])
            == Broken(log) + if outcome.Rejected? && outcome.error == UpstreamRequest then 1 else 0
  {
    assert (log + [outcome])[..|log|] == log;
  }

  /** A rejection leaves the connection as it is, and only the error of a broken one is counted. */
  lemma {:induction false} RejectAccounted(ch: Channel, request: RequestId, error: ProxyError)
    requires Running(ch.phase)
    requires ch.connects == Broken(ch.log) + (if ch.upstream.Some? then 1 else 0) + if error == UpstreamRequest then 1 else 0
    requires HeaderError(error) || error == InvalidAuthorizationToken || (ch.upstream.Some? <==> error == InvalidUpstreamUri)
    ensures Accounted(Reject(ch, request, error)) && Told(Reject(ch, request, error))
  {
    BrokenOneMore(ch.log, Rejected(request, error));
  }

  lemma {:induction false} TakeAccounted(ch: Channel, bearer: Extracted)
    requires Accounted(ch) && ch.phase == Receiving && ch.queue != []
    ensures Accounted(Take(ch, bearer)) && Told(Take(ch, bearer))
  {
    var taken := ch.(queue := ch.queue[1..]);
    match bearer
    case Err(error) => RejectAccounted(taken, ch.queue[0], error);
    case Ok(token) =>
      if token != ch.token {
        RejectAccounted(taken, ch.queue[0], InvalidAuthorizationToken);
      }
  }

  lemma {:induction false} ResolveAccounted(ch: Channel, row: Option<Row>)
    requires Accounted(ch) && PhaseOk(ch) && ch.phase.Querying?
    ensures Accounted(Resolve(ch, ch.phase.request, row)) && Told(Resolve(ch, ch.phase.request, row))
  {
    var request := ch.phase.request;
    match row
    case None => RejectAccounted(ch, request, ApplicationNotFound);
    case Some(app) =>
      if app.state == RUNNING {
        RejectAccounted(ch, request, MissingApplicationAddress);
      } else if app.state != LAUNCHING {
        RejectAccounted(ch, request, InvalidApplicationState(app.state));
      }
  }

  lemma {:induction false} ForwardAccounted(ch: Channel, open: bool)
    requires Accounted(ch) && Enabled(ch, Forward, open)
    ensures Accounted(Next(ch, Forward, open)) && Told(Next(ch, Forward, open))
  {
    BrokenOneMore(ch.log, Forwarded(ch.phase.request, ch.upstream.value));
  }

  lemma {:induction false} NextKeepsAccounts(ch: Channel, ev: Event, open: bool)
    requires PhaseOk(ch) && Accounted(ch) && Told(ch) && Enabled(ch, ev, open)
    ensures Accounted(Next(ch, ev, open)) && Told(Next(ch, ev, open))
  {
    match ev
    case Receive(bearer) => TakeAccounted(ch, bearer);
    case SeeClosed => RejectAccounted(ch, ch.phase.request, ApplicationNotFound);
    case FindRow(row) => ResolveAccounted(ch, row);
    case QueryFails => RejectAccounted(ch, ch.phase.request, Database);
    case MarkedFailed => RejectAccounted(ch, ch.phase.request, ch.phase.error);
    case MarkFails => RejectAccounted(ch, ch.phase.request, Database);
    case UriInvalid => RejectAccounted(ch, ch.phase.request, InvalidUpstreamUri);
    case NotReady => RejectAccounted(ch.(upstream := None), ch.phase.request, UpstreamRequest);
    case Forward => ForwardAccounted(ch, open);
    case _ =>
  }

  lemma {:induction false} NextKeepsChannelInv(ch: Channel, ev: Event, open: bool)
    requires ChannelInv(ch) && Enabled(ch, ev, open)
    ensures ChannelInv(Next(ch, ev, open))
  {
    NextKeepsOrder(ch, ev, open);
    NextKeepsPhase(ch, ev, open);
    NextKeepsAccounts(ch, ev, open);
  }

  // ----- What the invariant says -----

  /** Every request sent is queued, in hand, awaited upstream, replied or lost: in exactly one of them. */
  lemma {:induction false} RequestsConserved(ch: Channel)
    requires ChannelInv(ch)
    ensures multiset(ch.sent) ==
            multiset(ch.queue) + multiset(Hand(ch.phase)) + ch.inflight + ch.replies + multiset(ch.lost)
  {
  }

  // ----- The final drain -----

  /** The steps the loop itself takes. */
  predicate OfLoop(ev: Event) {
    !ev.Accept? && !ev.Respond? && !ev.Crash?
  }

  /** An upper bound of the steps the loop still takes once no sender is left. */
  function StepsLeft(ch: Channel): nat {
    12 * |ch.queue| +
    match ch.phase
    case Receiving => 1
    case Checking(_) => 10
    case Querying(_) => 11
    case Connecting(_, _, attempt) => if attempt <= 3 then 9 - attempt else 5
    case Failing(_, _) => 4
    case Ready(_) => 3
    case Exited => 0
    case Crashed => 0
  }

  lemma {:induction false} DrainDecreases(ch: Channel, ev: Event)
    requires PhaseOk(ch) && Enabled(ch, ev, false) && OfLoop(ev)
    ensures StepsLeft(Next(ch, ev, false)) < StepsLeft(ch)
  {
  }

  /** What the loop can do next, whatever its phase. */
  function SomeStep(ch: Channel): Event {
    match ch.phase
    case Receiving => if ch.queue == [] then Exit else Receive(Ok(ch.token))
    case Checking(_) => SeeClosed
    case Querying(_) => QueryFails
    case Connecting(_, _, _) => ConnectOk
    case Failing(_, _) => MarkedFailed
    case _ => Forward
  }

  lemma {:induction false} DrainNotStuck(ch: Channel)
    requires PhaseOk(ch) && Running(ch.phase)
    ensures OfLoop(SomeStep(ch)) && Enabled(ch, SomeStep(ch), false)
  {
  }

  predicate DrainsTo(ch: Channel, events: seq<Event>, last: Channel)
    decreases |events|
  {
    if events == [] then last == ch
    else OfLoop(events[0]) && Enabled(ch, events[0], false) && DrainsTo(Next(ch, events[0], false), events[1..], last)
  }

  /** Once no sender is left, the loop takes at most `StepsLeft` more steps, whatever the answers it gets. */
  lemma {:induction false} DrainEnds(ch: Channel, events: seq<Event>, last: Channel)
    requires ChannelInv(ch) && DrainsTo(ch, events, last)
    ensures ChannelInv(last) && last.sent == ch.sent
    ensures |events| + StepsLeft(last) <= StepsLeft(ch)
    decreases |events|
  {
    if events != [] {
      NextKeepsChannelInv(ch, events[0], false);
      DrainDecreases(ch, events[0]);
      KeepsSent(ch, events[0]);
      DrainEnds(Next(ch, events[0], false), events[1..], last);
    }
  }

  lemma {:induction false} KeepsSent(ch: Channel, ev: Event)
    requires Enabled(ch, ev, false) && OfLoop(ev)
    ensures Next(ch, ev, false).sent == ch.sent
  {
  }

  /**
   When it can take no more, it has exited, and every request ever sent has an outcome,
   in the order sent, and has been replied to or is awaited upstream.
   */
  lemma {:induction false} DrainAnswersAll(ch: Channel, events: seq<Event>, last: Channel)
    requires ChannelInv(ch) && DrainsTo(ch, events, last)
    requires forall ev :: OfLoop(ev) ==> !Enabled(last, ev, false)
    ensures last.phase == Exited || last.phase == Crashed
    ensures last.phase == Exited ==>
              Requests(last.log) == ch.sent && multiset(ch.sent) == last.inflight + last.replies
  {
    DrainEnds(ch, events, last);
    if Running(last.phase) {
      DrainNotStuck(last);
    }
    assert last.phase == Exited ==> Requests(last.log) + Hand(last.phase) + last.queue + last.lost == Requests(last.log);
  }
}
