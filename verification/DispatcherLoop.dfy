/**
 The code of the dispatcher task as it is written: `upstream_connection` with its polling
 and its connection retries (server/src/proxy.rs). What the database and the network answer
 is given. Each method also reports the steps of `Dispatcher` it went through, so that what
 is proved of the steps holds of the code.
 */
module DispatcherLoop {
  import opened Wrappers
  import opened Application
  import opened Dispatcher
  import opened Paths
  import opened Database

  // ----- Sequences of steps -----

  datatype Step = Step(ev: Event, open: bool)

  function TryNext(ch: Channel, step: Step): Option<Channel> {
    if Enabled(ch, step.ev, step.open) then Some(Next(ch, step.ev, step.open)) else None
  }

  /** The steps lead the dispatcher from one state to the other. */
  ghost predicate Executes(ch: Channel, steps: seq<Step>, last: Channel) {
    Path(TryNext, ch, steps, last)
  }

  lemma {:induction false} ExecutesOneMore(a: Channel, steps: seq<Step>, b: Channel, ev: Event, open: bool)
    requires Executes(a, steps, b) && Enabled(b, ev, open)
    ensures Executes(a, steps + [Step(ev, open)], Next(b, ev, open))
  {
    PathExtend(TryNext, a, steps, b, Step(ev, open));
  }

  lemma {:induction false} ExecutesKeepsInv(ch: Channel, steps: seq<Step>, last: Channel)
    requires ChannelInv(ch) && Executes(ch, steps, last)
    ensures ChannelInv(last)
    decreases |steps|
  {
    if steps != [] {
      NextKeepsChannelInv(ch, steps[0].ev, steps[0].open);
      ExecutesKeepsInv(TryNext(ch, steps[0]).value, steps[1..], last);
    }
  }

  // ----- resolve_upstream_address -----

  /** One turn of the polling loop: the senders are gone, or the lookup answers. */
  datatype Poll = SendersGone | QueryError | Answer(row: Option<Row>)

  predicate Undecided(poll: Poll) {
    poll.Answer? && poll.row.Some? && poll.row.value.state == LAUNCHING
  }

  /** The result of a turn that ends the loop. */
  function Verdict(poll: Poll): Result<Address, ProxyError> {
    match poll
    case SendersGone => Err(ApplicationNotFound)
    case QueryError => Err(ProxyError.Database)
    case Answer(None) => Err(ApplicationNotFound)
    case Answer(Some(app)) =>
      if app.state != RUNNING then Err(InvalidApplicationState(app.state))
      else if app.address.Some? then Ok(app.address.value)
      else Err(MissingApplicationAddress)
  }

  /** Turn `i` is the first that decides. */
  predicate Decides(polls: seq<Poll>, i: nat) {
    i < |polls| && !Undecided(polls[i]) && forall j | 0 <= j < i :: Undecided(polls[j])
  }

  predicate StillPolling(polls: seq<Poll>) {
    forall i | 0 <= i < |polls| :: Undecided(polls[i])
  }

  /** What the request in hand comes to: the address to connect to, or a reply. */
  function Resolved(ch: Channel, request: RequestId, result: Result<Address, ProxyError>): Channel {
    match result
    case Ok(address) => ch.(phase := Connecting(request, address, 0))
    case Err(error) => Reject(ch, request, error)
  }

  /** One turn: the check of the senders, and the lookup if there are any. */
  lemma {:induction false} TurnExecutes(ch: Channel, request: RequestId, poll: Poll) returns (steps: seq<Step>)
    requires ch.phase == Checking(request)
    ensures Executes(ch, steps, if Undecided(poll) then ch else Resolved(ch, request, Verdict(poll)))
  {
    if poll.SendersGone? {
      ExecutesOneMore(ch, [], ch, SeeClosed, false);
      return [] + [Step(SeeClosed, false)];
    }
    var ev := if poll.QueryError? then QueryFails else FindRow(poll.row);
    var querying := Next(ch, SeeOpen, true);
    ExecutesOneMore(ch, [], ch, SeeOpen, true);
    ExecutesOneMore(ch, [] + [Step(SeeOpen, true)], querying, ev, true);
    steps := [] + [Step(SeeOpen, true)] + [Step(ev, true)];
  }

  lemma {:induction false} OneMoreTurn(ch: Channel, request: RequestId, steps: seq<Step>, poll: Poll) returns (all: seq<Step>)
    requires ch.phase == Checking(request) && Executes(ch, steps, ch)
    ensures Executes(ch, all, if Undecided(poll) then ch else Resolved(ch, request, Verdict(poll)))
  {
    var more := TurnExecutes(ch, request, poll);
    PathConcat(TryNext, ch, steps, ch, more, if Undecided(poll) then ch else Resolved(ch, request, Verdict(poll)));
    all := steps + more;
  }

  /**
   The polling loop, on the turns it gets to: it ends at the first that decides, and goes on
   as long as the row is LAUNCHING, so with no result if none does.
   */
  method ResolveUpstreamAddress(polls: seq<Poll>, ghost ch: Channel, ghost request: RequestId)
    returns (result: Option<Result<Address, ProxyError>>, turn: nat, ghost steps: seq<Step>)
    requires ch.phase == Checking(request)
    ensures result.None? <==> turn == |polls|
    ensures turn <= |polls| && forall j | 0 <= j < turn :: polls[j].Answer? && polls[j].row.Some? && polls[j].row.value.state == LAUNCHING
    ensures turn < |polls| ==>
              match polls[turn]
              case SendersGone => result == Some(Err(ApplicationNotFound))
              case QueryError => result == Some(Err(ProxyError.Database))
              case Answer(None) => result == Some(Err(ApplicationNotFound))
              case Answer(Some(Row(_, _, _, _, state, _, address, _))) =>
                && state != LAUNCHING
                && (state == RUNNING && address.Some? ==> result == Some(Ok(address.value)))
                && (state == RUNNING && address.None? ==> result == Some(Err(MissingApplicationAddress)))
                && (state == FAILED ==> result == Some(Err(InvalidApplicationState(FAILED))))
                && (state == FINISHED ==> result == Some(Err(InvalidApplicationState(FINISHED))))
    ensures result.Some? ==> Decides(polls, turn) && result.value == Verdict(polls[turn])
    ensures Executes(ch, steps, if result.Some? then Resolved(ch, request, result.value) else ch)
  {
    steps, turn := [], 0;
    while turn < |polls|
      invariant turn <= |polls|
      invariant forall j | 0 <= j < turn :: Undecided(polls[j])
      invariant Executes(ch, steps, ch)
    {
      var poll := polls[turn];
      steps := OneMoreTurn(ch, request, steps, poll);
      match poll {
        case SendersGone => return Some(Err(ApplicationNotFound)), turn, steps;
        case QueryError => return Some(Err(ProxyError.Database)), turn, steps;
        case Answer(None) => return Some(Err(ApplicationNotFound)), turn, steps;
        case Answer(Some(app)) =>
          match app.state {
            case RUNNING =>
              if app.address.Some? {
                return Some(Ok(app.address.value)), turn, steps;
              }
              return Some(Err(MissingApplicationAddress)), turn, steps;
            case LAUNCHING => turn := turn + 1;
            case state => return Some(Err(InvalidApplicationState(state))), turn, steps;
          }
      }
    }
    return None, turn, steps;
  }

  // ----- resolve_upstream_connection -----

  /** What `connect_upstream` comes to. */
  datatype Attempt = Success | ConnectFailed | HandshakeFailed

  function ErrorOf(attempt: Attempt): ProxyError {
    if attempt.ConnectFailed? then UpstreamConnect else UpstreamHandshake
  }

  /** What the attempts `0..=MAX_UPSTREAM_CONNECT_RETRIES` would come to. */
  type Attempts = attempts: seq<Attempt> | |attempts| == MAX_UPSTREAM_CONNECT_RETRIES + 1
    witness [Success, Success, Success, Success]

  predicate SomeSuccess(attempts: Attempts) {
    exists i | 0 <= i < |attempts| :: attempts[i].Success?
  }

  function Connected(ch: Channel, request: RequestId, address: Address): Channel {
    ch.(phase := Ready(request), upstream := Some(address), connects := ch.connects + 1)
  }

  /** `mark_application_failed`: the rows of the token, and only those, become FAILED and lose their address. */
  method MarkApplicationFailed(db: Connection, token: Token, updateOk: bool) returns (r: Result<(), ProxyError>)
    modifies db
    ensures r == if updateOk then Ok(()) else Err(ProxyError.Database)
    ensures db.rows.Keys == old(db.rows).Keys
    ensures forall id | id in db.rows ::
              db.rows[id] == if updateOk && old(db.rows)[id].token == token
                             then old(db.rows)[id].(state := FAILED, address := None)
                             else old(db.rows)[id]
  {
    if !updateOk {
      return Err(ProxyError.Database);
    }
    var _ := db.Execute(MarkFailed(token));
    return Ok(());
  }

  /**
   The retry loop. The first success wins; after four failures the application is marked
   failed and the last error returned, so the `expect` on it never fails. `db` is the table
   as it stands then.
   */
  method ConnectWithRetries(db: Connection, token: Token, address: Address, attempts: Attempts, markOk: bool,
                            ghost ch: Channel, ghost request: RequestId)
    returns (result: Result<(), ProxyError>, tries: nat, ghost steps: seq<Step>)
    requires ch.phase == Connecting(request, address, 0)
    modifies db
    ensures result.Ok? <==> exists i | 0 <= i < 4 :: attempts[i].Success?
    ensures 1 <= tries <= 4 && forall j | 0 <= j < tries - 1 :: !attempts[j].Success?
    ensures result.Ok? ==> attempts[tries - 1].Success?
    ensures result.Err? ==>
              tries == 4 && result.error == if !markOk then ProxyError.Database
                                            else if attempts[3].ConnectFailed? then UpstreamConnect else UpstreamHandshake
    ensures db.rows.Keys == old(db.rows).Keys
    ensures forall id | id in db.rows ::
              db.rows[id] == if result.Err? && markOk && old(db.rows)[id].token == token
                             then old(db.rows)[id].(state := FAILED, address := None)
                             else old(db.rows)[id]
    ensures Executes(ch, steps, if result.Ok? then Connected(ch, request, address) else Reject(ch, request, result.error))
  {
    var lastError: Option<ProxyError> := None;
    steps, tries := [], 0;
    ghost var now := ch;
    while tries <= MAX_UPSTREAM_CONNECT_RETRIES
      invariant tries <= 4
      invariant forall j | 0 <= j < tries :: !attempts[j].Success?
      invariant tries > 0 ==> lastError == Some(ErrorOf(attempts[tries - 1]))
      invariant now == ch.(phase := if tries <= 3 then Connecting(request, address, tries)
                                    else Failing(request, ErrorOf(attempts[3])))
      invariant Executes(ch, steps, now)
      invariant db.rows == old(db.rows)
    {
      if attempts[tries].Success? {
        ExecutesOneMore(ch, steps, now, ConnectOk, true);
        return Ok(()), tries + 1, steps + [Step(ConnectOk, true)];
      }
      var error := ErrorOf(attempts[tries]);
      ExecutesOneMore(ch, steps, now, ConnectFails(error), true);
      steps := steps + [Step(ConnectFails(error), true)];
      now := Next(now, ConnectFails(error), true);
      lastError := Some(error);
      tries := tries + 1;
    }
    var marked := MarkApplicationFailed(db, token, markOk);
    ghost var ev := if marked.Ok? then MarkedFailed else MarkFails;
    ExecutesOneMore(ch, steps, now, ev, true);
    steps := steps + [Step(ev, true)];
    if marked.Err? {
      return Err(marked.error), tries, steps;
    }
    return Err(lastError.value), tries, steps;
  }

  /** What is answered while one message is dealt with, as far as it is asked. */
  datatype Answers = Answers(polls: seq<Poll>, attempts: Attempts, markOk: bool, uriValid: bool, ready: bool)

  /** The connection a verdict on the address comes to. */
  function Resolution(verdict: Result<Address, ProxyError>, answers: Answers): Result<Address, ProxyError> {
    match verdict
    case Err(error) => Err(error)
    case Ok(address) =>
      if SomeSuccess(answers.attempts) then Ok(address)
      else Err(if answers.markOk then ErrorOf(answers.attempts[3]) else ProxyError.Database)
  }

  /**
   `resolve_upstream_connection`, with no result as long as the address is being polled for.
   A client is told that the driver cannot be reached exactly if the rows of the token were
   marked FAILED.
   */
  method ResolveUpstreamConnection(db: Connection, token: Token, answers: Answers, ghost ch: Channel, ghost request: RequestId)
    returns (result: Option<Result<Address, ProxyError>>, ghost steps: seq<Step>, ghost last: Channel)
    requires ch.phase == Checking(request)
    modifies db
    ensures result.None? <==> StillPolling(answers.polls)
    ensures result.None? ==> db.rows == old(db.rows)
    ensures result.Some? ==>
              exists i: nat :: Decides(answers.polls, i) && result.value == Resolution(Verdict(answers.polls[i]), answers)
    ensures result.Some? && result.value.Ok? ==> exists i | 0 <= i < 4 :: answers.attempts[i].Success?
    ensures result.Some? && result.value.Err? && result.value.error in {UpstreamConnect, UpstreamHandshake} ==>
              answers.markOk && forall i | 0 <= i < 4 :: !answers.attempts[i].Success?
    ensures db.rows.Keys == old(db.rows).Keys
    ensures forall id | id in db.rows ::
              db.rows[id] == if result.Some? && result.value.Err? && result.value.error in {UpstreamConnect, UpstreamHandshake}
                                && old(db.rows)[id].token == token
                             then old(db.rows)[id].(state := FAILED, address := None)
                             else old(db.rows)[id]
    ensures Executes(ch, steps, last)
    ensures last == match result
                    case None => ch
                    case Some(Ok(address)) => Connected(ch, request, address)
                    case Some(Err(error)) => Reject(ch, request, error)
  {
    var address, turn;
    address, turn, steps := ResolveUpstreamAddress(answers.polls, ch, request);
    last := ch;
    if address.None? {
      return None, steps, last;
    }
    last := Resolved(ch, request, address.value);
    if address.value.Err? {
      return Some(Err(address.value.error)), steps, last;
    }
    var connected, _, more := ConnectWithRetries(db, token, address.value.value, answers.attempts, answers.markOk, last, request);
    ghost var next := if connected.Ok? then Connected(last, request, address.value.value) else Reject(last, request, connected.error);
    PathConcat(TryNext, ch, steps, last, more, next);
    steps, last := steps + more, next;
    if connected.Err? {
      return Some(Err(connected.error)), steps, last;
    }
    return Some(Ok(address.value.value)), steps, last;
  }

  // ----- upstream_connection -----

  /** A message: the request and the bearer token of its headers. */
  datatype Message = Message(request: RequestId, bearer: Extracted)

  function Ids(messages: seq<Message>): seq<RequestId> {
    seq(|messages|, i requires 0 <= i < |messages| => messages[i].request)
  }

  /** What becomes of a request once a connection to the address is held, and of the connection. */
  function Delivery(request: RequestId, address: Address, answers: Answers): (Outcome, Option<Address>) {
    if !answers.uriValid then (Rejected(request, InvalidUpstreamUri), Some(address))
    else if !answers.ready then (Rejected(request, UpstreamRequest), None)
    else (Forwarded(request, address), Some(address))
  }

  /**
   The outcome of one message, and the `upstream` it leaves behind, as the answers call for:
   the address is asked for only when no connection is held, and the network only then.
   */
  ghost predicate Treated(
    token: Token, message: Message, upstream: Option<Address>, answers: Answers, outcome: Outcome, upstream': Option<Address>)
  {
    match message.bearer
    case Err(error) => outcome == Rejected(message.request, error) && upstream' == upstream
    case Ok(t) =>
      if t != token then outcome == Rejected(message.request, InvalidAuthorizationToken) && upstream' == upstream
      else if upstream.Some? then (outcome, upstream') == Delivery(message.request, upstream.value, answers)
      else
        exists i: nat :: Decides(answers.polls, i)
                         && (outcome, upstream') == AfterResolution(message.request, Resolution(Verdict(answers.polls[i]), answers), answers)
  }

  function AfterResolution(request: RequestId, resolution: Result<Address, ProxyError>, answers: Answers):
    (Outcome, Option<Address>)
  {
    match resolution
    case Err(error) => (Rejected(request, error), None)
    case Ok(address) => Delivery(request, address, answers)
  }

  /** The dispatcher does the same with a request that is ready to go out. */
  lemma {:induction false} Delivers(
    ch: Channel, steps: seq<Step>, now: Channel, request: RequestId, address: Address, answers: Answers)
    returns (all: seq<Step>, last: Channel)
    requires Executes(ch, steps, now) && now.phase == Ready(request) && now.upstream == Some(address)
    ensures Executes(ch, all, last)
    ensures var (outcome, upstream) := Delivery(request, address, answers);
            last == now.(phase := Receiving, upstream := upstream, log := now.log + [outcome],
                         replies := now.replies + (if outcome.Rejected? then multiset{request} else multiset{}),
                         inflight := now.inflight + (if outcome.Forwarded? then multiset{request} else multiset{}))
  {
    var ev := if !answers.uriValid then UriInvalid else if !answers.ready then NotReady else Forward;
    ExecutesOneMore(ch, steps, now, ev, true);
    all, last := steps + [Step(ev, true)], Next(now, ev, true);
  }

  /** What the treatment of a message comes to, case by case. */
  lemma {:induction false} TreatedMeans(
    token: Token, message: Message, upstream: Option<Address>, answers: Answers, outcome: Outcome, upstream': Option<Address>)
    requires Treated(token, message, upstream, answers, outcome, upstream')
    ensures outcome.request == message.request
    // The token of the request itself is wrong: nothing is looked up, and the connection stays.
    ensures message.bearer.Err? ==> outcome == Rejected(message.request, message.bearer.error) && upstream' == upstream
    ensures message.bearer.Ok? && message.bearer.value != token ==>
              outcome == Rejected(message.request, InvalidAuthorizationToken) && upstream' == upstream
    // A connection is held.
    ensures message.bearer == Ok(token) && upstream.Some? && !answers.uriValid ==>
              outcome == Rejected(message.request, InvalidUpstreamUri) && upstream' == upstream
    ensures message.bearer == Ok(token) && upstream.Some? && answers.uriValid && answers.ready ==>
              outcome == Forwarded(message.request, upstream.value) && upstream' == upstream
    ensures message.bearer == Ok(token) && upstream.Some? && answers.uriValid && !answers.ready ==>
              outcome == Rejected(message.request, UpstreamRequest) && upstream' == None
    // Or one has to be made first.
    ensures outcome.Forwarded? ==> upstream' == Some(outcome.address) && answers.uriValid && answers.ready
    ensures outcome.Rejected? && outcome.error == InvalidUpstreamUri ==> upstream'.Some? && !answers.uriValid
    ensures outcome.Rejected? && outcome.error == UpstreamRequest ==> upstream' == None && answers.uriValid && !answers.ready
    ensures Tells(outcome, upstream')
  {
  }

  /** The message needs an address, and the lookups go on answering LAUNCHING. */
  predicate Unresolved(token: Token, message: Message, upstream: Option<Address>, answers: Answers) {
    message.bearer == Ok(token) && upstream.None? && StillPolling(answers.polls)
  }

  /**
   The body of the loop for one message: exactly one outcome, whichever `continue` is taken,
   or none as long as the address is being polled for.
   */
  method HandleMessage(db: Connection, token: Token, message: Message, upstream: Option<Address>, answers: Answers,
                       ghost ch: Channel)
    returns (upstream': Option<Address>, outcome: Option<Outcome>, ghost steps: seq<Step>, ghost last: Channel)
    requires ch.phase == Receiving && ch.queue != [] && ch.queue[0] == message.request
    requires ch.token == token && ch.upstream == upstream
    modifies db
    ensures Executes(ch, steps, last)
    ensures last.queue == ch.queue[1..] && last.token == token && last.sent == ch.sent && last.upstream == upstream'
    ensures outcome.None? <==> Unresolved(token, message, upstream, answers)
    ensures outcome.None? ==> last == ch.(queue := ch.queue[1..], phase := Checking(message.request)) && db.rows == old(db.rows)
    ensures outcome.Some? ==>
              last.phase == Receiving && last.log == ch.log + [outcome.value] && outcome.value.request == message.request
    ensures outcome.Some? ==> Treated(token, message, upstream, answers, outcome.value, upstream')
    ensures outcome == Some(Rejected(message.request, UpstreamRequest)) ==> upstream' == None && answers.uriValid && !answers.ready
    ensures outcome.Some? && outcome.value.Forwarded? ==> upstream' == Some(outcome.value.address) && answers.uriValid && answers.ready
    ensures db.rows.Keys == old(db.rows).Keys
    ensures forall id | id in db.rows ::
              db.rows[id] == if outcome.Some? && outcome.value.Rejected? && outcome.value.error in {UpstreamConnect, UpstreamHandshake}
                                && old(db.rows)[id].token == token
                             then old(db.rows)[id].(state := FAILED, address := None)
                             else old(db.rows)[id]
    ensures outcome.Some? ==>
              && last.replies == ch.replies + (if outcome.value.Rejected? then multiset{message.request} else multiset{})
              && last.inflight == ch.inflight + (if outcome.value.Forwarded? then multiset{message.request} else multiset{})
  {
    var request := message.request;
    var taken := Take(ch, message.bearer);
    ExecutesOneMore(ch, [], ch, Receive(message.bearer), true);
    steps, last, upstream' := [] + [Step(Receive(message.bearer), true)], taken, upstream;
    match message.bearer {
      case Err(error) =>
        outcome := Some(Rejected(request, error));
        return;
      case Ok(t) =>
        if t != token {
          outcome := Some(Rejected(request, InvalidAuthorizationToken));
          return;
        }
    }

    if upstream'.None? {
      var connection, more, next := ResolveUpstreamConnection(db, token, answers, last, request);
      PathConcat(TryNext, ch, steps, last, more, next);
      steps, last := steps + more, next;
      if connection.None? {
        outcome := None;
        return;
      }
      if connection.value.Err? {
        outcome := Some(Rejected(request, connection.value.error));
        return;
      }
      upstream' := Some(connection.value.value);
    }

    var held := upstream'.value;  // the `unwrap`
    steps, last := Delivers(ch, steps, last, request, held, answers);
    if !answers.uriValid {
      outcome := Some(Rejected(request, InvalidUpstreamUri));
    } else if !answers.ready {
      upstream' := None;
      outcome := Some(Rejected(request, UpstreamRequest));
    } else {
      outcome := Some(Forwarded(request, held));
    }
  }

  /**
   Each outcome so far is what the answers call for; `held` are the connections between them.
   The answers are given for each message by its number.
   */
  ghost predicate AllTreated(
    token: Token, messages: seq<Message>, answers: nat -> Answers, log: seq<Outcome>, held: seq<Option<Address>>)
  {
    && |log| <= |messages| && |held| == |log| + 1 && held[0] == None
    && forall i | 0 <= i < |log| :: Treated(token, messages[i], held[i], answers(i), log[i], held[i + 1])
  }

  lemma {:induction false} TreatOneMore(
    token: Token, messages: seq<Message>, answers: nat -> Answers, log: seq<Outcome>, held: seq<Option<Address>>,
    outcome: Outcome, upstream: Option<Address>)
    requires AllTreated(token, messages, answers, log, held) && |log| < |messages|
    requires Treated(token, messages[|log|], held[|log|], answers(|log|), outcome, upstream)
    ensures AllTreated(token, messages, answers, log + [outcome], held + [upstream])
  {
    var log', held' := log + [outcome], held + [upstream];
    forall i | 0 <= i < |log'|
      ensures Treated(token, messages[i], held'[i], answers(i), log'[i], held'[i + 1])
    {
      assert i < |log| ==> Treated(token, messages[i], held[i], answers(i), log[i], held[i + 1]);
    }
  }

  /** More messages come later in the list, and change nothing of what was dealt with. */
  lemma {:induction false} MoreMessages(
    token: Token, messages: seq<Message>, more: seq<Message>, answers: nat -> Answers, log: seq<Outcome>, held: seq<Option<Address>>)
    requires AllTreated(token, messages, answers, log, held)
    ensures AllTreated(token, messages + more, answers, log, held)
  {
    forall i | 0 <= i < |log|
      ensures Treated(token, (messages + more)[i], held[i], answers(i), log[i], held[i + 1])
    {
      assert (messages + more)[i] == messages[i];
    }
  }

  /** The messages of some arrivals, in order. */
  function Arrived(arrivals: seq<seq<Message>>): seq<Message> {
    if arrivals == [] then [] else Arrived(arrivals[..|arrivals| - 1]) + arrivals[|arrivals| - 1]
  }

  /** Senders may put any messages into the queue of a task that runs. */
  lemma {:induction false} AcceptAll(start: Channel, steps: seq<Step>, ch: Channel, messages: seq<Message>)
    returns (all: seq<Step>, next: Channel)
    requires Executes(start, steps, ch) && Running(ch.phase)
    ensures Executes(start, all, next)
    ensures next == ch.(queue := ch.queue + Ids(messages), sent := ch.sent + Ids(messages))
    decreases |messages|
  {
    all, next := steps, ch;
    if messages == [] {
      assert ch.queue + Ids(messages) == ch.queue && ch.sent + Ids(messages) == ch.sent;
    } else {
      var request := messages[0].request;
      ExecutesOneMore(start, steps, ch, Accept(request), true);
      all, next := AcceptAll(start, steps + [Step(Accept(request), true)], Next(ch, Accept(request), true), messages[1..]);
      assert Ids(messages) == [request] + Ids(messages[1..]);
      assert ch.queue + [request] + Ids(messages[1..]) == ch.queue + ([request] + Ids(messages[1..]));
      assert ch.sent + [request] + Ids(messages[1..]) == ch.sent + ([request] + Ids(messages[1..]));
    }
  }

  /** Some client was told that the driver cannot be reached. */
  predicate Unreached(log: seq<Outcome>) {
    exists o | 0 <= o < |log| :: log[o].Rejected? && log[o].error in {UpstreamConnect, UpstreamHandshake}
  }

  /** The table `rows` after the outcomes so far. */
  function TableAfter(rows: Table, token: Token, log: seq<Outcome>): Table {
    map id | id in rows ::
      if Unreached(log) && rows[id].token == token then rows[id].(state := FAILED, address := None) else rows[id]
  }

  lemma {:induction false} TableBefore(rows: Table, token: Token)
    ensures TableAfter(rows, token, []) == rows
  {
    assert !Unreached([]);
    assert forall id | id in rows :: TableAfter(rows, token, [])[id] == rows[id];
  }

  lemma {:induction false} TableOneMore(
    rows: Table, token: Token, log: seq<Outcome>, outcome: Outcome, before: Table, after: Table)
    requires before == TableAfter(rows, token, log) && after.Keys == before.Keys
    requires forall id | id in after ::
               after[id] == if outcome.Rejected? && outcome.error in {UpstreamConnect, UpstreamHandshake} && before[id].token == token
                            then before[id].(state := FAILED, address := None)
                            else before[id]
    ensures after == TableAfter(rows, token, log + [outcome])
  {
    var more := log + [outcome];
    assert more[|log|] == outcome;
    assert forall o | 0 <= o < |log| :: more[o] == log[o];
    assert Unreached(more) <==> Unreached(log) || (outcome.Rejected? && outcome.error in {UpstreamConnect, UpstreamHandshake});
    assert after.Keys == rows.Keys;
    forall id | id in rows
      ensures after[id] == TableAfter(rows, token, more)[id]
    {
      assert id in after;
    }
  }

  /** Whatever the messages and the answers, each outcome tells which connection is held after it. */
  lemma {:induction false} HeldTells(token: Token, messages: seq<Message>, answers: nat -> Answers, log: seq<Outcome>,
                                     held: seq<Option<Address>>, i: nat)
    requires AllTreated(token, messages, answers, log, held) && i < |log|
    ensures log[i].request == messages[i].request
    ensures match log[i]
            case Forwarded(_, address) => held[i + 1] == Some(address) && (held[i].Some? ==> held[i] == held[i + 1])
            case Rejected(_, UpstreamRequest) => held[i + 1] == None
            case _ => true
  {
    TreatedMeans(token, messages[i], held[i], answers(i), log[i], held[i + 1]);
  }

  /** The variables of the loop, at the call of `recv`, and where the dispatcher stands. */
  datatype Progress = Progress(
    queue: seq<Message>, upstream: Option<Address>, log: seq<Outcome>, replied: seq<RequestId>, spawned: seq<RequestId>,
    held: seq<Option<Address>>, steps: seq<Step>, last: Channel)

  ghost predicate Midway(token: Token, arrived: seq<Message>, answers: nat -> Answers, p: Progress) {
    && AllTreated(token, arrived, answers, p.log, p.held) && p.held[|p.log|] == p.upstream
    && p.queue == arrived[|p.log|..]
    && Executes(NewChannel(token), p.steps, p.last)
    && p.last.phase == Receiving && p.last.token == token && p.last.upstream == p.upstream
    && p.last.queue == Ids(p.queue) && p.last.log == p.log && p.last.sent == Ids(arrived)
    && p.last.replies == multiset(p.replied) && p.last.inflight == multiset(p.spawned)
  }

  lemma {:induction false} Begin(token: Token, answers: nat -> Answers)
    ensures Midway(token, [], answers, Progress([], None, [], [], [], [None], [], NewChannel(token)))
  {
    assert Requests([]) == [];
  }

  /** The messages of one more round arrive. */
  lemma {:induction false} Arrive(token: Token, arrivals: seq<seq<Message>>, round: nat, answers: nat -> Answers, p: Progress)
    returns (next: Progress)
    requires round < |arrivals| && Midway(token, Arrived(arrivals[..round]), answers, p)
    ensures Midway(token, Arrived(arrivals[..round + 1]), answers, next)
    ensures next == p.(queue := p.queue + arrivals[round], steps := next.steps, last := next.last)
  {
    var arrived, more := Arrived(arrivals[..round]), arrivals[round];
    assert arrivals[..round + 1][..round] == arrivals[..round];
    var steps, last := AcceptAll(NewChannel(token), p.steps, p.last, more);
    next := p.(queue := p.queue + more, steps := steps, last := last);
    MoreMessages(token, arrived, more, answers, p.log, p.held);
    assert Ids(p.queue + more) == Ids(p.queue) + Ids(more);
    assert Ids(arrived + more) == Ids(arrived) + Ids(more);
  }

  function Advance(p: Progress, outcome: Outcome, upstream: Option<Address>, more: seq<Step>, last: Channel): Progress
    requires p.queue != []
  {
    Progress(p.queue[1..], upstream, p.log + [outcome],
             if outcome.Rejected? then p.replied + [outcome.request] else p.replied,
             if outcome.Forwarded? then p.spawned + [outcome.request] else p.spawned,
             p.held + [upstream], p.steps + more, last)
  }

  /** A message is dealt with. */
  lemma {:induction false} Handled(token: Token, arrived: seq<Message>, answers: nat -> Answers, p: Progress,
                                   outcome: Outcome, upstream: Option<Address>, more: seq<Step>, next: Channel)
    requires Midway(token, arrived, answers, p) && p.queue != []
    requires Executes(p.last, more, next)
    requires next.phase == Receiving && next.queue == p.last.queue[1..] && next.token == token && next.sent == p.last.sent
    requires next.upstream == upstream && next.log == p.log + [outcome]
    requires Treated(token, p.queue[0], p.upstream, answers(|p.log|), outcome, upstream)
    requires outcome.request == p.queue[0].request
    requires next.replies == p.last.replies + if outcome.Rejected? then multiset{outcome.request} else multiset{}
    requires next.inflight == p.last.inflight + if outcome.Forwarded? then multiset{outcome.request} else multiset{}
    ensures Midway(token, arrived, answers, Advance(p, outcome, upstream, more, next))
  {
    PathConcat(TryNext, NewChannel(token), p.steps, p.last, more, next);
    TreatOneMore(token, arrived, answers, p.log, p.held, outcome, upstream);
    assert Ids(p.queue)[1..] == Ids(p.queue[1..]);
  }

  /** The body of the loop, on the first message of the queue. */
  method TreatNext(db: Connection, token: Token, message: Message, upstream: Option<Address>, given: Answers,
                   ghost rows: Table, ghost arrived: seq<Message>, ghost answers: nat -> Answers, ghost p: Progress)
    returns (upstream': Option<Address>, outcome: Option<Outcome>, ghost more: seq<Step>, ghost last: Channel)
    requires db.rows == TableAfter(rows, token, p.log)
    requires Midway(token, arrived, answers, p) && p.queue != []
    requires message == p.queue[0] && upstream == p.upstream && given == answers(|p.log|)
    modifies db
    ensures outcome.Some? ==> Midway(token, arrived, answers, Advance(p, outcome.value, upstream', more, last))
    ensures outcome.Some? ==> db.rows == TableAfter(rows, token, p.log + [outcome.value])
    ensures outcome.None? ==> db.rows == TableAfter(rows, token, p.log)
    ensures outcome.None? ==>
              && Unresolved(token, message, upstream, given) && Executes(NewChannel(token), p.steps + more, last)
              && last.log == p.log && last.replies == multiset(p.replied) && last.inflight == multiset(p.spawned)
  {
    ghost var before := db.rows;
    upstream', outcome, more, last := HandleMessage(db, token, message, upstream, given, p.last);
    if outcome.Some? {
      TableOneMore(rows, token, p.log, outcome.value, before, db.rows);
      Handled(token, arrived, answers, p, outcome.value, upstream', more, last);
    } else {
      PathConcat(TryNext, NewChannel(token), p.steps, p.last, more, last);
    }
  }

  /** The messages still to come change nothing of what was dealt with. */
  lemma {:induction false} StillWaiting(token: Token, arrivals: seq<seq<Message>>, round: nat, answers: nat -> Answers, p: Progress)
    requires round <= |arrivals| && Midway(token, Arrived(arrivals[..round]), answers, p)
    requires p.queue != [] && Unresolved(token, p.queue[0], p.upstream, answers(|p.log|))
    ensures AllTreated(token, Arrived(arrivals), answers, p.log, p.held)
    ensures |p.log| < |Arrived(arrivals)|
            && Unresolved(token, Arrived(arrivals)[|p.log|], p.held[|p.log|], answers(|p.log|))
  {
    var arrived, all := Arrived(arrivals[..round]), Arrived(arrivals);
    ArrivedPrefix(arrivals, round);
    assert all == arrived + all[|arrived|..];
    MoreMessages(token, arrived, all[|arrived|..], answers, p.log, p.held);
  }

  /** `recv` finds the queue empty and the senders gone. */
  lemma {:induction false} Leave(token: Token, arrived: seq<Message>, answers: nat -> Answers, p: Progress)
    returns (steps: seq<Step>, last: Channel)
    requires Midway(token, arrived, answers, p) && p.queue == []
    ensures Executes(NewChannel(token), steps, last) && ChannelInv(last)
    ensures last.phase == Exited && last.log == p.log && |p.log| == |arrived| && AllTreated(token, arrived, answers, p.log, p.held)
    ensures last.replies == multiset(p.replied) && last.inflight == multiset(p.spawned)
    ensures multiset(Ids(arrived)) == multiset(p.replied) + multiset(p.spawned)
  {
    ExecutesOneMore(NewChannel(token), p.steps, p.last, Exit, false);
    steps, last := p.steps + [Step(Exit, false)], Next(p.last, Exit, false);
    StartInv(token);
    ExecutesKeepsInv(NewChannel(token), steps, last);
    assert last.sent == Requests(last.log);
  }

  /**
   The loop over the messages of a channel, until `recv` returns None. The messages come in
   any number of arrivals, each before one of the calls of `recv`. Every message gets one
   outcome, in order, with the connection the one before has left (`held`): its reply channel
   is used by the loop, or by the response task it is spawned with. All of it is a run of the
   dispatcher; it exits, unless some message is still being polled for. The rows of the token
   are FAILED afterwards exactly if a client was told that the driver cannot be reached.
   */
  method UpstreamConnection(db: Connection, token: Token, arrivals: seq<seq<Message>>, answers: nat -> Answers)
    returns (log: seq<Outcome>, replied: seq<RequestId>, spawned: seq<RequestId>, finished: bool,
             ghost held: seq<Option<Address>>, ghost steps: seq<Step>, ghost last: Channel)
    modifies db
    ensures AllTreated(token, Arrived(arrivals), answers, log, held)
    ensures db.rows == TableAfter(old(db.rows), token, log)
    ensures Executes(NewChannel(token), steps, last)
    ensures last.log == log && last.replies == multiset(replied) && last.inflight == multiset(spawned)
    ensures finished ==> last.phase == Exited && |log| == |Arrived(arrivals)| && ChannelInv(last)
    ensures finished ==> multiset(Ids(Arrived(arrivals))) == multiset(replied) + multiset(spawned)
    ensures !finished ==> |log| < |Arrived(arrivals)|
                          && Unresolved(token, Arrived(arrivals)[|log|], held[|log|], answers(|log|))
  {
    log, replied, spawned := [], [], [];
    var upstream: Option<Address> := None;
    var queue: seq<Message> := [];
    var round := 0;
    Begin(token, answers);
    ghost var rows := db.rows;
    TableBefore(rows, token);
    ghost var p := Progress([], None, [], [], [], [None], [], NewChannel(token));
    while round < |arrivals| || queue != []
      invariant round <= |arrivals|
      invariant Midway(token, Arrived(arrivals[..round]), answers, p)
      invariant db.rows == TableAfter(rows, token, log)
      invariant p.queue == queue && p.upstream == upstream && p.log == log && p.replied == replied && p.spawned == spawned
      decreases |arrivals| - round, |queue|
    {
      if round < |arrivals| {
        p := Arrive(token, arrivals, round, answers, p);
        queue := queue + arrivals[round];
        round := round + 1;
      }
      if queue != [] {
        var outcome;
        ghost var more, now;
        upstream, outcome, more, now := TreatNext(db, token, queue[0], upstream, answers(|log|), rows, Arrived(arrivals[..round]), answers, p);
        if outcome.None? {
          StillWaiting(token, arrivals, round, answers, p);
          return log, replied, spawned, false, p.held, p.steps + more, now;
        }
        p := Advance(p, outcome.value, upstream, more, now);
        log, queue := log + [outcome.value], queue[1..];
        match outcome.value {
          case Rejected(request, _) => replied := replied + [request];
          case Forwarded(request, _) => spawned := spawned + [request];
        }
      }
    }
    assert arrivals[..round] == arrivals;
    held := p.held;
    steps, last := Leave(token, Arrived(arrivals), answers, p);
    finished := true;
  }

  lemma {:induction false} ArrivedPrefix(arrivals: seq<seq<Message>>, round: nat)
    requires round <= |arrivals|
    ensures Arrived(arrivals[..round]) <= Arrived(arrivals)
    decreases |arrivals|
  {
    if round < |arrivals| {
      var last := |arrivals| - 1;
      ArrivedPrefix(arrivals[..last], round);
      assert arrivals[..last][..round] == arrivals[..round];
    } else {
      assert arrivals[..round] == arrivals;
    }
  }

  lemma {:induction false} StartInv(token: Token)
    ensures ChannelInv(NewChannel(token))
  {
    assert Requests([]) == [];
  }
}
