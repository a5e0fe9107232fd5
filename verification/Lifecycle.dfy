/**
 The life of an application, end to end: the handlers that create and delete it,
 its launch watcher, and its driver with the callbacks of the plugin (server/src/routes.rs,
 plugin/.../SparkPlugListener.scala, SparkPlugInterceptor.scala). Every `await` and every
 event of the driver is a step of its own, so all interleavings are covered. The proxy, the
 check and prune commands, and other servers act through `External`, at any moment.
 */
module Lifecycle {
  import opened Wrappers
  import opened Application
  import opened Paths

  // ----- One application -----

  /** Where `create_app` stands. */
  datatype Launch = Inserted | Spawned | Refused | Recorded

  /** Where the listener of the driver stands; events are handled one after the other. */
  datatype Listener = Booting | Posting | PostServed | Waiting | Deleting | DeleteServed | Over | Crashed

  /**
   `served` and `delivered` tell whether the server has processed the callback POST and
   DELETE, `attempted` whether the DELETE was issued. `external` is `Config.externalShutdown`
   and `stopped` tells that the service was stopped, so that its end event is on the bus.
   */
  datatype Driver = Driver(
    listener: Listener, served: bool, stopped: bool, external: bool, attempted: bool, delivered: bool)

  /** A `delete_app` call that has read the row, and then one that has written FINISHED. */
  datatype Deleter = Found(address: Option<string>) | Marked(address: Option<string>)

  datatype Session = Session(
    token: string, username: string, launch: Launch, watching: bool, driver: Driver, deleters: seq<Deleter>)

  datatype Step =
    | LaunchReturns(ok: bool)
    | RecordRefusal
    | WatcherFires
    | ServiceStarts
    | ServePost(address: string, applicationId: string)
    | PostReturns(ok: bool)
    | IdleStop
    | ReceiveStop(deleter: nat)
    | StopOnMessage
    | HandleEnd
    | ServeDelete
    | DeleteReturns
    | Crash
    | FindForDelete
    | MarkFinished(deleter: nat)

  const IDLE_DRIVER := Driver(Booting, false, false, false, false, false)

  predicate Alive(driver: Driver) {
    driver.listener != Over && driver.listener != Crashed
  }

  predicate CanMove(session: Session, row: Option<Row>, step: Step) {
    var driver := session.driver;
    match step
    case LaunchReturns(_) => session.launch == Inserted
    case RecordRefusal => session.launch == Refused
    case WatcherFires => session.watching
    case ServiceStarts => session.launch == Spawned && driver.listener == Booting
    case ServePost(_, _) => driver.listener == Posting
    // A POST that was dropped before it was processed can only fail.
    case PostReturns(ok) => driver.listener == PostServed || (driver.listener == Posting && !ok)
    case IdleStop => session.launch == Spawned && Alive(driver)
    case ReceiveStop(d) => d < |session.deleters| && session.deleters[d].Marked? && session.deleters[d].address.Some?
    case StopOnMessage => driver.external
    case HandleEnd => driver.listener == Waiting && driver.stopped
    case ServeDelete => driver.listener == Deleting
    case DeleteReturns => driver.listener == Deleting || driver.listener == DeleteServed
    case Crash => session.launch == Spawned && Alive(driver)
    case FindForDelete => row.Some? && row.value.username == session.username
    case MarkFinished(d) => d < |session.deleters| && session.deleters[d].Found?
  }

  function Move(session: Session, row: Option<Row>, step: Step): Session
    requires CanMove(session, row, step)
  {
    var driver := session.driver;
    match step
    case LaunchReturns(ok) => session.(launch := if ok then Spawned else Refused, watching := ok)
    case RecordRefusal => session.(launch := Recorded)
    case WatcherFires => session.(watching := false)
    case ServiceStarts => session.(driver := driver.(listener := Posting))
    case ServePost(_, _) => session.(driver := driver.(listener := PostServed, served := true))
    case PostReturns(ok) => session.(driver := driver.(listener := Waiting, stopped := driver.stopped || !ok))
    case IdleStop => session.(driver := driver.(stopped := true))
    case ReceiveStop(_) => session.(driver := driver.(external := true))
    case StopOnMessage => session.(driver := driver.(stopped := true))
    case HandleEnd =>
      session.(driver := if driver.external then driver.(listener := Over)
                         else driver.(listener := Deleting, attempted := true))
    case ServeDelete => session.(driver := driver.(listener := DeleteServed, delivered := true))
    case DeleteReturns => session.(driver := driver.(listener := Over))
    case Crash => session.(driver := driver.(listener := Crashed))
    case FindForDelete => session.(deleters := session.deleters + [Found(row.value.address)])
    case MarkFinished(d) => session.(deleters := session.deleters[d := Marked(session.deleters[d].address)])
  }

  /** The statement the step executes, if any. */
  function Statement(id: int, session: Session, step: Step): Option<Write> {
    match step
    case RecordRefusal => Some(LaunchFailed(id))
    case WatcherFires => Some(WatcherTimeout(id))
    case ServePost(address, applicationId) => Some(Callback(session.token, address, applicationId))
    case ServeDelete => Some(CallbackDelete(session.token))
    case MarkFinished(_) => Some(Delete(id, session.username))
    case _ => None
  }

  // ----- All applications over one table -----

  datatype System = System(rows: Table, sessions: map<int, Session>)

  datatype Action =
    | Create(id: int, createdAt: int, username: string, name: Option<string>, token: string)
    | On(id: int, step: Step)
    | External(w: Write)
    | Stutter  // something happens elsewhere; see `Joint`

  function RowAt(rows: Table, id: int): Option<Row> {
    if id in rows then Some(rows[id]) else None
  }

  function Execute(w: Option<Write>, rows: Table): Table {
    if w.Some? then Apply(w.value, rows) else rows
  }

  predicate Initial(s: System) {
    s.rows == map[] && s.sessions == map[]
  }

  /** Ids are never reused and tokens are fresh. The statements of other actors set no row RUNNING. */
  ghost predicate Enabled(s: System, a: Action) {
    match a
    case Create(id, _, _, _, token) => id !in s.sessions && forall other | other in s.sessions :: s.sessions[other].token != token
    case On(id, step) => id in s.sessions && CanMove(s.sessions[id], RowAt(s.rows, id), step)
    case External(w) => w.MarkFailed? || w.CheckFailed? || w.Prune?
    case Stutter => true
  }

  ghost function Next(s: System, a: Action): System
    requires Enabled(s, a)
  {
    match a
    case Create(id, createdAt, username, name, token) =>
      System(Apply(Insert(id, createdAt, username, name, token), s.rows),
             s.sessions[id := Session(token, username, Inserted, false, IDLE_DRIVER, [])])
    case On(id, step) =>
      System(Execute(Statement(id, s.sessions[id], step), s.rows),
             s.sessions[id := Move(s.sessions[id], RowAt(s.rows, id), step)])
    case External(w) => s.(rows := Apply(w, s.rows))
    case Stutter => s
  }

  ghost predicate StepAt(states: seq<System>, actions: seq<Action>, i: nat)
    requires |states| == |actions| + 1 && i < |actions|
  {
    Enabled(states[i], actions[i]) && states[i + 1] == Next(states[i], actions[i])
  }

  ghost predicate Run(states: seq<System>, actions: seq<Action>) {
    && |states| == |actions| + 1
    && Initial(states[0])
    && forall i | 0 <= i < |actions| :: StepAt(states, actions, i)
  }

  /** The actions lead the system from one state to the other. */
  ghost predicate Leads(s: System, actions: seq<Action>, last: System) {
    Path(TryNext, s, actions, last)
  }

  ghost function TryNext(s: System, a: Action): Option<System> {
    if Enabled(s, a) then Some(Next(s, a)) else None
  }

  lemma {:induction false} LeadsOneMore(s: System, actions: seq<Action>, now: System, a: Action)
    returns (more: seq<Action>, next: System)
    requires Leads(s, actions, now) && Enabled(now, a)
    ensures Leads(s, more, next) && more == actions + [a] && next == Next(now, a)
  {
    PathExtend(TryNext, s, actions, now, a);
    more, next := actions + [a], Next(now, a);
  }

  /** The steps lead one application, whose driver they are, from one state to the other. */
  ghost predicate Moves(session: Session, steps: seq<Step>, last: Session) {
    Path(TryMove, session, steps, last)
  }

  function TryMove(session: Session, step: Step): Option<Session> {
    if CanMove(session, None, step) then Some(Move(session, None, step)) else None
  }

  // ----- The invariant of one application -----

  /** No callback can come any more. */
  predicate PastPost(driver: Driver) {
    driver.listener != Booting && driver.listener != Posting
  }

  predicate DriverInv(launch: Launch, driver: Driver) {
    && (launch != Spawned ==> driver == IDLE_DRIVER)
    && (driver.served || driver.delivered || driver.external ==> PastPost(driver))
    && (driver.delivered ==> driver.attempted)
    && (driver.attempted ==> driver.listener in {Deleting, DeleteServed, Over, Crashed})
    && (driver.listener in {Deleting, DeleteServed} ==> driver.attempted)
    && (driver.listener == Over ==> driver.external || driver.attempted)
  }

  predicate RowInv(id: int, row: Row, session: Session) {
    && row.id == id && row.token == session.token && row.username == session.username
    && Consistent(row)
    && (row.applicationId.Some? <==> session.driver.served)
    && (row.state == RUNNING ==>
          && session.driver.served && !session.driver.delivered && !session.driver.external
          && forall d | d in session.deleters :: d.Marked? ==> d.address.None?)
  }

  predicate SessionInv(id: int, row: Option<Row>, session: Session) {
    && DriverInv(session.launch, session.driver)
    && (forall d | d in session.deleters :: d.address.Some? ==> session.driver.served)
    && (row.Some? ==> RowInv(id, row.value, session))
  }

  function UpdateOption(w: Option<Write>, row: Option<Row>): Option<Row> {
    if w.Some? && row.Some? then Some(Update(w.value, row.value)) else row
  }

  lemma {:induction false} MoveKeepsDriver(row: Option<Row>, session: Session, step: Step)
    requires DriverInv(session.launch, session.driver) && CanMove(session, row, step)
    requires forall d | d in session.deleters :: d.address.Some? ==> session.driver.served
    ensures DriverInv(Move(session, row, step).launch, Move(session, row, step).driver)
    ensures session.driver.served ==> Move(session, row, step).driver.served
  {
    if step.ReceiveStop? {
      assert session.deleters[step.deleter] in session.deleters;
    }
  }

  lemma {:induction false} MoveKeepsDeleters(id: int, row: Option<Row>, session: Session, step: Step)
    requires SessionInv(id, row, session) && CanMove(session, row, step)
    ensures var session' := Move(session, row, step);
            forall d | d in session'.deleters :: d.address.Some? ==> session'.driver.served
  {
    MoveKeepsDriver(row, session, step);
    if step.MarkFinished? {
      assert session.deleters[step.deleter] in session.deleters;
    }
  }

  lemma {:induction false} MoveKeepsRow(id: int, row: Row, session: Session, step: Step)
    requires SessionInv(id, Some(row), session) && CanMove(session, Some(row), step)
    ensures RowInv(id, UpdateOption(Statement(id, session, step), Some(row)).value, Move(session, Some(row), step))
  {
    if step.ReceiveStop? {
      assert session.deleters[step.deleter] in session.deleters;
    }
  }

  lemma {:induction false} MoveKeepsInv(id: int, row: Option<Row>, session: Session, step: Step)
    requires SessionInv(id, row, session) && CanMove(session, row, step)
    ensures SessionInv(id, UpdateOption(Statement(id, session, step), row), Move(session, row, step))
  {
    MoveKeepsDriver(row, session, step);
    MoveKeepsDeleters(id, row, session, step);
    if row.Some? {
      MoveKeepsRow(id, row.value, session, step);
    }
  }

  lemma {:induction false} ExternalKeepsInv(id: int, row: Row, session: Session, w: Write)
    requires SessionInv(id, Some(row), session) && (w.MarkFailed? || w.CheckFailed? || w.Prune?)
    ensures SessionInv(id, Some(Update(w, row)), session)
    ensures SessionInv(id, None, session)
  {
  }

  // ----- The invariant of the system -----

  ghost predicate Inv(s: System) {
    && s.rows.Keys <= s.sessions.Keys
    && (forall id | id in s.sessions :: SessionInv(id, RowAt(s.rows, id), s.sessions[id]))
    && (forall id, other | id in s.sessions && other in s.sessions && id != other ::
          s.sessions[id].token != s.sessions[other].token)
  }

  lemma {:induction false} NextKeepsInv(s: System, a: Action)
    requires Inv(s) && Enabled(s, a)
    ensures Inv(Next(s, a))
  {
    match a
    case Create(id, createdAt, username, name, token) =>
      CreateKeepsInv(s, a);
    case On(id, step) =>
      OnKeepsInv(s, id, step);
    case External(w) =>
      forall id | id in s.rows
        ensures SessionInv(id, RowAt(Apply(w, s.rows), id), s.sessions[id])
      {
        ExternalKeepsInv(id, s.rows[id], s.sessions[id], w);
      }
    case Stutter =>
  }

  lemma {:induction false} CreateKeepsInv(s: System, a: Action)
    requires Inv(s) && Enabled(s, a) && a.Create?
    ensures Inv(Next(s, a))
  {
    var s' := Next(s, a);
    forall id | id in s'.sessions
      ensures SessionInv(id, RowAt(s'.rows, id), s'.sessions[id])
    {
      if id != a.id {
        assert RowAt(s'.rows, id) == RowAt(s.rows, id) && s'.sessions[id] == s.sessions[id];
      }
    }
  }

  /** A step of one application leaves the rows of all others alone. */
  lemma {:induction false} StepIsLocal(s: System, id: int, step: Step, other: int)
    requires Inv(s) && Enabled(s, On(id, step)) && other in s.sessions && other != id
    ensures RowAt(Next(s, On(id, step)).rows, other) == RowAt(s.rows, other)
  {
    var w := Statement(id, s.sessions[id], step);
    if w.Some? && other in s.rows {
      assert SessionInv(other, RowAt(s.rows, other), s.sessions[other]);
      assert s.sessions[other].token != s.sessions[id].token;
      assert !Selects(w.value, s.rows[other]);
    }
  }

  lemma {:induction false} StepOnOwnRow(s: System, id: int, step: Step)
    requires Inv(s) && Enabled(s, On(id, step))
    ensures RowAt(Next(s, On(id, step)).rows, id) == UpdateOption(Statement(id, s.sessions[id], step), RowAt(s.rows, id))
    ensures Next(s, On(id, step)).rows.Keys == s.rows.Keys
  {
  }

  lemma {:induction false} OnKeepsInv(s: System, id: int, step: Step)
    requires Inv(s) && Enabled(s, On(id, step))
    ensures Inv(Next(s, On(id, step)))
  {
    var s' := Next(s, On(id, step));
    StepOnOwnRow(s, id, step);
    MoveKeepsInv(id, RowAt(s.rows, id), s.sessions[id], step);
    assert s'.sessions[id].token == s.sessions[id].token;
    forall other | other in s'.sessions
      ensures SessionInv(other, RowAt(s'.rows, other), s'.sessions[other])
    {
      if other != id {
        StepIsLocal(s, id, step, other);
        assert s'.sessions[other] == s.sessions[other];
      }
    }
  }

  lemma {:induction false} InvOverRuns(states: seq<System>, actions: seq<Action>, i: nat)
    requires Run(states, actions) && i < |states|
    ensures Inv(states[i])
  {
    if i > 0 {
      InvOverRuns(states, actions, i - 1);
      assert StepAt(states, actions, i - 1);
      NextKeepsInv(states[i - 1], actions[i - 1]);
    }
  }

  // ----- Main results -----

  /**
   In every reachable state, a RUNNING row is one of a driver that has posted its address
   and whose DELETE callback has not been delivered; if that driver is over without having
   crashed, it did issue the DELETE. An externally stopped driver, which issues none, never
   has a RUNNING row.
   */
  lemma {:induction false} RunningMeansNotDelivered(states: seq<System>, actions: seq<Action>, i: nat, id: int)
    requires Run(states, actions) && i < |states|
    requires id in states[i].rows && states[i].rows[id].state == RUNNING
    ensures id in states[i].sessions
    ensures var driver := states[i].sessions[id].driver;
            && driver.served && !driver.delivered && !driver.external
            && (driver.listener == Over ==> driver.attempted)
  {
    InvOverRuns(states, actions, i);
    assert SessionInv(id, RowAt(states[i].rows, id), states[i].sessions[id]);
  }

  /** Once the DELETE is delivered, or a stop message received, the row is never RUNNING again. */
  lemma {:induction false} EndIsFinal(states: seq<System>, actions: seq<Action>, i: nat, j: nat, id: int)
    requires Run(states, actions) && i <= j < |states|
    requires id in states[i].sessions
    requires states[i].sessions[id].driver.delivered || states[i].sessions[id].driver.external
    ensures id in states[j].sessions
    ensures states[j].sessions[id].driver.delivered || states[j].sessions[id].driver.external
    ensures id in states[j].rows ==> states[j].rows[id].state != RUNNING
  {
    InvOverRuns(states, actions, j);
    if i < j {
      EndIsFinal(states, actions, i, j - 1, id);
      assert StepAt(states, actions, j - 1);
      FlagsStay(states[j - 1], actions[j - 1], id);
    }
    assert SessionInv(id, RowAt(states[j].rows, id), states[j].sessions[id]);
  }

  lemma {:induction false} FlagsStay(s: System, a: Action, id: int)
    requires Enabled(s, a) && id in s.sessions
    ensures var sessions := Next(s, a).sessions;
            && id in sessions
            && (s.sessions[id].driver.served ==> sessions[id].driver.served)
            && (s.sessions[id].driver.delivered ==> sessions[id].driver.delivered)
            && (s.sessions[id].driver.external ==> sessions[id].driver.external)
  {
    if a.On? {
      MoveKeepsFlags(s.sessions[a.id], RowAt(s.rows, a.id), a.step);
    }
  }

  lemma {:induction false} MoveKeepsFlags(session: Session, row: Option<Row>, step: Step)
    requires CanMove(session, row, step)
    ensures session.driver.served ==> Move(session, row, step).driver.served
    ensures session.driver.delivered ==> Move(session, row, step).driver.delivered
    ensures session.driver.external ==> Move(session, row, step).driver.external
  {
  }

  lemma {:induction false} ServedStays(states: seq<System>, actions: seq<Action>, i: nat, j: nat, id: int)
    requires Run(states, actions) && i <= j < |states|
    requires id in states[i].sessions && states[i].sessions[id].driver.served
    ensures id in states[j].sessions && states[j].sessions[id].driver.served
  {
    if i < j {
      ServedStays(states, actions, i, j - 1, id);
      assert StepAt(states, actions, j - 1);
      FlagsStay(states[j - 1], actions[j - 1], id);
    }
  }

  /** A driver registers its address at most once, so after its callback the row cannot be set RUNNING again. */
  lemma {:induction false} OneCallback(states: seq<System>, actions: seq<Action>, i: nat, j: nat, id: int, step: Step)
    requires Run(states, actions) && i < j < |actions|
    requires actions[i].On? && actions[i].id == id && actions[i].step.ServePost?
    requires actions[j] == On(id, step)
    ensures !step.ServePost?
  {
    assert StepAt(states, actions, i) && StepAt(states, actions, j);
    ServedStays(states, actions, i + 1, j, id);
    InvOverRuns(states, actions, j);
    assert SessionInv(id, RowAt(states[j].rows, id), states[j].sessions[id]);
  }

  /** In every reachable state the address is there exactly when the row is RUNNING. */
  lemma {:induction false} RowsAlwaysConsistent(states: seq<System>, actions: seq<Action>, i: nat, id: int)
    requires Run(states, actions) && i < |states| && id in states[i].rows
    ensures states[i].rows[id].id == id && Consistent(states[i].rows[id])
  {
    InvOverRuns(states, actions, i);
    assert SessionInv(id, RowAt(states[i].rows, id), states[i].sessions[id]);
  }

  /**
   Over any stretch of a run a row keeps its identity, does not go back to LAUNCHING and
   does not lose its application id; it disappears only after it has ended, and never returns.
   */
  lemma {:induction false} RowsEvolve(states: seq<System>, actions: seq<Action>, i: nat, j: nat, id: int)
    requires Run(states, actions) && i <= j < |states| && id in states[i].rows
    ensures id in states[j].rows ==> Evolves(states[i].rows[id], states[j].rows[id])
    ensures id !in states[j].rows ==>
              exists k: nat :: i <= k < j && PrunesEnded(states, actions, k, id)
    ensures id in states[j].sessions
  {
    InvOverRuns(states, actions, j);
    if i < j {
      RowsEvolve(states, actions, i, j - 1, id);
      var s, a := states[j - 1], actions[j - 1];
      InvOverRuns(states, actions, j - 1);
      assert StepAt(states, actions, j - 1);
      SessionsStay(s, a, id);
      if id in s.rows {
        OneStepEvolves(s, a, id);
        assert id !in states[j].rows ==> PrunesEnded(states, actions, j - 1, id);
      }
    }
  }

  ghost predicate PrunesEnded(states: seq<System>, actions: seq<Action>, k: nat, id: int)
    requires k < |actions| && |states| == |actions| + 1
  {
    && actions[k].External? && actions[k].w.Prune?
    && id in states[k].rows && states[k].rows[id].state in {FAILED, FINISHED}
  }

  lemma {:induction false} SessionsStay(s: System, a: Action, id: int)
    requires Inv(s) && Enabled(s, a) && id in s.sessions
    ensures id in Next(s, a).sessions
    ensures id !in s.rows ==> id !in Next(s, a).rows
  {
  }

  lemma {:induction false} OneStepEvolves(s: System, a: Action, id: int)
    requires Inv(s) && Enabled(s, a) && id in s.rows
    ensures var s' := Next(s, a);
            && (id in s'.rows ==> Evolves(s.rows[id], s'.rows[id]))
            && (id !in s'.rows ==> a.External? && a.w.Prune? && s.rows[id].state in {FAILED, FINISHED})
  {
    assert Keyed(s.rows) by {
      forall k | k in s.rows
        ensures s.rows[k].id == k
      {
        assert SessionInv(k, RowAt(s.rows, k), s.sessions[k]);
      }
    }
    match a
    case Create(newId, createdAt, username, name, token) =>
      assert newId !in s.rows;
      ApplyEvolves(Insert(newId, createdAt, username, name, token), s.rows, id);
    case On(on, step) =>
      var w := Statement(on, s.sessions[on], step);
      if w.Some? {
        ApplyEvolves(w.value, s.rows, id);
      }
    case External(w) =>
      ApplyEvolves(w, s.rows, id);
    case Stutter =>
  }
}
