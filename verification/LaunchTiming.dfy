/**
 How long an application can stay LAUNCHING, and how often the proxy then polls it: the
 watcher of a launch (server/src/launcher.rs, `track_launch`; server/src/routes.rs) and the
 polling loop of a dispatcher (server/src/proxy.rs) over one table, in real time.

 Time is in seconds and starts when `launch` returns. Timers fire on time, and an update of
 the table ends within `latency`; nothing else is prompt.
 */
module LaunchTiming {
  import opened Wrappers
  import opened Application
  import opened Dispatcher
  import Proxy

  /** One launch: the row it inserted and the configured timeout. */
  datatype Launched = Launched(id: int, token: Token, timeout: nat, latency: real)

  /** The `spark-submit` process. */
  datatype Child = Live | Ended(success: bool)

  /** The `select!` with both branches, or without the one a successful exit disables; then the update. */
  datatype Watcher = Selecting | TimerOnly | Writing | Written | GaveUp

  /**
   `fired` is when the `select!` ended. `channel` is the dispatcher of the token in one
   `resolve_upstream_address`, asleep until `wake`; `polls` counts its lookups after the
   launch and `lastPoll` is the time of the last of them.
   */
  datatype System = System(
    now: real, rows: Table, child: Child, watcher: Watcher, fired: real,
    channel: Channel, wake: real, polls: nat, lastPoll: real)

  datatype Action =
    | Tick(elapsed: real)
    | ChildExits(success: bool)
    | SeeExit                    // the select! learns of it
    | TimerFires
    | Write                      // the watcher's conditional update
    | WriteFails
    | Execute(w: Application.Write)
    | Poll(ev: Event, open: bool)

  /** The launch is the only one with its token, and its polling may already be under way. */
  predicate Initial(p: Launched, s: System) {
    && s.now == 0.0 && p.latency >= 0.0
    && Keyed(s.rows) && p.id in s.rows && OneRow(p, s.rows)
    && s.watcher == Selecting && s.fired == 0.0
    && Polling(s.channel.phase) && s.channel.token == p.token && s.polls == 0 && s.lastPoll == 0.0
  }

  predicate OneRow(p: Launched, rows: Table) {
    forall id | id in rows :: rows[id].token == p.token <==> id == p.id
  }

  predicate Polling(phase: Phase) {
    phase.Checking? || phase.Querying?
  }

  /** The events of one polling loop. */
  predicate OfPolling(ev: Event) {
    ev.SeeOpen? || ev.SeeClosed? || ev.FindRow? || ev.QueryFails?
  }

  predicate IsLaunching(p: Launched, s: System) {
    p.id in s.rows && s.rows[p.id].state == LAUNCHING
  }

  /** Time stands still only for a timer that is due and an update that is late. */
  predicate Enabled(p: Launched, s: System, a: Action) {
    match a
    case Tick(elapsed) =>
      && elapsed >= 0.0
      && (s.watcher.Selecting? || s.watcher.TimerOnly? ==> s.now + elapsed <= p.timeout as real)
      && (s.watcher.Writing? ==> s.now + elapsed <= s.fired + p.latency)
    case ChildExits(_) => s.child.Live?
    case SeeExit => s.watcher.Selecting? && s.child.Ended?
    case TimerFires => (s.watcher.Selecting? || s.watcher.TimerOnly?) && s.now >= p.timeout as real
    case Write => s.watcher.Writing?
    case WriteFails => s.watcher.Writing?
    case Execute(w) => w.Insert? ==> w.id !in s.rows && w.id != p.id && w.token != p.token
    case Poll(ev, open) =>
      && OfPolling(ev) && Dispatcher.Enabled(s.channel, ev, open)
      && (s.channel.phase.Checking? ==> s.now >= s.wake)
      && (ev.FindRow? ==> Proxy.IsRowOf(s.rows, p.token, ev.row))
  }

  /** A lookup that leaves the loop at its top has found the row LAUNCHING, and sleeps for a second. */
  function DoPoll(s: System, ev: Event, open: bool): System
    requires Dispatcher.Enabled(s.channel, ev, open)
  {
    var channel := Dispatcher.Next(s.channel, ev, open);
    var polled := ev.FindRow? || ev.QueryFails?;
    s.(channel := channel,
       polls := if polled then s.polls + 1 else s.polls,
       lastPoll := if polled then s.now else s.lastPoll,
       wake := if ev.FindRow? && channel.phase.Checking? then s.now + 1.0 else s.wake)
  }

  function Next(p: Launched, s: System, a: Action): System
    requires Enabled(p, s, a)
  {
    match a
    case Tick(elapsed) => s.(now := s.now + elapsed)
    case ChildExits(success) => s.(child := Ended(success))
    case SeeExit => if s.child.success then s.(watcher := TimerOnly) else s.(watcher := Writing, fired := s.now)
    case TimerFires => s.(watcher := Writing, fired := s.now)
    case Write => s.(watcher := Written, rows := Apply(WatcherTimeout(p.id), s.rows))
    case WriteFails => s.(watcher := GaveUp)
    case Execute(w) => s.(rows := Apply(w, s.rows))
    case Poll(ev, open) => DoPoll(s, ev, open)
  }

  ghost predicate StepAt(p: Launched, states: seq<System>, actions: seq<Action>, i: nat)
    requires |states| == |actions| + 1 && i < |actions|
  {
    Enabled(p, states[i], actions[i]) && states[i + 1] == Next(p, states[i], actions[i])
  }

  ghost predicate Run(p: Launched, states: seq<System>, actions: seq<Action>) {
    && |states| == |actions| + 1
    && Initial(p, states[0])
    && forall i | 0 <= i < |actions| :: StepAt(p, states, actions, i)
  }

  // ----- The table -----

  /** What the table says of the launch, and that the watcher leaves no LAUNCHING row behind. */
  predicate TableInv(p: Launched, s: System) {
    Keyed(s.rows) && OneRow(p, s.rows) && (s.watcher.Written? ==> !IsLaunching(p, s))
  }

  /** No statement puts a row back to LAUNCHING, gives it another token, or the token to another row. */
  lemma {:induction false} StatementKeepsTable(p: Launched, rows: Table, w: Application.Write)
    requires Keyed(rows) && OneRow(p, rows)
    requires w.Insert? ==> w.id !in rows && w.id != p.id && w.token != p.token
    ensures Keyed(Apply(w, rows)) && OneRow(p, Apply(w, rows))
    ensures p.id in Apply(w, rows) && Apply(w, rows)[p.id].state == LAUNCHING ==>
              p.id in rows && rows[p.id].state == LAUNCHING
  {
    forall id | id in Apply(w, rows)
      ensures Apply(w, rows)[id].id == id && (Apply(w, rows)[id].token == p.token <==> id == p.id)
      ensures id == p.id && Apply(w, rows)[id].state == LAUNCHING ==> id in rows && rows[id].state == LAUNCHING
    {
      if id in rows {
        ApplyEvolves(w, rows, id);
      }
    }
  }

  lemma {:induction false} NextKeepsTable(p: Launched, s: System, a: Action)
    requires TableInv(p, s) && Enabled(p, s, a)
    ensures TableInv(p, Next(p, s, a))
    ensures IsLaunching(p, Next(p, s, a)) ==> IsLaunching(p, s)
  {
    match a
    case Execute(w) => StatementKeepsTable(p, s.rows, w);
    case Write => StatementKeepsTable(p, s.rows, WatcherTimeout(p.id));
    case _ =>
  }

  // ----- The watcher -----

  /** The `select!` ends at the timeout, or before if the process has failed. */
  predicate WatcherInv(p: Launched, s: System) {
    && 0.0 <= s.fired <= s.now && p.latency >= 0.0
    && (s.watcher.Selecting? || s.watcher.TimerOnly? ==> s.now <= p.timeout as real)
    && (s.watcher.TimerOnly? ==> s.child == Ended(true))
    && (s.watcher.Writing? || s.watcher.Written? || s.watcher.GaveUp? ==>
          s.fired == p.timeout as real || (s.fired < p.timeout as real && s.child == Ended(false)))
    && (s.watcher.Writing? ==> s.now <= s.fired + p.latency)
  }

  lemma {:induction false} NextKeepsWatcher(p: Launched, s: System, a: Action)
    requires WatcherInv(p, s) && Enabled(p, s, a)
    ensures WatcherInv(p, Next(p, s, a))
  {
  }

  /** The latest moment at which a row can still be LAUNCHING. */
  function Deadline(p: Launched): real {
    p.timeout as real + p.latency
  }

  lemma {:induction false} LaunchingInTime(p: Launched, s: System)
    requires TableInv(p, s) && WatcherInv(p, s) && !s.watcher.GaveUp?
    ensures IsLaunching(p, s) ==> s.now <= Deadline(p)
  {
  }

  // ----- The polling loop -----

  /** Every lookup but the last has found the row LAUNCHING, and they are a second apart. */
  predicate PollInv(p: Launched, s: System) {
    && s.channel.token == p.token
    && 0.0 <= s.lastPoll <= s.now
    && (s.polls > 0 && Polling(s.channel.phase) ==>
          && s.lastPoll <= Deadline(p)
          && s.wake >= s.lastPoll + 1.0
          && s.polls as real <= s.lastPoll + 1.0
          && (s.channel.phase.Querying? ==> s.now >= s.wake))
    && (!Polling(s.channel.phase) ==> s.polls as real <= Deadline(p) + 2.0)
  }

  /** The loop goes on only if the row it has read is LAUNCHING at that moment. */
  lemma {:induction false} GoesOnWhileLaunching(p: Launched, s: System, ev: Event, open: bool)
    requires TableInv(p, s) && Enabled(p, s, Poll(ev, open)) && s.channel.token == p.token
    ensures Polling(DoPoll(s, ev, open).channel.phase) ==> ev.SeeOpen? || (ev.FindRow? && IsLaunching(p, s))
  {
    if ev.FindRow? && ev.row.Some? {
      assert s.rows[ev.row.value.id].token == p.token;
    }
  }

  lemma {:induction false} PollKeepsPolls(p: Launched, s: System, ev: Event, open: bool)
    requires TableInv(p, s) && WatcherInv(p, s) && !s.watcher.GaveUp?
    requires PollInv(p, s) && Enabled(p, s, Poll(ev, open))
    ensures PollInv(p, DoPoll(s, ev, open))
  {
    GoesOnWhileLaunching(p, s, ev, open);
    LaunchingInTime(p, s);
    if s.polls > 0 {
      assert s.polls as real <= Deadline(p) + 1.0;
      assert ev.FindRow? ==> s.polls as real <= s.now;
    }
  }

  lemma {:induction false} NextKeepsPolls(p: Launched, s: System, a: Action)
    requires TableInv(p, s) && WatcherInv(p, s) && !s.watcher.GaveUp?
    requires PollInv(p, s) && Enabled(p, s, a)
    ensures PollInv(p, Next(p, s, a))
  {
    if a.Poll? {
      PollKeepsPolls(p, s, a.ev, a.open);
    }
  }

  // ----- Runs -----

  lemma {:induction false} InvOverRuns(p: Launched, states: seq<System>, actions: seq<Action>, i: nat)
    requires Run(p, states, actions) && i < |states|
    ensures TableInv(p, states[i]) && WatcherInv(p, states[i])
    ensures !states[i].watcher.GaveUp? ==> PollInv(p, states[i])
  {
    if i > 0 {
      InvOverRuns(p, states, actions, i - 1);
      assert StepAt(p, states, actions, i - 1);
      NextKeepsTable(p, states[i - 1], actions[i - 1]);
      NextKeepsWatcher(p, states[i - 1], actions[i - 1]);
      if !states[i].watcher.GaveUp? {
        NextKeepsPolls(p, states[i - 1], actions[i - 1]);
      }
    }
  }

  /**
   A row is LAUNCHING for at most the timeout and one update after `launch` returned, and
   never again, whatever else is written; unless the watcher's own update fails.
   */
  lemma {:induction false} LaunchingIsBounded(p: Launched, states: seq<System>, actions: seq<Action>, i: nat)
    requires Run(p, states, actions) && i < |states| && states[i].watcher != GaveUp
    ensures p.id in states[i].rows && states[i].rows[p.id].state == LAUNCHING ==>
              states[i].now <= p.timeout as real + p.latency
  {
    InvOverRuns(p, states, actions, i);
    LaunchingInTime(p, states[i]);
  }

  /** A failed process is the only thing that makes the watcher write before the timeout. */
  lemma {:induction false} EarlyOnlyOnFailure(p: Launched, states: seq<System>, actions: seq<Action>, i: nat)
    requires Run(p, states, actions) && i < |actions| && actions[i].Write?
    ensures states[i].now < p.timeout as real ==> states[i].child == Ended(false)
    ensures states[i].now <= p.timeout as real + p.latency
  {
    InvOverRuns(p, states, actions, i);
    assert StepAt(p, states, actions, i);
  }

  /**
   A failed process ends the wait: whenever the `select!` still watches it, the row of a failed
   launch can be marked FAILED at that very moment, without waiting for the timer.
   */
  lemma {:induction false} FailureEndsTheWait(p: Launched, s: System)
    requires TableInv(p, s) && s.watcher.Selecting? && s.child == Ended(false) && IsLaunching(p, s)
    ensures Enabled(p, s, SeeExit) && Enabled(p, Next(p, s, SeeExit), Write)
    ensures var failed := Next(p, Next(p, s, SeeExit), Write);
            failed.now == s.now && failed.rows == s.rows[p.id := s.rows[p.id].(state := FAILED)]
  {
    var failed := Next(p, Next(p, s, SeeExit), Write);
    forall id | id in s.rows
      ensures failed.rows[id] == s.rows[p.id := s.rows[p.id].(state := FAILED)][id]
    {
      assert s.rows[id].id == id;
    }
  }

  /** A successful exit ends nothing: the watcher writes no sooner than at the timeout. */
  lemma {:induction false} SuccessWaitsForTimer(p: Launched, states: seq<System>, actions: seq<Action>, i: nat)
    requires Run(p, states, actions) && i < |actions| && actions[i].Write? && states[i].child == Ended(true)
    ensures states[i].now >= p.timeout as real
  {
    InvOverRuns(p, states, actions, i);
    assert StepAt(p, states, actions, i);
  }

  /** So a polling loop reads the table at most `timeout + latency + 2` times from then on. */
  lemma {:induction false} PollsAreBounded(p: Launched, states: seq<System>, actions: seq<Action>, i: nat)
    requires Run(p, states, actions) && i < |states| && states[i].watcher != GaveUp
    ensures states[i].polls as real <= p.timeout as real + p.latency + 2.0
  {
    InvOverRuns(p, states, actions, i);
  }

  /** If the update fails there is no bound: the row can stay LAUNCHING for any time. */
  lemma {:induction false} GivenUpIsUnbounded(p: Launched, s: System, elapsed: real)
    requires s.watcher == Writing && IsLaunching(p, s) && elapsed >= 0.0
    ensures Enabled(p, s, WriteFails) && Enabled(p, Next(p, s, WriteFails), Tick(elapsed))
    ensures var late := Next(p, Next(p, s, WriteFails), Tick(elapsed));
            IsLaunching(p, late) && late.now == s.now + elapsed
  {
  }
}
