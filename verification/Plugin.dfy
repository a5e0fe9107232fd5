/**
 Activity and idle shutdown in the driver (plugin/.../Config.scala, SparkPlugInterceptor.scala,
 SparkPlugListener.scala). Times are the milliseconds of `System.currentTimeMillis`, which is
 taken not to go back.
 */
module Plugin {
  import opened Wrappers
  import opened Paths
  import opened Text
  import L = Lifecycle

  /** `Config`: the state the listener, the interceptor and the timeout thread share. */
  class DriverConfig {
    var lastActive: int
    var externalShutdown: bool

    constructor (now: int)
      ensures lastActive == now && !externalShutdown
    {
      lastActive, externalShutdown := now, false;
    }

    method UpdateLastActive(now: int)
      modifies this`lastActive
      ensures lastActive == now
    {
      lastActive := now;
    }
  }

  // ----- The interceptor -----

  datatype Status = OK | CANCELLED | INVALID_ARGUMENT

  /** A call is answered by the interceptor, or passed on to the service. */
  datatype Interception = Closed(status: Status) | Started

  /**
   `interceptCall`, by the `X-Spark-Plug` header. Messages of the proxy are not activity, so
   health checks do not keep an idle driver alive; only "stop" stops it, and marks it as
   stopped from outside first. The steps are those of a driver that receives the message of
   a `delete_app`, which is the `deleter` of its application.
   */
  method InterceptCall(config: DriverConfig, header: Option<string>, now: int, ghost session: L.Session, ghost deleter: nat)
    returns (r: Interception, stopService: bool, ghost steps: seq<L.Step>, ghost last: L.Session)
    requires config.externalShutdown == session.driver.external
    modifies config
    ensures r == Started <==> header.None?
    ensures stopService <==> header == Some("stop")
    ensures config.externalShutdown <==> old(config.externalShutdown) || header == Some("stop")
    ensures config.lastActive == if header.None? then now else old(config.lastActive)
    ensures r.Closed? ==> (r.status == OK <==> header == Some("health")) && (r.status == CANCELLED <==> header == Some("stop"))
    ensures (header == Some("stop") ==> L.CanMove(session, None, L.ReceiveStop(deleter))) ==>
              && L.Moves(session, steps, last)
              && last == session.(driver := session.driver.(external := config.externalShutdown,
                                                            stopped := session.driver.stopped || stopService))
  {
    stopService, steps, last := false, [], session;
    match header
    case None =>
      config.UpdateLastActive(now);
      r := Started;
    case Some(message) =>
      if message == "health" {
        r := Closed(OK);
      } else if message == "stop" {
        r := Closed(CANCELLED);
        config.externalShutdown := true;
        stopService := true;
        if L.CanMove(session, None, L.ReceiveStop(deleter)) {
          steps, last := StopSteps(session, deleter);
        }
      } else {
        r := Closed(INVALID_ARGUMENT);
      }
  }

  lemma {:induction false} DriverStep(session: L.Session, steps: seq<L.Step>, now: L.Session, step: L.Step)
    returns (more: seq<L.Step>, next: L.Session)
    requires L.Moves(session, steps, now) && L.CanMove(now, None, step)
    ensures L.Moves(session, more, next) && more == steps + [step] && next == L.Move(now, None, step)
  {
    PathExtend(L.TryMove, session, steps, now, step);
    more, next := steps + [step], L.Move(now, None, step);
  }

  lemma {:induction false} StopSteps(session: L.Session, deleter: nat) returns (steps: seq<L.Step>, last: L.Session)
    requires L.CanMove(session, None, L.ReceiveStop(deleter))
    ensures L.Moves(session, steps, last)
    ensures last == session.(driver := session.driver.(external := true, stopped := true))
  {
    steps, last := DriverStep(session, [], session, L.ReceiveStop(deleter));
    steps, last := DriverStep(session, steps, last, L.StopOnMessage);
  }

  // ----- The listener -----

  datatype BusEvent = ServiceStarted(hostAddress: string, bindingPort: nat) | ServiceEnd | OtherEvent

  /** The callback requests of the driver. */
  datatype CallbackRequest = Post(address: string, applicationId: string) | DeleteRequest

  /**
   `onOtherEvent`; `answer` is the status of the HTTP response, or nothing when the request
   fails. A refused POST stops the service; the end of the service is reported unless it was
   stopped from outside, and a failure to report it is only logged.

   `processed` tells whether the server has processed the request, which an answer of 200
   implies. An event the driver of `session` can get is a sequence of its steps.
   */
  method OnOtherEvent(config: DriverConfig, event: BusEvent, now: int, applicationId: string, answer: Option<int>,
                      ghost session: L.Session, ghost processed: bool)
    returns (sent: Option<CallbackRequest>, stopService: bool, ghost steps: seq<L.Step>, ghost last: L.Session)
    requires config.externalShutdown == session.driver.external && (answer == Some(200) ==> processed)
    modifies config`lastActive
    ensures config.lastActive == now
    ensures event.ServiceStarted? ==> sent == Some(Post(event.hostAddress + ":" + Decimal(event.bindingPort), applicationId))
    ensures event.ServiceEnd? ==> sent == if config.externalShutdown then None else Some(DeleteRequest)
    ensures event.OtherEvent? ==> sent == None
    ensures stopService <==> event.ServiceStarted? && answer != Some(200)
    ensures Expected(event, session) ==>
              && L.Moves(session, steps, last)
              && last == session.(driver := DriverAfter(session.driver, event, sent, stopService, processed))
  {
    config.UpdateLastActive(now);
    sent, stopService, steps, last := None, false, [], session;
    match event {
      case ServiceStarted(hostAddress, bindingPort) =>
        var connectUri := hostAddress + ":" + Decimal(bindingPort);
        sent := Some(Post(connectUri, applicationId));
        match answer {
          case Some(status) => if status != 200 { stopService := true; }
          case None => stopService := true;
        }
      case ServiceEnd =>
        if !config.externalShutdown {
          sent := Some(DeleteRequest);
        }
      case OtherEvent =>
    }
    if Expected(event, session) {
      steps, last := EventSteps(event, applicationId, session, processed, sent, stopService);
    }
  }

  /** The bus delivers the start of the service once, and its end after it was stopped. */
  predicate Expected(event: BusEvent, session: L.Session) {
    && (event.ServiceStarted? ==> L.CanMove(session, None, L.ServiceStarts))
    && (event.ServiceEnd? ==> L.CanMove(session, None, L.HandleEnd))
  }

  /** What handling an event makes of the driver. */
  ghost function DriverAfter(
    driver: L.Driver, event: BusEvent, sent: Option<CallbackRequest>, stopService: bool, processed: bool): L.Driver
  {
    match event
    case ServiceStarted(_, _) =>
      driver.(listener := L.Waiting, served := driver.served || processed, stopped := driver.stopped || stopService)
    case ServiceEnd =>
      driver.(listener := L.Over, attempted := driver.attempted || sent.Some?,
              delivered := driver.delivered || (sent.Some? && processed))
    case OtherEvent => driver
  }

  /** Sending the request an event calls for, and acting on the answer, are steps of `Lifecycle`. */
  lemma {:induction false} EventSteps(event: BusEvent, applicationId: string, session: L.Session, processed: bool,
                                      sent: Option<CallbackRequest>, stopService: bool)
    returns (steps: seq<L.Step>, last: L.Session)
    requires Expected(event, session)
    requires event.ServiceStarted? && !stopService ==> processed
    requires event.ServiceEnd? ==> (sent.Some? <==> !session.driver.external)
    ensures L.Moves(session, steps, last)
    ensures last == session.(driver := DriverAfter(session.driver, event, sent, stopService, processed))
  {
    steps, last := [], session;
    match event
    case ServiceStarted(hostAddress, bindingPort) =>
      var connectUri := hostAddress + ":" + Decimal(bindingPort);
      steps, last := DriverStep(session, steps, last, L.ServiceStarts);
      if processed {
        steps, last := DriverStep(session, steps, last, L.ServePost(connectUri, applicationId));
      }
      steps, last := DriverStep(session, steps, last, L.PostReturns(!stopService));
    case ServiceEnd =>
      steps, last := DriverStep(session, steps, last, L.HandleEnd);
      if sent.Some? {
        if processed {
          steps, last := DriverStep(session, steps, last, L.ServeDelete);
        }
        steps, last := DriverStep(session, steps, last, L.DeleteReturns);
      }
    case OtherEvent =>
  }

  // ----- The timeout thread -----

  /**
   One check of the thread: its time, whether executions are active, and when events and
   calls have updated `lastActive` since the check before.
   */
  datatype Check = Check(now: int, active: bool, touches: seq<int>)

  /** Time passes: touches come in order, between the check before and their own. */
  predicate InOrder(start: int, checks: seq<Check>, i: nat)
    requires i < |checks|
  {
    var since := if i == 0 then start else checks[i - 1].now;
    var c := checks[i];
    && since <= c.now
    && (forall k | 0 <= k < |c.touches| :: since <= c.touches[k] <= c.now)
    && (forall k, l | 0 <= k < l < |c.touches| :: c.touches[k] <= c.touches[l])
  }

  ghost predicate WellTimed(start: int, checks: seq<Check>) {
    forall i | 0 <= i < |checks| :: InOrder(start, checks, i)
  }

  /** Activity known to check `i`: the start, any touch before it, any earlier check that saw executions. */
  ghost predicate Activity(start: int, checks: seq<Check>, i: nat, time: int)
    requires i < |checks|
  {
    || time == start
    || (exists j | 0 <= j <= i :: time in checks[j].touches)
    || (exists j | 0 <= j < i :: checks[j].active && time == checks[j].now)
  }

  /** At check `i` nothing is active and every activity is more than `timeout` seconds old. */
  ghost predicate Idle(start: int, checks: seq<Check>, timeout: int, i: nat)
    requires i < |checks|
  {
    !checks[i].active && forall time :: Activity(start, checks, i, time) ==> checks[i].now - time > timeout * 1000
  }

  /** `lastActive` when check `i` reads it: an activity, and the latest. */
  ghost predicate Latest(start: int, checks: seq<Check>, i: nat, time: int)
    requires i < |checks|
  {
    Activity(start, checks, i, time) && forall t :: Activity(start, checks, i, t) ==> t <= time
  }

  /** Activity that was known before the touches of check `i`. */
  ghost predicate Before(start: int, checks: seq<Check>, i: nat, time: int)
    requires i <= |checks|
  {
    time == start || exists j | 0 <= j < i :: time in checks[j].touches || (checks[j].active && time == checks[j].now)
  }

  /** `lastActive` when the thread goes to sleep before check `i`. */
  ghost predicate Known(start: int, checks: seq<Check>, i: nat, time: int)
    requires i <= |checks|
  {
    && Before(start, checks, i, time)
    && (forall t :: Before(start, checks, i, t) ==> t <= time)
    && time <= if i == 0 then start else checks[i - 1].now
  }

  /**
   The loop of the thread, against the writes of the other threads. It stops the service at
   the first check that finds the driver idle, and at no other.
   */
  method TimeoutThread(config: DriverConfig, timeout: int, checks: seq<Check>) returns (stopAt: Option<nat>)
    requires WellTimed(config.lastActive, checks)
    modifies config`lastActive
    ensures stopAt.Some? ==> stopAt.value < |checks| && Idle(old(config.lastActive), checks, timeout, stopAt.value)
    ensures forall i: nat | i < (if stopAt.Some? then stopAt.value else |checks|) ::
              !Idle(old(config.lastActive), checks, timeout, i)
  {
    ghost var start := config.lastActive;
    var i := 0;
    while i < |checks|
      invariant 0 <= i <= |checks|
      invariant forall j: nat | j < i :: !Idle(start, checks, timeout, j)
      invariant Known(start, checks, i, config.lastActive)
    {
      var check := checks[i];
      ghost var before := config.lastActive;
      if check.touches != [] {
        config.UpdateLastActive(check.touches[|check.touches| - 1]);
      }
      TouchesAreLatest(start, checks, i, before, config.lastActive);
      LatestDecides(start, checks, timeout, i, config.lastActive);
      LatestIsKnown(start, checks, i, config.lastActive);
      if check.active {
        config.UpdateLastActive(check.now);
      } else if config.lastActive < check.now - timeout * 1000 {
        return Some(i);
      }
      i := i + 1;
    }
    return None;
  }

  lemma {:induction false} TouchesAreLatest(start: int, checks: seq<Check>, i: nat, before: int, time: int)
    requires WellTimed(start, checks) && i < |checks| && Known(start, checks, i, before)
    requires var touches := checks[i].touches; time == if touches == [] then before else touches[|touches| - 1]
    ensures Latest(start, checks, i, time) && time <= checks[i].now
  {
    var c := checks[i];
    assert InOrder(start, checks, i);
    assert c.touches != [] ==> c.touches[|c.touches| - 1] in c.touches;
    forall t | Activity(start, checks, i, t)
      ensures t <= time
    {
      if t in c.touches {
        var k :| 0 <= k < |c.touches| && c.touches[k] == t;
        assert k < |c.touches| - 1 ==> c.touches[k] <= c.touches[|c.touches| - 1];
      } else {
        assert Before(start, checks, i, t);
      }
    }
  }

  /** Comparing the latest activity with the clock decides whether the driver is idle. */
  lemma {:induction false} LatestDecides(start: int, checks: seq<Check>, timeout: int, i: nat, time: int)
    requires i < |checks| && Latest(start, checks, i, time)
    ensures Idle(start, checks, timeout, i) <==> !checks[i].active && time < checks[i].now - timeout * 1000
  {
  }

  lemma {:induction false} LatestIsKnown(start: int, checks: seq<Check>, i: nat, time: int)
    requires i < |checks| && Latest(start, checks, i, time) && time <= checks[i].now
    ensures Known(start, checks, i + 1, if checks[i].active then checks[i].now else time)
  {
    var next := i + 1;
    forall t | Before(start, checks, next, t)
      ensures t <= if checks[i].active then checks[i].now else time
    {
      assert Activity(start, checks, i, t) || (checks[i].active && t == checks[i].now);
    }
    assert Before(start, checks, next, time);
  }

  /**
   The bounds of the shutdown. If the thread stops the service at check `i` and `last` is the
   latest activity, then strictly more than `timeout` seconds have passed since; and unless
   it is the very first check, no more than one interval between checks on top of that.
   */
  lemma {:induction false} IdleBounds(start: int, checks: seq<Check>, timeout: nat, gap: int, i: nat, last: int)
    requires i < |checks| && Idle(start, checks, timeout, i) && Latest(start, checks, i, last)
    requires forall j: nat | j < i :: !Idle(start, checks, timeout, j)
    requires i > 0 ==> checks[i].now - checks[i - 1].now <= gap
    ensures checks[i].now - last > timeout * 1000
    ensures i > 0 ==> checks[i].now - last <= timeout * 1000 + gap
  {
    if i > 0 {
      assert !Idle(start, checks, timeout, i - 1);
      if checks[i - 1].active {
        assert Activity(start, checks, i, checks[i - 1].now);
      } else {
        var t :| Activity(start, checks, i - 1, t) && checks[i - 1].now - t <= timeout * 1000;
        assert Activity(start, checks, i, t);
      }
    }
  }
}
