/** The `check` command and its retry loop (server/src/lib.rs), with no concurrent writer. */
module HealthSweep {
  import opened Wrappers
  import opened Application
  import opened Database

  const HEALTH_CHECK_RETRIES: nat := 3

  /** The results of the probes `0..=HEALTH_CHECK_RETRIES`: nothing, or the error of the probe. */
  type Probes = probes: seq<Option<string>> | |probes| == HEALTH_CHECK_RETRIES + 1 witness [None, None, None, None]

  predicate Healthy(probes: Probes) {
    exists i | 0 <= i < |probes| :: probes[i].None?
  }

  /** `check_application_health`: stops at the first success, else gives the last error. */
  method CheckApplicationHealth(probes: Probes) returns (r: Result<(), string>, attempts: nat)
    ensures r.Ok? <==> Healthy(probes)
    ensures 1 <= attempts <= 4 && forall i | 0 <= i < attempts - 1 :: probes[i].Some?
    ensures r.Ok? ==> probes[attempts - 1].None?
    ensures r.Err? ==> attempts == 4 && probes[3] == Some(r.error)
  {
    var lastError: Option<string> := None;
    attempts := 0;
    while attempts <= HEALTH_CHECK_RETRIES
      invariant attempts <= 4
      invariant forall i | 0 <= i < attempts :: probes[i].Some?
      invariant attempts > 0 ==> lastError == probes[attempts - 1]
    {
      match probes[attempts]
      case None => return Ok(()), attempts + 1;
      case Some(error) => lastError := Some(error);
        attempts := attempts + 1;
    }
    return Err(lastError.value), attempts;  // the `expect`
  }

  /** What the probes of an application would answer. */
  type Network = int -> Probes

  predicate ShouldFail(row: Row, network: Network) {
    row.state == RUNNING && (row.address.None? || !Healthy(network(row.id)))
  }

  function Failing(rows: Table, network: Network): set<int> {
    set id | id in rows && ShouldFail(rows[id], network)
  }

  /** The table in which exactly the given rows are marked failed and have lost their address. */
  function WithFailed(rows: Table, failed: set<int>): Table {
    map id | id in rows :: if id in failed then rows[id].(state := FAILED, address := None) else rows[id]
  }

  /** Whether the sweep has to fail a row that it found RUNNING. */
  method Unreachable(app: Row, probes: Probes) returns (shouldFail: bool)
    ensures shouldFail <==> app.address.None? || !Healthy(probes)
  {
    if app.address.Some? {
      var health, _ := CheckApplicationHealth(probes);
      return health.Err?;
    }
    return true;
  }

  /** The rows still to visit are among the RUNNING ones, and of the others the failing have been failed. */
  ghost predicate Visited(apps: Table, network: Network, remaining: set<int>, failed: set<int>) {
    && remaining <= apps.Keys && failed !! remaining
    && failed == Failing(apps, network) - remaining
    && forall id | id in remaining :: apps[id].state == RUNNING
  }

  datatype CheckError = FindFailed | UpdateFailed(id: int)

  /**
   `check`: the rows are visited in any order. An update that fails (`updateOk`, by row) ends
   the command; by then it has failed some of the rows to fail, and no others.
   */
  method Check(db: Connection, network: Network, findOk: bool, updateOk: int -> bool)
    returns (r: Result<nat, CheckError>, ghost failed: set<int>)
    requires Keyed(db.rows)
    modifies db
    ensures db.rows.Keys == old(db.rows).Keys
    ensures forall id | id in db.rows ::
              db.rows[id] == if id in failed then old(db.rows)[id].(state := FAILED, address := None) else old(db.rows)[id]
    ensures db.rows == WithFailed(old(db.rows), failed)
    ensures failed <= Failing(old(db.rows), network) && forall id | id in failed :: updateOk(id)
    ensures r.Ok? <==> findOk && forall id | id in Failing(old(db.rows), network) :: updateOk(id)
    ensures r.Ok? ==> failed == Failing(old(db.rows), network) && r.value == |failed|
    ensures r == Err(FindFailed) <==> !findOk
    ensures r == Err(FindFailed) ==> failed == {}
    ensures r.Err? && r.error.UpdateFailed? ==>
              r.error.id in Failing(old(db.rows), network) - failed && !updateOk(r.error.id)
  {
    StartVisit(db.rows, network);
    if !findOk {
      return Err(FindFailed), {};
    }
    r, failed := FailUnreachable(db, db.rows, network, updateOk);
  }

  /** The loop of `check` over the RUNNING rows of those it has read. */
  method FailUnreachable(db: Connection, apps: Table, network: Network, updateOk: int -> bool)
    returns (r: Result<nat, CheckError>, ghost failed: set<int>)
    requires Keyed(apps) && db.rows == apps
    modifies db
    ensures db.rows == WithFailed(apps, failed)
    ensures failed <= Failing(apps, network) && forall id | id in failed :: updateOk(id)
    ensures r.Ok? ==> failed == Failing(apps, network) && r.value == |failed|
    ensures r.Err? ==> r.error.UpdateFailed? && r.error.id in Failing(apps, network) - failed && !updateOk(r.error.id)
  {
    failed := {};
    StartVisit(apps, network);
    var runningApps := RunningIds(apps);
    var failedCount := 0;
    while runningApps != {}
      invariant Visited(apps, network, runningApps, failed)
      invariant failedCount == |failed|
      invariant db.rows == WithFailed(apps, failed)
      invariant forall id | id in failed :: updateOk(id)
      decreases |runningApps|
    {
      ghost var member := SomeMember(runningApps);
      var id :| id in runningApps;
      var shouldFail := Unreachable(apps[id], network(id));
      VisitOne(apps, network, runningApps, failed, id);
      runningApps := runningApps - {id};
      if shouldFail {
        if !updateOk(id) {
          return Err(UpdateFailed(id)), failed;
        }
        FailOne(apps, failed, id);
        var _ := db.Execute(CheckFailed(id));
        failedCount := failedCount + 1;
        failed := failed + {id};
      }
    }
    return Ok(failedCount), failed;
  }

  /** The rows to fail: RUNNING, and without an address or unhealthy in all four probes. */
  lemma {:induction false} FailingExactly(rows: Table, network: Network, id: int)
    requires Keyed(rows) && id in rows
    ensures id in Failing(rows, network) <==>
            && rows[id].state == RUNNING
            && (rows[id].address.None? || forall i | 0 <= i < 4 :: network(id)[i].Some?)
  {
    assert rows[id].id == id;
  }

  function RunningIds(apps: Table): set<int> {
    set id | id in apps && apps[id].state == RUNNING
  }

  lemma {:induction false} StartVisit(apps: Table, network: Network)
    requires Keyed(apps)
    ensures Visited(apps, network, RunningIds(apps), {}) && WithFailed(apps, {}) == apps
  {
    var extra := Failing(apps, network) - RunningIds(apps);
    if extra != {} {
      var id := SomeMember(extra);
    }
  }

  lemma {:induction false} VisitOne(apps: Table, network: Network, remaining: set<int>, failed: set<int>, id: int)
    requires Keyed(apps) && Visited(apps, network, remaining, failed) && id in remaining
    ensures Visited(apps, network, remaining - {id}, if ShouldFail(apps[id], network) then failed + {id} else failed)
    ensures ShouldFail(apps[id], network) <==> apps[id].address.None? || !Healthy(network(id))
    ensures |failed + {id}| == |failed| + 1 && |remaining - {id}| < |remaining|
  {
    assert apps[id].id == id && id !in failed;
  }

  lemma {:induction false} FailOne(apps: Table, failed: set<int>, id: int)
    requires Keyed(apps) && id in apps
    ensures Apply(CheckFailed(id), WithFailed(apps, failed)) == WithFailed(apps, failed + {id})
  {
    var rows := WithFailed(apps, failed);
    forall k | k in apps
      ensures Update(CheckFailed(id), rows[k]) == WithFailed(apps, failed + {id})[k]
    {
      assert rows[k].id == k;
    }
  }

  /** After the sweep, and with the same answers, nothing is left to fail; a second sweep changes nothing. */
  lemma {:induction false} SweepIsIdempotent(rows: Table, network: Network)
    requires Keyed(rows)
    ensures var swept := WithFailed(rows, Failing(rows, network));
            Failing(swept, network) == {} && WithFailed(swept, Failing(swept, network)) == swept
  {
    var swept := WithFailed(rows, Failing(rows, network));
    forall id | id in swept
      ensures !ShouldFail(swept[id], network)
    {
      assert id in Failing(rows, network) <==> ShouldFail(rows[id], network);
    }
  }

  /** After a sweep that was cut short the next one, with the same answers, does the rest and no more. */
  lemma {:induction false} SweepResumes(rows: Table, network: Network, failed: set<int>)
    requires Keyed(rows) && failed <= Failing(rows, network)
    ensures var partly := WithFailed(rows, failed);
            && Failing(partly, network) == Failing(rows, network) - failed
            && WithFailed(partly, Failing(partly, network)) == WithFailed(rows, Failing(rows, network))
  {
    var partly := WithFailed(rows, failed);
    forall id | id in rows
      ensures id in Failing(partly, network) <==> id in Failing(rows, network) - failed
    {
      assert id in Failing(partly, network) <==> ShouldFail(partly[id], network);
      assert id in Failing(rows, network) <==> ShouldFail(rows[id], network);
    }
  }

  /** In the swept table the RUNNING rows are exactly those that were RUNNING and answered. */
  lemma {:induction false} SweepKeepsTheHealthy(rows: Table, network: Network, id: int)
    requires id in rows
    ensures var swept := WithFailed(rows, Failing(rows, network));
            && (swept[id].state == RUNNING <==>
                rows[id].state == RUNNING && rows[id].address.Some? && Healthy(network(rows[id].id)))
            && (Consistent(rows[id]) ==> Consistent(swept[id]) && Evolves(rows[id], swept[id]))
  {
  }
}
