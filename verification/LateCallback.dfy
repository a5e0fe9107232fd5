/**
 Whether an application that is not RUNNING can become RUNNING again. FINISHED and FAILED
 are not final in the code: `app_callback` writes RUNNING over any state, so an application
 deleted while it was launching comes back when its driver starts.
 */
module LateCallback {
  import opened Wrappers
  import opened Application
  import opened Lifecycle

  /** The driver has not posted its address yet, and still may. */
  predicate CallbackPossible(session: Session) {
    session.launch == Inserted || (session.launch == Spawned && session.driver.listener in {Booting, Posting})
  }

  predicate IsRunning(s: System, id: int) {
    id in s.rows && s.rows[id].state == RUNNING
  }

  ghost predicate CanBecomeRunning(s: System, id: int) {
    exists actions, last :: Leads(s, actions, last) && IsRunning(last, id)
  }

  // ----- If the callback is possible -----

  /** The rest of the start of a driver, up to its callback. */
  function StartUp(session: Session): seq<Step> {
    if session.launch == Inserted then [LaunchReturns(true), ServiceStarts, ServePost("", "")]
    else if session.driver.listener == Booting then [ServiceStarts, ServePost("", "")]
    else [ServePost("", "")]
  }

  lemma {:induction false} OneStep(s: System, id: int, step: Step)
    requires Inv(s) && Enabled(s, On(id, step)) && id in s.rows && CallbackPossible(s.sessions[id])
    requires step in {LaunchReturns(true), ServiceStarts, ServePost("", "")}
    ensures var s' := Next(s, On(id, step));
            && Inv(s') && id in s'.rows
            && (if step.ServePost? then IsRunning(s', id)
                else CallbackPossible(s'.sessions[id])
                     && StartUp(s'.sessions[id]) == StartUp(s.sessions[id])[1..])
  {
    NextKeepsInv(s, On(id, step));
    assert SessionInv(id, RowAt(s.rows, id), s.sessions[id]);
  }

  lemma {:induction false} DriverCanStart(s: System, id: int) returns (actions: seq<Action>, last: System)
    requires Inv(s) && id in s.rows && CallbackPossible(s.sessions[id])
    ensures Leads(s, actions, last) && IsRunning(last, id)
    decreases |StartUp(s.sessions[id])|
  {
    assert SessionInv(id, RowAt(s.rows, id), s.sessions[id]);
    var step := StartUp(s.sessions[id])[0];
    var s' := Next(s, On(id, step));
    OneStep(s, id, step);
    if step.ServePost? {
      actions, last := [], s';
    } else {
      actions, last := DriverCanStart(s', id);
    }
    assert ([On(id, step)] + actions)[1..] == actions;
    actions := [On(id, step)] + actions;
  }

  // ----- If it is not -----

  ghost predicate StaysDown(s: System, id: int) {
    Inv(s) && id in s.sessions && !CallbackPossible(s.sessions[id]) && !IsRunning(s, id)
  }

  lemma {:induction false} MoveStaysImpossible(session: Session, row: Option<Row>, step: Step)
    requires CanMove(session, row, step) && !CallbackPossible(session) && DriverInv(session.launch, session.driver)
    ensures !CallbackPossible(Move(session, row, step)) && !step.ServePost?
  {
  }

  lemma {:induction false} StepStaysDown(s: System, a: Action, id: int)
    requires StaysDown(s, id) && Enabled(s, a)
    ensures StaysDown(Next(s, a), id)
  {
    NextKeepsInv(s, a);
    if a.On? {
      var session, row := s.sessions[a.id], RowAt(s.rows, a.id);
      if a.id == id {
        assert SessionInv(id, row, session);
        MoveStaysImpossible(session, row, a.step);
        StepOnOwnRow(s, id, a.step);
      } else {
        StepIsLocal(s, a.id, a.step, id);
      }
    }
  }

  lemma {:induction false} ContinuesDown(s: System, actions: seq<Action>, last: System, id: int)
    requires StaysDown(s, id) && Leads(s, actions, last)
    ensures StaysDown(last, id)
    decreases |actions|
  {
    if actions != [] {
      StepStaysDown(s, actions[0], id);
      ContinuesDown(Next(s, actions[0]), actions[1..], last, id);
    }
  }

  /**
   An application that is not RUNNING, whatever ended it, can become RUNNING later if and
   only if its driver has neither posted its address nor lost the chance to.
   */
  lemma {:induction false} ComesBackExactly(s: System, id: int)
    requires Inv(s) && id in s.rows && s.rows[id].state != RUNNING
    ensures CanBecomeRunning(s, id) <==> CallbackPossible(s.sessions[id])
  {
    if CallbackPossible(s.sessions[id]) {
      var actions, last := DriverCanStart(s, id);
    } else {
      forall actions, last | Leads(s, actions, last)
        ensures !IsRunning(last, id)
      {
        ContinuesDown(s, actions, last, id);
      }
    }
  }

  // ----- What the row tells -----

  /** A row has its application id exactly when the callback has been served, and then no other comes. */
  lemma {:induction false} RegisteredIsPast(s: System, id: int)
    requires Inv(s) && id in s.rows
    ensures s.rows[id].applicationId.Some? <==> s.sessions[id].driver.served
    ensures s.rows[id].applicationId.Some? ==> !CallbackPossible(s.sessions[id])
  {
    assert SessionInv(id, RowAt(s.rows, id), s.sessions[id]);
  }

  lemma {:induction false} DownOverRuns(states: seq<System>, actions: seq<Action>, i: nat, j: nat, id: int)
    requires Run(states, actions) && i <= j < |states| && StaysDown(states[i], id)
    ensures StaysDown(states[j], id)
  {
    if i < j {
      DownOverRuns(states, actions, i, j - 1, id);
      assert StepAt(states, actions, j - 1);
      StepStaysDown(states[j - 1], actions[j - 1], id);
    }
  }

  /**
   Whoever reads a row that is not RUNNING but has an application id knows that the
   application never runs again; a row that can still come back has none.
   */
  lemma {:induction false} EndedForGood(states: seq<System>, actions: seq<Action>, i: nat, j: nat, id: int)
    requires Run(states, actions) && i <= j < |states|
    requires id in states[i].rows && states[i].rows[id].state != RUNNING && states[i].rows[id].applicationId.Some?
    ensures !IsRunning(states[j], id)
    ensures !CanBecomeRunning(states[i], id)
  {
    InvOverRuns(states, actions, i);
    RegisteredIsPast(states[i], id);
    ComesBackExactly(states[i], id);
    DownOverRuns(states, actions, i, j, id);
  }

  /** Such a state is reached: an application deleted while it is launching is FINISHED, and comes back. */
  lemma {:induction false} DeletedWhileLaunching(s: System, id: int)
    requires Inv(s) && id in s.rows && s.rows[id].state == LAUNCHING && CallbackPossible(s.sessions[id])
    ensures exists deleted ::
              && Leads(s, [On(id, FindForDelete), On(id, MarkFinished(|s.sessions[id].deleters|))], deleted)
              && id in deleted.rows && deleted.rows[id].state == FINISHED && CanBecomeRunning(deleted, id)
  {
    assert SessionInv(id, RowAt(s.rows, id), s.sessions[id]);
    var find, mark := On(id, FindForDelete), On(id, MarkFinished(|s.sessions[id].deleters|));
    var found := Next(s, find);
    var deleted := Next(found, mark);
    NextKeepsInv(s, find);
    NextKeepsInv(found, mark);
    assert [find, mark][1..] == [mark] && [mark][1..] == [];
    assert Leads(found, [mark], deleted);
    assert SessionInv(id, RowAt(found.rows, id), found.sessions[id]);
    ComesBackExactly(deleted, id);
  }
}
