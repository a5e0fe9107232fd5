/**
 The application table (server/src/entities/application.rs) and every statement
 that writes it. A statement is atomic; what runs between statements is left to
 the modules that interleave them.
 */
module Application {
  import opened Wrappers

  datatype State = LAUNCHING | RUNNING | FAILED | FINISHED

  datatype Row = Row(
    id: int,
    createdAt: int,
    username: string,
    name: Option<string>,
    state: State,
    token: string,
    address: Option<string>,
    applicationId: Option<string>
  )

  type Table = map<int, Row>

  datatype Write =
    | Insert(id: int, createdAt: int, username: string, name: Option<string>, token: string)
    | WatcherTimeout(id: int)                                           // create_app, the spawned watcher
    | LaunchFailed(id: int)                                             // create_app, launch returned an error
    | Delete(id: int, username: string)                                 // delete_app
    | Callback(token: string, address: string, applicationId: string)   // app_callback
    | CallbackDelete(token: string)                                     // app_callback_delete
    | MarkFailed(token: string)                                         // the proxy, upstream unreachable
    | CheckFailed(id: int)                                              // the check command
    | Prune(cutoff: int)                                                // the prune command

  function NewRow(w: Write): Row
    requires w.Insert?
  {
    Row(w.id, w.createdAt, w.username, w.name, LAUNCHING, w.token, None, None)
  }

  /** The WHERE clause. */
  predicate Selects(w: Write, row: Row) {
    match w
    case Insert(_, _, _, _, _) => false
    case WatcherTimeout(id) => row.id == id && row.state == LAUNCHING
    case LaunchFailed(id) => row.id == id
    case Delete(id, username) => row.id == id && row.username == username
    case Callback(token, _, _) => row.token == token
    case CallbackDelete(token) => row.token == token
    case MarkFailed(token) => row.token == token
    case CheckFailed(id) => row.id == id
    case Prune(cutoff) => (row.state == FAILED || row.state == FINISHED) && row.createdAt <= cutoff
  }

  /** The SET clause. */
  function Assign(w: Write, row: Row): Row {
    match w
    case WatcherTimeout(_) => row.(state := FAILED)
    case LaunchFailed(_) => row.(state := FAILED)
    case Delete(_, _) => row.(state := FINISHED, address := None)
    case Callback(_, address, applicationId) =>
      row.(state := RUNNING, address := Some(address), applicationId := Some(applicationId))
    case CallbackDelete(_) => row.(state := FINISHED, address := None)
    case MarkFailed(_) => row.(state := FAILED, address := None)
    case CheckFailed(_) => row.(state := FAILED, address := None)
    case _ => row
  }

  function Update(w: Write, row: Row): Row {
    if Selects(w, row) then Assign(w, row) else row
  }

  function Apply(w: Write, rows: Table): Table {
    match w
    case Insert(id, _, _, _, _) => rows[id := NewRow(w)]
    case Prune(_) => map id | id in rows && !Selects(w, rows[id]) :: rows[id]
    case _ => map id | id in rows :: Update(w, rows[id])
  }

  // ----- What every writer keeps of a row -----

  /** An address belongs to RUNNING rows and to no other; see `UpdateKeepsConsistent`. */
  predicate Consistent(row: Row) {
    && (row.address.Some? <==> row.state == RUNNING)
    && (row.state == RUNNING ==> row.applicationId.Some?)
    && (row.state == LAUNCHING ==> row.applicationId.None?)
  }

  /**
   Every statement keeps the rows consistent, except one in one situation: the
   failure of a launch recorded on a row that a callback has already made RUNNING.
   */
  lemma {:induction false} UpdateKeepsConsistent(w: Write, row: Row)
    requires Consistent(row)
    ensures Consistent(Update(w, row)) <==> !(w.LaunchFailed? && w.id == row.id && row.state == RUNNING)
  {
    if w.LaunchFailed? && w.id == row.id && row.state == RUNNING {
      assert Update(w, row).address == row.address;
    }
  }

  /** `later` can be the same application as `earlier`, some statements afterwards. */
  predicate Evolves(earlier: Row, later: Row) {
    && earlier.id == later.id
    && earlier.createdAt == later.createdAt
    && earlier.username == later.username
    && earlier.name == later.name
    && earlier.token == later.token
    && (later.state == LAUNCHING ==> earlier.state == LAUNCHING)
    && (earlier.applicationId.Some? ==> later.applicationId.Some?)
  }

  /** The key of a row is its id. */
  predicate Keyed(rows: Table) {
    forall id | id in rows :: rows[id].id == id
  }

  /** One statement on the whole table: rows evolve, and only ended ones can be removed. */
  lemma {:induction false} ApplyEvolves(w: Write, rows: Table, id: int)
    requires Keyed(rows) && id in rows
    requires w.Insert? ==> w.id !in rows
    ensures Keyed(Apply(w, rows))
    ensures id in Apply(w, rows) ==> Evolves(rows[id], Apply(w, rows)[id])
    ensures id !in Apply(w, rows) <==>
            w.Prune? && rows[id].createdAt <= w.cutoff && rows[id].state in {FAILED, FINISHED}
  {
  }

  // ----- The launch watcher cannot defeat another writer -----

  /** A statement on an existing row other than the watcher's own; removing the row is set aside. */
  predicate Other(w: Write) {
    !w.Insert? && !w.WatcherTimeout? && !w.Prune?
  }

  predicate Others(ws: seq<Write>) {
    forall i | 0 <= i < |ws| :: Other(ws[i])
  }

  /** Such a statement writes the state whatever it was, provided it is about this row. */
  predicate WritesState(w: Write, row: Row) {
    Other(w) && Selects(w, row)
  }

  predicate SomeWrites(ws: seq<Write>, row: Row) {
    exists i | 0 <= i < |ws| :: WritesState(ws[i], row)
  }

  lemma {:induction false} FirstOrRest(ws: seq<Write>, row: Row)
    requires ws != []
    ensures Others(ws) ==> Other(ws[0]) && Others(ws[1..])
    ensures SomeWrites(ws, row) <==> WritesState(ws[0], row) || SomeWrites(ws[1..], row)
  {
    if SomeWrites(ws, row) && !WritesState(ws[0], row) {
      var i :| 0 <= i < |ws| && WritesState(ws[i], row);
      assert ws[1..][i - 1] == ws[i];
    }
    if SomeWrites(ws[1..], row) {
      var i :| 0 <= i < |ws[1..]| && WritesState(ws[1..][i], row);
      assert ws[i + 1] == ws[1..][i];
    }
  }

  lemma {:induction false} BeforeOrAfter(before: seq<Write>, after: seq<Write>, row: Row)
    ensures Others(before + after) ==> Others(before) && Others(after)
    ensures SomeWrites(before + after, row) ==> SomeWrites(before, row) || SomeWrites(after, row)
  {
    var ws := before + after;
    if Others(ws) {
      forall i | 0 <= i < |before|
        ensures Other(before[i])
      {
        assert Other(ws[i]);
      }
      forall i | 0 <= i < |after|
        ensures Other(after[i])
      {
        assert Other(ws[|before| + i]);
      }
    }
    if SomeWrites(ws, row) {
      var i :| 0 <= i < |ws| && WritesState(ws[i], row);
      assert if i < |before| then ws[i] == before[i] else ws[i] == after[i - |before|];
    }
  }

  function ApplyAll(ws: seq<Write>, row: Row): Row {
    if ws == [] then row else ApplyAll(ws[1..], Update(ws[0], row))
  }

  lemma {:induction false} ApplyAllConcat(a: seq<Write>, b: seq<Write>, row: Row)
    ensures ApplyAll(a + b, row) == ApplyAll(b, ApplyAll(a, row))
  {
    if a == [] {
      assert a + b == b;
    } else {
      assert (a + b)[1..] == a[1..] + b;
      ApplyAllConcat(a[1..], b, Update(a[0], row));
    }
  }

  /** Until some statement writes its state, a row does not change at all. */
  lemma {:induction false} NothingWritten(ws: seq<Write>, row: Row)
    requires Others(ws) && !SomeWrites(ws, row)
    ensures ApplyAll(ws, row) == row
  {
    if ws != [] {
      FirstOrRest(ws, row);
      NothingWritten(ws[1..], row);
    }
  }

  /** The statements that select a launching row select its timed-out copy, and make them the same. */
  lemma {:induction false} UpdateForgets(w: Write, row: Row)
    requires Consistent(row) && row.state == LAUNCHING && Other(w)
    ensures WritesState(w, row) ==> Update(w, row) == Update(w, row.(state := FAILED))
    ensures !WritesState(w, row) ==> Update(w, row) == row && Update(w, row.(state := FAILED)) == row.(state := FAILED)
  {
  }

  /** A launching row and its timed-out copy come to the same once some statement writes the state. */
  lemma {:induction false} TimeoutForgotten(ws: seq<Write>, row: Row)
    requires Consistent(row) && row.state == LAUNCHING && Others(ws) && SomeWrites(ws, row)
    ensures ApplyAll(ws, row) == ApplyAll(ws, row.(state := FAILED))
  {
    FirstOrRest(ws, row);
    UpdateForgets(ws[0], row);
    if !WritesState(ws[0], row) {
      TimeoutForgotten(ws[1..], row);
    }
  }

  /** Once a row has left LAUNCHING, the watcher finds nothing to do, however late it comes. */
  lemma {:induction false} NeverLaunchingAgain(ws: seq<Write>, row: Row)
    requires row.state != LAUNCHING
    ensures ApplyAll(ws, row).state != LAUNCHING
  {
    if ws != [] {
      NeverLaunchingAgain(ws[1..], Update(ws[0], row));
    }
  }

  lemma {:induction false} LeavesLaunching(ws: seq<Write>, row: Row)
    requires Others(ws) && (row.state != LAUNCHING || SomeWrites(ws, row))
    ensures ApplyAll(ws, row).state != LAUNCHING
  {
    if row.state != LAUNCHING {
      NeverLaunchingAgain(ws, row);
    } else {
      FirstOrRest(ws, row);
      if WritesState(ws[0], row) {
        NeverLaunchingAgain(ws[1..], Update(ws[0], row));
      } else {
        LeavesLaunching(ws[1..], row);
      }
    }
  }

  function WithWatcher(ws: seq<Write>, id: int, p: nat): seq<Write>
    requires p <= |ws|
  {
    ws[..p] + [WatcherTimeout(id)] + ws[p..]
  }

  /**
   The watcher's conditional update, put anywhere among the other statements on the
   row, leaves the same final row: exactly when some other statement writes the
   state, or the row was not launching to begin with.
   */
  lemma {:induction false} WatcherConfluence(ws: seq<Write>, row: Row, id: int)
    requires Consistent(row) && row.id == id && Others(ws)
    ensures (forall p | 0 <= p <= |ws| :: ApplyAll(WithWatcher(ws, id, p), row) == ApplyAll(ws, row))
            <==> row.state != LAUNCHING || SomeWrites(ws, row)
  {
    if row.state != LAUNCHING || SomeWrites(ws, row) {
      forall p | 0 <= p <= |ws|
        ensures ApplyAll(WithWatcher(ws, id, p), row) == ApplyAll(ws, row)
      {
        WatcherAt(ws, row, id, p);
      }
    } else {
      NothingWritten(ws, row);
      WatcherAlone(ws, row, id);
    }
  }

  lemma {:induction false} WatcherAlone(ws: seq<Write>, row: Row, id: int)
    requires row.id == id && row.state == LAUNCHING && Others(ws)
    ensures ApplyAll(WithWatcher(ws, id, 0), row).state != LAUNCHING
  {
    assert WithWatcher(ws, id, 0) == [WatcherTimeout(id)] + ws;
    assert ([WatcherTimeout(id)] + ws)[1..] == ws;
    NeverLaunchingAgain(ws, row.(state := FAILED));
  }

  /** The update applied to what the statements before it have made of the row. */
  lemma {:induction false} WatcherInBetween(before: seq<Write>, after: seq<Write>, row: Row, id: int)
    ensures ApplyAll(before + [WatcherTimeout(id)] + after, row)
            == ApplyAll(after, Update(WatcherTimeout(id), ApplyAll(before, row)))
  {
    ApplyAllConcat(before + [WatcherTimeout(id)], after, row);
    ApplyAllConcat(before, [WatcherTimeout(id)], row);
    assert [WatcherTimeout(id)][1..] == [];
  }

  lemma {:induction false} WatcherAt(ws: seq<Write>, row: Row, id: int, p: nat)
    requires Consistent(row) && row.id == id && p <= |ws| && Others(ws)
    requires row.state != LAUNCHING || SomeWrites(ws, row)
    ensures ApplyAll(WithWatcher(ws, id, p), row) == ApplyAll(ws, row)
  {
    var before, after := ws[..p], ws[p..];
    assert ws == before + after;
    ApplyAllConcat(before, after, row);
    WatcherInBetween(before, after, row, id);
    BeforeOrAfter(before, after, row);
    if row.state == LAUNCHING && !SomeWrites(before, row) {
      NothingWritten(before, row);
      TimeoutForgotten(after, row);
    } else {
      LeavesLaunching(before, row);
    }
  }
}
