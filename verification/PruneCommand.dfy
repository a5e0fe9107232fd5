/**
 The `prune` command and the arithmetic of its age limit (server/src/lib.rs). Times are
 whole seconds since the Unix epoch. A cutoff that is no valid time ends the command with
 an error before anything is deleted.
 */
module PruneCommand {
  import opened Wrappers
  import opened Application
  import opened Database

  const TWO63: int := 0x8000_0000_0000_0000
  const TWO64: int := 0x1_0000_0000_0000_0000

  /** The times `DateTimeUtc` can represent: the years -262143 to 262142 of chrono 0.4.45. */
  const MIN_TIMESTAMP: int := -8_334_601_228_800
  const MAX_TIMESTAMP: int := 8_210_266_876_799

  /** The days from the beginning of year 1 to that of the given year of the Gregorian calendar. */
  function DaysBefore(year: int): int {
    var y := year - 1;
    365 * y + y / 4 - y / 100 + y / 400
  }

  /** The first second of the first year and the last of the last; the epoch is the beginning of 1970. */
  lemma {:induction false} TimestampRange()
    ensures MIN_TIMESTAMP == (DaysBefore(-262143) - DaysBefore(1970)) * 86400
    ensures MAX_TIMESTAMP == (DaysBefore(262143) - DaysBefore(1970)) * 86400 - 1
  {
  }

  /** `x as i64` for an unsigned 64-bit `x`. */
  function AsI64(x: int): int
    requires 0 <= x < TWO64
  {
    if x < TWO63 then x else x - TWO64
  }

  function SaturatingSub(a: int, b: int): int {
    var d := a - b;
    if d < -TWO63 then -TWO63 else if d >= TWO63 then TWO63 - 1 else d
  }

  predicate Representable(time: int) {
    MIN_TIMESTAMP <= time <= MAX_TIMESTAMP
  }

  /** The creation time up to which `prune` removes, at time `now`, if there is such a time. */
  function PruneCutoff(now: int, olderThanSeconds: int): Option<int>
    requires 0 <= now <= MAX_TIMESTAMP && 0 <= olderThanSeconds < TWO64
  {
    var seconds := SaturatingSub(now, AsI64(olderThanSeconds));
    if Representable(seconds) then Some(seconds) else None
  }

  /** Ended, and at least as old as asked. */
  predicate OldEnough(row: Row, now: int, olderThanSeconds: int) {
    row.state in {FAILED, FINISHED} && now - row.createdAt >= olderThanSeconds
  }

  /** Without a cutoff the command fails and deletes nothing. */
  predicate Pruned(row: Row, now: int, olderThanSeconds: int)
    requires 0 <= now <= MAX_TIMESTAMP && 0 <= olderThanSeconds < TWO64
  {
    var cutoff := PruneCutoff(now, olderThanSeconds);
    cutoff.Some? && Selects(Application.Write.Prune(cutoff.value), row)
  }

  /** The threshold is not one of the last few below 2^64, which the cast makes small and negative. */
  predicate Sensible(now: int, olderThanSeconds: int) {
    olderThanSeconds < TWO64 - (MAX_TIMESTAMP - now)
  }

  /**
   The prune removes exactly the ended rows that are at least as old as asked, if and only
   if the threshold is below `TWO64 - (MAX_TIMESTAMP - now)`. Thresholds between 2^63 and
   that bound are cast to negative numbers too, but their cutoff lies after the last valid
   time, so nothing is removed, which is right for them.
   */
  lemma {:induction false} PruneRespectsAge(now: int, olderThanSeconds: int)
    requires 0 <= now <= MAX_TIMESTAMP && 0 <= olderThanSeconds < TWO64
    ensures (forall row: Row | Representable(row.createdAt) ::
               Pruned(row, now, olderThanSeconds) <==> row.state in {FAILED, FINISHED} && now - row.createdAt >= olderThanSeconds)
            <==> olderThanSeconds < TWO64 - (MAX_TIMESTAMP - now)
  {
    if !Sensible(now, olderThanSeconds) {
      assert PruneCutoff(now, olderThanSeconds) == Some(now + TWO64 - olderThanSeconds);
      var recent := Row(0, now, "", None, FAILED, "", None, None);
      assert Pruned(recent, now, olderThanSeconds) && !OldEnough(recent, now, olderThanSeconds);
    }
  }

  /** Where it fails: asked for the largest age, the command removes what has ended in this very second. */
  lemma {:induction false} LargestAgePrunesAll(now: int, row: Row)
    requires 0 <= now < MAX_TIMESTAMP && row.state in {FAILED, FINISHED}
    requires Representable(row.createdAt) && row.createdAt <= now
    ensures Pruned(row, now, TWO64 - 1) && !OldEnough(row, now, TWO64 - 1)
  {
    assert PruneCutoff(now, TWO64 - 1) == Some(now + 1);
  }

  // ----- The command -----

  datatype PruneError = ClockBeforeEpoch | InvalidCutoff | DeleteFailed

  /** The rows that are left when the age is respected. */
  function Survivors(rows: Table, now: int, olderThanSeconds: int): Table {
    map id | id in rows && !OldEnough(rows[id], now, olderThanSeconds) :: rows[id]
  }

  /**
   `prune`; `now` is the clock, which may stand before the epoch. Whatever error ends it, no
   row is gone; and when the cutoff is invalid no row was old enough.
   */
  method Prune(db: Connection, now: int, olderThanSeconds: int, deleteOk: bool)
    returns (r: Result<nat, PruneError>)
    requires now <= MAX_TIMESTAMP && 0 <= olderThanSeconds < TWO64
    requires forall id | id in db.rows :: Representable(db.rows[id].createdAt)
    modifies db
    ensures r.Err? ==> db.rows == old(db.rows)
    ensures r == Err(ClockBeforeEpoch) <==> now < 0
    ensures r == Err(InvalidCutoff) <==> now >= 0 && PruneCutoff(now, olderThanSeconds).None?
    ensures r.Ok? <==> now >= 0 && PruneCutoff(now, olderThanSeconds).Some? && deleteOk
    ensures r == Err(InvalidCutoff) ==> Survivors(old(db.rows), now, olderThanSeconds) == old(db.rows)
    ensures r.Ok? && Sensible(now, olderThanSeconds) ==> db.rows == Survivors(old(db.rows), now, olderThanSeconds)
    ensures r.Ok? ==> forall id | id in db.rows :: id in old(db.rows) && db.rows[id] == old(db.rows)[id]
    ensures r.Ok? ==> r.value == |old(db.rows).Keys - db.rows.Keys|
  {
    if now < 0 {
      return Err(ClockBeforeEpoch);
    }
    var cutoff := PruneCutoff(now, olderThanSeconds);
    ghost var rows := db.rows;
    PruneLeaves(rows, now, olderThanSeconds);
    if cutoff.None? {
      return Err(InvalidCutoff);
    }
    if !deleteOk {
      return Err(DeleteFailed);
    }
    var w := Application.Write.Prune(cutoff.value);
    var affected := db.Execute(w);
    assert rows.Keys - db.rows.Keys == Selected(w, rows);
    return Ok(affected);
  }

  /** What the statement leaves, or what is left without a cutoff. */
  lemma {:induction false} PruneLeaves(rows: Table, now: int, olderThanSeconds: int)
    requires 0 <= now <= MAX_TIMESTAMP && 0 <= olderThanSeconds < TWO64
    requires forall id | id in rows :: Representable(rows[id].createdAt)
    ensures var cutoff := PruneCutoff(now, olderThanSeconds);
            && (cutoff.None? ==> Survivors(rows, now, olderThanSeconds) == rows)
            && (cutoff.Some? && Sensible(now, olderThanSeconds) ==>
                  Apply(Application.Write.Prune(cutoff.value), rows) == Survivors(rows, now, olderThanSeconds))
  {
    PruneRespectsAge(now, olderThanSeconds);
    if Sensible(now, olderThanSeconds) {
      forall id | id in rows
        ensures Pruned(rows[id], now, olderThanSeconds) <==> OldEnough(rows[id], now, olderThanSeconds)
      {
      }
    }
  }
}
