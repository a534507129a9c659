/** The columns of an outbox row, told by what the workers that held its claim reported. */
module OutboxRecords {
  import opened Domain
  import opened Outbox

  // ---------------------------------------------------------------- reports

  /** The k-th event is the report of a worker that holds the claim of the row. */
  predicate IsReport(cfg: Settings, start: int, events: seq<Event>, k: nat, id: nat) {
    && k < |events| && events[k].Finished? && events[k].id == id
    && var box := Run(cfg, Box([], start), events[..k]);
       events[k].now >= box.clock && id < |box.rows| && box.rows[id].claimToken == Some(events[k].token)
  }

  predicate IsSuccess(cfg: Settings, start: int, events: seq<Event>, k: nat, id: nat) {
    IsReport(cfg, start, events, k, id) && events[k].succeeded
  }

  predicate IsFailure(cfg: Settings, start: int, events: seq<Event>, k: nat, id: nat) {
    IsReport(cfg, start, events, k, id) && !events[k].succeeded
  }

  /** How many workers reported a failed delivery of the row. */
  function Failures(cfg: Settings, start: int, events: seq<Event>, id: nat): nat {
    if events == [] then 0
    else
      Failures(cfg, start, events[..|events| - 1], id)
      + if IsFailure(cfg, start, events, |events| - 1, id) then 1 else 0
  }

  /** When the last failure was reported. */
  function LastFailure(cfg: Settings, start: int, events: seq<Event>, id: nat): Option<int> {
    if events == [] then None
    else if IsFailure(cfg, start, events, |events| - 1, id) then Some(events[|events| - 1].now)
    else LastFailure(cfg, start, events[..|events| - 1], id)
  }

  function Smaller(a: int, b: int): int {
    if a < b then a else b
  }

  // ---------------------------------------------------------------- claims

  /** The row has to be sent now, and no worker has been at it for the last five minutes. */
  predicate Waits(row: Row, now: int) {
    && row.deliveredAt.None? && row.abandonedAt.None? && row.nextAttemptAt <= now
    && (row.claimToken.Some? ==> row.claimedAt.Some? && now - row.claimedAt.value > 300)
  }

  /** How many of the rows before this one wait and are not locked. */
  function Before(rows: seq<Row>, now: int, locked: set<nat>, id: nat): nat
    requires id <= |rows|
  {
    if id == 0 then 0
    else Before(rows, now, locked, id - 1) + if Waits(rows[id - 1], now) && id - 1 !in locked then 1 else 0
  }

  lemma {:induction false} DueFromHere(rows: seq<Row>, start: nat, now: int, limit: nat, locked: set<nat>, id: nat)
    requires start <= |rows| && id < |rows|
    ensures id in DueFrom(rows, start, now, limit, locked) <==>
              start <= id && Waits(rows[id], now) && id !in locked && Before(rows, now, locked, id) - Before(rows, now, locked, start) < limit
    decreases |rows| - start
  {
    if start <= id { BeforeGrows(rows, now, locked, start, id); }
    if start < |rows| && limit > 0 {
      assert Claimable(rows[start], now) <==> Waits(rows[start], now);
      var taken := Waits(rows[start], now) && start !in locked;
      DueFromHere(rows, start + 1, now, if taken then limit - 1 else limit, locked, id);
      hide Claimable, Waits;
      assert Before(rows, now, locked, start + 1) == Before(rows, now, locked, start) + if taken then 1 else 0;
    }
  }

  lemma {:induction false} BeforeGrows(rows: seq<Row>, now: int, locked: set<nat>, low: nat, high: nat)
    requires low <= high <= |rows|
    ensures Before(rows, now, locked, low) <= Before(rows, now, locked, high)
  {
    if low < high { BeforeGrows(rows, now, locked, low, high - 1); }
  }

  /**
   A claim takes a row exactly if it waits, nobody has it locked, and fewer than `limit` such rows come before it; it
   stamps these rows with the worker and the time, and touches nothing else.
   */
  lemma ClaimTakesWaitingRows(cfg: Settings, box: Box, token: string, now: int, limit: nat, locked: set<nat>, id: nat)
    requires now >= box.clock && id < |box.rows|
    ensures
      var after := Step(cfg, box, Claimed(token, now, limit, locked));
      && |after.rows| == |box.rows| && after.clock == now
      && after.rows[id]
         == if Waits(box.rows[id], now) && id !in locked && Before(box.rows, now, locked, id) < limit
            then box.rows[id].(claimToken := Some(token), claimedAt := Some(now)) else box.rows[id]
  {
    DueFromHere(box.rows, 0, now, limit, locked, id);
    hide DueFrom, Waits;
  }

  /** A new row is due at once. */
  lemma EnqueuedIsDue(cfg: Settings, box: Box, now: int)
    requires now >= box.clock
    ensures Step(cfg, box, Enqueued(now)) == Box(box.rows + [Row(now, 0, None, None, now, None, None)], now)
  {
  }

  // ---------------------------------------------------------------- rows

  /** What the columns of the row say about the reports. */
  ghost predicate Tells(cfg: Settings, start: int, events: seq<Event>, id: nat, row: Row) {
    && row.attempts == Failures(cfg, start, events, id)
    && (forall at :: row.deliveredAt == Some(at) <==> exists k: nat :: IsSuccess(cfg, start, events, k, id) && events[k].now == at)
    && row.abandonedAt == (if row.attempts >= cfg.retryLimit then LastFailure(cfg, start, events, id) else None)
    && (row.attempts == 0 ==> row.nextAttemptAt == row.firstDue)
    && (0 < row.attempts < cfg.retryLimit ==>
          LastFailure(cfg, start, events, id)
          == Some(row.nextAttemptAt - Smaller(Pow2(row.attempts), cfg.maxBackoff)))
  }

  lemma {:induction false} PowersMultiply(a: nat, b: nat)
    ensures Pow2(a + b) == Pow2(a) * Pow2(b) && Pow2(0) == 1 && Pow2(1) == 2
  {
    if a > 0 { PowersMultiply(a - 1, b); }
  }

  lemma ReportsStay(cfg: Settings, start: int, events: seq<Event>, e: Event, k: nat, id: nat)
    requires k < |events|
    ensures IsReport(cfg, start, events + [e], k, id) <==> IsReport(cfg, start, events, k, id)
    ensures (events + [e])[k] == events[k]
  {
    assert (events + [e])[..k] == events[..k];
  }

  lemma {:induction false} RowsStay(cfg: Settings, start: int, events: seq<Event>, k: nat)
    requires k <= |events|
    ensures |Run(cfg, Box([], start), events[..k]).rows| <= |Run(cfg, Box([], start), events).rows|
  {
    if k < |events| {
      RowsStay(cfg, start, events[..|events| - 1], k);
      assert events[..|events| - 1][..k] == events[..k];
    } else {
      assert events[..k] == events;
    }
  }

  /** Nobody reports on a row that does not exist yet. */
  lemma {:induction false} NothingReported(cfg: Settings, start: int, events: seq<Event>, id: nat)
    requires id >= |Run(cfg, Box([], start), events).rows|
    ensures forall k: nat :: !IsReport(cfg, start, events, k, id)
    ensures Failures(cfg, start, events, id) == 0 && LastFailure(cfg, start, events, id).None?
  {
    forall k: nat ensures !IsReport(cfg, start, events, k, id) {
      if k < |events| { RowsStay(cfg, start, events, k); }
    }
    if events != [] {
      RowsStay(cfg, start, events, |events| - 1);
      NothingReported(cfg, start, events[..|events| - 1], id);
    }
  }

  lemma LastIsReport(cfg: Settings, start: int, events: seq<Event>, e: Event, id: nat)
    ensures
      var box := Run(cfg, Box([], start), events);
      IsReport(cfg, start, events + [e], |events|, id) <==>
        && e.Finished? && e.id == id && e.now >= box.clock && id < |box.rows| && box.rows[id].claimToken == Some(e.token)
    ensures Failures(cfg, start, events + [e], id)
            == Failures(cfg, start, events, id) + if IsFailure(cfg, start, events + [e], |events|, id) then 1 else 0
    ensures LastFailure(cfg, start, events + [e], id)
            == if IsFailure(cfg, start, events + [e], |events|, id) then Some(e.now) else LastFailure(cfg, start, events, id)
  {
    assert (events + [e])[..|events|] == events;
  }

  /** The columns that reports are about. */
  predicate SameRecord(row: Row, after: Row) {
    after == row.(claimToken := after.claimToken, claimedAt := after.claimedAt)
  }

  lemma QuietStep(cfg: Settings, start: int, events: seq<Event>, e: Event, id: nat)
    requires id < |Run(cfg, Box([], start), events).rows| && !IsReport(cfg, start, events + [e], |events|, id)
    ensures
      var box := Run(cfg, Box([], start), events);
      var after := Step(cfg, box, e);
      id < |after.rows| && SameRecord(box.rows[id], after.rows[id])
  {
    LastIsReport(cfg, start, events, e, id);
    hide DueFrom;
  }

  /** Successful reports of a longer run, apart from its last event. */
  lemma SuccessesStay(cfg: Settings, start: int, events: seq<Event>, e: Event, id: nat, at: int)
    ensures (exists k: nat :: IsSuccess(cfg, start, events + [e], k, id) && (events + [e])[k].now == at) <==>
              || (exists k: nat :: IsSuccess(cfg, start, events, k, id) && events[k].now == at)
              || (IsSuccess(cfg, start, events + [e], |events|, id) && e.now == at)
  {
    if k: nat :| IsSuccess(cfg, start, events, k, id) && events[k].now == at {
      ReportsStay(cfg, start, events, e, k, id);
      assert IsSuccess(cfg, start, events + [e], k, id);
    }
    if k: nat :| IsSuccess(cfg, start, events + [e], k, id) && (events + [e])[k].now == at {
      if k < |events| {
        ReportsStay(cfg, start, events, e, k, id);
        assert IsSuccess(cfg, start, events, k, id);
      }
    }
  }

  lemma QuietKeepsTelling(cfg: Settings, start: int, events: seq<Event>, e: Event, id: nat, row: Row, after: Row)
    requires Tells(cfg, start, events, id, row) && SameRecord(row, after)
    requires !IsReport(cfg, start, events + [e], |events|, id)
    ensures Tells(cfg, start, events + [e], id, after)
  {
    LastIsReport(cfg, start, events, e, id);
    hide Run;
    forall at ensures after.deliveredAt == Some(at) <==>
                        exists k: nat :: IsSuccess(cfg, start, events + [e], k, id) && (events + [e])[k].now == at {
      SuccessesStay(cfg, start, events, e, id, at);
    }
  }

  /** Whoever holds the claim of a row finds it neither delivered nor abandoned. */
  lemma ReportKeepsTelling(cfg: Settings, start: int, events: seq<Event>, e: Event, id: nat, row: Row)
    requires cfg.retryLimit >= 1 && Tells(cfg, start, events, id, row)
    requires IsReport(cfg, start, events + [e], |events|, id) && row.deliveredAt.None? && row.attempts < cfg.retryLimit
    ensures Tells(cfg, start, events + [e], id, FinishRow(cfg, row, e.succeeded, e.now))
  {
    LastIsReport(cfg, start, events, e, id);
    var after := FinishRow(cfg, row, e.succeeded, e.now);
    assert (events + [e])[|events|] == e;
    hide Run;
    forall at ensures after.deliveredAt == Some(at) <==>
                        exists k: nat :: IsSuccess(cfg, start, events + [e], k, id) && (events + [e])[k].now == at {
      SuccessesStay(cfg, start, events, e, id, at);
    }
  }

  lemma NewRowTells(cfg: Settings, start: int, events: seq<Event>, e: Event, id: nat)
    requires cfg.retryLimit >= 1
    requires id >= |Run(cfg, Box([], start), events).rows| && id < |Run(cfg, Box([], start), events + [e]).rows|
    ensures Tells(cfg, start, events + [e], id, Run(cfg, Box([], start), events + [e]).rows[id])
  {
    assert (events + [e])[..|events|] == events;
    assert e.Enqueued?;
    LastIsReport(cfg, start, events, e, id);
    NothingReported(cfg, start, events, id);
    var row := Run(cfg, Box([], start), events + [e]).rows[id];
    hide Run;
    forall at ensures row.deliveredAt == Some(at) <==>
                        exists k: nat :: IsSuccess(cfg, start, events + [e], k, id) && (events + [e])[k].now == at {
      SuccessesStay(cfg, start, events, e, id, at);
    }
  }

  /**
   Over every run: a row is delivered exactly when a worker that held its claim reported success, at that time; it counts
   exactly the failures that such workers reported; it is abandoned exactly with the failure that reaches the limit; and
   after each earlier failure it is due again twice as late as after the one before, up to the longest backoff.
   */
  lemma {:induction false} RowsTellReports(cfg: Settings, start: int, events: seq<Event>, id: nat)
    requires cfg.retryLimit >= 1 && id < |Run(cfg, Box([], start), events).rows|
    ensures Tells(cfg, start, events, id, Run(cfg, Box([], start), events).rows[id])
  {
    if events != [] {
      var earlier, e := events[..|events| - 1], events[|events| - 1];
      assert events == earlier + [e];
      var box := Run(cfg, Box([], start), earlier);
      if id >= |box.rows| {
        NewRowTells(cfg, start, earlier, e, id);
      } else {
        RowsTellReports(cfg, start, earlier, id);
        RunKeeps(cfg, Box([], start), earlier);
        assert RowOk(cfg, box.rows[id], box.clock);
        LastIsReport(cfg, start, earlier, e, id);
        hide Tells, DueFrom;
        if IsReport(cfg, start, events, |earlier|, id) {
          ReportKeepsTelling(cfg, start, earlier, e, id, box.rows[id]);
        } else {
          QuietStep(cfg, start, earlier, e, id);
          QuietKeepsTelling(cfg, start, earlier, e, id, box.rows[id], Step(cfg, box, e).rows[id]);
        }
      }
    }
  }
}
