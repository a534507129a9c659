/** The durable notification outbox: claims, backoff and abandonment with any number of workers. */
module Outbox {
  import opened Domain

  datatype Settings = Settings(retryLimit: nat, maxBackoff: nat)

  const STALE_SECONDS: int := 300

  datatype Row = Row(
    firstDue: int,
    attempts: nat,
    claimToken: Option<string>,
    claimedAt: Option<int>,
    nextAttemptAt: int,
    deliveredAt: Option<int>,
    abandonedAt: Option<int>)

  function NewRow(now: int): Row {
    Row(now, 0, None, None, now, None, None)
  }

  predicate Settled(row: Row) {
    row.deliveredAt.Some? || row.abandonedAt.Some?
  }

  predicate Claimable(row: Row, now: int) {
    && !Settled(row) && row.nextAttemptAt <= now
    && (row.claimToken.None? || (row.claimedAt.Some? && row.claimedAt.value < now - STALE_SECONDS))
  }

  function Pow2(n: nat): nat {
    if n == 0 then 1 else 2 * Pow2(n - 1)
  }

  function Delay(cfg: Settings, attempts: nat): nat {
    if Pow2(attempts) < cfg.maxBackoff then Pow2(attempts) else cfg.maxBackoff
  }

  /** What a worker that still holds the claim writes when it is done with the row. */
  function FinishRow(cfg: Settings, row: Row, succeeded: bool, now: int): Row {
    var released := row.(claimToken := None, claimedAt := None);
    if succeeded then released.(deliveredAt := Some(now))
    else
      var attempts := row.attempts + 1;
      if attempts >= cfg.retryLimit then released.(attempts := attempts, abandonedAt := Some(now))
      else released.(attempts := attempts, nextAttemptAt := now + Delay(cfg, attempts))
  }

  /** The identifiers, from `start` on and in order, of at most `limit` claimable rows that nobody has locked. */
  function DueFrom(rows: seq<Row>, start: nat, now: int, limit: nat, locked: set<nat>): seq<nat>
    requires start <= |rows|
    decreases |rows| - start
  {
    if start == |rows| || limit == 0 then []
    else if Claimable(rows[start], now) && start !in locked then
      [start] + DueFrom(rows, start + 1, now, limit - 1, locked)
    else DueFrom(rows, start + 1, now, limit, locked)
  }

  function ClaimRows(rows: seq<Row>, claimed: seq<nat>, token: string, now: int): seq<Row> {
    seq(|rows|, i requires 0 <= i < |rows| =>
      if i in claimed then rows[i].(claimToken := Some(token), claimedAt := Some(now)) else rows[i])
  }

  function FinishRows(cfg: Settings, rows: seq<Row>, id: nat, token: string, succeeded: bool, now: int): seq<Row> {
    if id < |rows| && rows[id].claimToken == Some(token) then rows[id := FinishRow(cfg, rows[id], succeeded, now)] else rows
  }

  /** Only claimable rows, each once and in order. */
  lemma {:induction false} DueAreDue(rows: seq<Row>, start: nat, now: int, limit: nat, locked: set<nat>)
    requires start <= |rows|
    ensures
      var due := DueFrom(rows, start, now, limit, locked);
      && |due| <= limit
      && (forall k :: 0 <= k < |due| ==>
            start <= due[k] < |rows| && Claimable(rows[due[k]], now) && due[k] !in locked)
      && (forall k, l :: 0 <= k < l < |due| ==> due[k] < due[l])
    decreases |rows| - start
  {
    hide Claimable;
    if start < |rows| && limit > 0 {
      DueAreDue(rows, start + 1, now, if Claimable(rows[start], now) && start !in locked then limit - 1 else limit, locked);
    }
  }

  /** A due row is left out only when the limit is reached by earlier ones. */
  lemma {:induction false} NoneIsForgotten(rows: seq<Row>, start: nat, now: int, limit: nat, locked: set<nat>, i: nat)
    requires start <= i < |rows| && Claimable(rows[i], now) && i !in locked
    requires i !in DueFrom(rows, start, now, limit, locked)
    ensures
      var due := DueFrom(rows, start, now, limit, locked);
      |due| == limit && forall k :: 0 <= k < |due| ==> due[k] < i
    decreases |rows| - start
  {
    hide Claimable;
    if limit > 0 {
      if Claimable(rows[start], now) && start !in locked {
        assert DueFrom(rows, start, now, limit, locked)[0] == start;
        var rest := DueFrom(rows, start + 1, now, limit - 1, locked);
        assert forall k :: 0 <= k < |rest| ==> rest[k] == DueFrom(rows, start, now, limit, locked)[k + 1];
        NoneIsForgotten(rows, start + 1, now, limit - 1, locked, i);
      } else {
        NoneIsForgotten(rows, start + 1, now, limit, locked, i);
      }
    }
  }

  /** The claim takes due rows only, each once, the earliest first, and as many as the limit allows. */
  lemma DueAreTheFirst(rows: seq<Row>, now: int, limit: nat, locked: set<nat>)
    ensures
      var due := DueFrom(rows, 0, now, limit, locked);
      && |due| <= limit
      && (forall k :: 0 <= k < |due| ==> due[k] < |rows| && Claimable(rows[due[k]], now) && due[k] !in locked)
      && (forall k, l :: 0 <= k < l < |due| ==> due[k] < due[l])
      && (forall i :: 0 <= i < |rows| && Claimable(rows[i], now) && i !in locked && i !in due ==>
            |due| == limit && forall k :: 0 <= k < |due| ==> due[k] < i)
  {
    DueAreDue(rows, 0, now, limit, locked);
    var due := DueFrom(rows, 0, now, limit, locked);
    hide DueFrom, Claimable;
    forall i | 0 <= i < |rows| && Claimable(rows[i], now) && i !in locked && i !in due
      ensures |due| == limit && forall k :: 0 <= k < |due| ==> due[k] < i
    {
      NoneIsForgotten(rows, 0, now, limit, locked, i);
    }
  }

  lemma DueStep(rows: seq<Row>, claimed: seq<nat>, i: nat, now: int, limit: nat, locked: set<nat>)
    requires i < |rows| && |claimed| < limit && Claimable(rows[i], now) && i !in locked
    ensures claimed + DueFrom(rows, i, now, limit - |claimed|, locked)
            == (claimed + [i]) + DueFrom(rows, i + 1, now, limit - |claimed + [i]|, locked)
  {
  }

  lemma ClaimOneMore(rows: seq<Row>, claimed: seq<nat>, i: nat, token: string, now: int)
    requires i < |rows| && i !in claimed
    ensures
      var before, after := ClaimRows(rows, claimed, token, now), ClaimRows(rows, claimed + [i], token, now);
      before[i] == rows[i] && after == before[i := rows[i].(claimToken := Some(token), claimedAt := Some(now))]
  {
    assert forall k :: k in claimed + [i] <==> k in claimed || k == i;
  }

  /** The table as the repository's methods work on it. */
  class NotificationTable {
    var rows: seq<Row>

    constructor ()
      ensures rows == []
    {
      rows := [];
    }

    method Enqueue(now: int)
      modifies this
      ensures rows == old(rows) + [NewRow(now)]
    {
      rows := rows + [NewRow(now)];
    }

    /** Claims due rows one by one; rows locked by concurrent transactions are skipped. */
    method ClaimNotifications(token: string, now: int, limit: nat, locked: set<nat>) returns (claimed: seq<nat>)
      modifies this
      ensures claimed == DueFrom(old(rows), 0, now, limit, locked)
      ensures rows == ClaimRows(old(rows), claimed, token, now)
    {
      hide Claimable;
      claimed := [];
      var before := rows;
      var i := 0;
      while i < |rows| && |claimed| < limit
        invariant 0 <= i <= |rows| == |before| && |claimed| <= limit
        invariant forall k :: k in claimed ==> k < i
        invariant rows == ClaimRows(before, claimed, token, now)
        invariant DueFrom(before, 0, now, limit, locked) == claimed + DueFrom(before, i, now, limit - |claimed|, locked)
      {
        ClaimOneMore(before, claimed, i, token, now);
        if Claimable(rows[i], now) && i !in locked {
          rows := rows[i := rows[i].(claimToken := Some(token), claimedAt := Some(now))];
          DueStep(before, claimed, i, now, limit, locked);
          claimed := claimed + [i];
        }
        i := i + 1;
      }
      assert DueFrom(before, i, now, limit - |claimed|, locked) == [];
    }

    method FinishNotification(cfg: Settings, id: nat, token: string, succeeded: bool, now: int)
      modifies this
      ensures rows == FinishRows(cfg, old(rows), id, token, succeeded, now)
      ensures
        id < |old(rows)| && old(rows)[id].claimToken == Some(token) ==>
          var before := old(rows)[id].(claimToken := None, claimedAt := None);
          var failures := before.attempts + 1;
          rows == old(rows)[id :=
            if succeeded then before.(deliveredAt := Some(now))
            else if failures >= cfg.retryLimit then before.(attempts := failures, abandonedAt := Some(now))
            else before.(attempts := failures,
                         nextAttemptAt := now + if Pow2(failures) <= cfg.maxBackoff then Pow2(failures) else cfg.maxBackoff)]
    {
      if id >= |rows| || rows[id].claimToken != Some(token) {
        return;
      }
      var row := rows[id].(claimToken := None, claimedAt := None);
      if succeeded {
        row := row.(deliveredAt := Some(now));
      } else {
        row := row.(attempts := row.attempts + 1);
        if row.attempts >= cfg.retryLimit {
          row := row.(abandonedAt := Some(now));
        } else {
          var delay := Pow2(row.attempts);
          if delay > cfg.maxBackoff {
            delay := cfg.maxBackoff;
          }
          row := row.(nextAttemptAt := now + delay);
        }
      }
      rows := rows[id := row];
    }
  }

  // ---------------------------------------------------------------- runs

  /** The workers share the table and one clock that never goes back. */
  datatype Box = Box(rows: seq<Row>, clock: int)

  datatype Event =
    | Enqueued(now: int)
    | Claimed(token: string, now: int, limit: nat, locked: set<nat>)
    | Finished(id: nat, token: string, succeeded: bool, now: int)

  function Step(cfg: Settings, box: Box, e: Event): Box {
    if e.now < box.clock then box
    else
      match e
      case Enqueued(now) => Box(box.rows + [NewRow(now)], now)
      case Claimed(token, now, limit, locked) =>
        Box(ClaimRows(box.rows, DueFrom(box.rows, 0, now, limit, locked), token, now), now)
      case Finished(id, token, succeeded, now) => Box(FinishRows(cfg, box.rows, id, token, succeeded, now), now)
  }

  function Run(cfg: Settings, box: Box, events: seq<Event>): Box {
    if events == [] then box else Step(cfg, Run(cfg, box, events[..|events| - 1]), events[|events| - 1])
  }

  /** Seconds of backoff that `failures` recorded failures impose. */
  function Backoff(cfg: Settings, failures: nat): nat {
    if failures == 0 then 0
    else Backoff(cfg, failures - 1) + if Pow2(failures) < cfg.maxBackoff then Pow2(failures) else cfg.maxBackoff
  }

  predicate RowOk(cfg: Settings, row: Row, clock: int) {
    && !(row.deliveredAt.Some? && row.abandonedAt.Some?)
    && (Settled(row) ==> row.claimToken.None?)
    && row.attempts <= cfg.retryLimit
    && (row.abandonedAt.Some? <==> row.attempts == cfg.retryLimit)
    && (row.claimToken.Some? ==> row.claimedAt.Some? && row.nextAttemptAt <= row.claimedAt.value <= clock)
    && (row.abandonedAt.None? ==> row.nextAttemptAt >= row.firstDue + Backoff(cfg, row.attempts))
    && (row.abandonedAt.Some? ==>
          row.attempts > 0 && row.abandonedAt.value >= row.firstDue + Backoff(cfg, row.attempts - 1))
  }

  /** A settled row stays as it is, and an unsettled one only gains failures. */
  predicate Advances(row: Row, after: Row) {
    && after.firstDue == row.firstDue && after.attempts >= row.attempts
    && (Settled(row) ==> after == row)
  }

  lemma StepKeeps(cfg: Settings, box: Box, e: Event)
    requires cfg.retryLimit >= 1
    requires forall i :: 0 <= i < |box.rows| ==> RowOk(cfg, box.rows[i], box.clock)
    ensures
      var after := Step(cfg, box, e);
      && |box.rows| <= |after.rows| && box.clock <= after.clock
      && (forall i :: 0 <= i < |after.rows| ==> RowOk(cfg, after.rows[i], after.clock))
      && (forall i :: 0 <= i < |box.rows| ==> Advances(box.rows[i], after.rows[i]))
  {
    if e.Claimed? { DueAreDue(box.rows, 0, e.now, e.limit, e.locked); }
  }

  lemma {:induction false} RunKeeps(cfg: Settings, box: Box, events: seq<Event>)
    requires cfg.retryLimit >= 1
    requires forall i :: 0 <= i < |box.rows| ==> RowOk(cfg, box.rows[i], box.clock)
    ensures
      var after := Run(cfg, box, events);
      && |box.rows| <= |after.rows| && box.clock <= after.clock
      && (forall i :: 0 <= i < |after.rows| ==> RowOk(cfg, after.rows[i], after.clock))
      && (forall i :: 0 <= i < |box.rows| ==> Advances(box.rows[i], after.rows[i]))
  {
    if events != [] {
      RunKeeps(cfg, box, events[..|events| - 1]);
      StepKeeps(cfg, Run(cfg, box, events[..|events| - 1]), events[|events| - 1]);
    }
  }

  lemma {:induction false} RunSplits(cfg: Settings, box: Box, events: seq<Event>, more: seq<Event>)
    ensures Run(cfg, box, events + more) == Run(cfg, Run(cfg, box, events), more)
  {
    if more == [] {
      assert events + more == events;
    } else {
      RunSplits(cfg, box, events, more[..|more| - 1]);
      assert (events + more)[..|events + more| - 1] == events + more[..|more| - 1];
    }
  }

  /**
   From an empty outbox, whatever the workers do: a row is delivered or abandoned but never both, a settled row
   never changes again, and a row is abandoned exactly at `retryLimit` recorded failures and not before the whole
   backoff has passed since it was first due.
   */
  lemma OutboxIsSafe(cfg: Settings, start: int, events: seq<Event>, more: seq<Event>, i: nat)
    requires cfg.retryLimit >= 1 && i < |Run(cfg, Box([], start), events).rows|
    ensures
      var now, later := Run(cfg, Box([], start), events), Run(cfg, Box([], start), events + more);
      && i < |later.rows|
      && (Settled(now.rows[i]) ==> later.rows[i] == now.rows[i])
      && var row := now.rows[i];
      && !(row.deliveredAt.Some? && row.abandonedAt.Some?)
      && row.attempts <= cfg.retryLimit
      && (row.abandonedAt.Some? <==> row.attempts == cfg.retryLimit)
      && (row.abandonedAt.Some? ==> row.abandonedAt.value >= row.firstDue + Backoff(cfg, cfg.retryLimit - 1))
  {
    RunKeeps(cfg, Box([], start), events);
    RunSplits(cfg, Box([], start), events, more);
    RunKeeps(cfg, Run(cfg, Box([], start), events), more);
  }

  /**
   A worker whose claim was taken over, or given back, changes nothing when it finishes, however much happens in
   between, until it claims again.
   */
  lemma {:induction false} LostClaimFinishesNothing(cfg: Settings, box: Box, events: seq<Event>, id: nat, token: string,
                                                    succeeded: bool, now: int)
    requires id < |box.rows| && box.rows[id].claimToken != Some(token)
    requires forall k :: 0 <= k < |events| && events[k].Claimed? ==> events[k].token != token
    ensures
      var later := Run(cfg, box, events);
      && id < |later.rows| && later.rows[id].claimToken != Some(token)
      && FinishRows(cfg, later.rows, id, token, succeeded, now) == later.rows
  {
    if events != [] {
      LostClaimFinishesNothing(cfg, box, events[..|events| - 1], id, token, succeeded, now);
    }
  }

  // ---------------------------------------------------------------- delivery to administrators

  /** `accepts[k]` says whether Telegram took the message to the k-th administrator. */
  method NotifyAdmins(adminIds: seq<int>, buyer: int, accepts: seq<bool>) returns (succeeded: bool)
    requires |accepts| == |adminIds|
    ensures succeeded <==>
            || (exists k :: 0 <= k < |adminIds| && adminIds[k] != buyer && accepts[k])
            || (forall k :: 0 <= k < |adminIds| ==> adminIds[k] == buyer)
  {
    var delivered, eligible := false, false;
    for i := 0 to |adminIds|
      invariant delivered <==> exists k :: 0 <= k < i && adminIds[k] != buyer && accepts[k]
      invariant eligible <==> exists k :: 0 <= k < i && adminIds[k] != buyer
    {
      if adminIds[i] == buyer {
        continue;
      }
      eligible := true;
      if accepts[i] {
        delivered := true;
      }
    }
    succeeded := delivered || !eligible;
  }
}
