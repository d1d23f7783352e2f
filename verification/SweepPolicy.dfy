/** The automatic no-show: which called tickets a sweep takes, and what it does to each under its service's policy. */
module SweepPolicy {
  import opened Basics
  import opened Transitions
  import opened Tickets
  import opened StoreSpec
  import opened StoreRuns

  /** The ticket has been called for at least the sweep's grace, and nobody else has locked it. */
  predicate Overdue(db: Db, input: SweepInput, now: Time, id: string) {
    && id in db.tickets && id !in input.locked && db.tickets[id].status == Called
    && db.tickets[id].calledAt.Some? && now - db.tickets[id].calledAt.value >= input.grace
  }

  function BatchSize(input: SweepInput): nat {
    if input.batchSize > 0 then input.batchSize else 100
  }

  /** A sweep takes overdue tickets, the longest called first, and all of them while there is room. */
  lemma BatchIsLongestOverdue(cfg: Config, db: Db, input: SweepInput, batch: seq<string>, now: Time)
    requires Enabled(cfg, db, AutoNoShow(input, batch, now)) && input.grace > 0
    ensures |batch| <= BatchSize(input) && forall i, j :: 0 <= i < j < |batch| ==> batch[i] != batch[j]
    ensures forall id :: id in batch ==> Overdue(db, input, now, id)
    ensures forall id, other :: id in batch && other !in batch && Overdue(db, input, now, other) ==>
      |batch| == BatchSize(input) && db.tickets[id].calledAt.value <= db.tickets[other].calledAt.value
    ensures forall other :: other !in batch && Overdue(db, input, now, other) ==> |batch| == BatchSize(input)
  {
    assert forall i :: 0 <= i < |batch| ==> Sweepable(db, input, now, batch[i]);
    forall id, other | id in batch && other !in batch && Overdue(db, input, now, other)
      ensures |batch| == BatchSize(input) && db.tickets[id].calledAt.value <= db.tickets[other].calledAt.value
    {
      assert Sweepable(db, input, now, other);
      var i :| 0 <= i < |batch| && batch[i] == id;
      assert CalledNoLater(db, batch[i], other);
    }
    forall other | other !in batch && Overdue(db, input, now, other) ensures |batch| == BatchSize(input) {
      assert Sweepable(db, input, now, other);
    }
  }

  /** The grace of the ticket's service: that of its policy in seconds, or the sweep's. */
  function GraceFor(input: SweepInput, row: TicketRow): int {
    var key := Key(row.tenantId, row.branchId, row.serviceId);
    if key in input.policies then input.policies[key].graceSeconds * 1_000_000_000 else input.grace
  }

  /** Whether the ticket's service wants it back in the queue: by its policy, or as configured. */
  predicate ReturnsFor(cfg: Config, input: SweepInput, row: TicketRow) {
    var key := Key(row.tenantId, row.branchId, row.serviceId);
    if key in input.policies then input.policies[key].returnToQueue else cfg.returnToQueue
  }

  /** What has become of a called ticket whose grace is over, or not. */
  predicate Treated(cfg: Config, input: SweepInput, now: Time, row: TicketRow, row': TicketRow) {
    row.calledAt.Some? &&
    if now - row.calledAt.value < GraceFor(input, row) then row' == row
    else if ReturnsFor(cfg, input, row)
    then row' == row.(status := Waiting, counterId := None, calledAt := None, returned := true)
    else row' == row.(status := NoShow)
  }

  lemma DueIsTreated(cfg: Config, input: SweepInput, row: TicketRow, now: Time)
    requires row.calledAt.Some?
    ensures match NoShowDue(cfg, input, row, now)
      case None => Treated(cfg, input, now, row, row)
      case Some(requeue) => Treated(cfg, input, now, row, After(row, SweepNoShow(requeue)))
  {
  }

  lemma BatchIsCalled(db: Db, input: SweepInput, now: Time, batch: seq<string>)
    requires IsBatch(db, input, now, batch)
    ensures forall i :: 0 <= i < |batch| ==> batch[i] in db.tickets && db.tickets[batch[i]].status == Called
  {
    assert forall i :: 0 <= i < |batch| ==> Sweepable(db, input, now, batch[i]);
  }

  /** A sweep treats each ticket of its batch by the policy of its service, and leaves all others alone. */
  lemma SweepTreatsItsBatch(cfg: Config, db: Db, input: SweepInput, batch: seq<string>, now: Time, id: string)
    requires Enabled(cfg, db, AutoNoShow(input, batch, now)) && id in db.tickets
    ensures var db' := Exec(cfg, db, AutoNoShow(input, batch, now)).0;
      && id in db'.tickets
      && if input.grace > 0 && id in batch then Treated(cfg, input, now, db.tickets[id], db'.tickets[id])
         else db'.tickets[id] == db.tickets[id]
  {
    if input.grace > 0 {
      BatchIsCalled(db, input, now, batch);
      SweepMoves(cfg, db, input, batch, now, id);
      if id in batch {
        var i :| 0 <= i < |batch| && batch[i] == id;
        assert Sweepable(db, input, now, batch[i]);
        DueIsTreated(cfg, input, db.tickets[id], now);
      }
    }
  }

  ghost function AllOverdue(db: Db, input: SweepInput, now: Time): set<string> {
    set id | id in db.tickets && Overdue(db, input, now, id)
  }

  lemma RoomForAll(cfg: Config, db: Db, input: SweepInput, batch: seq<string>, now: Time, id: string)
    requires Enabled(cfg, db, AutoNoShow(input, batch, now)) && input.grace > 0
    requires |AllOverdue(db, input, now)| <= BatchSize(input)
    ensures id in batch <==> Overdue(db, input, now, id)
  {
    BatchIsLongestOverdue(cfg, db, input, batch, now);
    if Overdue(db, input, now, id) && id !in batch {
      var taken := set x | x in batch;
      DistinctCount(batch);
      assert taken <= AllOverdue(db, input, now) - {id};
      SubsetIsNoLarger(taken, AllOverdue(db, input, now) - {id});
      ProperSubsetIsSmaller(AllOverdue(db, input, now) - {id}, AllOverdue(db, input, now), id);
      assert false;
    }
  }

  /**
   * When all overdue tickets fit into a batch, a called and unlocked ticket is taken out of its call exactly
   * if both the sweep's grace and that of its service are over; then its service decides what becomes of it.
   */
  lemma SweepWithRoom(cfg: Config, db: Db, input: SweepInput, batch: seq<string>, now: Time, id: string)
    requires Enabled(cfg, db, AutoNoShow(input, batch, now)) && input.grace > 0
    requires |AllOverdue(db, input, now)| <= BatchSize(input)
    requires id in db.tickets && id !in input.locked && db.tickets[id].status == Called && db.tickets[id].calledAt.Some?
    ensures var row, db' := db.tickets[id], Exec(cfg, db, AutoNoShow(input, batch, now)).0;
      && id in db'.tickets
      && (db'.tickets[id].status != Called <==>
            now - row.calledAt.value >= input.grace && now - row.calledAt.value >= GraceFor(input, row))
      && (db'.tickets[id].status == Waiting ==> ReturnsFor(cfg, input, row) && db'.tickets[id].counterId.None?)
      && (db'.tickets[id].status == NoShow ==> !ReturnsFor(cfg, input, row))
      && db'.tickets[id].status in {Waiting, NoShow, Called}
  {
    RoomForAll(cfg, db, input, batch, now, id);
    SweepTreatsItsBatch(cfg, db, input, batch, now, id);
  }

  // ---------------------------------------------------------------- the count

  ghost function ChangedRows(rows: map<string, TicketRow>, rows': map<string, TicketRow>): set<string> {
    set id | id in rows && id in rows' && rows'[id] != rows[id]
  }

  lemma TurnWrites(cfg: Config, before: Db, input: SweepInput, id: string, now: Time)
    requires id in before.tickets && before.tickets[id].status == Called
    ensures var (after, one) := SweepTicket(cfg, before, input, id, now);
      && after.tickets.Keys == before.tickets.Keys && one <= 1
      && after.tickets == before.tickets[id := after.tickets[id]]
      && (one == 1 <==> after.tickets[id] != before.tickets[id])
  {
  }

  lemma OneMoreChange(rows: map<string, TicketRow>, before: map<string, TicketRow>, after: map<string, TicketRow>,
                      id: string, one: nat)
    requires id in rows && rows.Keys == before.Keys && before[id] == rows[id]
    requires id in after && after == before[id := after[id]] && one <= 1 && (one == 1 <==> after[id] != before[id])
    ensures after.Keys == rows.Keys && |ChangedRows(rows, after)| == |ChangedRows(rows, before)| + one
  {
    assert ChangedRows(rows, after) == ChangedRows(rows, before) + if one == 1 then {id} else {};
    assert id !in ChangedRows(rows, before);
  }

  lemma {:induction false} BatchCountsChanges(cfg: Config, db: Db, input: SweepInput, batch: seq<string>, now: Time)
    requires forall i :: 0 <= i < |batch| ==> batch[i] in db.tickets && db.tickets[batch[i]].status == Called
    requires forall i, j :: 0 <= i < j < |batch| ==> batch[i] != batch[j]
    ensures var (db', count) := SweepBatch(cfg, db, input, batch, now);
      && db'.tickets.Keys == db.tickets.Keys && count == |ChangedRows(db.tickets, db'.tickets)|
      && (forall id :: id in db.tickets && id !in batch ==> db'.tickets[id] == db.tickets[id])
    decreases |batch|
  {
    if batch == [] {
      assert ChangedRows(db.tickets, db.tickets) == {};
    } else {
      var n := |batch| - 1;
      BatchCountsChanges(cfg, db, input, batch[..n], now);
      var before := SweepBatch(cfg, db, input, batch[..n], now).0;
      assert batch[n] !in batch[..n] && forall id :: id in batch[..n] ==> id in batch;
      assert before.tickets[batch[n]] == db.tickets[batch[n]];
      TurnWrites(cfg, before, input, batch[n], now);
      var (after, one) := SweepTicket(cfg, before, input, batch[n], now);
      OneMoreChange(db.tickets, before.tickets, after.tickets, batch[n], one);
    }
  }

  /** The sweep reports how many tickets it has changed. */
  lemma SweepCountsChanges(cfg: Config, db: Db, input: SweepInput, batch: seq<string>, now: Time)
    requires Enabled(cfg, db, AutoNoShow(input, batch, now))
    ensures var (db', reply) := Exec(cfg, db, AutoNoShow(input, batch, now));
      reply == Swept(|ChangedRows(db.tickets, db'.tickets)|)
  {
    if input.grace > 0 {
      BatchIsCalled(db, input, now, batch);
      BatchCountsChanges(cfg, db, input, batch, now);
    } else {
      assert ChangedRows(db.tickets, db.tickets) == {};
    }
  }
}
