/** What the outbox and the ticket logs are told of each command, and the order of the outbox over runs. */
module Announcements {
  import opened Basics
  import opened Transitions
  import opened Tickets
  import opened StoreSpec
  import opened StoreInvariants
  import opened StoreRuns
  import opened StoreEffects
  import opened SweepPolicy

  // ------------------------------------------------------------- one event

  /** The payload names the ticket as it is now, and the request that has made it so. */
  predicate Describes(p: Payload, row: TicketRow, requestId: string) {
    && p.ticketId == row.ticketId && p.ticketNumber == row.ticketNumber && p.status == Some(row.status)
    && p.tenantId == row.tenantId && p.branchId == row.branchId && p.serviceId == row.serviceId
    && p.requestId == requestId
  }

  /** One new row in the outbox and one new event in the ticket's log, of this kind, time and payload. */
  ghost predicate Announced(codec: Codec, db: Db, db': Db, id: string, kind: string, p: Payload, requestId: string,
                            now: Time)
  {
    && id in db'.tickets && Describes(p, db'.tickets[id], requestId)
    && |db'.outbox| == |db.outbox| + 1 && db'.outbox[..|db.outbox|] == db.outbox
    && db'.outbox[|db.outbox|] == OutboxRow(db'.tickets[id].tenantId, kind, p, now)
    && |LogOf(db', id)| == |LogOf(db, id)| + 1 && LogOf(db', id)[..|LogOf(db, id)|] == LogOf(db, id)
    && var e := LogOf(db', id)[|LogOf(db, id)|];
    && e.body == Json(p) && e.entry.kind == kind && e.entry.ticketId == id
    && e.entry.payload == codec.json(p) && e.entry.stamp == codec.stamp(now)
  }

  function LastPayload(db: Db): Payload
    requires db.outbox != []
  {
    db.outbox[|db.outbox| - 1].payload
  }

  lemma CreationIsAnnounced(cfg: Config, db: Db, input: CreateInput, code: Option<string>, newId: string, now: Time)
    requires Enabled(cfg, db, Create(input, code, newId, now)) && input.requestId !in db.requestIndex && code.Some?
    ensures var db' := Exec(cfg, db, Create(input, code, newId, now)).0;
      && db'.outbox != []
      && Announced(cfg.codec, db, db', newId, "ticket.created", LastPayload(db'), input.requestId, now)
      && LastPayload(db').createdAt == Some(if input.createdAt == 0 then now else input.createdAt)
  {
  }

  lemma CheckInIsAnnounced(cfg: Config, db: Db, input: CheckInInput, code: Option<string>, newId: string, now: Time)
    requires Enabled(cfg, db, CheckIn(input, false, code, newId, now)) && input.requestId !in db.requestIndex
    requires Open(db, input) && code.Some?
    ensures var db' := Exec(cfg, db, CheckIn(input, false, code, newId, now)).0;
      && db'.outbox != []
      && Announced(cfg.codec, db, db', newId, "ticket.created", LastPayload(db'), input.requestId, now)
      && LastPayload(db').createdAt == Some(now)
  {
  }

  lemma PayloadDescribes(row: TicketRow, m: Move, requestId: string)
    ensures Describes(MovePayload(row, m, requestId), After(row, m), requestId)
    ensures After(row, m).tenantId == row.tenantId
  {
  }

  lemma EmittedIsAnnounced(codec: Codec, db: Db, mid: Db, tenantId: string, id: string, kind: string, p: Payload,
                           requestId: string, now: Time)
    requires id in mid.tickets && mid.outbox == db.outbox && mid.events == db.events
    requires mid.tickets[id].tenantId == tenantId && Describes(p, mid.tickets[id], requestId)
    ensures Announced(codec, db, Emit(codec, mid, tenantId, id, kind, p, now), id, kind, p, requestId, now)
  {
    assert LogOf(mid, id) == LogOf(db, id);
  }

  lemma TouchIsAnnounced(codec: Codec, db: Db, mid: Db, id: string, m: Move, requestId: string, now: Time)
    requires id in mid.tickets && mid.tickets[id].ticketId == id && mid.outbox == db.outbox && mid.events == db.events
    ensures var db' := Touch(codec, mid, id, m, requestId, now);
      Announced(codec, db, db', id, MoveKind(m), MovePayload(mid.tickets[id], m, requestId), requestId, now)
  {
    var row := mid.tickets[id];
    PayloadDescribes(row, m, requestId);
    EmittedIsAnnounced(codec, db, mid.(tickets := mid.tickets[id := After(row, m)]), row.tenantId, id, MoveKind(m),
                       MovePayload(row, m, requestId), requestId, now);
  }

  /** A call tells who is called to which counter, and since when. */
  lemma CallIsAnnounced(cfg: Config, db: Db, input: CallInput, env: CallEnv, id: string, now: Time)
    requires Inv(cfg.codec, db)
    requires Enabled(cfg, db, CallNext(input, env, Some(id), now)) && !Recorded(db, "call_next", input.requestId)
    requires env.serviceExists && env.counterAllowed && env.counterAvailable == Some(true)
    ensures var db' := Exec(cfg, db, CallNext(input, env, Some(id), now)).0;
      && db'.outbox != []
      && Announced(cfg.codec, db, db', id, "ticket.called", LastPayload(db'), input.requestId, now)
      && LastPayload(db').counterId == Some(input.counterId) && LastPayload(db').calledAt == db'.tickets[id].calledAt
  {
    CallShape(cfg, db, input, env, Some(id), now);
    RowKnowsItsId(cfg.codec, db, id);
    CallTells(cfg.codec, db, CallBookkeeping(db, input, env, id), id, input.counterId, OrNow(input.calledAt, now),
              input.requestId, now);
  }

  lemma CallTells(codec: Codec, db: Db, mid: Db, id: string, counter: string, at: Time, requestId: string, now: Time)
    requires mid.tickets == db.tickets && mid.outbox == db.outbox && mid.events == db.events
    requires id in db.tickets && db.tickets[id].ticketId == id
    ensures var db' := Touch(codec, mid, id, Call(counter, at), requestId, now);
      && db'.outbox != []
      && Announced(codec, db, db', id, "ticket.called", LastPayload(db'), requestId, now)
      && LastPayload(db').counterId == Some(counter) && LastPayload(db').calledAt == db'.tickets[id].calledAt
  {
    TouchIsAnnounced(codec, db, mid, id, Call(counter, at), requestId, now);
  }

  /** The event that an action is told by. */
  function EventOf(m: Move): string {
    match m
    case Call(_, _) => "ticket.called"
    case Start(_, _) => "ticket.serving"
    case Complete(_) => "ticket.done"
    case Cancel => "ticket.cancelled"
    case Hold => "ticket.held"
    case Unhold => "ticket.unheld"
    case Recall => "ticket.recalled"
    case Transfer(_, _) => "ticket.transferred"
    case _ => "ticket.no_show"
  }

  /** Where a transfer leads and comes from; the stamps and the counter of any other action's ticket. */
  predicate TellsDetails(m: Move, row: TicketRow, row': TicketRow, p: Payload) {
    if m.Transfer? then p.fromServiceId == row.serviceId && p.toServiceId == m.to && p.reason == m.reason
    else
      && p.fromServiceId == p.toServiceId == p.reason == ""
      && p.calledAt == row'.calledAt && p.counterId == row'.counterId
      && if m.MarkNoShow? then p.returned == Some(m.returned)
         else p.returned == None && p.servedAt == row'.servedAt && p.completedAt == row'.completedAt
  }

  lemma ActionTells(row: TicketRow, m: Move, now: Time, requestId: string)
    requires !m.Call? && !m.SweepNoShow?
    ensures MoveKind(Stamped(m, now)) == EventOf(m)
    ensures TellsDetails(m, row, After(row, Stamped(m, now)), MovePayload(row, Stamped(m, now), requestId))
  {
  }

  lemma ExecutedActionTouches(cfg: Config, db: Db, input: ActInput, m: Move, targetExists: bool, now: Time)
    requires Enabled(cfg, db, Act(input, m, targetExists, now)) && !Recorded(db, NameOf(m), input.requestId)
    requires ActionAnswer(db, input, m, targetExists).Answered?
    ensures Found(db, input)
    ensures Exec(cfg, db, Act(input, m, targetExists, now)).0 ==
      Touch(cfg.codec, Record(db, input.requestId, ActionName(m), Some(input.ticketId)), input.ticketId,
            Stamped(m, now), input.requestId, now)
  {
    ActionIsAnswered(cfg, db, input, m, targetExists, now);
    ActOutcome(cfg, db, input, m, targetExists, now);
  }

  lemma RowKnowsItsId(codec: Codec, db: Db, id: string)
    requires Inv(codec, db) && id in db.tickets
    ensures db.tickets[id].ticketId == id
  {
    InvMeans(codec, db);
  }

  lemma LastIsNew(codec: Codec, db: Db, db': Db, id: string, kind: string, p: Payload, requestId: string, now: Time)
    requires Announced(codec, db, db', id, kind, p, requestId, now)
    ensures db'.outbox != [] && LastPayload(db') == p
  {
  }

  /** Every executed action is told once, by its event, with the details of the row that it leaves. */
  lemma ActionIsAnnounced(cfg: Config, db: Db, input: ActInput, m: Move, targetExists: bool, now: Time)
    requires Inv(cfg.codec, db)
    requires Enabled(cfg, db, Act(input, m, targetExists, now)) && !Recorded(db, NameOf(m), input.requestId)
    requires ActionAnswer(db, input, m, targetExists).Answered?
    ensures var db' := Exec(cfg, db, Act(input, m, targetExists, now)).0;
      && db'.outbox != []
      && Announced(cfg.codec, db, db', input.ticketId, EventOf(m), LastPayload(db'), input.requestId, now)
      && TellsDetails(m, db.tickets[input.ticketId], db'.tickets[input.ticketId], LastPayload(db'))
  {
    var id, stamped := input.ticketId, Stamped(m, now);
    ExecutedActionTouches(cfg, db, input, m, targetExists, now);
    RowKnowsItsId(cfg.codec, db, id);
    TellsOnce(cfg.codec, db, Record(db, input.requestId, ActionName(m), Some(id)), id, m, input.requestId, now);
  }

  lemma TellsOnce(codec: Codec, db: Db, mid: Db, id: string, m: Move, requestId: string, now: Time)
    requires !m.Call? && !m.SweepNoShow?
    requires mid.tickets == db.tickets && mid.outbox == db.outbox && mid.events == db.events
    requires id in db.tickets && db.tickets[id].ticketId == id
    ensures var db' := Touch(codec, mid, id, Stamped(m, now), requestId, now);
      && db'.outbox != []
      && Announced(codec, db, db', id, EventOf(m), LastPayload(db'), requestId, now)
      && TellsDetails(m, db.tickets[id], db'.tickets[id], LastPayload(db'))
  {
    var row, stamped := db.tickets[id], Stamped(m, now);
    ActionTells(row, m, now, requestId);
    TouchIsAnnounced(codec, db, mid, id, stamped, requestId, now);
    LastIsNew(codec, db, Touch(codec, mid, id, stamped, requestId, now), id, EventOf(m),
              MovePayload(row, stamped, requestId), requestId, now);
  }

  /** An automatic no-show is told with the call that it ends, and whether the ticket is back in the queue. */
  lemma SweptIsAnnounced(cfg: Config, db: Db, input: SweepInput, id: string, now: Time)
    requires id in db.tickets && db.tickets[id].ticketId == id && SweepTicket(cfg, db, input, id, now).1 == 1
    ensures var db' := SweepTicket(cfg, db, input, id, now).0;
      && db'.outbox != []
      && Announced(cfg.codec, db, db', id, "ticket.no_show", LastPayload(db'), "", now)
      && LastPayload(db').calledAt == db.tickets[id].calledAt && LastPayload(db').counterId == db.tickets[id].counterId
      && LastPayload(db').returned == Some(db'.tickets[id].status == Waiting)
  {
    var requeue := NoShowDue(cfg, input, db.tickets[id], now).value;
    TouchIsAnnounced(cfg.codec, db, db, id, SweepNoShow(requeue), "", now);
  }

  /** A row of the outbox that tells of this sweep's treatment of its ticket. */
  ghost predicate TellsSwept(rows: map<string, TicketRow>, rows': map<string, TicketRow>, r: OutboxRow, now: Time) {
    && r.payload.ticketId in rows && r.payload.ticketId in rows'
    && var row, row', p := rows[r.payload.ticketId], rows'[r.payload.ticketId], r.payload;
    && row' != row && r.kind == "ticket.no_show" && r.createdAt == now && r.tenantId == row.tenantId
    && Describes(p, row', "") && p.calledAt == row.calledAt && p.counterId == row.counterId
    && p.returned == Some(row'.status == Waiting)
  }

  ghost predicate NewRowsTell(db: Db, db': Db, now: Time) {
    && |db.outbox| <= |db'.outbox|
    && forall k :: |db.outbox| <= k < |db'.outbox| ==> TellsSwept(db.tickets, db'.tickets, db'.outbox[k], now)
  }

  lemma TurnTells(cfg: Config, db: Db, before: Db, input: SweepInput, id: string, now: Time)
    requires NewRowsTell(db, before, now) && id in db.tickets && id in before.tickets
    requires before.tickets[id] == db.tickets[id] && db.tickets[id].ticketId == id && db.tickets[id].status == Called
    ensures NewRowsTell(db, SweepTicket(cfg, before, input, id, now).0, now)
  {
    var (after, one) := SweepTicket(cfg, before, input, id, now);
    if one == 1 {
      SweptIsAnnounced(cfg, before, input, id, now);
      forall k | |db.outbox| <= k < |after.outbox| ensures TellsSwept(db.tickets, after.tickets, after.outbox[k], now) {
        if k < |before.outbox| {
          assert after.outbox[k] == before.outbox[k];
          assert TellsSwept(db.tickets, before.tickets, before.outbox[k], now);
        }
      }
    }
  }

  lemma {:induction false} BatchTells(cfg: Config, db: Db, input: SweepInput, batch: seq<string>, now: Time)
    requires forall i :: 0 <= i < |batch| ==>
      batch[i] in db.tickets && db.tickets[batch[i]].status == Called && db.tickets[batch[i]].ticketId == batch[i]
    requires forall i, j :: 0 <= i < j < |batch| ==> batch[i] != batch[j]
    ensures NewRowsTell(db, SweepBatch(cfg, db, input, batch, now).0, now)
    decreases |batch|
  {
    if batch == [] {
    } else {
      var n := |batch| - 1;
      BatchTells(cfg, db, input, batch[..n], now);
      BatchCountsChanges(cfg, db, input, batch[..n], now);
      assert batch[n] !in batch[..n];
      TurnTells(cfg, db, SweepBatch(cfg, db, input, batch[..n], now).0, input, batch[n], now);
    }
  }

  /** Each event of a sweep tells the call that ended, and whether the ticket is back in the queue. */
  lemma SweepIsAnnounced(cfg: Config, db: Db, input: SweepInput, batch: seq<string>, now: Time)
    requires Inv(cfg.codec, db) && Enabled(cfg, db, AutoNoShow(input, batch, now))
    ensures NewRowsTell(db, Exec(cfg, db, AutoNoShow(input, batch, now)).0, now)
  {
    if input.grace > 0 {
      BatchIsCalled(db, input, now, batch);
      forall i | 0 <= i < |batch| ensures db.tickets[batch[i]].ticketId == batch[i] {
        RowKnowsItsId(cfg.codec, db, batch[i]);
      }
      BatchTells(cfg, db, input, batch, now);
    }
  }

  // ------------------------------------------------- the outbox over runs

  /** The clock's time of a command. */
  function ClockOf(cmd: Command): Option<Time> {
    match cmd
    case Create(_, _, _, now) => Some(now)
    case CheckIn(_, _, _, _, now) => Some(now)
    case CallNext(_, _, _, now) => Some(now)
    case Act(_, _, _, now) => Some(now)
    case AutoNoShow(_, _, now) => Some(now)
    case Book(_, _) => None
  }

  /** The outbox has only grown, by rows of this time. */
  ghost predicate GrownAt(outbox: seq<OutboxRow>, outbox': seq<OutboxRow>, at: Option<Time>) {
    && |outbox| <= |outbox'| && outbox'[..|outbox|] == outbox
    && forall k :: |outbox| <= k < |outbox'| ==> Some(outbox'[k].createdAt) == at
  }

  lemma {:induction false} SweepGrowsAt(cfg: Config, db: Db, input: SweepInput, batch: seq<string>, now: Time)
    ensures GrownAt(db.outbox, SweepBatch(cfg, db, input, batch, now).0.outbox, Some(now))
    decreases |batch|
  {
    if batch != [] {
      SweepGrowsAt(cfg, db, input, batch[..|batch| - 1], now);
    }
  }

  lemma CallGrowsAt(cfg: Config, db: Db, input: CallInput, env: CallEnv, pick: Option<string>, now: Time)
    requires Enabled(cfg, db, CallNext(input, env, pick, now))
    ensures GrownAt(db.outbox, ExecCallNext(cfg, db, input, env, pick, now).0.outbox, Some(now))
  {
    CallShape(cfg, db, input, env, pick, now);
  }

  lemma ActGrowsAt(cfg: Config, db: Db, input: ActInput, m: Move, targetExists: bool, now: Time)
    ensures GrownAt(db.outbox, ExecAct(cfg, db, input, m, targetExists, now).0.outbox, Some(now))
  {
    ActShape(cfg, db, input, m, targetExists, now);
  }

  /** Every command stamps the rows that it adds with its own time, and changes no older row. */
  lemma StepGrowsAt(cfg: Config, db: Db, cmd: Command)
    requires Enabled(cfg, db, cmd)
    ensures GrownAt(db.outbox, Exec(cfg, db, cmd).0.outbox, ClockOf(cmd))
  {
    match cmd
    case Create(_, _, _, _) =>
    case CheckIn(_, _, _, _, _) =>
    case CallNext(input, env, pick, now) => CallGrowsAt(cfg, db, input, env, pick, now);
    case Act(input, m, targetExists, now) => ActGrowsAt(cfg, db, input, m, targetExists, now);
    case AutoNoShow(input, batch, now) => SweepGrowsAt(cfg, db, input, batch, now);
    case Book(_, _) =>
  }

  /** The clock does not go back from one command to a later one. */
  predicate ClockAdvances(cmds: seq<Command>) {
    forall i, j :: 0 <= i < j < |cmds| && ClockOf(cmds[i]).Some? && ClockOf(cmds[j]).Some? ==>
      ClockOf(cmds[i]).value <= ClockOf(cmds[j]).value
  }

  ghost predicate Sorted(outbox: seq<OutboxRow>) {
    forall k, l :: 0 <= k < l < |outbox| ==> outbox[k].createdAt <= outbox[l].createdAt
  }

  /** Each row was stamped by one of the first n commands. */
  ghost predicate StampedByCommands(outbox: seq<OutboxRow>, cmds: seq<Command>, n: nat)
    requires n <= |cmds|
  {
    forall k :: 0 <= k < |outbox| ==> StampedByCommand(outbox[k], cmds, n)
  }

  ghost predicate StampedByCommand(row: OutboxRow, cmds: seq<Command>, n: nat)
    requires n <= |cmds|
  {
    exists i :: 0 <= i < n && ClockOf(cmds[i]) == Some(row.createdAt)
  }

  lemma RowsStayInOrder(outbox: seq<OutboxRow>, outbox': seq<OutboxRow>, cmds: seq<Command>, n: nat)
    requires n < |cmds| && ClockAdvances(cmds) && Sorted(outbox) && StampedByCommands(outbox, cmds, n)
    requires GrownAt(outbox, outbox', ClockOf(cmds[n]))
    ensures Sorted(outbox') && StampedByCommands(outbox', cmds, n + 1)
  {
    forall k | 0 <= k < |outbox'| ensures StampedByCommand(outbox'[k], cmds, n + 1) {
      if k < |outbox| {
        assert outbox'[k] == outbox[k] && StampedByCommand(outbox[k], cmds, n);
      }
    }
    forall k, l | 0 <= k < l < |outbox'| ensures outbox'[k].createdAt <= outbox'[l].createdAt {
      if k < |outbox| {
        assert outbox'[k] == outbox[k] && StampedByCommand(outbox[k], cmds, n);
        if l < |outbox| {
          assert outbox'[l] == outbox[l];
        }
      }
    }
  }

  /**
   * Over every run with a clock that does not go back, the outbox is in order of its times, each of which is
   * the time of the command that wrote the row: what the readers page through.
   */
  lemma {:induction false} OutboxIsInOrder(cfg: Config, cmds: seq<Command>, n: nat)
    requires RunEnabled(cfg, EMPTY_DB, cmds) && n <= |cmds| && ClockAdvances(cmds)
    ensures Sorted(StateAfter(cfg, EMPTY_DB, cmds, n).outbox)
    ensures StampedByCommands(StateAfter(cfg, EMPTY_DB, cmds, n).outbox, cmds, n)
  {
    if n == 0 {
    } else {
      OutboxIsInOrder(cfg, cmds, n - 1);
      assert EnabledAt(cfg, EMPTY_DB, cmds, n - 1);
      var db := StateAfter(cfg, EMPTY_DB, cmds, n - 1);
      StepGrowsAt(cfg, db, cmds[n - 1]);
      RowsStayInOrder(db.outbox, Exec(cfg, db, cmds[n - 1]).0.outbox, cmds, n - 1);
    }
  }
}
