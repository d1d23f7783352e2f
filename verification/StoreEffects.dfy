/** What each command of the store answers and does, said of replies, rows and logs before and after it. */
module StoreEffects {
  import opened Basics
  import opened Transitions
  import opened TicketNumbers
  import opened Tickets
  import opened StoreSpec
  import opened StoreInvariants
  import opened StoreRuns

  // ------------------------------------------------------------- new tickets

  /** A ticket has come into being, waiting and numbered, and nothing else about tickets has changed. */
  ghost predicate Issued(db: Db, db': Db, id: string, requestId: string, tenantId: string, branchId: string,
                         serviceId: string, code: string, priorityClass: string, createdAt: Time,
                         appointmentId: Option<string>)
  {
    && db'.tickets.Keys == db.tickets.Keys + {id}
    && (forall other :: other in db.tickets && other != id ==> db'.tickets[other] == db.tickets[other])
    && var row := db'.tickets[id];
    && row.ticketId == id && row.requestId == requestId && row.status == Waiting
    && row.tenantId == tenantId && row.branchId == branchId && row.serviceId == serviceId
    && row.priorityClass == priorityClass && row.createdAt == createdAt && row.appointmentId == appointmentId
    && row.calledAt.None? && row.servedAt.None? && row.completedAt.None? && row.counterId.None? && !row.returned
    && ParseNumber(row.ticketNumber) == Some((code, NumberAfter(db', branchId, serviceId)))
    && NumberAfter(db', branchId, serviceId) == NumberAfter(db, branchId, serviceId) + 1
    && requestId in db'.requestIndex && db'.requestIndex[requestId] == id
  }

  function NumberAfter(db: Db, branchId: string, serviceId: string): nat {
    if (branchId, serviceId) in db.sequences then db.sequences[(branchId, serviceId)] else 0
  }

  /** A creation answers the request's ticket, refuses an unknown service, or issues a new ticket. */
  lemma CreationIssuesIff(cfg: Config, db: Db, input: CreateInput, code: Option<string>, newId: string, now: Time)
    requires Enabled(cfg, db, Create(input, code, newId, now))
    ensures var (db', reply) := Exec(cfg, db, Create(input, code, newId, now));
      && (reply == Answered(newId, true) <==> input.requestId !in db.requestIndex && code.Some?)
      && (reply != Answered(newId, true) ==> db' == db)
      && (input.requestId in db.requestIndex ==> reply == Answered(db.requestIndex[input.requestId], false))
      && (input.requestId !in db.requestIndex && code.None? ==> reply == Failed(ServiceNotFound))
  {
  }

  /** The new ticket is the one asked for, created at the given time or now. */
  lemma CreationIssues(cfg: Config, db: Db, input: CreateInput, code: Option<string>, newId: string, now: Time)
    requires Enabled(cfg, db, Create(input, code, newId, now)) && input.requestId !in db.requestIndex && code.Some?
    ensures var db' := Exec(cfg, db, Create(input, code, newId, now)).0;
      && Issued(db, db', newId, input.requestId, input.tenantId, input.branchId, input.serviceId, code.value,
                input.priorityClass, if input.createdAt == 0 then now else input.createdAt, None)
      && db'.appointments == db.appointments
  {
    NumberRoundTrip(code.value, NumberAfter(db, input.branchId, input.serviceId) + 1);
  }

  /** The appointment exists, belongs to the tenant and branch of the request, and is still scheduled. */
  predicate Open(db: Db, input: CheckInInput) {
    && input.appointmentId in db.appointments
    && db.appointments[input.appointmentId].tenantId == input.tenantId
    && db.appointments[input.appointmentId].branchId == input.branchId
    && db.appointments[input.appointmentId].status == Scheduled
  }

  /**
   * A first check-in issues a ticket exactly if its appointment is open, the day is no holiday and the
   * service has a code; otherwise no table changes and the reply names the first check that failed.
   */
  lemma CheckInIssuesIff(cfg: Config, db: Db, input: CheckInInput, holiday: bool, code: Option<string>, newId: string,
                         now: Time)
    requires Enabled(cfg, db, CheckIn(input, holiday, code, newId, now)) && input.requestId !in db.requestIndex
    ensures var (db', reply) := Exec(cfg, db, CheckIn(input, holiday, code, newId, now));
      && (reply == Answered(newId, true) <==> Open(db, input) && !holiday && code.Some?)
      && (reply != Answered(newId, true) ==> db' == db)
      && (!Open(db, input) ==> reply == Failed(TicketNotFound))
      && (Open(db, input) && holiday ==> reply == Failed(HolidayClosed))
      && (Open(db, input) && !holiday && code.None? ==> reply == Failed(ServiceNotFound))
  {
  }

  /** The ticket of a check-in is a regular one of the appointment's service, and marks the appointment alone. */
  lemma CheckInIssues(cfg: Config, db: Db, input: CheckInInput, holiday: bool, code: Option<string>, newId: string,
                      now: Time)
    requires Enabled(cfg, db, CheckIn(input, holiday, code, newId, now)) && input.requestId !in db.requestIndex
    requires Open(db, input) && !holiday && code.Some?
    ensures var db' := Exec(cfg, db, CheckIn(input, holiday, code, newId, now)).0;
      && Issued(db, db', newId, input.requestId, input.tenantId, input.branchId,
                db.appointments[input.appointmentId].serviceId, code.value, "regular", now, Some(input.appointmentId))
      && db'.appointments ==
           db.appointments[input.appointmentId := db.appointments[input.appointmentId].(status := CheckedIn)]
  {
    NumberRoundTrip(code.value,
                    NumberAfter(db, input.branchId, db.appointments[input.appointmentId].serviceId) + 1);
  }

  /** A repeated check-in answers the first one's ticket, whatever has become of the appointment. */
  lemma RepeatedCheckIn(cfg: Config, db: Db, input: CheckInInput, holiday: bool, code: Option<string>, newId: string,
                        now: Time)
    requires input.requestId in db.requestIndex
    ensures Exec(cfg, db, CheckIn(input, holiday, code, newId, now)) ==
      (db, Answered(db.requestIndex[input.requestId], false))
  {
  }

  // ------------------------------------------------------------------- calls

  /** The request id has been recorded for this action. */
  predicate Recorded(db: Db, action: string, requestId: string) {
    requestId in db.actions && db.actions[requestId].action == action
  }

  /** A refused call changes nothing, and says what is in its way: service, permission, counter, in this order. */
  lemma CallIsRefusedFor(cfg: Config, db: Db, input: CallInput, env: CallEnv, pick: Option<string>, now: Time)
    requires !Recorded(db, "call_next", input.requestId)
    ensures var (db', reply) := Exec(cfg, db, CallNext(input, env, pick, now));
      && (!env.serviceExists ==> db' == db && reply == Failed(ServiceNotFound))
      && (env.serviceExists && !env.counterAllowed ==> db' == db && reply == Failed(AccessDenied))
      && (env.serviceExists && env.counterAllowed && env.counterAvailable == None ==>
            db' == db && reply == Failed(CounterNotFound))
      && (env.serviceExists && env.counterAllowed && env.counterAvailable == Some(false) ==>
            db' == db && reply == Failed(CounterUnavailable))
  {
  }

  /** A call leaves its ticket called, at the calling counter, since the given time or now. */
  lemma CallWritesTheRow(cfg: Config, db: Db, input: CallInput, env: CallEnv, id: string, now: Time)
    requires Enabled(cfg, db, CallNext(input, env, Some(id), now)) && !Recorded(db, "call_next", input.requestId)
    requires env.serviceExists && env.counterAllowed && env.counterAvailable == Some(true)
    ensures var (db', reply) := Exec(cfg, db, CallNext(input, env, Some(id), now));
      && reply == Answered(id, true) && id in db.tickets
      && db'.tickets == db.tickets[id := db.tickets[id].(status := Called, counterId := Some(input.counterId),
                                       calledAt := Some(if input.calledAt == 0 then now else input.calledAt))]
  {
  }

  // ----------------------------------------------------------------- actions

  /** The ticket of an action: of the tenant and branch that the request names. */
  predicate Found(db: Db, input: ActInput) {
    && input.ticketId in db.tickets
    && db.tickets[input.ticketId].tenantId == input.tenantId && db.tickets[input.ticketId].branchId == input.branchId
  }

  /** The graph of the lifecycle, read by status: what can be done to a ticket, besides calling it. */
  predicate Admits(row: TicketRow, m: Move) {
    match row.status
    case Waiting => m.Cancel? || m.Hold? || m.Transfer?
    case Called => (m.Start? && row.counterId == Some(m.counter)) || m.Recall? || m.MarkNoShow? || m.Transfer?
    case Serving => m.Complete? || m.Transfer?
    case Held => m.Unhold?
    case Done => false
    case Cancelled => false
    case NoShow => false
  }

  /** The names under which actions are recorded. */
  function NameOf(m: Move): string {
    match m
    case Call(_, _) => "call_next"
    case Start(_, _) => "start_serving"
    case Complete(_) => "complete"
    case Cancel => "cancel"
    case Hold => "hold"
    case Unhold => "unhold"
    case Recall => "recall"
    case Transfer(_, _) => "transfer"
    case _ => "no_show"
  }

  /** What a first request for an action is answered. */
  function ActionAnswer(db: Db, input: ActInput, m: Move, targetExists: bool): Reply {
    if m.Transfer? && (m.to == "" || !targetExists) then Failed(ServiceNotFound)
    else if !Found(db, input) then Failed(if m.Transfer? then InvalidState else TicketNotFound)
    else if Admits(db.tickets[input.ticketId], m) then Answered(input.ticketId, true)
    else if m.Start? && OtherCounter(db.tickets[input.ticketId], m.counter) then Failed(CounterMismatch)
    else Failed(InvalidState)
  }

  predicate OtherCounter(row: TicketRow, counter: string) {
    row.counterId.Some? && row.counterId.value != "" && row.counterId != Some(counter)
  }

  lemma AdmitsIffGuard(row: TicketRow, m: Move, now: Time)
    requires !m.Call? && !m.SweepNoShow? && (m.Transfer? ==> m.to != "")
    ensures Guard(row, Stamped(m, now)) <==> Admits(row, m)
  {
  }

  lemma ActionIsAnswered(cfg: Config, db: Db, input: ActInput, m: Move, targetExists: bool, now: Time)
    requires Enabled(cfg, db, Act(input, m, targetExists, now)) && !Recorded(db, NameOf(m), input.requestId)
    ensures var (db', reply) := Exec(cfg, db, Act(input, m, targetExists, now));
      reply == ActionAnswer(db, input, m, targetExists) && (!reply.Answered? ==> db' == db)
  {
    if Found(db, input) && (m.Transfer? ==> m.to != "") {
      AdmitsIffGuard(db.tickets[input.ticketId], m, now);
    }
  }

  /** The time of an action: the given one, or the clock's. */
  function TimeOr(at: Time, now: Time): Time {
    if at == 0 then now else at
  }

  /** The columns that an executed action writes. */
  function ActedRow(row: TicketRow, m: Move, now: Time): TicketRow {
    match m
    case Start(_, at) => row.(status := Serving, servedAt := Some(TimeOr(at, now)))
    case Complete(at) => row.(status := Done, completedAt := Some(TimeOr(at, now)))
    case Cancel => row.(status := Cancelled)
    case Hold => row.(status := Held)
    case Unhold => row.(status := Waiting)
    case Transfer(to, _) => row.(status := Waiting, serviceId := to, counterId := None)
    case MarkNoShow(true) => row.(status := Waiting, counterId := None, calledAt := None, returned := true)
    case MarkNoShow(false) => row.(status := NoShow)
    case _ => row
  }

  lemma MovedIsActedRow(row: TicketRow, m: Move, now: Time)
    requires !m.Call? && !m.SweepNoShow?
    ensures After(row, Stamped(m, now)) == ActedRow(row, m, now)
  {
  }

  /** An executed action writes these columns of its ticket and no other row. */
  lemma ActionWritesTheRow(cfg: Config, db: Db, input: ActInput, m: Move, targetExists: bool, now: Time)
    requires Enabled(cfg, db, Act(input, m, targetExists, now)) && !Recorded(db, NameOf(m), input.requestId)
    requires ActionAnswer(db, input, m, targetExists).Answered?
    ensures Exec(cfg, db, Act(input, m, targetExists, now)).0.tickets ==
      db.tickets[input.ticketId := ActedRow(db.tickets[input.ticketId], m, now)]
    ensures Exec(cfg, db, Act(input, m, targetExists, now)).1 == Answered(input.ticketId, true)
  {
    ActionIsAnswered(cfg, db, input, m, targetExists, now);
    ActOutcome(cfg, db, input, m, targetExists, now);
    MovedIsActedRow(db.tickets[input.ticketId], m, now);
  }

  // ------------------------------------------------------- actions in sequence

  predicate QueuedFor(db: Db, id: string, tenantId: string, branchId: string, serviceId: string) {
    InQueue(db, Key(tenantId, branchId, serviceId), id)
  }

  /** An executed action records no id for another action. */
  lemma OthersStayUnrecorded(cfg: Config, db: Db, input: ActInput, m: Move, targetExists: bool, now: Time,
                             action: string, requestId: string)
    requires Enabled(cfg, db, Act(input, m, targetExists, now)) && action != NameOf(m)
    requires !Recorded(db, action, requestId)
    ensures !Recorded(Exec(cfg, db, Act(input, m, targetExists, now)).0, action, requestId)
  {
    ActOutcome(cfg, db, input, m, targetExists, now);
  }

  lemma HoldTakesOutOfQueue(cfg: Config, db: Db, hold: ActInput, held: Time)
    requires Found(db, hold) && db.tickets[hold.ticketId].status == Waiting && !Recorded(db, "hold", hold.requestId)
    ensures var db1 := Exec(cfg, db, Act(hold, Hold, true, held)).0;
      && db1.tickets == db.tickets[hold.ticketId := db.tickets[hold.ticketId].(status := Held)]
      && forall key :: !InQueue(db1, key, hold.ticketId)
  {
    ActionWritesTheRow(cfg, db, hold, Hold, true, held);
  }

  lemma ReleaseRestores(cfg: Config, rows: map<string, TicketRow>, db1: Db, release: ActInput, now: Time)
    requires release.ticketId in rows && rows[release.ticketId].status == Waiting
    requires db1.tickets == rows[release.ticketId := rows[release.ticketId].(status := Held)]
    requires Found(db1, release) && !Recorded(db1, "unhold", release.requestId)
    ensures Exec(cfg, db1, Act(release, Unhold, true, now)).1 == Answered(release.ticketId, true)
    ensures Exec(cfg, db1, Act(release, Unhold, true, now)).0.tickets == rows
  {
    ActionWritesTheRow(cfg, db1, release, Unhold, true, now);
    var row := rows[release.ticketId];
    assert row.(status := Held).(status := Waiting) == row;
  }

  /** A held ticket is in no queue, and its release undoes the hold: all rows are as they were. */
  lemma ReleaseUndoesHold(cfg: Config, db: Db, hold: ActInput, held: Time, release: ActInput, now: Time)
    requires Found(db, hold) && db.tickets[hold.ticketId].status == Waiting
    requires release.ticketId == hold.ticketId && release.tenantId == hold.tenantId && release.branchId == hold.branchId
    requires !Recorded(db, "hold", hold.requestId) && !Recorded(db, "unhold", release.requestId)
    ensures var db1 := Exec(cfg, db, Act(hold, Hold, true, held)).0;
      var (db2, reply) := Exec(cfg, db1, Act(release, Unhold, true, now));
      && (forall key :: !InQueue(db1, key, hold.ticketId))
      && reply == Answered(hold.ticketId, true) && db2.tickets == db.tickets
  {
    HoldTakesOutOfQueue(cfg, db, hold, held);
    OthersStayUnrecorded(cfg, db, hold, Hold, true, held, "unhold", release.requestId);
    ReleaseRestores(cfg, db.tickets, Exec(cfg, db, Act(hold, Hold, true, held)).0, release, now);
  }

  lemma StartIsAnswered(cfg: Config, db: Db, start: ActInput, counter: string, at: Time, now: Time)
    requires Found(db, start) && !Recorded(db, "start_serving", start.requestId)
    requires db.tickets[start.ticketId].status == Called && db.tickets[start.ticketId].counterId.Some?
    requires db.tickets[start.ticketId].counterId.value != ""
    ensures Exec(cfg, db, Act(start, Start(counter, at), true, now)).1 ==
      if db.tickets[start.ticketId].counterId.value == counter then Answered(start.ticketId, true)
      else Failed(CounterMismatch)
  {
    ActionIsAnswered(cfg, db, start, Start(counter, at), true, now);
  }

  /** A called ticket can be started at the counter that called it, and at no other. */
  lemma OnlyTheCallingCounterStarts(cfg: Config, db: Db, input: CallInput, env: CallEnv, id: string, called: Time,
                                    start: ActInput, counter: string, at: Time, now: Time)
    requires Enabled(cfg, db, CallNext(input, env, Some(id), called)) && !Recorded(db, "call_next", input.requestId)
    requires env.serviceExists && env.counterAllowed && env.counterAvailable == Some(true) && input.counterId != ""
    requires start.ticketId == id && start.tenantId == input.tenantId && start.branchId == input.branchId
    requires !Recorded(db, "start_serving", start.requestId) && start.requestId != input.requestId
    ensures var db1 := Exec(cfg, db, CallNext(input, env, Some(id), called)).0;
      Exec(cfg, db1, Act(start, Start(counter, at), true, now)).1 ==
        if counter == input.counterId then Answered(id, true) else Failed(CounterMismatch)
  {
    CallWritesTheRow(cfg, db, input, env, id, called);
    CallShape(cfg, db, input, env, Some(id), called);
    var db1 := Exec(cfg, db, CallNext(input, env, Some(id), called)).0;
    StartIsAnswered(cfg, db1, start, counter, at, now);
  }

  /** A transferred ticket waits at the target service, with the age and class that it had. */
  lemma TransferMovesTheQueue(cfg: Config, db: Db, input: ActInput, to: string, reason: string, now: Time)
    requires Found(db, input) && to != "" && !Recorded(db, "transfer", input.requestId)
    requires db.tickets[input.ticketId].status in {Waiting, Called, Serving} && Joins(db, db.tickets[input.ticketId])
    ensures var (db', reply) := Exec(cfg, db, Act(input, Transfer(to, reason), true, now));
      && reply == Answered(input.ticketId, true) && db'.appointments == db.appointments
      && InQueue(db', Key(input.tenantId, input.branchId, to), input.ticketId)
      && (forall key :: InQueue(db', key, input.ticketId) ==> key.serviceId == to)
      && CandidateOf(db', db'.tickets[input.ticketId]) == CandidateOf(db, db.tickets[input.ticketId])
  {
    ActionWritesTheRow(cfg, db, input, Transfer(to, reason), true, now);
    ActOutcome(cfg, db, input, Transfer(to, reason), true, now);
  }

  // ------------------------------------------------------- the log and the status

  /** The statuses that an event of this kind leaves a ticket in. */
  predicate Leaves(kind: string, status: Status) {
    || (kind == "ticket.created" && status == Waiting)
    || (kind == "ticket.called" && status == Called)
    || (kind == "ticket.serving" && status == Serving)
    || (kind == "ticket.done" && status == Done)
    || (kind == "ticket.cancelled" && status == Cancelled)
    || (kind == "ticket.held" && status == Held)
    || (kind == "ticket.unheld" && status == Waiting)
    || (kind == "ticket.recalled" && status == Called)
    || (kind == "ticket.transferred" && status == Waiting)
    || (kind == "ticket.no_show" && (status == Waiting || status == NoShow))
  }

  ghost predicate LastEventFits(db: Db, id: string) {
    id in db.tickets && LogOf(db, id) != [] &&
    Leaves(LogOf(db, id)[|LogOf(db, id)| - 1].entry.kind, db.tickets[id].status)
  }

  lemma MoveLeaves(row: TicketRow, m: Move)
    requires Guard(row, m)
    ensures Leaves(MoveKind(m), After(row, m).status)
  {
  }

  lemma StepKeepsLastEvent(cfg: Config, db: Db, cmd: Command, id: string)
    requires Enabled(cfg, db, cmd) && LastEventFits(db, id)
    ensures LastEventFits(Exec(cfg, db, cmd).0, id)
  {
    StepMoves(cfg, db, cmd, id);
    var m := MoveOf(cfg, db, cmd, id);
    if m.Some? {
      MoveLeaves(db.tickets[id], m.value);
    }
  }

  lemma NewTicketHasEvent(cfg: Config, db: Db, cmd: Command, id: string)
    requires Enabled(cfg, db, cmd) && id !in db.tickets && id in Exec(cfg, db, cmd).0.tickets
    ensures LastEventFits(Exec(cfg, db, cmd).0, id)
  {
    NewTicketIsIssued(cfg, db, cmd, id);
  }

  /** In every run the last event of a ticket's log tells its status, by the names of the events. */
  lemma {:induction false} LastEventTellsStatus(cfg: Config, cmds: seq<Command>, n: nat, id: string)
    requires RunEnabled(cfg, EMPTY_DB, cmds) && n <= |cmds| && id in StateAfter(cfg, EMPTY_DB, cmds, n).tickets
    ensures LastEventFits(StateAfter(cfg, EMPTY_DB, cmds, n), id)
  {
    if n == 0 {
    } else {
      var db := StateAfter(cfg, EMPTY_DB, cmds, n - 1);
      assert EnabledAt(cfg, EMPTY_DB, cmds, n - 1);
      if id in db.tickets {
        LastEventTellsStatus(cfg, cmds, n - 1, id);
        StepKeepsLastEvent(cfg, db, cmds[n - 1], id);
      } else {
        NewTicketHasEvent(cfg, db, cmds[n - 1], id);
      }
    }
  }
}
