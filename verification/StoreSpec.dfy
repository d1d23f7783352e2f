/** The tables of the queue service and what each command does to them, one whole transaction a step. */
module StoreSpec {
  import opened Basics
  import opened Transitions
  import opened EventLog
  import opened TicketNumbers
  import opened Tickets
  import opened Routing

  /** The key of `service_routing_state` and of the policy tables. */
  datatype Key = Key(tenantId: string, branchId: string, serviceId: string)

  /** One row of `ticket_action_requests`; an empty call has no ticket. */
  datatype ActionRow = ActionRow(action: string, ticketId: Option<string>)

  datatype AppointmentStatus = Scheduled | CheckedIn | OtherStatus

  datatype Appointment = Appointment(tenantId: string, branchId: string, serviceId: string, scheduledAt: Time,
                                     status: AppointmentStatus)

  /** One row of `outbox_events`. */
  datatype OutboxRow = OutboxRow(tenantId: string, kind: string, payload: Payload, createdAt: Time)

  /** The committed tables; `requestIndex` is the unique index on `tickets.request_id`. */
  datatype Db = Db(
    tickets: map<string, TicketRow>,
    requestIndex: map<string, string>,
    actions: map<string, ActionRow>,
    sequences: map<(string, string), nat>,
    routing: map<Key, RoutingRow>,
    appointments: map<string, Appointment>,
    outbox: seq<OutboxRow>,
    events: map<string, seq<TicketEvent>>)

  const EMPTY_DB := Db(map[], map[], map[], map[], map[], map[], [], map[])

  /** The digest and the two text encodings that the hash chain is built from. */
  datatype Codec = Codec(digest: string -> string, json: Payload -> string, stamp: Time -> string)

  datatype Config = Config(codec: Codec, streakLimit: int, returnToQueue: bool)

  datatype Error =
    | ServiceNotFound | AccessDenied | CounterNotFound | CounterUnavailable | NoTicket
    | TicketNotFound | InvalidState | CounterMismatch | HolidayClosed

  /** `first` is false when the request had been executed before; `Swept` counts automatic no-shows. */
  datatype Reply = Answered(ticketId: string, first: bool) | Failed(error: Error) | Swept(count: nat) | Booked

  // --------------------------------------------------------------- primitives

  function KeyOf(row: TicketRow): Key {
    Key(row.tenantId, row.branchId, row.serviceId)
  }

  function LogOf(db: Db, id: string): seq<TicketEvent> {
    if id in db.events then db.events[id] else []
  }

  function LastEntry(log: seq<TicketEvent>): Option<Entry> {
    if log == [] then None else Some(log[|log| - 1].entry)
  }

  /** insertTicketEvent: the next row of the ticket's hash chain. */
  function NextEvent(codec: Codec, log: seq<TicketEvent>, id: string, kind: string, payload: Payload,
                     now: Time): TicketEvent {
    TicketEvent(NextEntry(codec.digest, LastEntry(log), id, kind, codec.json(payload), codec.stamp(now)), Json(payload))
  }

  /** insertOutboxEvent*: the outbox and the ticket's log receive the same kind and payload. */
  function Emit(codec: Codec, db: Db, tenantId: string, id: string, kind: string, payload: Payload, now: Time): Db {
    db.(outbox := db.outbox + [OutboxRow(tenantId, kind, payload, now)],
        events := db.events[id := LogOf(db, id) + [NextEvent(codec, LogOf(db, id), id, kind, payload, now)]])
  }

  /** A guarded update of one ticket row together with its two log entries. */
  function Touch(codec: Codec, db: Db, id: string, m: Move, requestId: string, now: Time): Db
    requires id in db.tickets
  {
    var row := db.tickets[id];
    Emit(codec, db.(tickets := db.tickets[id := After(row, m)]), row.tenantId, id, MoveKind(m),
         MovePayload(row, m, requestId), now)
  }

  /** insertActionRequest: the first row for a request id stays. */
  function Record(db: Db, requestId: string, action: string, ticketId: Option<string>): Db {
    if requestId in db.actions then db else db.(actions := db.actions[requestId := ActionRow(action, ticketId)])
  }

  /** findActionRequest: the recorded answer, if this id was recorded for this action. */
  function FindAction(db: Db, action: string, requestId: string): Option<Reply> {
    if requestId !in db.actions || db.actions[requestId].action != action then None
    else match db.actions[requestId].ticketId
      case Some(id) => Some(Answered(id, false))
      case None => Some(Failed(if action == "call_next" then NoTicket else InvalidState))
  }

  function RoutingOf(db: Db, key: Key): RoutingRow {
    if key in db.routing then db.routing[key] else FRESH
  }

  function SetRouting(db: Db, key: Key, row: RoutingRow): Db {
    db.(routing := db.routing[key := row])
  }

  function LastNumber(db: Db, branchId: string, serviceId: string): nat {
    if (branchId, serviceId) in db.sequences then db.sequences[(branchId, serviceId)] else 0
  }

  /** A numbered insert: next sequence number, row, index, check-in mark and the created event. */
  function Issue(codec: Codec, db: Db, row: TicketRow, now: Time): Db {
    var n := LastNumber(db, row.branchId, row.serviceId) + 1;
    var db1 := db.(
      sequences := db.sequences[(row.branchId, row.serviceId) := n],
      tickets := db.tickets[row.ticketId := row],
      requestIndex := db.requestIndex[row.requestId := row.ticketId],
      appointments := MarkCheckedIn(db.appointments, row.appointmentId));
    Emit(codec, db1, row.tenantId, row.ticketId, CREATED, CreatedPayload(row), now)
  }

  function MarkCheckedIn(appointments: map<string, Appointment>, id: Option<string>): map<string, Appointment> {
    if id.Some? && id.value in appointments
    then appointments[id.value := appointments[id.value].(status := CheckedIn)]
    else appointments
  }

  /** A newly issued row. */
  function NewRow(db: Db, id: string, requestId: string, code: string, tenantId: string, branchId: string,
                  serviceId: string, priorityClass: string, createdAt: Time, appointmentId: Option<string>): TicketRow
  {
    TicketRow(id, requestId, FormatNumber(code, LastNumber(db, branchId, serviceId) + 1), tenantId, branchId, serviceId,
              Waiting, priorityClass, createdAt, None, None, None, None, false, appointmentId)
  }

  // ---------------------------------------------------------------- the view

  /** The appointment join succeeds, or there is nothing to join. */
  predicate Joins(db: Db, row: TicketRow) {
    row.appointmentId.Some? ==> row.appointmentId.value in db.appointments
  }

  function CandidateOf(db: Db, row: TicketRow): Candidate
    requires Joins(db, row)
  {
    Candidate(row.priorityClass, row.createdAt,
              if row.appointmentId.Some? then Some(db.appointments[row.appointmentId.value].scheduledAt) else None)
  }

  predicate InQueue(db: Db, key: Key, id: string) {
    id in db.tickets && db.tickets[id].status == Waiting && KeyOf(db.tickets[id]) == key && Joins(db, db.tickets[id])
  }

  /** What a select of this service sees when the tickets in `locked` are skipped. */
  function ServiceView(db: Db, key: Key, locked: set<string>): View {
    map id | id in db.tickets && InQueue(db, key, id) && id !in locked :: CandidateOf(db, db.tickets[id])
  }

  // ----------------------------------------------------------------- commands

  datatype CreateInput = CreateInput(requestId: string, tenantId: string, branchId: string, serviceId: string,
                                     priorityClass: string, createdAt: Time)

  datatype CheckInInput = CheckInInput(requestId: string, tenantId: string, branchId: string, appointmentId: string)

  datatype CallInput = CallInput(requestId: string, tenantId: string, branchId: string, serviceId: string,
                                 counterId: string, calledAt: Time)

  datatype ActInput = ActInput(requestId: string, tenantId: string, branchId: string, ticketId: string)

  /** What a call reads from the administration's tables, and the tickets it finds locked. */
  datatype CallEnv = CallEnv(serviceExists: bool, counterAllowed: bool, counterAvailable: Option<bool>, policy: Policy,
                             locked: set<string>)

  datatype NoShowPolicy = NoShowPolicy(graceSeconds: int, returnToQueue: bool)

  datatype SweepInput = SweepInput(grace: int, batchSize: int, policies: map<Key, NoShowPolicy>, locked: set<string>)

  /**
   * A command with everything it takes from outside: the answers of tables that others maintain,
   * fresh identifiers, the clock, and the rows that ORDER BY leaves open to choose.
   */
  datatype Command =
    | Create(create: CreateInput, code: Option<string>, newId: string, now: Time)
    | CheckIn(checkIn: CheckInInput, holiday: bool, code: Option<string>, newId: string, now: Time)
    | CallNext(call: CallInput, env: CallEnv, pick: Option<string>, now: Time)
    | Act(act: ActInput, move: Move, targetExists: bool, now: Time)
    | AutoNoShow(sweep: SweepInput, batch: seq<string>, now: Time)
    | Book(appointmentId: string, appointment: Appointment)

  function ExecCreate(cfg: Config, db: Db, input: CreateInput, code: Option<string>, newId: string,
                      now: Time): (Db, Reply) {
    if input.requestId in db.requestIndex then (db, Answered(db.requestIndex[input.requestId], false))
    else if code.None? then (db, Failed(ServiceNotFound))
    else
      var row := NewRow(db, newId, input.requestId, code.value, input.tenantId, input.branchId, input.serviceId,
                        input.priorityClass, OrNow(input.createdAt, now), None);
      (Issue(cfg.codec, db, row, now), Answered(newId, true))
  }

  /** The appointment a check-in may use: of this tenant and branch, and still scheduled. */
  predicate CanCheckIn(db: Db, input: CheckInInput) {
    && input.appointmentId in db.appointments
    && var a := db.appointments[input.appointmentId];
    && a.tenantId == input.tenantId && a.branchId == input.branchId && a.status == Scheduled
  }

  function ExecCheckIn(cfg: Config, db: Db, input: CheckInInput, holiday: bool, code: Option<string>, newId: string,
                       now: Time): (Db, Reply) {
    if input.requestId in db.requestIndex then (db, Answered(db.requestIndex[input.requestId], false))
    else if !CanCheckIn(db, input) then (db, Failed(TicketNotFound))
    else if holiday then (db, Failed(HolidayClosed))
    else if code.None? then (db, Failed(ServiceNotFound))
    else
      var row := NewRow(db, newId, input.requestId, code.value, input.tenantId, input.branchId,
                        db.appointments[input.appointmentId].serviceId, REGULAR, now, Some(input.appointmentId));
      (Issue(cfg.codec, db, row, now), Answered(newId, true))
  }

  function CallKey(input: CallInput): Key {
    Key(input.tenantId, input.branchId, input.serviceId)
  }

  /** The checks in front of a call's locked section. */
  function CallRefusal(env: CallEnv): Option<Error> {
    if !env.serviceExists then Some(ServiceNotFound)
    else if !env.counterAllowed then Some(AccessDenied)
    else if env.counterAvailable.None? then Some(CounterNotFound)
    else if !env.counterAvailable.value then Some(CounterUnavailable)
    else None
  }

  function CallPreference(cfg: Config, db: Db, input: CallInput, env: CallEnv, now: Time): Preference {
    Prefer(cfg.streakLimit, RoutingOf(db, CallKey(input)), env.policy, OrNow(input.calledAt, now))
  }

  function ExecCallNext(cfg: Config, db: Db, input: CallInput, env: CallEnv, pick: Option<string>,
                        now: Time): (Db, Reply) {
    var found := FindAction(db, "call_next", input.requestId);
    if found.Some? then (db, found.value)
    else if CallRefusal(env).Some? then (db, Failed(CallRefusal(env).value))
    else
      var key := CallKey(input);
      var row := RoutingOf(db, key);
      match pick
      case None => (Record(SetRouting(db, key, row), input.requestId, "call_next", None), Failed(NoTicket))
      case Some(id) =>
        if id !in db.tickets then (db, Failed(NoTicket)) else
        var window := NormalizeWindow(env.policy.windowSize);
        var ticket := db.tickets[id];
        var row' := UpdateRoutingState(ResetWindow(row, window), ticket.priorityClass, ticket.appointmentId.Some?,
                                       window);
        var db1 := SetRouting(Record(db, input.requestId, "call_next", Some(id)), key, row');
        (Touch(cfg.codec, db1, id, Call(input.counterId, OrNow(input.calledAt, now)), input.requestId, now),
         Answered(id, true))
  }

  /** A move without a time of its own is stamped now. */
  function Stamped(m: Move, now: Time): Move {
    match m
    case Start(counter, at) => Start(counter, OrNow(at, now))
    case Complete(at) => Complete(OrNow(at, now))
    case _ => m
  }

  predicate Addressed(db: Db, input: ActInput) {
    && input.ticketId in db.tickets
    && db.tickets[input.ticketId].tenantId == input.tenantId
    && db.tickets[input.ticketId].branchId == input.branchId
  }

  /** Why a guarded update found no row. */
  function GuardError(row: TicketRow, m: Move): Error {
    if m.Start? && row.counterId.Some? && row.counterId.value != "" && row.counterId.value != m.counter
    then CounterMismatch else InvalidState
  }

  function ExecAct(cfg: Config, db: Db, input: ActInput, m: Move, targetExists: bool, now: Time): (Db, Reply) {
    var found := FindAction(db, ActionName(m), input.requestId);
    if found.Some? then (db, found.value)
    else if m.Transfer? && (m.to == "" || !targetExists) then (db, Failed(ServiceNotFound))
    else if !Addressed(db, input) then (db, Failed(if m.Transfer? then InvalidState else TicketNotFound))
    else if !Guard(db.tickets[input.ticketId], Stamped(m, now))
        then (db, Failed(GuardError(db.tickets[input.ticketId], m)))
    else
      var db1 := Record(db, input.requestId, ActionName(m), Some(input.ticketId));
      (Touch(cfg.codec, db1, input.ticketId, Stamped(m, now), input.requestId, now), Answered(input.ticketId, true))
  }

  const NANOS_PER_SECOND := 1_000_000_000

  /** Whether a called ticket has outlived its grace, and if so, whether it returns to the queue. */
  function NoShowDue(cfg: Config, input: SweepInput, row: TicketRow, now: Time): Option<bool> {
    var found := KeyOf(row) in input.policies;
    var grace := if found then input.policies[KeyOf(row)].graceSeconds * NANOS_PER_SECOND else input.grace;
    var requeue := if found then input.policies[KeyOf(row)].returnToQueue else cfg.returnToQueue;
    if row.calledAt.None? || now - row.calledAt.value < grace then None else Some(requeue)
  }

  /** One turn of the loop: the ticket becomes a no-show, or returns, if its grace is over. */
  function SweepTicket(cfg: Config, db: Db, input: SweepInput, id: string, now: Time): (Db, nat) {
    if id !in db.tickets then (db, 0) else
    match NoShowDue(cfg, input, db.tickets[id], now)
    case None => (db, 0)
    case Some(requeue) => (Touch(cfg.codec, db, id, SweepNoShow(requeue), "", now), 1)
  }

  /** The loop over the selected tickets. */
  function SweepBatch(cfg: Config, db: Db, input: SweepInput, batch: seq<string>, now: Time): (Db, nat) {
    if batch == [] then (db, 0) else
    var (before, count) := SweepBatch(cfg, db, input, batch[..|batch| - 1], now);
    var (after, one) := SweepTicket(cfg, before, input, batch[|batch| - 1], now);
    (after, count + one)
  }

  function ExecAutoNoShow(cfg: Config, db: Db, input: SweepInput, batch: seq<string>, now: Time): (Db, Reply) {
    if input.grace <= 0 then (db, Swept(0)) else
    var (db', count) := SweepBatch(cfg, db, input, batch, now);
    (db', Swept(count))
  }

  function Exec(cfg: Config, db: Db, cmd: Command): (Db, Reply) {
    match cmd
    case Create(input, code, newId, now) => ExecCreate(cfg, db, input, code, newId, now)
    case CheckIn(input, holiday, code, newId, now) => ExecCheckIn(cfg, db, input, holiday, code, newId, now)
    case CallNext(input, env, pick, now) => ExecCallNext(cfg, db, input, env, pick, now)
    case Act(input, m, targetExists, now) => ExecAct(cfg, db, input, m, targetExists, now)
    case AutoNoShow(input, batch, now) => ExecAutoNoShow(cfg, db, input, batch, now)
    case Book(id, appointment) => (db.(appointments := db.appointments[id := appointment]), Booked)
  }

  // ------------------------------------------- what the outside may contribute

  /** A freshly generated UUID. */
  predicate FreshId(db: Db, id: string) {
    id !in db.tickets && id !in db.events && NoBar(id)
  }

  function BatchLimit(input: SweepInput): nat {
    if input.batchSize <= 0 then 100 else input.batchSize
  }

  /** Tickets the sweep's select may lock: called at or before the cutoff and not locked by others. */
  predicate Sweepable(db: Db, input: SweepInput, now: Time, id: string) {
    && id in db.tickets && id !in input.locked
    && db.tickets[id].status == Called
    && db.tickets[id].calledAt.Some? && db.tickets[id].calledAt.value <= now - input.grace
  }

  predicate CalledNoLater(db: Db, a: string, b: string)
    requires a in db.tickets && b in db.tickets
  {
    db.tickets[a].calledAt.Some? && db.tickets[b].calledAt.Some? ==>
        db.tickets[a].calledAt.value <= db.tickets[b].calledAt.value
  }

  /**
   * ORDER BY called_at LIMIT n: distinct sweepable tickets, the longest called first, none left out while
   * there is room.
   */
  ghost predicate IsBatch(db: Db, input: SweepInput, now: Time, batch: seq<string>) {
    && |batch| <= BatchLimit(input)
    && (forall i :: 0 <= i < |batch| ==> Sweepable(db, input, now, batch[i]))
    && (forall i, j :: 0 <= i < j < |batch| ==> batch[i] != batch[j] && CalledNoLater(db, batch[i], batch[j]))
    && (forall id :: id in db.tickets && Sweepable(db, input, now, id) && id !in batch ==>
          |batch| == BatchLimit(input) && forall i :: 0 <= i < |batch| ==> CalledNoLater(db, batch[i], id))
  }

  /** The choices recorded in a command are ones the database could have made. */
  ghost predicate Enabled(cfg: Config, db: Db, cmd: Command) {
    match cmd
    case Create(_, _, newId, _) => FreshId(db, newId)
    case CheckIn(_, _, _, newId, _) => FreshId(db, newId)
    case CallNext(input, env, pick, now) =>
      FindAction(db, "call_next", input.requestId).None? && CallRefusal(env).None? ==>
        Selected(ServiceView(db, CallKey(input), env.locked), CallPreference(cfg, db, input, env, now), pick)
    case Act(_, m, _, _) => !m.Call? && !m.SweepNoShow?
    case AutoNoShow(input, batch, now) => input.grace > 0 ==> IsBatch(db, input, now, batch)
    case Book(id, appointment) => id !in db.appointments && appointment.status != CheckedIn
  }

  // --------------------------------------------------------------------- runs

  /** The tables after the first n commands. */
  function StateAfter(cfg: Config, db: Db, cmds: seq<Command>, n: nat): Db
    requires n <= |cmds|
  {
    if n == 0 then db else Exec(cfg, StateAfter(cfg, db, cmds, n - 1), cmds[n - 1]).0
  }

  function Run(cfg: Config, db: Db, cmds: seq<Command>): Db {
    StateAfter(cfg, db, cmds, |cmds|)
  }

  ghost predicate EnabledAt(cfg: Config, db: Db, cmds: seq<Command>, i: nat)
    requires i < |cmds|
  {
    Enabled(cfg, StateAfter(cfg, db, cmds, i), cmds[i])
  }

  ghost predicate RunEnabled(cfg: Config, db: Db, cmds: seq<Command>) {
    forall i :: 0 <= i < |cmds| ==> EnabledAt(cfg, db, cmds, i)
  }
}
