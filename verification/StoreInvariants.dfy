/** What every committed transaction keeps: the store's global invariant. */
module StoreInvariants {
  import opened Basics
  import opened Transitions
  import opened EventLog
  import opened TicketNumbers
  import opened Tickets
  import opened Routing
  import opened StoreSpec

  /** The digest prints hexadecimal and the stamp RFC 3339: neither contains a bar. */
  ghost predicate CodecOk(codec: Codec) {
    && (forall s :: NoBar(codec.digest(s)))
    && (forall t :: NoBar(codec.stamp(t)))
  }

  /** Every ticket has a log, and the log tells the row's story. */
  ghost predicate TicketsOk(db: Db) {
    && db.events.Keys == db.tickets.Keys
    && forall id :: id in db.tickets ==>
         db.tickets[id].ticketId == id && NoBar(id) && TicketOk(db.tickets[id], db.events[id])
  }

  /** Every log is a verifiable hash chain with separable fields. */
  ghost predicate ChainsOk(codec: Codec, db: Db) {
    forall id :: id in db.events ==> ChainOk(codec, db.events[id])
  }

  ghost predicate ChainOk(codec: Codec, log: seq<TicketEvent>) {
    Verifies(codec.digest, Entries(log)) && CleanFields(Entries(log))
  }

  /** The unique index on request ids: each request id has at most one ticket. */
  ghost predicate IndexOk(db: Db) {
    && (forall r :: r in db.requestIndex ==>
          db.requestIndex[r] in db.tickets && db.tickets[db.requestIndex[r]].requestId == r)
    && (forall id :: id in db.tickets ==>
          db.tickets[id].requestId in db.requestIndex && db.requestIndex[db.tickets[id].requestId] == id)
  }

  ghost predicate ActionsOk(db: Db) {
    forall r :: r in db.actions && db.actions[r].ticketId.Some? ==> db.actions[r].ticketId.value in db.tickets
  }

  /** The tickets that refer to an appointment. */
  ghost function TicketsFor(db: Db, a: string): set<string> {
    set id | id in db.tickets && db.tickets[id].appointmentId == Some(a)
  }

  /** An appointment is checked in exactly when one ticket refers to it; until then none does. */
  ghost predicate AppointmentsOk(db: Db) {
    && (forall id :: id in db.tickets && db.tickets[id].appointmentId.Some? ==>
          db.tickets[id].appointmentId.value in db.appointments && db.tickets[id].priorityClass == REGULAR)
    && (forall a :: a in db.appointments ==> AppointmentOk(db, a))
  }

  ghost predicate AppointmentOk(db: Db, a: string)
    requires a in db.appointments
  {
    if db.appointments[a].status == CheckedIn then exists id :: TicketsFor(db, a) == {id} else TicketsFor(db, a) == {}
  }

  /** The numbers printed on the tickets created for a branch and service, in the order of their events. */
  function IssuedNumbers(outbox: seq<OutboxRow>, branchId: string, serviceId: string): seq<string> {
    if outbox == [] then [] else
    var last := outbox[|outbox| - 1];
    IssuedNumbers(outbox[..|outbox| - 1], branchId, serviceId)
    + if last.kind == CREATED && last.payload.branchId == branchId && last.payload.serviceId == serviceId
      then [last.payload.ticketNumber] else []
  }

  /** The i-th ticket issued carries the number i + 1. */
  ghost predicate CountsUp(numbers: seq<string>) {
    forall i :: 0 <= i < |numbers| ==>
      ParseNumber(numbers[i]).Some? && ParseNumber(numbers[i]).value.1 == i + 1
  }

  ghost predicate NumbersOk(db: Db) {
    forall b, s :: NumbersOkFor(db, b, s)
  }

  ghost predicate NumbersOkFor(db: Db, b: string, s: string) {
    CountsUp(IssuedNumbers(db.outbox, b, s)) && LastNumber(db, b, s) == |IssuedNumbers(db.outbox, b, s)|
  }

  /** Kinds and payloads in a ticket's log. */
  function Story(log: seq<TicketEvent>): seq<(string, Body)> {
    seq(|log|, i requires 0 <= i < |log| => (log[i].entry.kind, log[i].body))
  }

  /** Kinds and payloads in the outbox that concern one ticket. */
  function OutboxStory(outbox: seq<OutboxRow>, id: string): seq<(string, Body)> {
    if outbox == [] then [] else
    var last := outbox[|outbox| - 1];
    OutboxStory(outbox[..|outbox| - 1], id) + if last.payload.ticketId == id then [(last.kind, Json(last.payload))]
        else []
  }

  /** Dual logging: for every ticket the outbox and its own log say the same, in the same order. */
  ghost predicate DualOk(db: Db) {
    forall id :: OutboxStory(db.outbox, id) == Story(LogOf(db, id))
  }

  /** The clauses of the store's invariant. */
  datatype Clause = Rows | Chains | Requests | ActionRows | CheckIns | Numbering | DualLogs

  ghost predicate Holds(codec: Codec, db: Db, c: Clause) {
    match c
    case Rows => TicketsOk(db)
    case Chains => ChainsOk(codec, db)
    case Requests => IndexOk(db)
    case ActionRows => ActionsOk(db)
    case CheckIns => AppointmentsOk(db)
    case Numbering => NumbersOk(db)
    case DualLogs => DualOk(db)
  }

  ghost predicate Inv(codec: Codec, db: Db) {
    forall c :: Holds(codec, db, c)
  }

  lemma InvMeans(codec: Codec, db: Db)
    ensures Inv(codec, db) <==>
      && TicketsOk(db) && ChainsOk(codec, db) && IndexOk(db) && ActionsOk(db)
      && AppointmentsOk(db) && NumbersOk(db) && DualOk(db)
  {
    if Inv(codec, db) {
      assert Holds(codec, db, Rows) && Holds(codec, db, Chains) && Holds(codec, db, Requests) &&
          Holds(codec, db, ActionRows);
      assert Holds(codec, db, CheckIns) && Holds(codec, db, Numbering) && Holds(codec, db, DualLogs);
    }
  }

  lemma EmptyStoreInv(codec: Codec)
    ensures Inv(codec, EMPTY_DB)
  {
    assert forall id :: Story(LogOf(EMPTY_DB, id)) == [];
    InvMeans(codec, EMPTY_DB);
  }

  // ------------------------------------------------------------- bookkeeping

  /** Only action rows and routing rows differ. */
  ghost predicate Bookkeeping(db: Db, db': Db) {
    db' == db.(actions := db'.actions, routing := db'.routing) && ActionsOk(db')
  }

  lemma RecordKeepsActions(codec: Codec, db: Db, requestId: string, action: string, id: Option<string>)
    requires Inv(codec, db) && (id.Some? ==> id.value in db.tickets)
    ensures ActionsOk(Record(db, requestId, action, id))
    ensures forall routing :: ActionsOk(Record(db, requestId, action, id).(routing := routing))
  {
    InvMeans(codec, db);
  }

  lemma SameTicketsKeepAppointments(db: Db, db': Db)
    requires AppointmentsOk(db) && db'.tickets == db.tickets && db'.appointments == db.appointments
    ensures AppointmentsOk(db')
  {
    forall a | a in db'.appointments ensures AppointmentOk(db', a) {
      assert AppointmentOk(db, a) && TicketsFor(db', a) == TicketsFor(db, a);
    }
  }

  lemma SameOutboxKeepsLogs(db: Db, db': Db)
    requires NumbersOk(db) && DualOk(db)
    requires db'.outbox == db.outbox && db'.events == db.events && db'.sequences == db.sequences
    ensures NumbersOk(db') && DualOk(db')
  {
    forall b, s ensures NumbersOkFor(db', b, s) {
      assert NumbersOkFor(db, b, s);
    }
    forall id ensures OutboxStory(db'.outbox, id) == Story(LogOf(db', id)) {
      assert LogOf(db', id) == LogOf(db, id);
    }
  }

  lemma BookkeepingKeepsInv(codec: Codec, db: Db, db': Db)
    requires Inv(codec, db) && Bookkeeping(db, db')
    ensures Inv(codec, db')
  {
    InvMeans(codec, db);
    InvMeans(codec, db');
    SameTicketsKeepAppointments(db, db');
    SameOutboxKeepsLogs(db, db');
  }

  // ---------------------------------------------------------------- emitting

  lemma EntriesExtend(log: seq<TicketEvent>, e: TicketEvent)
    ensures Entries(log + [e]) == Entries(log) + [e.entry]
  {
  }

  lemma StoryExtends(log: seq<TicketEvent>, e: TicketEvent)
    ensures Story(log + [e]) == Story(log) + [(e.entry.kind, e.body)]
  {
  }

  lemma KindsHaveNoBar(m: Move)
    ensures NoBar(MoveKind(m)) && NoBar(CREATED)
  {
  }

  lemma NextEventKeepsChain(codec: Codec, log: seq<TicketEvent>, id: string, kind: string, payload: Payload, now: Time)
    requires CodecOk(codec) && ChainOk(codec, log) && NoBar(id) && NoBar(kind)
    ensures ChainOk(codec, log + [NextEvent(codec, log, id, kind, payload, now)])
  {
    var e := NextEvent(codec, log, id, kind, payload, now);
    EntriesExtend(log, e);
    assert Last(Entries(log)) == LastEntry(log);
    AppendVerifies(codec.digest, Entries(log), id, kind, codec.json(payload), codec.stamp(now));
    assert log != [] ==> Linked(codec.digest, Entries(log), |log| - 1);
    assert CleanEntry(e.entry);
  }

  /** The two logs stay in step. */
  lemma EmitKeepsDual(codec: Codec, db: Db, tenantId: string, id: string, kind: string, payload: Payload, now: Time)
    requires DualOk(db) && payload.ticketId == id
    ensures DualOk(Emit(codec, db, tenantId, id, kind, payload, now))
  {
    var db' := Emit(codec, db, tenantId, id, kind, payload, now);
    assert db'.outbox[..|db.outbox|] == db.outbox;
    forall x ensures OutboxStory(db'.outbox, x) == Story(LogOf(db', x)) {
      assert OutboxStory(db.outbox, x) == Story(LogOf(db, x));
      if x == id {
        StoryExtends(LogOf(db, id), NextEvent(codec, LogOf(db, id), id, kind, payload, now));
      }
    }
  }

  lemma EmitKeepsChains(codec: Codec, db: Db, tenantId: string, id: string, kind: string, payload: Payload, now: Time)
    requires CodecOk(codec) && ChainsOk(codec, db) && NoBar(id) && NoBar(kind)
    ensures ChainsOk(codec, Emit(codec, db, tenantId, id, kind, payload, now))
  {
    NextEventKeepsChain(codec, LogOf(db, id), id, kind, payload, now);
  }

  // ---------------------------------------------------------------- touching

  lemma MoveKeepsIdentity(row: TicketRow, m: Move)
    ensures var row' := After(row, m);
      && row'.ticketId == row.ticketId && row'.requestId == row.requestId && row'.ticketNumber == row.ticketNumber
      && row'.tenantId == row.tenantId && row'.branchId == row.branchId
      && row'.createdAt == row.createdAt && row'.priorityClass == row.priorityClass &&
          row'.appointmentId == row.appointmentId
      && MovePayload(row, m, "").ticketId == row.ticketId && MoveKind(m) != CREATED
  {
  }

  lemma TouchKeepsTickets(codec: Codec, db: Db, id: string, m: Move, requestId: string, now: Time)
    requires TicketsOk(db) && id in db.tickets && Guard(db.tickets[id], m)
    ensures TicketsOk(Touch(codec, db, id, m, requestId, now))
  {
    var row := db.tickets[id];
    MoveKeepsIdentity(row, m);
    MoveIsFaithful(row, db.events[id], m, requestId,
                   NextEvent(codec, LogOf(db, id), id, MoveKind(m), MovePayload(row, m, requestId), now));
  }

  lemma TouchKeepsIndex(codec: Codec, db: Db, id: string, m: Move, requestId: string, now: Time)
    requires IndexOk(db) && ActionsOk(db) && id in db.tickets
    ensures IndexOk(Touch(codec, db, id, m, requestId, now)) && ActionsOk(Touch(codec, db, id, m, requestId, now))
  {
    MoveKeepsIdentity(db.tickets[id], m);
  }

  lemma TouchKeepsLogs(codec: Codec, db: Db, id: string, m: Move, requestId: string, now: Time)
    requires CodecOk(codec) && ChainsOk(codec, db) && DualOk(db)
    requires id in db.tickets && NoBar(id) && db.tickets[id].ticketId == id
    ensures ChainsOk(codec, Touch(codec, db, id, m, requestId, now)) && DualOk(Touch(codec, db, id, m, requestId, now))
  {
    var row := db.tickets[id];
    var mid := db.(tickets := db.tickets[id := After(row, m)]);
    MoveKeepsIdentity(row, m);
    KindsHaveNoBar(m);
    EmitKeepsChains(codec, mid, row.tenantId, id, MoveKind(m), MovePayload(row, m, requestId), now);
    assert forall x :: LogOf(mid, x) == LogOf(db, x);
    EmitKeepsDual(codec, mid, row.tenantId, id, MoveKind(m), MovePayload(row, m, requestId), now);
  }

  lemma TouchIssuesNothing(codec: Codec, db: Db, id: string, m: Move, requestId: string, now: Time, b: string,
                           s: string)
    requires id in db.tickets
    ensures var db' := Touch(codec, db, id, m, requestId, now);
      db'.sequences == db.sequences && IssuedNumbers(db'.outbox, b, s) == IssuedNumbers(db.outbox, b, s)
  {
    var row := db.tickets[id];
    MoveKeepsIdentity(row, m);
    IssuedNumbersExtend(db.outbox, OutboxRow(row.tenantId, MoveKind(m), MovePayload(row, m, requestId), now), b, s);
  }

  lemma TouchKeepsNumbers(codec: Codec, db: Db, id: string, m: Move, requestId: string, now: Time)
    requires NumbersOk(db) && id in db.tickets
    ensures NumbersOk(Touch(codec, db, id, m, requestId, now))
  {
    forall b, s ensures NumbersOkFor(Touch(codec, db, id, m, requestId, now), b, s) {
      assert NumbersOkFor(db, b, s);
      TouchIssuesNothing(codec, db, id, m, requestId, now, b, s);
    }
  }

  lemma TouchKeepsInv(codec: Codec, db: Db, id: string, m: Move, requestId: string, now: Time)
    requires CodecOk(codec) && Inv(codec, db)
    requires id in db.tickets && Guard(db.tickets[id], m)
    ensures Inv(codec, Touch(codec, db, id, m, requestId, now))
  {
    InvMeans(codec, db);
    InvMeans(codec, Touch(codec, db, id, m, requestId, now));
    TouchKeepsIndex(codec, db, id, m, requestId, now);
    TouchKeepsTickets(codec, db, id, m, requestId, now);
    TouchKeepsLogs(codec, db, id, m, requestId, now);
    TouchKeepsNumbers(codec, db, id, m, requestId, now);
    TouchKeepsAppointments(codec, db, id, m, requestId, now);
  }

  lemma TouchKeepsAppointments(codec: Codec, db: Db, id: string, m: Move, requestId: string, now: Time)
    requires AppointmentsOk(db) && id in db.tickets
    ensures AppointmentsOk(Touch(codec, db, id, m, requestId, now))
  {
    var db' := Touch(codec, db, id, m, requestId, now);
    MoveKeepsIdentity(db.tickets[id], m);
    forall a | a in db'.appointments ensures AppointmentOk(db', a) {
      assert AppointmentOk(db, a) && TicketsFor(db', a) == TicketsFor(db, a);
    }
  }

  // ----------------------------------------------------------------- issuing

  /** A row that may be issued: blank, freshly identified and numbered, its appointment still open. */
  predicate Issuable(db: Db, row: TicketRow, code: string) {
    && FreshId(db, row.ticketId) && row.requestId !in db.requestIndex
    && row == NewRow(db, row.ticketId, row.requestId, code, row.tenantId, row.branchId, row.serviceId,
                     row.priorityClass, row.createdAt, row.appointmentId)
    && (row.appointmentId.Some? ==>
          && row.appointmentId.value in db.appointments && row.priorityClass == REGULAR
          && db.appointments[row.appointmentId.value].status != CheckedIn)
  }

  lemma NewTicketKeepsTickets(db: Db, db': Db, row: TicketRow, e: TicketEvent)
    requires TicketsOk(db) && NoBar(row.ticketId)
    requires db'.tickets == db.tickets[row.ticketId := row] && db'.events == db.events[row.ticketId := [e]]
    requires row.status == Waiting && row.calledAt.None? && row.servedAt.None? && row.completedAt.None? &&
        row.counterId.None?
    requires e.entry.kind == CREATED && e.body == Json(CreatedPayload(row))
    ensures TicketsOk(db')
  {
    CreationIsFaithful(row, e);
  }

  lemma IssueKeepsTickets(codec: Codec, db: Db, row: TicketRow, code: string, now: Time)
    requires TicketsOk(db) && Issuable(db, row, code)
    ensures TicketsOk(Issue(codec, db, row, now))
  {
    var e := NextEvent(codec, [], row.ticketId, CREATED, CreatedPayload(row), now);
    assert LogOf(db, row.ticketId) == [] && [] + [e] == [e];
    NewTicketKeepsTickets(db, Issue(codec, db, row, now), row, e);
  }

  lemma IssueKeepsIndex(codec: Codec, db: Db, row: TicketRow, code: string, now: Time)
    requires IndexOk(db) && ActionsOk(db) && Issuable(db, row, code)
    ensures IndexOk(Issue(codec, db, row, now)) && ActionsOk(Issue(codec, db, row, now))
  {
  }

  lemma IssueKeepsLogs(codec: Codec, db: Db, row: TicketRow, code: string, now: Time)
    requires CodecOk(codec) && ChainsOk(codec, db) && DualOk(db) && Issuable(db, row, code)
    ensures var db' := Issue(codec, db, row, now); ChainsOk(codec, db') && DualOk(db')
  {
    var db' := Issue(codec, db, row, now);
    var emitted := Emit(codec, db, row.tenantId, row.ticketId, CREATED, CreatedPayload(row), now);
    KindsHaveNoBar(Cancel);
    EmitKeepsChains(codec, db, row.tenantId, row.ticketId, CREATED, CreatedPayload(row), now);
    EmitKeepsDual(codec, db, row.tenantId, row.ticketId, CREATED, CreatedPayload(row), now);
    assert db'.events == emitted.events && db'.outbox == emitted.outbox;
    assert forall x :: LogOf(db', x) == LogOf(emitted, x);
  }

  lemma IssueKeepsInv(codec: Codec, db: Db, row: TicketRow, code: string, now: Time)
    requires CodecOk(codec) && Inv(codec, db) && Issuable(db, row, code)
    ensures Inv(codec, Issue(codec, db, row, now))
  {
    InvMeans(codec, db);
    InvMeans(codec, Issue(codec, db, row, now));
    IssueKeepsTickets(codec, db, row, code, now);
    IssueKeepsIndex(codec, db, row, code, now);
    IssueKeepsLogs(codec, db, row, code, now);
    IssueKeepsAppointments(codec, db, row, code, now);
    IssueKeepsNumbers(codec, db, row, code, now);
  }

  lemma IssueKeepsAppointments(codec: Codec, db: Db, row: TicketRow, code: string, now: Time)
    requires AppointmentsOk(db) && Issuable(db, row, code)
    ensures AppointmentsOk(Issue(codec, db, row, now))
  {
    var db' := Issue(codec, db, row, now);
    forall a | a in db'.appointments ensures AppointmentOk(db', a) {
      assert AppointmentOk(db, a);
      if row.appointmentId == Some(a) {
        assert TicketsFor(db, a) == {};
        assert TicketsFor(db', a) == {row.ticketId};
      } else {
        assert TicketsFor(db', a) == TicketsFor(db, a);
      }
    }
  }

  lemma IssuedNumbersExtend(outbox: seq<OutboxRow>, row: OutboxRow, b: string, s: string)
    ensures IssuedNumbers(outbox + [row], b, s)
         == IssuedNumbers(outbox, b, s)
            + if row.kind == CREATED && row.payload.branchId == b && row.payload.serviceId == s
                then [row.payload.ticketNumber] else []
  {
    assert (outbox + [row])[..|outbox|] == outbox;
  }

  lemma CountGoesOn(numbers: seq<string>, code: string)
    requires CountsUp(numbers)
    ensures CountsUp(numbers + [FormatNumber(code, |numbers| + 1)])
  {
    NumberRoundTrip(code, |numbers| + 1);
  }

  lemma NewNumberKeepsNumbers(db: Db, db': Db, issued: OutboxRow, code: string)
    requires NumbersOk(db) && issued.kind == CREATED
    requires db'.outbox == db.outbox + [issued]
    requires var b, s := issued.payload.branchId, issued.payload.serviceId;
      && db'.sequences == db.sequences[(b, s) := LastNumber(db, b, s) + 1]
      && issued.payload.ticketNumber == FormatNumber(code, LastNumber(db, b, s) + 1)
    ensures NumbersOk(db')
  {
    forall b, s ensures NumbersOkFor(db', b, s) {
      assert NumbersOkFor(db, b, s);
      IssuedNumbersExtend(db.outbox, issued, b, s);
      CountGoesOn(IssuedNumbers(db.outbox, b, s), code);
    }
  }

  lemma IssueKeepsNumbers(codec: Codec, db: Db, row: TicketRow, code: string, now: Time)
    requires NumbersOk(db) && Issuable(db, row, code)
    ensures NumbersOk(Issue(codec, db, row, now))
  {
    NewNumberKeepsNumbers(db, Issue(codec, db, row, now), OutboxRow(row.tenantId, CREATED, CreatedPayload(row), now),
                          code);
  }

  lemma BookKeepsAppointments(db: Db, id: string, appointment: Appointment)
    requires AppointmentsOk(db) && id !in db.appointments && appointment.status != CheckedIn
    ensures AppointmentsOk(db.(appointments := db.appointments[id := appointment]))
  {
    var db' := db.(appointments := db.appointments[id := appointment]);
    forall a | a in db'.appointments ensures AppointmentOk(db', a) {
      assert a != id ==> AppointmentOk(db, a);
      assert TicketsFor(db', a) == TicketsFor(db, a);
    }
  }

  lemma BookKeepsInv(codec: Codec, db: Db, id: string, appointment: Appointment)
    requires Inv(codec, db) && id !in db.appointments && appointment.status != CheckedIn
    ensures Inv(codec, db.(appointments := db.appointments[id := appointment]))
  {
    var db' := db.(appointments := db.appointments[id := appointment]);
    InvMeans(codec, db);
    InvMeans(codec, db');
    BookKeepsAppointments(db, id, appointment);
    SameOutboxKeepsLogs(db, db');
  }

  // ---------------------------------------------------------------- commands

  /** The call gets past its lookups and checks to the locked section. */
  predicate CallReached(db: Db, input: CallInput, env: CallEnv) {
    FindAction(db, "call_next", input.requestId).None? && CallRefusal(env).None?
  }

  lemma PickIsQueued(cfg: Config, db: Db, input: CallInput, env: CallEnv, id: string, now: Time)
    requires Enabled(cfg, db, CallNext(input, env, Some(id), now)) && CallReached(db, input, env)
    ensures InQueue(db, CallKey(input), id) && id !in env.locked
  {
  }

  /** The action row and the routing row of a successful call. */
  function CallBookkeeping(db: Db, input: CallInput, env: CallEnv, id: string): Db
    requires id in db.tickets
  {
    var window := NormalizeWindow(env.policy.windowSize);
    SetRouting(Record(db, input.requestId, "call_next", Some(id)), CallKey(input),
               UpdateRoutingState(ResetWindow(RoutingOf(db, CallKey(input)), window), db.tickets[id].priorityClass,
                                  db.tickets[id].appointmentId.Some?, window))
  }

  function CallEffect(cfg: Config, db: Db, input: CallInput, env: CallEnv, id: string, now: Time): Db
    requires id in db.tickets
  {
    Touch(cfg.codec, CallBookkeeping(db, input, env, id), id, Call(input.counterId, OrNow(input.calledAt, now)),
          input.requestId, now)
  }

  function EmptyCall(db: Db, input: CallInput): Db {
    Record(SetRouting(db, CallKey(input), RoutingOf(db, CallKey(input))), input.requestId, "call_next", None)
  }

  /** A call changes nothing, records an empty result, or is recorded and touches its pick. */
  lemma CallShape(cfg: Config, db: Db, input: CallInput, env: CallEnv, pick: Option<string>, now: Time)
    requires Enabled(cfg, db, CallNext(input, env, pick, now))
    ensures var result := ExecCallNext(cfg, db, input, env, pick, now);
      if !CallReached(db, input, env) then result.0 == db && !(result.1.Answered? && result.1.first)
      else match pick
        case None => result == (EmptyCall(db, input), Failed(NoTicket))
        case Some(id) =>
          && InQueue(db, CallKey(input), id) && id !in env.locked
          && result == (CallEffect(cfg, db, input, env, id, now), Answered(id, true))
  {
    if CallReached(db, input, env) && pick.Some? {
      PickIsQueued(cfg, db, input, env, pick.value, now);
    }
  }

  lemma CallEffectKeepsInv(cfg: Config, db: Db, input: CallInput, env: CallEnv, id: string, now: Time)
    requires CodecOk(cfg.codec) && Inv(cfg.codec, db) && InQueue(db, CallKey(input), id)
    ensures Inv(cfg.codec, CallEffect(cfg, db, input, env, id, now))
  {
    RecordKeepsActions(cfg.codec, db, input.requestId, "call_next", Some(id));
    BookkeepingKeepsInv(cfg.codec, db, CallBookkeeping(db, input, env, id));
    TouchKeepsInv(cfg.codec, CallBookkeeping(db, input, env, id), id, Call(input.counterId, OrNow(input.calledAt, now)),
                  input.requestId, now);
  }

  lemma CallNextKeepsInv(cfg: Config, db: Db, input: CallInput, env: CallEnv, pick: Option<string>, now: Time)
    requires CodecOk(cfg.codec) && Inv(cfg.codec, db)
    requires Enabled(cfg, db, CallNext(input, env, pick, now))
    ensures Inv(cfg.codec, ExecCallNext(cfg, db, input, env, pick, now).0)
  {
    CallShape(cfg, db, input, env, pick, now);
    if CallReached(db, input, env) {
      if pick.None? {
        RecordKeepsActions(cfg.codec, db, input.requestId, "call_next", None);
        BookkeepingKeepsInv(cfg.codec, db, EmptyCall(db, input));
      } else {
        CallEffectKeepsInv(cfg, db, input, env, pick.value, now);
      }
    }
  }

  /** An action either changes nothing or is recorded and then touches the addressed ticket. */
  lemma ActShape(cfg: Config, db: Db, input: ActInput, m: Move, targetExists: bool, now: Time)
    ensures var db' := ExecAct(cfg, db, input, m, targetExists, now).0;
      || db' == db
      || (&& Addressed(db, input) && Guard(db.tickets[input.ticketId], Stamped(m, now))
          && db' == Touch(cfg.codec, Record(db, input.requestId, ActionName(m), Some(input.ticketId)), input.ticketId,
                          Stamped(m, now), input.requestId, now))
  {
  }

  lemma RecordedTouchKeepsInv(codec: Codec, db: Db, id: string, m: Move, requestId: string, action: string, now: Time)
    requires CodecOk(codec) && Inv(codec, db)
    requires id in db.tickets && Guard(db.tickets[id], m)
    ensures Inv(codec, Touch(codec, Record(db, requestId, action, Some(id)), id, m, requestId, now))
  {
    var mid := Record(db, requestId, action, Some(id));
    RecordKeepsActions(codec, db, requestId, action, Some(id));
    BookkeepingKeepsInv(codec, db, mid);
    TouchKeepsInv(codec, mid, id, m, requestId, now);
  }

  lemma ActKeepsInv(cfg: Config, db: Db, input: ActInput, m: Move, targetExists: bool, now: Time)
    requires CodecOk(cfg.codec) && Inv(cfg.codec, db)
    ensures Inv(cfg.codec, ExecAct(cfg, db, input, m, targetExists, now).0)
  {
    ActShape(cfg, db, input, m, targetExists, now);
    if ExecAct(cfg, db, input, m, targetExists, now).0 != db {
      RecordedTouchKeepsInv(cfg.codec, db, input.ticketId, Stamped(m, now), input.requestId, ActionName(m), now);
    }
  }

  /** The sweep leaves tickets outside its batch alone. */
  lemma {:induction false} SweepLeavesOthers(cfg: Config, db: Db, input: SweepInput, batch: seq<string>, now: Time,
                                             id: string)
    requires id !in batch
    ensures var db' := SweepBatch(cfg, db, input, batch, now).0;
      && (id in db'.tickets <==> id in db.tickets)
      && (id in db.tickets ==> db'.tickets[id] == db.tickets[id])
      && LogOf(db', id) == LogOf(db, id)
    decreases |batch|
  {
    if batch != [] {
      assert batch[|batch| - 1] in batch;
      SweepLeavesOthers(cfg, db, input, batch[..|batch| - 1], now, id);
    }
  }

  lemma SweepTicketKeepsInv(cfg: Config, db: Db, input: SweepInput, id: string, now: Time)
    requires CodecOk(cfg.codec) && Inv(cfg.codec, db)
    requires id in db.tickets && db.tickets[id].status == Called
    ensures Inv(cfg.codec, SweepTicket(cfg, db, input, id, now).0)
  {
    var due := NoShowDue(cfg, input, db.tickets[id], now);
    if due.Some? {
      TouchKeepsInv(cfg.codec, db, id, SweepNoShow(due.value), "", now);
    }
  }

  lemma {:induction false} SweepKeepsInv(cfg: Config, db: Db, input: SweepInput, batch: seq<string>, now: Time)
    requires CodecOk(cfg.codec) && Inv(cfg.codec, db)
    requires forall i :: 0 <= i < |batch| ==> batch[i] in db.tickets && db.tickets[batch[i]].status == Called
    requires forall i, j :: 0 <= i < j < |batch| ==> batch[i] != batch[j]
    ensures Inv(cfg.codec, SweepBatch(cfg, db, input, batch, now).0)
    decreases |batch|
  {
    if batch != [] {
      var n := |batch| - 1;
      var before := SweepBatch(cfg, db, input, batch[..n], now).0;
      SweepKeepsInv(cfg, db, input, batch[..n], now);
      SweepLeavesOthers(cfg, db, input, batch[..n], now, batch[n]);
      SweepTicketKeepsInv(cfg, before, input, batch[n], now);
    }
  }

  /** Every transaction, whatever the outside contributes to it, keeps the invariant. */
  lemma StepKeepsInv(cfg: Config, db: Db, cmd: Command)
    requires CodecOk(cfg.codec) && Inv(cfg.codec, db) && Enabled(cfg, db, cmd)
    ensures Inv(cfg.codec, Exec(cfg, db, cmd).0)
  {
    match cmd
    case Create(input, code, newId, now) =>
      if input.requestId !in db.requestIndex && code.Some? {
        var row := NewRow(db, newId, input.requestId, code.value, input.tenantId, input.branchId, input.serviceId,
                          input.priorityClass, OrNow(input.createdAt, now), None);
        IssueKeepsInv(cfg.codec, db, row, code.value, now);
      }
    case CheckIn(input, holiday, code, newId, now) =>
      if input.requestId !in db.requestIndex && code.Some? && CanCheckIn(db, input) && !holiday {
        var row := NewRow(db, newId, input.requestId, code.value, input.tenantId, input.branchId,
                          db.appointments[input.appointmentId].serviceId, REGULAR, now, Some(input.appointmentId));
        IssueKeepsInv(cfg.codec, db, row, code.value, now);
      }
    case CallNext(input, env, pick, now) => CallNextKeepsInv(cfg, db, input, env, pick, now);
    case Act(input, m, targetExists, now) => ActKeepsInv(cfg, db, input, m, targetExists, now);
    case AutoNoShow(input, batch, now) =>
      if input.grace > 0 {
        SweepKeepsInv(cfg, db, input, batch, now);
      }
    case Book(id, appointment) => BookKeepsInv(cfg.codec, db, id, appointment);
  }

  lemma {:induction false} RunKeepsInv(cfg: Config, db: Db, cmds: seq<Command>, n: nat)
    requires CodecOk(cfg.codec) && Inv(cfg.codec, db) && RunEnabled(cfg, db, cmds) && n <= |cmds|
    ensures Inv(cfg.codec, StateAfter(cfg, db, cmds, n))
  {
    if n > 0 {
      RunKeepsInv(cfg, db, cmds, n - 1);
      assert EnabledAt(cfg, db, cmds, n - 1);
      StepKeepsInv(cfg, StateAfter(cfg, db, cmds, n - 1), cmds[n - 1]);
    }
  }
}
