/** Ticket rows, the moves that the store's guarded updates make on them, and the events they log. */
module Tickets {
  import opened Basics
  import opened Transitions
  import opened EventLog

  /** One row of `tickets`. */
  datatype TicketRow = TicketRow(
    ticketId: string,
    requestId: string,
    ticketNumber: string,
    tenantId: string,
    branchId: string,
    serviceId: string,
    status: Status,
    priorityClass: string,
    createdAt: Time,
    calledAt: Option<Time>,
    servedAt: Option<Time>,
    completedAt: Option<Time>,
    counterId: Option<string>,
    returned: bool,
    appointmentId: Option<string>)

  /** One guarded update of a ticket row; the automatic no-show differs from the manual one in its payload. */
  datatype Move =
    | Call(counter: string, at: Time)
    | Start(counter: string, at: Time)
    | Complete(at: Time)
    | Cancel
    | Hold
    | Unhold
    | Recall
    | Transfer(to: string, reason: string)
    | MarkNoShow(returned: bool)
    | SweepNoShow(returned: bool)

  /** The action name under which a move is looked up, recorded and checked. */
  function ActionName(m: Move): string {
    match m
    case Call(_, _) => "call_next"
    case Start(_, _) => "start_serving"
    case Complete(_) => "complete"
    case Cancel => "cancel"
    case Hold => "hold"
    case Unhold => "unhold"
    case Recall => "recall"
    case Transfer(_, _) => "transfer"
    case MarkNoShow(_) => "no_show"
    case SweepNoShow(_) => "no_show"
  }

  /** The WHERE clause of the update; a transfer target is a UUID column, hence never empty. */
  predicate Guard(row: TicketRow, m: Move) {
    match m
    case Call(_, _) => row.status == Waiting
    case Start(counter, _) => row.status == Called && row.counterId == Some(counter)
    case Complete(_) => row.status == Serving
    case Cancel => row.status == Waiting
    case Hold => row.status == Waiting
    case Unhold => row.status == Held
    case Recall => row.status == Called
    case Transfer(to, _) => to != "" && (row.status == Waiting || row.status == Called || row.status == Serving)
    case MarkNoShow(_) => row.status == Called
    case SweepNoShow(_) => row.status == Called
  }

  /** The SET clause of the update. */
  function After(row: TicketRow, m: Move): TicketRow {
    match m
    case Call(counter, at) => row.(status := Called, counterId := Some(counter), calledAt := Some(at))
    case Start(_, at) => row.(status := Serving, servedAt := Some(at))
    case Complete(at) => row.(status := Done, completedAt := Some(at))
    case Cancel => row.(status := Cancelled)
    case Hold => row.(status := Held)
    case Unhold => row.(status := Waiting)
    case Recall => row
    case Transfer(to, _) => row.(status := Waiting, serviceId := to, counterId := None)
    case MarkNoShow(returned) => NoShowRow(row, returned)
    case SweepNoShow(returned) => NoShowRow(row, returned)
  }

  function NoShowRow(row: TicketRow, returned: bool): TicketRow {
    if returned
    then row.(status := Waiting, counterId := None, calledAt := None, returned := true)
    else row.(status := NoShow)
  }

  /** The JSON object stored with an event; absent strings are empty, absent optional fields None. */
  datatype Payload = Payload(
    ticketId: string,
    ticketNumber: string,
    status: Option<Status>,
    tenantId: string,
    branchId: string,
    serviceId: string,
    requestId: string,
    fromServiceId: string,
    toServiceId: string,
    createdAt: Option<Time>,
    calledAt: Option<Time>,
    servedAt: Option<Time>,
    completedAt: Option<Time>,
    counterId: Option<string>,
    returned: Option<bool>,
    reason: string)

  /** The fields that every payload carries. */
  function BasePayload(row: TicketRow, requestId: string): Payload {
    Payload(row.ticketId, row.ticketNumber, Some(row.status), row.tenantId, row.branchId, row.serviceId, requestId,
            "", "", None, None, None, None, None, None, "")
  }

  function CreatedPayload(row: TicketRow): Payload {
    BasePayload(row, row.requestId).(createdAt := Some(row.createdAt))
  }

  /** The fields that a call adds. */
  function CalledPayload(row: TicketRow, requestId: string): Payload {
    BasePayload(row, requestId).(calledAt := row.calledAt, counterId := row.counterId)
  }

  /** The fields of all other status updates and of a recall. */
  function GenericPayload(row: TicketRow, requestId: string): Payload {
    BasePayload(row, requestId).(calledAt := row.calledAt, servedAt := row.servedAt, completedAt := row.completedAt,
                                 counterId := row.counterId)
  }

  function TransferPayload(row: TicketRow, requestId: string, fromService: string, toService: string,
                           reason: string): Payload {
    BasePayload(row, requestId).(fromServiceId := fromService, toServiceId := toService, reason := reason)
  }

  function NoShowPayload(row: TicketRow, requestId: string, calledAt: Option<Time>, counterId: Option<string>,
                         returned: bool): Payload {
    BasePayload(row, requestId).(calledAt := calledAt, counterId := counterId, returned := Some(returned))
  }

  /** What a move writes to the outbox and to the ticket's own log; the sweep reports the row as it found it. */
  function MovePayload(row: TicketRow, m: Move, requestId: string): Payload {
    var row' := After(row, m);
    match m
    case Call(_, _) => CalledPayload(row', requestId)
    case Transfer(to, reason) => TransferPayload(row', requestId, row.serviceId, to, reason)
    case MarkNoShow(returned) => NoShowPayload(row', requestId, row'.calledAt, row'.counterId, returned)
    case SweepNoShow(returned) => NoShowPayload(row', requestId, row.calledAt, row.counterId, returned)
    case _ => GenericPayload(row', requestId)
  }

  const CREATED := "ticket.created"
  const CALLED := "ticket.called"
  const TRANSFERRED := "ticket.transferred"
  const NO_SHOW := "ticket.no_show"

  function MoveKind(m: Move): string {
    match m
    case Call(_, _) => CALLED
    case Start(_, _) => "ticket.serving"
    case Complete(_) => "ticket.done"
    case Cancel => "ticket.cancelled"
    case Hold => "ticket.held"
    case Unhold => "ticket.unheld"
    case Recall => "ticket.recalled"
    case Transfer(_, _) => TRANSFERRED
    case MarkNoShow(_) => NO_SHOW
    case SweepNoShow(_) => NO_SHOW
  }

  /** What the stored bytes decode to. */
  datatype Body = NoBytes | Garbage | Json(payload: Payload)

  /** One row of a ticket's log together with the decoded payload. */
  datatype TicketEvent = TicketEvent(entry: Entry, body: Body)

  function Entries(log: seq<TicketEvent>): seq<Entry> {
    seq(|log|, i requires 0 <= i < |log| => log[i].entry)
  }

  // ---------------------------------------------------------------- lifecycle

  /** The guards written in the SQL are the transition table, in both directions. */
  lemma GuardIsTheTable(row: TicketRow, m: Move)
    ensures Guard(row, m) <==>
      && ValidTransition(ActionName(m), row.status)
      && (m.Start? ==> row.counterId == Some(m.counter))
      && (m.Transfer? ==> m.to != "")
  {
    var allowed := TRANSITION_MAP[ActionName(m)];
    assert allowed[0] in allowed;
  }

  /** No action leaves a final status, whoever asks. */
  lemma FinalIsFinal(row: TicketRow, m: Move)
    requires Final(row.status)
    ensures !Guard(row, m) && !ValidTransition(ActionName(m), row.status)
  {
    GuardIsTheTable(row, m);
  }

  // ------------------------------------------------------------------- replay

  /** The ticket a replay of the log arrives at; `status` is None while it is still the empty string. */
  datatype Replayed = Replayed(
    ticketId: string,
    ticketNumber: string,
    tenantId: string,
    branchId: string,
    serviceId: string,
    status: Option<Status>,
    createdAt: Time,
    calledAt: Option<Time>,
    servedAt: Option<Time>,
    completedAt: Option<Time>,
    counterId: Option<string>)

  const BLANK := Replayed("", "", "", "", "", None, ZERO_TIME, None, None, None, None)

  function OrKeep(text: string, kept: string): string {
    if text != "" then text else kept
  }

  function OrElse<T>(field: Option<T>, kept: Option<T>): Option<T> {
    if field.Some? then field else kept
  }

  function Absorb(v: Replayed, p: Payload): Replayed {
    Replayed(
      OrKeep(p.ticketId, v.ticketId),
      OrKeep(p.ticketNumber, v.ticketNumber),
      OrKeep(p.tenantId, v.tenantId),
      OrKeep(p.branchId, v.branchId),
      OrKeep(p.toServiceId, OrKeep(p.serviceId, v.serviceId)),
      OrElse(p.status, v.status),
      if p.createdAt.Some? then p.createdAt.value else v.createdAt,
      OrElse(p.calledAt, v.calledAt),
      OrElse(p.servedAt, v.servedAt),
      OrElse(p.completedAt, v.completedAt),
      OrElse(p.counterId, v.counterId))
  }

  /** The replay of a log; None when some payload does not decode. */
  function Replay(log: seq<TicketEvent>): Option<Replayed> {
    if log == [] then Some(BLANK) else
    var before := Replay(log[..|log| - 1]);
    match log[|log| - 1].body
    case NoBytes => before
    case Garbage => None
    case Json(p) => if before.None? then None else Some(Absorb(before.value, p))
  }

  lemma {:induction false} ReplayStopsAtGarbage(log: seq<TicketEvent>, n: nat)
    requires n < |log| && log[n].body.Garbage?
    ensures Replay(log) == None
    decreases |log|
  {
    if n < |log| - 1 {
      ReplayStopsAtGarbage(log[..|log| - 1], n);
    }
  }

  /** One turn of the loop: every field that the payload carries overwrites the ticket's. */
  method Overwrite(ticket: Replayed, p: Payload) returns (result: Replayed)
    ensures result == Absorb(ticket, p)
  {
    var Replayed(ticketId, ticketNumber, tenantId, branchId, serviceId, status, createdAt, calledAt, servedAt,
                 completedAt, counterId) := ticket;
    if p.ticketId != "" { ticketId := p.ticketId; }
    if p.ticketNumber != "" { ticketNumber := p.ticketNumber; }
    if p.tenantId != "" { tenantId := p.tenantId; }
    if p.branchId != "" { branchId := p.branchId; }
    assert ticketId == OrKeep(p.ticketId, ticket.ticketId) &&
        ticketNumber == OrKeep(p.ticketNumber, ticket.ticketNumber);
    assert tenantId == OrKeep(p.tenantId, ticket.tenantId) && branchId == OrKeep(p.branchId, ticket.branchId);
    if p.serviceId != "" { serviceId := p.serviceId; }
    if p.toServiceId != "" { serviceId := p.toServiceId; }
    if p.status.Some? { status := p.status; }
    if p.createdAt.Some? { createdAt := p.createdAt.value; }
    assert serviceId == OrKeep(p.toServiceId, OrKeep(p.serviceId, ticket.serviceId)) &&
        status == OrElse(p.status, ticket.status);
    if p.calledAt.Some? { calledAt := p.calledAt; }
    if p.servedAt.Some? { servedAt := p.servedAt; }
    if p.completedAt.Some? { completedAt := p.completedAt; }
    if p.counterId.Some? { counterId := p.counterId; }
    assert calledAt == OrElse(p.calledAt, ticket.calledAt) && servedAt == OrElse(p.servedAt, ticket.servedAt);
    assert completedAt == OrElse(p.completedAt, ticket.completedAt) &&
        counterId == OrElse(p.counterId, ticket.counterId);
    result := Replayed(ticketId, ticketNumber, tenantId, branchId, serviceId, status, createdAt, calledAt, servedAt,
                       completedAt, counterId);
  }

  /** The loop over the events that overwrites the fields of a local ticket. */
  method RehydrateTicket(events: seq<TicketEvent>) returns (result: Option<Replayed>)
    ensures result == Replay(events)
  {
    var ticket := BLANK;
    for i := 0 to |events|
      invariant Replay(events[..i]) == Some(ticket)
    {
      assert events[..i + 1][..i] == events[..i];
      match events[i].body
      case NoBytes =>
      case Garbage =>
        ReplayStopsAtGarbage(events, i);
        return None;
      case Json(p) =>
        ticket := Overwrite(ticket, p);
    }
    assert events[..|events|] == events;
    result := Some(ticket);
  }

  // --------------------------------------------------- what the log remembers

  predicate IsCall(e: TicketEvent) {
    e.entry.kind == CALLED
  }

  /** The two kinds of event that put a called ticket back into the queue. */
  predicate IsRequeue(e: TicketEvent) {
    || e.entry.kind == TRANSFERRED
    || (e.entry.kind == NO_SHOW && e.body.Json? && e.body.payload.returned == Some(true))
  }

  predicate EverCalled(log: seq<TicketEvent>) {
    exists i :: 0 <= i < |log| && IsCall(log[i])
  }

  /** The latest call has not been undone by a requeue. */
  predicate CallStands(log: seq<TicketEvent>) {
    log != [] &&
    var e := log[|log| - 1];
    if IsCall(e) then true else !IsRequeue(e) && CallStands(log[..|log| - 1])
  }

  /** Between two calls of the ticket it was requeued. */
  ghost predicate CallsAlternate(log: seq<TicketEvent>) {
    forall i, j :: 0 <= i < j < |log| && IsCall(log[i]) && IsCall(log[j]) ==>
      exists k :: i < k < j && IsRequeue(log[k])
  }

  lemma {:induction false} UndoneCallsWereRequeued(log: seq<TicketEvent>, i: nat)
    requires !CallStands(log) && i < |log| && IsCall(log[i])
    ensures exists k :: i < k < |log| && IsRequeue(log[k])
    decreases |log|
  {
    var n := |log| - 1;
    if !IsRequeue(log[n]) {
      assert i < n;
      UndoneCallsWereRequeued(log[..n], i);
      var k :| i < k < n && IsRequeue(log[..n][k]);
      assert IsRequeue(log[k]);
    }
  }

  lemma AlternationExtends(log: seq<TicketEvent>, e: TicketEvent)
    requires CallsAlternate(log)
    requires IsCall(e) ==> !CallStands(log)
    ensures CallsAlternate(log + [e])
  {
    var log' := log + [e];
    forall i, j | 0 <= i < j < |log'| && IsCall(log'[i]) && IsCall(log'[j])
      ensures exists k :: i < k < j && IsRequeue(log'[k])
    {
      var k: int;
      if j < |log| {
        k :| i < k < j && IsRequeue(log[k]);
      } else {
        UndoneCallsWereRequeued(log, i);
        k :| i < k < |log| && IsRequeue(log[k]);
      }
      assert IsRequeue(log'[k]);
    }
  }

  // ------------------------------------------------------- the row invariant

  /** Columns that are set exactly in certain statuses. */
  predicate RowShape(row: TicketRow) {
    && (row.counterId.Some? <==> AtCounter(row.status))
    && (row.completedAt.Some? <==> row.status == Done)
    && (AtCounter(row.status) ==> row.calledAt.Some?)
    && (row.status == Serving || row.status == Done ==> row.servedAt.Some?)
  }

  /** Stamps of a served ticket are in order, whatever older stamps a transfer left behind. */
  predicate StampsOrdered(row: TicketRow) {
    && (row.calledAt.Some? ==> row.createdAt <= row.calledAt.value)
    && (row.status == Serving || row.status == Done ==>
          row.calledAt.Some? && row.servedAt.Some? && row.createdAt <= row.calledAt.value <= row.servedAt.value)
    && (row.status == Done ==> row.completedAt.Some? && row.servedAt.value <= row.completedAt.value)
  }

  /** The move is not stamped before the stamp it follows. */
  predicate Timely(row: TicketRow, m: Move) {
    match m
    case Call(_, at) => row.createdAt <= at
    case Start(_, at) => row.calledAt.Some? ==> row.calledAt.value <= at
    case Complete(at) => row.servedAt.Some? ==> row.servedAt.value <= at
    case _ => true
  }

  lemma MoveKeepsShape(row: TicketRow, m: Move)
    requires RowShape(row) && Guard(row, m)
    ensures RowShape(After(row, m))
  {
  }

  /** The order of the stamps survives a move exactly when the move is timely. */
  lemma MoveKeepsOrder(row: TicketRow, m: Move)
    requires RowShape(row) && StampsOrdered(row) && Guard(row, m)
    ensures StampsOrdered(After(row, m)) <==> Timely(row, m)
  {
  }

  /** The log of a ticket tells the same story as its row. */
  ghost predicate Faithful(row: TicketRow, log: seq<TicketEvent>) {
    && Replay(log).Some?
    && var v := Replay(log).value;
    && v.ticketId == row.ticketId && v.ticketNumber == row.ticketNumber
    && v.tenantId == row.tenantId && v.branchId == row.branchId && v.serviceId == row.serviceId
    && v.status == Some(row.status) && v.createdAt == row.createdAt
    && v.servedAt == row.servedAt && v.completedAt == row.completedAt
    && (row.counterId.Some? ==> v.counterId == row.counterId)
    && (row.calledAt.Some? ==> v.calledAt == row.calledAt)
    && (v.counterId.Some? <==> EverCalled(log))
    && (v.calledAt.Some? <==> EverCalled(log))
    && (CallStands(log) <==> AtCounter(row.status))
    && CallsAlternate(log)
  }

  /** Everything the store keeps true of one ticket. */
  ghost predicate TicketOk(row: TicketRow, log: seq<TicketEvent>) {
    RowShape(row) && Faithful(row, log)
  }

  lemma EverCalledExtends(log: seq<TicketEvent>, e: TicketEvent)
    ensures EverCalled(log + [e]) <==> EverCalled(log) || IsCall(e)
  {
    var log' := log + [e];
    if EverCalled(log) {
      var i :| 0 <= i < |log| && IsCall(log[i]);
      assert IsCall(log'[i]);
    }
    if IsCall(e) {
      assert IsCall(log'[|log|]);
    }
  }

  lemma CreationReplays(row: TicketRow, e: TicketEvent)
    requires e.body == Json(CreatedPayload(row))
    ensures Replay([e]) == Some(Absorb(BLANK, CreatedPayload(row)))
  {
    assert [e][..0] == [];
  }

  lemma CreationCallsNobody(e: TicketEvent)
    requires e.entry.kind == CREATED
    ensures !EverCalled([e]) && !CallStands([e]) && CallsAlternate([e])
  {
    assert [e][..0] == [];
    assert CREATED != CALLED;
  }

  lemma CreationIsFaithful(row: TicketRow, e: TicketEvent)
    requires row.status == Waiting && row.calledAt.None? && row.servedAt.None? && row.completedAt.None? &&
        row.counterId.None?
    requires e.entry.kind == CREATED && e.body == Json(CreatedPayload(row))
    ensures TicketOk(row, [e])
  {
    CreationReplays(row, e);
    CreationCallsNobody(e);
  }

  /** Every move extends the log so that it stays faithful to the moved row. */
  lemma MoveIsFaithful(row: TicketRow, log: seq<TicketEvent>, m: Move, requestId: string, e: TicketEvent)
    requires TicketOk(row, log) && Guard(row, m)
    requires e.entry.kind == MoveKind(m) && e.body == Json(MovePayload(row, m, requestId))
    ensures TicketOk(After(row, m), log + [e])
  {
    var log' := log + [e];
    MoveKeepsShape(row, m);
    assert log'[..|log|] == log && log'[|log|] == e;
    EverCalledExtends(log, e);
    if IsCall(e) {
      assert m.Call?;
    }
    AlternationExtends(log, e);
    assert Replay(log') == Some(Absorb(Replay(log).value, MovePayload(row, m, requestId)));
  }

  /**
   * Replay equality field by field.  The counter and the time of the call are the row's exactly
   * when the row still has them or the ticket was never called.
   */
  lemma ReplayMatchesRow(row: TicketRow, log: seq<TicketEvent>)
    requires TicketOk(row, log)
    ensures Replay(log).Some?
    ensures var v := Replay(log).value;
      && v.ticketId == row.ticketId && v.ticketNumber == row.ticketNumber
      && v.tenantId == row.tenantId && v.branchId == row.branchId && v.serviceId == row.serviceId
      && v.status == Some(row.status) && v.createdAt == row.createdAt
      && v.servedAt == row.servedAt && v.completedAt == row.completedAt
      && (v.counterId == row.counterId <==> AtCounter(row.status) || !EverCalled(log))
      && (v.calledAt == row.calledAt <==> row.calledAt.Some? || !EverCalled(log))
      && (AtCounter(row.status) ==> v.counterId == row.counterId && v.calledAt == row.calledAt)
  {
  }
}
